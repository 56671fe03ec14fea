/** Chunked delivery of snapshots to one client. Other goroutines drain the client's buffer
    meanwhile, so whether the k-th send finds room is decided by the environment. */
module Snapshots {
  import opened Wrappers
  import opened Records
  import opened Selections

  const CHUNK_SIZE := 500

  /** One layer.snapshot message; total and cursor only on the first chunk of a page. */
  datatype Chunk = Chunk(
    entities: seq<Entity>, observations: seq<Observation>, total: Option<nat>, cursor: Option<string>)

  /** What goes out with the first chunk of a paginated snapshot. */
  datatype Page = Page(total: nat, cursor: Option<string>)

  type Lookup = map<string, Observation>

  /** The last observation for an entity ID; nil observations are skipped. */
  function Last(observations: seq<Option<Observation>>, id: string): Option<Observation> {
    if observations == [] then None
    else
      var o := observations[|observations| - 1];
      if o.Some? && o.value.entityId == id then o else Last(observations[..|observations| - 1], id)
  }

  method BuildLookup(observations: seq<Option<Observation>>) returns (lookup: Lookup)
    ensures forall id :: (if id in lookup then Some(lookup[id]) else None) == Last(observations, id)
  {
    lookup := map[];
    for i := 0 to |observations|
      invariant forall id :: (if id in lookup then Some(lookup[id]) else None) == Last(observations[..i], id)
    {
      assert observations[..i + 1][..i] == observations[..i];
      var o := observations[i];
      if o.Some? {
        lookup := lookup[o.value.entityId := o.value];
      }
    }
    assert observations[..|observations|] == observations;
  }

  /** The observations that accompany some entities: for each the last one with its ID, if any. */
  function Accompanying(entities: seq<Entity>, observations: seq<Option<Observation>>): seq<Observation> {
    if entities == [] then []
    else
      var o := Last(observations, entities[|entities| - 1].id);
      Accompanying(entities[..|entities| - 1], observations) + if o.Some? then [o.value] else []
  }

  /** The last observation that carries an entity's ID, nil ones not counting, is the `i`-th. */
  ghost predicate LastAt(observations: seq<Option<Observation>>, i: nat, id: string) {
    && i < |observations| && observations[i].Some? && observations[i].value.entityId == id
    && forall j :: i < j < |observations| && observations[j].Some? ==> observations[j].value.entityId != id
  }

  ghost predicate IsLast(observations: seq<Option<Observation>>, o: Observation, id: string) {
    exists i: nat :: LastAt(observations, i, id) && observations[i].value == o
  }

  ghost predicate Observed(observations: seq<Option<Observation>>, id: string) {
    exists i: nat :: i < |observations| && observations[i].Some? && observations[i].value.entityId == id
  }

  /** Some entities are sent with exactly the last observations of those among them, at the
      positions `picked`, that have one, in their order. */
  ghost predicate SentWith(entities: seq<Entity>, sent: seq<Observation>, observations: seq<Option<Observation>>,
                           picked: seq<nat>)
  {
    && Ascending(picked, |entities|) && |sent| == |picked|
    && (forall j :: 0 <= j < |picked| ==> IsLast(observations, sent[j], entities[picked[j]].id))
    && forall p: nat :: p < |entities| ==>
         (p in picked <==> Observed(observations, entities[p].id))
  }

  lemma LastIs(observations: seq<Option<Observation>>, id: string) returns (i: nat)
    ensures Last(observations, id).Some? ==> LastAt(observations, i, id) && observations[i] == Last(observations, id)
    ensures Last(observations, id).Some? <==> Observed(observations, id)
  {
    LastMeaning(observations, id);
    i := 0;
    if Last(observations, id).Some? {
      i :| 0 <= i < |observations| && observations[i] == Last(observations, id)
           && observations[i].value.entityId == id
           && forall j :: i < j < |observations| && observations[j].Some? ==> observations[j].value.entityId != id;
    }
    hide Last;
  }

  lemma LastAtIs(observations: seq<Option<Observation>>, o: Observation, id: string)
    requires IsLast(observations, o, id)
    ensures Last(observations, id) == Some(o)
  {
    var i: nat :| LastAt(observations, i, id) && observations[i].value == o;
    var n := LastIs(observations, id);
    hide Last;
  }

  /** What accompanies some entities, position by position. */
  lemma {:induction false} AccompanyingMeaning(entities: seq<Entity>, observations: seq<Option<Observation>>)
    returns (picked: seq<nat>)
    ensures SentWith(entities, Accompanying(entities, observations), observations, picked)
  {
    picked := [];
    if entities != [] {
      var n := |entities| - 1;
      picked := AccompanyingMeaning(entities[..n], observations);
      PickMore(picked, n);
      var i := LastIs(observations, entities[n].id);
      assert Last(observations, entities[n].id).Some? ==>
        IsLast(observations, Last(observations, entities[n].id).value, entities[n].id);
      hide Last, LastAt, IsLast, Observed;
      var sent := Accompanying(entities[..n], observations);
      forall j | 0 <= j < |picked| ensures IsLast(observations, sent[j], entities[picked[j]].id) {
        assert IsLast(observations, sent[j], entities[..n][picked[j]].id);
      }
      forall p: nat | p < n ensures entities[..n][p] == entities[p] { }
      if Last(observations, entities[n].id).Some? { picked := picked + [n]; }
    }
  }

  /** When every entity has an observation, theirs go out position by position. */
  lemma EachWithItsOwn(entities: seq<Entity>, sent: seq<Observation>, observations: seq<Option<Observation>>,
                       picked: seq<nat>)
    requires SentWith(entities, sent, observations, picked)
    requires forall p: nat :: p < |entities| ==> Observed(observations, entities[p].id)
    ensures |sent| == |entities|
    ensures forall p: nat :: p < |entities| ==> IsLast(observations, sent[p], entities[p].id)
  {
    forall p: nat | p < |entities| ensures p in picked {
      assert entities[p] == entities[p];
    }
    AllPicked(picked, |entities|);
    hide IsLast, Observed;
    forall p: nat | p < |entities| ensures IsLast(observations, sent[p], entities[p].id) {
      assert IsLast(observations, sent[p], entities[picked[p]].id);
    }
  }

  /** The `j`-th chunk holds the next up to 500 entities, and of each one that has an observation
      the last one, in the same order. */
  ghost predicate ChunkOf(chunks: seq<Chunk>, j: nat, entities: seq<Entity>, observations: seq<Option<Observation>>)
    requires j < |chunks|
  {
    && 500 * j < |entities|
    && chunks[j].entities == entities[500 * j..if |entities| > 500 * j + 500 then 500 * j + 500 else |entities|]
    && exists picked :: SentWith(chunks[j].entities, chunks[j].observations, observations, picked)
  }

  ghost predicate CutInto(chunks: seq<Chunk>, entities: seq<Entity>, observations: seq<Option<Observation>>) {
    forall j: nat :: j < |chunks| ==> ChunkOf(chunks, j, entities, observations)
  }

  function Min(a: nat, b: nat): nat { if a < b then a else b }

  /** Where the k-th chunk starts: `CHUNK_SIZE` entities a chunk. */
  function Start(k: nat): nat { 500 * k }

  /** The k-th chunk of a snapshot. */
  function ChunkAt(entities: seq<Entity>, observations: seq<Option<Observation>>, page: Option<Page>, k: nat): Chunk
    requires Start(k) < |entities|
  {
    var part := entities[Start(k)..Min(Start(k + 1), |entities|)];
    var first := page.Some? && k == 0;
    Chunk(part, Accompanying(part, observations),
          if first then Some(page.value.total) else None, if first then page.value.cursor else None)
  }

  function ChunkCount(n: nat): nat { (n + 499) / 500 }

  /** The first `k` chunks. */
  function Chunks(entities: seq<Entity>, observations: seq<Option<Observation>>, page: Option<Page>, k: nat): seq<Chunk>
    requires k <= ChunkCount(|entities|)
  {
    if k == 0 then []
    else Chunks(entities, observations, page, k - 1) + [ChunkAt(entities, observations, page, k - 1)]
  }

  lemma CountMeaning(n: nat, k: nat)
    ensures k < ChunkCount(n) <==> Start(k) < n
    ensures n <= Start(ChunkCount(n)) < n + CHUNK_SIZE
  {
  }

  method CollectObservations(entities: seq<Entity>, lookup: Lookup, ghost observations: seq<Option<Observation>>)
    returns (found: seq<Observation>)
    requires forall id :: (if id in lookup then Some(lookup[id]) else None) == Last(observations, id)
    ensures found == Accompanying(entities, observations)
  {
    found := [];
    for i := 0 to |entities|
      invariant found == Accompanying(entities[..i], observations)
    {
      assert entities[..i + 1][..i] == entities[..i];
      assert (if entities[i].id in lookup then Some(lookup[entities[i].id]) else None) == Last(observations, entities[i].id);
      if entities[i].id in lookup {
        found := found + [lookup[entities[i].id]];
      }
    }
    assert entities[..|entities|] == entities;
  }

  /** Both senders: plain snapshots without a page, paginated ones with. A full buffer counts
      one drop and ends the send. */
  method SendSnapshot(entities: seq<Entity>, observations: seq<Option<Observation>>, page: Option<Page>, ready: nat -> bool)
    returns (sent: seq<Chunk>, dropped: nat)
    ensures |sent| <= ChunkCount(|entities|)
    ensures sent == Chunks(entities, observations, page, |sent|)
    ensures CutInto(sent, entities, observations)
    ensures forall k :: 0 <= k < |sent| ==> ready(k)
    ensures |sent| < ChunkCount(|entities|) ==> !ready(|sent|) && dropped == 1
    ensures |sent| == ChunkCount(|entities|) ==> dropped == 0
  {
    var lookup := BuildLookup(observations);
    sent, dropped := [], 0;
    var i := 0;
    while i < |entities|
      invariant i == Start(|sent|)
      invariant |sent| <= ChunkCount(|entities|)
      invariant sent == Chunks(entities, observations, page, |sent|)
      invariant forall k :: 0 <= k < |sent| ==> ready(k)
      decreases |entities| - i
    {
      CountMeaning(|entities|, |sent|);
      hide ChunkCount, Chunks;
      var chunk := MakeChunk(entities, observations, lookup, page, i, |sent|);
      if !ready(|sent|) {
        dropped := 1;
        ChunksMean(entities, observations, page, |sent|);
        return;
      }
      NextChunk(entities, observations, page, |sent|);
      sent := sent + [chunk];
      i := i + CHUNK_SIZE;
    }
    CountMeaning(|entities|, |sent|);
    ChunksMean(entities, observations, page, |sent|);
    hide ChunkCount, Chunks;
  }

  lemma NextChunk(entities: seq<Entity>, observations: seq<Option<Observation>>, page: Option<Page>, k: nat)
    requires k < ChunkCount(|entities|)
    ensures Chunks(entities, observations, page, k + 1)
         == Chunks(entities, observations, page, k) + [ChunkAt(entities, observations, page, k)]
  {
  }

  /** One message: the entities from `i` on, at most 500, with their observations. */
  method MakeChunk(entities: seq<Entity>, ghost observations: seq<Option<Observation>>, lookup: Lookup,
                   page: Option<Page>, i: nat, ghost k: nat)
    returns (chunk: Chunk)
    requires i == Start(k) < |entities|
    requires forall id :: (if id in lookup then Some(lookup[id]) else None) == Last(observations, id)
    ensures chunk == ChunkAt(entities, observations, page, k)
  {
    var end := i + CHUNK_SIZE;
    if end > |entities| {
      end := |entities|;
    }
    var part := entities[i..end];
    var found := CollectObservations(part, lookup, observations);
    chunk := Chunk(part, found, None, None);
    if page.Some? && i == 0 {
      chunk := chunk.(total := Some(page.value.total), cursor := page.value.cursor);
    }
  }

  function Entities(chunks: seq<Chunk>): seq<Entity> {
    if chunks == [] then [] else Entities(chunks[..|chunks| - 1]) + chunks[|chunks| - 1].entities
  }

  function Observations(chunks: seq<Chunk>): seq<Observation> {
    if chunks == [] then [] else Observations(chunks[..|chunks| - 1]) + chunks[|chunks| - 1].observations
  }

  lemma {:induction false} AccompanyingConcat(a: seq<Entity>, b: seq<Entity>, observations: seq<Option<Observation>>)
    ensures Accompanying(a + b, observations) == Accompanying(a, observations) + Accompanying(b, observations)
  {
    if b == [] {
      assert a + b == a;
    } else {
      assert (a + b)[..|a + b| - 1] == a + b[..|b| - 1];
      AccompanyingConcat(a, b[..|b| - 1], observations);
    }
  }

  lemma ChunkEntities(entities: seq<Entity>, observations: seq<Option<Observation>>, page: Option<Page>, k: nat)
    requires Start(k) < |entities|
    ensures var part := ChunkAt(entities, observations, page, k).entities;
            && 1 <= |part| <= CHUNK_SIZE
            && ChunkAt(entities, observations, page, k).observations == Accompanying(part, observations)
            && entities[..Min(Start(k), |entities|)] + part == entities[..Min(Start(k + 1), |entities|)]
  {
  }

  /** The chunks cut the snapshot into consecutive pieces: together they hold a prefix of the
      entities, with their last observations in the same order, and all of them once every
      chunk is there. */
  lemma {:induction false} ChunksAreASplit(
      entities: seq<Entity>, observations: seq<Option<Observation>>, page: Option<Page>, k: nat)
    requires k <= ChunkCount(|entities|)
    ensures var chunks := Chunks(entities, observations, page, k);
            && |chunks| == k
            && Entities(chunks) == entities[..Min(Start(k), |entities|)]
            && Observations(chunks) == Accompanying(Entities(chunks), observations)
            && (k == ChunkCount(|entities|) ==> Entities(chunks) == entities)
  {
    hide ChunkCount, Accompanying, Chunks, ChunkAt, Entities, Observations;
    CountMeaning(|entities|, k);
    if k == 0 {
      NoChunks(entities, observations, page);
    } else {
      CountMeaning(|entities|, k - 1);
      ChunksAreASplit(entities, observations, page, k - 1);
      NextChunk(entities, observations, page, k - 1);
      ChunkEntities(entities, observations, page, k - 1);
      var chunk := ChunkAt(entities, observations, page, k - 1);
      var before := Chunks(entities, observations, page, k - 1);
      Append(before, chunk);
      AccompanyingConcat(Entities(before), chunk.entities, observations);
    }
  }

  lemma NoChunks(entities: seq<Entity>, observations: seq<Option<Observation>>, page: Option<Page>)
    ensures Chunks(entities, observations, page, 0) == []
    ensures Entities([]) == [] && Observations([]) == [] && Accompanying([], observations) == []
  {
  }

  lemma Append(chunks: seq<Chunk>, chunk: Chunk)
    ensures Entities(chunks + [chunk]) == Entities(chunks) + chunk.entities
    ensures Observations(chunks + [chunk]) == Observations(chunks) + chunk.observations
  {
    assert (chunks + [chunk])[..|chunks + [chunk]| - 1] == chunks;
  }

  /** What is in each chunk that goes out. */
  lemma ChunkMeaning(entities: seq<Entity>, observations: seq<Option<Observation>>, page: Option<Page>, k: nat, j: nat)
    requires j < k <= ChunkCount(|entities|)
    ensures |Chunks(entities, observations, page, k)| == k
    ensures ChunkOf(Chunks(entities, observations, page, k), j, entities, observations)
  {
    CountMeaning(|entities|, j);
    ChunkIs(entities, observations, page, k, j);
    var part := ChunkAt(entities, observations, page, j).entities;
    var picked := AccompanyingMeaning(part, observations);
    assert SentWith(part, ChunkAt(entities, observations, page, j).observations, observations, picked);
    hide SentWith, Accompanying, Chunks;
  }

  lemma ChunksMean(entities: seq<Entity>, observations: seq<Option<Observation>>, page: Option<Page>, k: nat)
    requires k <= ChunkCount(|entities|)
    ensures CutInto(Chunks(entities, observations, page, k), entities, observations)
  {
    ChunksLength(entities, observations, page, k);
    var chunks := Chunks(entities, observations, page, k);
    forall j: nat | j < k ensures ChunkOf(chunks, j, entities, observations) {
      ChunkMeaning(entities, observations, page, k, j);
    }
  }

  lemma {:induction false} ChunkIs(entities: seq<Entity>, observations: seq<Option<Observation>>, page: Option<Page>, k: nat, j: nat)
    requires j < k <= ChunkCount(|entities|) && Start(j) < |entities|
    ensures |Chunks(entities, observations, page, k)| == k
    ensures Chunks(entities, observations, page, k)[j] == ChunkAt(entities, observations, page, j)
  {
    hide ChunkAt, ChunkCount;
    ChunksLength(entities, observations, page, k - 1);
    if j < k - 1 {
      ChunkIs(entities, observations, page, k - 1, j);
    }
  }

  lemma {:induction false} ChunksLength(entities: seq<Entity>, observations: seq<Option<Observation>>, page: Option<Page>, k: nat)
    requires k <= ChunkCount(|entities|)
    ensures |Chunks(entities, observations, page, k)| == k
  {
    hide ChunkAt, ChunkCount;
    if k > 0 { ChunksLength(entities, observations, page, k - 1); }
  }

  /** Every chunk has 1 to 500 entities, and only the first one is marked as the page's. */
  lemma {:induction false} OnlyFirstIsMarked(
      entities: seq<Entity>, observations: seq<Option<Observation>>, page: Option<Page>, k: nat, j: nat)
    requires j < k <= ChunkCount(|entities|)
    ensures |Chunks(entities, observations, page, k)| == k
    ensures var chunk := Chunks(entities, observations, page, k)[j];
            && 1 <= |chunk.entities| <= CHUNK_SIZE
            && chunk.total == (if j == 0 && page.Some? then Some(page.value.total) else None)
            && chunk.cursor == (if j == 0 && page.Some? then page.value.cursor else None)
  {
    hide ChunkCount, Chunks, Accompanying, Entities, Observations;
    ChunksAreASplit(entities, observations, page, k - 1);
    CountMeaning(|entities|, k - 1);
    NextChunk(entities, observations, page, k - 1);
    if j < k - 1 {
      OnlyFirstIsMarked(entities, observations, page, k - 1, j);
    } else {
      ChunkEntities(entities, observations, page, j);
    }
  }

  /** An entity is accompanied by its last observation, if it has one, and by no other. */
  lemma {:induction false} LastMeaning(observations: seq<Option<Observation>>, id: string)
    ensures Last(observations, id).None? <==>
              forall i :: 0 <= i < |observations| && observations[i].Some? ==> observations[i].value.entityId != id
    ensures Last(observations, id).Some? ==>
              exists i :: 0 <= i < |observations| && observations[i] == Last(observations, id)
                          && observations[i].value.entityId == id
                          && forall j :: i < j < |observations| && observations[j].Some? ==>
                               observations[j].value.entityId != id
  {
    if observations != [] {
      var n := |observations| - 1;
      LastMeaning(observations[..n], id);
      var o := observations[n];
      if o.Some? && o.value.entityId == id {
        assert observations[n] == Last(observations, id);
      } else if Last(observations[..n], id).Some? {
        var i :| 0 <= i < n && observations[..n][i] == Last(observations[..n], id)
                 && observations[..n][i].value.entityId == id
                 && forall j :: i < j < n && observations[..n][j].Some? ==> observations[..n][j].value.entityId != id;
        assert observations[i] == Last(observations, id);
        forall j | i < j < |observations| && observations[j].Some?
          ensures observations[j].value.entityId != id
        {
          if j < n { assert observations[..n][j] == observations[j]; }
        }
      }
    }
  }
}
