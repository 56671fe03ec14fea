/** Cursor pagination of global-mode layers: the first page sent on subscribe and the pages
    a client asks for with the cursors it was given. `rows` is the layer as the durable store
    orders it; a page is the store's documented slice of it. The first page goes out in chunks,
    of which the first carries the cursor, and any send may find the client's buffer full. */
module Pagination {
  import opened Wrappers
  import opened Records
  import C = Cursor
  import opened Snapshots

  const DEFAULT_GLOBAL_LIMIT := 5000
  const MAX_GLOBAL_LIMIT := 10000
  const DEFAULT_PAGE_SIZE := 1000

  datatype Reply<T> = Reply(entities: seq<T>, total: nat, cursor: Option<string>)

  /** What the store returns: skip `offset` rows, then at most `limit`. A forged negative
      offset skips nothing. */
  function LatestPage<T>(rows: seq<T>, limit: nat, offset: int): seq<T> {
    var start := if offset < 0 then 0 else if offset > |rows| then |rows| else offset;
    var end := if start + limit > |rows| then |rows| else start + limit;
    rows[start..end]
  }

  /** The count falls back to the page length when the store cannot answer. */
  function LayerTotal(rows: nat, counted: bool, pageLength: nat): nat {
    if counted then rows else pageLength
  }

  function SubscribeLimit(requested: int): nat {
    if 0 < requested <= MAX_GLOBAL_LIMIT then requested else DEFAULT_GLOBAL_LIMIT
  }

  function PageLimit(requested: int): nat {
    if requested <= 0 || requested > MAX_GLOBAL_LIMIT then DEFAULT_PAGE_SIZE else requested
  }

  /** Global-mode subscribe; nothing is sent for an empty layer. */
  function FirstPage<T>(rows: seq<T>, requested: int, counted: bool): Option<Reply<T>>
    requires |rows| <= C.MAX_INT
  {
    var limit := SubscribeLimit(requested);
    var entities := LatestPage(rows, limit, 0);
    if entities == [] then None
    else
      var total := LayerTotal(|rows|, counted, |entities|);
      var page := if |entities| > limit then entities[..limit] else entities;
      Some(Reply(page, total, if |page| < total then Some(C.EncodeCursor(|page|)) else None))
  }

  /** A page request; no reply for a cursor that does not decode. */
  function NextPage<T>(rows: seq<T>, cursor: string, requested: int, counted: bool): Option<Reply<T>>
    requires |rows| <= C.MAX_INT
  {
    var offset := C.DecodeCursor(cursor);
    if offset.None? then None
    else
      var limit := PageLimit(requested);
      var entities := LatestPage(rows, limit, offset.value);
      // A full page cannot start past the last row, so the sum stays an int.
      var next := if |entities| >= limit then Some(C.EncodeCursor(offset.value + |entities|)) else None;
      Some(Reply(entities, LayerTotal(|rows|, counted, |entities|), next))
  }

  /** A page a client asks for: with what limit, whether the store can count the layer then, and
      whether the reply arrives; if not, the client keeps its cursor. */
  datatype Request = Request(limit: int, counted: bool, arrives: bool)

  function Arrivals(requests: seq<Request>): nat {
    if requests == [] then 0 else (if requests[0].arrives then 1 else 0) + Arrivals(requests[1..])
  }

  /** Everything a client collects by following the cursors, and the cursor it is left holding. */
  function Follow<T>(rows: seq<T>, cursor: string, requests: seq<Request>): (seq<T>, Option<string>)
    requires |rows| <= C.MAX_INT
    decreases |requests|
  {
    if requests == [] then ([], Some(cursor))
    else if !requests[0].arrives then Follow(rows, cursor, requests[1..])
    else
      var reply := NextPage(rows, cursor, requests[0].limit, requests[0].counted);
      if reply.None? then ([], None)
      else if reply.value.cursor.None? then (reply.value.entities, None)
      else
        var (more, last) := Follow(rows, reply.value.cursor.value, requests[1..]);
        (reply.value.entities + more, last)
  }

  /** What reaches a client of the first page when the first `k` chunks do, and the cursor it
      then holds. */
  function FirstChunks(reply: Reply<Entity>, observations: seq<Option<Observation>>, k: nat): (seq<Entity>, Option<string>)
    requires k <= ChunkCount(|reply.entities|)
  {
    var chunks := Chunks(reply.entities, observations, Some(Page(reply.total, reply.cursor)), k);
    (Entities(chunks), if chunks == [] then None else chunks[0].cursor)
  }

  /** How many rows the first page has. */
  function FirstLength<T>(rows: seq<T>, requested: int): nat {
    if |rows| < SubscribeLimit(requested) then |rows| else SubscribeLimit(requested)
  }

  /** All that a client collects: the chunks of the first page that arrive, then page by page. */
  function Walk(rows: seq<Entity>, observations: seq<Option<Observation>>, requested: int, counted: bool, k: nat,
                requests: seq<Request>): (seq<Entity>, Option<string>)
    requires |rows| <= C.MAX_INT && k <= ChunkCount(FirstLength(rows, requested))
  {
    var first := FirstPage(rows, requested, counted);
    if first.None? then ([], None)
    else
      var (got, cursor) := FirstChunks(first.value, observations, k);
      if cursor.None? then (got, None)
      else
        var (more, last) := Follow(rows, cursor.value, requests);
        (got + more, last)
  }

  /** A page at an issued offset is the next stretch of rows, as long as the client's limit says,
      if that is within bounds, and 1000 rows otherwise. It moves on unless it is the
      empty last page, and it withholds a cursor only when nothing is left. */
  lemma PageStep<T>(rows: seq<T>, k: nat, requested: int, counted: bool)
    requires k <= |rows| <= C.MAX_INT
    ensures var reply := NextPage(rows, C.EncodeCursor(k), requested, counted);
            && reply.Some?
            && var n := |reply.value.entities|;
            && var limit := if 1 <= requested <= 10000 then requested else 1000;
            && n == (if |rows| - k < limit then |rows| - k else limit)
            && reply.value.entities == rows[k..k + n]
            && reply.value.total == (if counted then |rows| else n)
            && (n == 0 ==> k == |rows|)
            && match reply.value.cursor
               case Some(c) => n > 0 && c == C.EncodeCursor(k + n)
               case None => k + n == |rows|
  {
    C.CursorRoundTrip(k);
  }

  lemma {:induction false} FollowCollects<T>(rows: seq<T>, k: nat, requests: seq<Request>)
    requires k <= |rows| <= C.MAX_INT
    ensures var (got, last) := Follow(rows, C.EncodeCursor(k), requests);
            && k + |got| <= |rows| && got == rows[k..k + |got|]
            && match last
               case Some(c) => |got| >= Arrivals(requests) && c == C.EncodeCursor(k + |got|)
               case None => k + |got| == |rows|
    decreases |requests|
  {
    hide C.EncodeCursor, C.DecodeCursor, NextPage;
    if requests != [] {
      var r := requests[0];
      if !r.arrives {
        FollowCollects(rows, k, requests[1..]);
      } else {
        PageStep(rows, k, r.limit, r.counted);
        var reply := NextPage(rows, C.EncodeCursor(k), r.limit, r.counted).value;
        if reply.cursor.Some? {
          var m := k + |reply.entities|;
          FollowCollects(rows, m, requests[1..]);
          var more := Follow(rows, C.EncodeCursor(m), requests[1..]).0;
          assert rows[k..m] + rows[m..m + |more|] == rows[k..m + |more|];
        }
      }
    }
  }

  lemma FirstPageIs<T>(rows: seq<T>, requested: int, counted: bool)
    requires |rows| <= C.MAX_INT
    ensures (
      var (first, n) := (FirstPage(rows, requested, counted), FirstLength(rows, requested));
      && n <= |rows| && (n == 0 <==> rows == []) && (first.None? <==> n == 0)
      && (first.Some? ==>
           && first.value.entities == rows[..n]
           && first.value.cursor == if counted && n < |rows| then Some(C.EncodeCursor(n)) else None))
  {
    hide C.EncodeCursor;
  }

  lemma ArrivedOf(reply: Reply<Entity>, observations: seq<Option<Observation>>, k: nat)
    requires k <= ChunkCount(|reply.entities|)
    ensures FirstChunks(reply, observations, k).0 == reply.entities[..Min(Start(k), |reply.entities|)]
    ensures FirstChunks(reply, observations, k).1 == if k == 0 then None else reply.cursor
  {
    var page := Some(Page(reply.total, reply.cursor));
    ChunksAreASplit(reply.entities, observations, page, k);
    if k > 0 { OnlyFirstIsMarked(reply.entities, observations, page, k, 0); }
    hide Chunks, Entities, Observations, Accompanying, ChunkCount;
  }

  /** Whatever arrives and whatever limits the client asks for, it collects the delivered part of
      the first page and, if it was given a cursor, the rows after that page from its end on,
      without gap or repeat from there. */
  lemma WalkCollects(rows: seq<Entity>, observations: seq<Option<Observation>>, requested: int, counted: bool, k: nat,
                     requests: seq<Request>)
    requires |rows| <= C.MAX_INT && k <= ChunkCount(FirstLength(rows, requested))
    ensures (
      var n := FirstLength(rows, requested);
      var arrived := Min(Start(k), n);
      var (got, last) := Walk(rows, observations, requested, counted, k, requests);
      if counted && k > 0 && n < |rows| then
        && arrived <= |got| <= arrived + |rows| - n
        && got == rows[..arrived] + rows[n..n + |got| - arrived]
        && (last.None? ==> |got| == arrived + |rows| - n)
        && (last.Some? ==> |got| >= arrived + Arrivals(requests))
      else got == rows[..arrived] && last.None?)
  {
    hide FirstPage, FirstLength, FirstChunks, ChunkCount, Follow, Arrivals, C.EncodeCursor;
    var n := FirstLength(rows, requested);
    FirstPageIs(rows, requested, counted);
    var first := FirstPage(rows, requested, counted);
    if first.Some? {
      ArrivedOf(first.value, observations, k);
      assert first.value.entities[..Min(Start(k), n)] == rows[..Min(Start(k), n)];
      if counted && k > 0 && n < |rows| {
        FollowCollects(rows, n, requests);
      }
    }
  }

  /** When a walk ends, the client has the whole layer exactly if every chunk of the first page
      arrived and the store could count the layer, unless there is no more than that page. And
      every walk ends, no later than one arriving page after the last row. */
  lemma WalkIsComplete(rows: seq<Entity>, observations: seq<Option<Observation>>, requested: int, counted: bool, k: nat,
                       requests: seq<Request>)
    requires |rows| <= C.MAX_INT && k <= ChunkCount(FirstLength(rows, requested))
    ensures (
      var n := FirstLength(rows, requested);
      var (got, last) := Walk(rows, observations, requested, counted, k, requests);
      && (last.None? ==> (got == rows <==> k == ChunkCount(n) && (counted || n == |rows|)))
      && (k == ChunkCount(n) ==> got <= rows)
      && (Arrivals(requests) >= |rows| ==> last.None?))
  {
    hide Walk, Arrivals, FirstLength, ChunkCount;
    var n := FirstLength(rows, requested);
    FirstPageIs(rows, requested, counted);
    WalkCollects(rows, observations, requested, counted, k, requests);
    CountMeaning(n, k);
    var got := Walk(rows, observations, requested, counted, k, requests).0;
    if k == ChunkCount(n) && n > 0 {
      assert rows[..n] + rows[n..n + (|got| - Min(Start(k), n))] == rows[..|got|];
    }
  }

  /** With distinct rows, every one of them has been delivered exactly once when such a walk ends. */
  lemma WalkDeliversEachOnce(rows: seq<Entity>, observations: seq<Option<Observation>>, requested: int, counted: bool,
                             k: nat, requests: seq<Request>, i: nat)
    requires i < |rows| <= C.MAX_INT
    requires k == ChunkCount(FirstLength(rows, requested)) && (counted || FirstLength(rows, requested) == |rows|)
    requires forall a, b :: 0 <= a < b < |rows| ==> rows[a] != rows[b]
    requires Walk(rows, observations, requested, counted, k, requests).1.None?
    ensures multiset(Walk(rows, observations, requested, counted, k, requests).0)[rows[i]] == 1
  {
    WalkIsComplete(rows, observations, requested, counted, k, requests);
    DistinctMultiplicity(rows, i);
  }

  /** A client with room for one chunk when it subscribes to a layer of 6000 rows: it gets the
      first 500 rows and the cursor for row 5000, and never the 4500 rows between them. */
  lemma LostChunksAreSkipped(rows: seq<Entity>, observations: seq<Option<Observation>>)
    requires |rows| == 6000
    ensures 1 <= ChunkCount(FirstLength(rows, 0))
    ensures Walk(rows, observations, 0, true, 1, [Request(10000, true, true)]) == (rows[..500] + rows[5000..], None)
  {
    hide FirstPage, FirstChunks, NextPage, C.EncodeCursor, Follow, Arrivals;
    var requests := [Request(10000, true, true)];
    WalkCollects(rows, observations, 0, true, 1, requests);
    LastPage(rows, 5000, requests[0]);
    FirstPageIs(rows, 0, true);
    ArrivedOf(FirstPage(rows, 0, true).value, observations, 1);
    assert Walk(rows, observations, 0, true, 1, requests).1.None?;
    assert rows[5000..6000] == rows[5000..];
  }

  lemma LastPage(rows: seq<Entity>, k: nat, r: Request)
    requires k <= |rows| <= C.MAX_INT && r.arrives && PageLimit(r.limit) > |rows| - k
    ensures Follow(rows, C.EncodeCursor(k), [r]).1 == None
  {
    C.CursorRoundTrip(k);
    hide C.EncodeCursor, C.DecodeCursor;
  }

  lemma {:induction false} DistinctMultiplicity<T>(s: seq<T>, i: nat)
    requires i < |s|
    requires forall a, b :: 0 <= a < b < |s| ==> s[a] != s[b]
    ensures multiset(s)[s[i]] == 1
  {
    var last := |s| - 1;
    assert s == s[..last] + [s[last]];
    if i < last {
      DistinctMultiplicity(s[..last], i);
    } else {
      assert s[i] !in s[..last];
    }
  }

  /** The first page has as many rows as the client's limit says, if that is within bounds, and
      5000 otherwise. It announces more exactly when more remains and the store could count. */
  lemma FirstPageCursorIff<T>(rows: seq<T>, requested: int, counted: bool)
    requires 0 < |rows| <= C.MAX_INT
    ensures var reply := FirstPage(rows, requested, counted);
            && reply.Some?
            && var limit := if 1 <= requested <= 10000 then requested else 5000;
            && reply.value.entities == rows[..if |rows| < limit then |rows| else limit]
            && reply.value.total == (if counted then |rows| else |reply.value.entities|)
            && (reply.value.cursor.Some? <==> counted && |rows| > limit)
  {
  }
}
