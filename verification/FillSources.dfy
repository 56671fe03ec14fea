/** Where each item of a filled viewport comes from: from which position of which of the three
    sources, under what ID and with what mark. */
module FillSources {
  import opened Wrappers
  import opened Records
  import opened EntityIds
  import opened Selections
  import opened SparseFill
  import Snapshots

  /** An entry of one of the cells, in the order in which they came back. */
  datatype At = At(cell: nat, entry: nat)

  ghost predicate Before(a: At, b: At) { a.cell < b.cell || (a.cell == b.cell && a.entry < b.entry) }

  /** The entry is there in both its parts. */
  ghost predicate Usable(cells: seq<Cell>, a: At) {
    && a.cell < |cells| && a.entry < |cells[a.cell].entities| && a.entry < |cells[a.cell].observations|
    && cells[a.cell].entities[a.entry].Some?
  }

  ghost function EntityAt(cells: seq<Cell>, a: At): Entity
    requires Usable(cells, a)
  {
    cells[a.cell].entities[a.entry].value
  }

  ghost function ObservationAt(cells: seq<Cell>, a: At): Observation
    requires Usable(cells, a)
  {
    cells[a.cell].observations[a.entry]
  }

  ghost predicate Ordered(at: seq<At>) {
    forall j, k :: 0 <= j < k < |at| ==> Before(at[j], at[k])
  }

  /** One of the store's items has the external ID. */
  ghost predicate Has(items: seq<EntitySnapshot>, x: string) {
    exists i: nat :: i < |items| && items[i].entity.externalId == x
  }

  lemma HasIff(items: seq<EntitySnapshot>, x: string)
    ensures x in Ids(items) <==> Has(items, x)
  {
    if Has(items, x) {
      var i: nat :| i < |items| && items[i].entity.externalId == x;
      assert ExternalIds(items)[i] == x;
    }
  }

  lemma {:induction false} PairedAt(cell: Cell, n: nat) returns (at: seq<nat>)
    ensures Ascending(at, n) && |at| == |Paired(cell, n)|
    ensures forall i: nat :: i in at <==> i < n && i < |cell.entities| && i < |cell.observations| && cell.entities[i].Some?
    ensures forall k :: 0 <= k < |at| ==>
      at[k] in at && Paired(cell, n)[k] == EntitySnapshot(cell.entities[at[k]].value, cell.observations[at[k]])
  {
    at := [];
    if n > 0 {
      at := PairedAt(cell, n - 1);
      PickMore(at, n - 1);
      if IsPaired(cell, n - 1) { at := at + [n - 1]; }
    }
  }

  /** Where the usable entries of the cells are: at `at`, in order, all of them. */
  ghost predicate PairsFrom(items: seq<EntitySnapshot>, cells: seq<Cell>, at: seq<At>) {
    && Ordered(at) && |at| == |items|
    && (forall a :: Usable(cells, a) ==> a in at)
    && forall k :: 0 <= k < |at| ==> PairFrom(items[k], cells, at[k])
  }

  lemma {:induction false} AllPairedAt(cells: seq<Cell>) returns (at: seq<At>)
    ensures PairsFrom(AllPaired(cells), cells, at)
  {
    at := [];
    if cells != [] {
      var c := |cells| - 1;
      var before := AllPairedAt(cells[..c]);
      var more := PairedAt(cells[c], |cells[c].entities|);
      at := before + AllIn(more, c);
      OneMoreCell(cells, AllPaired(cells[..c]), Paired(cells[c], |cells[c].entities|), before, more);
      hide Paired, PairsFrom, Ascending;
    }
  }

  lemma OneMoreCell(cells: seq<Cell>, items: seq<EntitySnapshot>, added: seq<EntitySnapshot>, before: seq<At>, more: seq<nat>)
    requires cells != [] && PairsFrom(items, cells[..|cells| - 1], before)
    requires Ascending(more, |cells[|cells| - 1].entities|) && |more| == |added|
    requires var cell := cells[|cells| - 1];
      && (forall i: nat ::
           i in more <==> i < |cell.entities| && i < |cell.observations| && cell.entities[i].Some?)
      && forall k :: 0 <= k < |more| ==>
           more[k] in more && added[k] == EntitySnapshot(cell.entities[more[k]].value, cell.observations[more[k]])
    ensures PairsFrom(items + added, cells, before + AllIn(more, |cells| - 1))
  {
    var c := |cells| - 1;
    InCell(more, c);
    UsableMore(cells, more);
    hide Usable, Ascending;
    forall k | 0 <= k < |before| ensures PairFrom(items[k], cells, before[k]) && before[k].cell < c {
      PairStays(items[k], cells, before[k]);
    }
    forall k | 0 <= k < |more| ensures PairFrom(added[k], cells, At(c, more[k])) {
      EntryIsPair(cells, more[k], added[k]);
    }
    OrderedMore(before, more, |cells[c].entities|, c);
    hide PairFrom, Ordered;
  }

  ghost predicate PairFrom(item: EntitySnapshot, cells: seq<Cell>, a: At) {
    Usable(cells, a) && item == EntitySnapshot(EntityAt(cells, a), ObservationAt(cells, a))
  }

  lemma EntryIsPair(cells: seq<Cell>, i: nat, item: EntitySnapshot)
    requires cells != []
    requires var cell := cells[|cells| - 1];
      && i < |cell.entities| && i < |cell.observations| && cell.entities[i].Some?
      && item == EntitySnapshot(cell.entities[i].value, cell.observations[i])
    ensures PairFrom(item, cells, At(|cells| - 1, i))
  {
  }

  lemma OrderedMore(before: seq<At>, more: seq<nat>, n: nat, c: nat)
    requires Ordered(before) && Ascending(more, n) && forall k :: 0 <= k < |before| ==> before[k].cell < c
    ensures Ordered(before + AllIn(more, c))
  {
  }

  lemma PairStays(item: EntitySnapshot, cells: seq<Cell>, a: At)
    requires cells != [] && PairFrom(item, cells[..|cells| - 1], a)
    ensures PairFrom(item, cells, a)
  {
  }

  lemma UsableMore(cells: seq<Cell>, more: seq<nat>)
    requires cells != []
    requires var cell := cells[|cells| - 1]; forall i: nat ::
      i in more <==> i < |cell.entities| && i < |cell.observations| && cell.entities[i].Some?
    ensures forall a :: Usable(cells, a) <==>
      Usable(cells[..|cells| - 1], a) || (a.cell == |cells| - 1 && a.entry in more)
    ensures forall a :: Usable(cells[..|cells| - 1], a) ==> a.cell < |cells| - 1
  {
  }

  ghost function AllIn(entries: seq<nat>, c: nat): (r: seq<At>)
    ensures |r| == |entries| && forall k :: 0 <= k < |r| ==> r[k] == At(c, entries[k])
  {
    seq(|entries|, k requires 0 <= k < |entries| => At(c, entries[k]))
  }

  lemma InCell(entries: seq<nat>, c: nat)
    ensures forall a :: a in AllIn(entries, c) <==> a.cell == c && a.entry in entries
  {
    forall a: At | a.cell == c && a.entry in entries ensures a in AllIn(entries, c) {
      var k :| 0 <= k < |entries| && entries[k] == a.entry;
      assert AllIn(entries, c)[k] == a;
    }
  }

  /** The item under its composite ID, with a mark of where it came from. */
  ghost predicate Marked(shown: EntitySnapshot, e: Entity, o: Observation, mark: string) {
    && shown.entity == Entity(e.layerType + ":" + e.externalId, e.layerType, e.externalId, mark)
    && shown.observation == Observation(e.layerType + ":" + e.externalId, mark, o.payload)
  }

  lemma FreshStep(items: seq<EntitySnapshot>, known: set<string>)
    requires items != []
    ensures (
      var (before, item) := (items[..|items| - 1], items[|items| - 1]);
      && Marked(Tag(item, "live"), item.entity, item.observation, "live")
      && Fresh(items, known)
         == Fresh(before, known)
            + if item.entity.externalId !in known && !Has(before, item.entity.externalId) then [Tag(item, "live")] else [])
  {
    FreshIds(items[..|items| - 1], known);
    HasIff(items[..|items| - 1], items[|items| - 1].entity.externalId);
    hide Ids, Has, Unique;
  }

  lemma {:induction false} FreshAt(items: seq<EntitySnapshot>, known: set<string>) returns (at: seq<nat>)
    ensures Ascending(at, |items|) && |at| == |Fresh(items, known)|
    ensures forall k :: 0 <= k < |at| ==> Marked(Fresh(items, known)[k], items[at[k]].entity, items[at[k]].observation, "live")
    ensures forall i: nat :: i < |items| ==>
      (i in at <==> items[i].entity.externalId !in known && !Has(items[..i], items[i].entity.externalId))
  {
    at := [];
    if items != [] {
      var n := |items| - 1;
      at := FreshAt(items[..n], known);
      PickMore(at, n);
      FreshStep(items, known);
      hide Fresh, Tag, Marked, Has;
      forall i: nat | i < n ensures items[..n][..i] == items[..i] && items[..n][i] == items[i] { }
      if items[n].entity.externalId !in known && !Has(items[..n], items[n].entity.externalId) { at := at + [n]; }
    }
  }

  lemma {:induction false} MissingAt(items: seq<EntitySnapshot>, known: set<string>) returns (at: seq<nat>)
    ensures Ascending(at, |items|) && |at| == |Missing(items, known)|
    ensures forall k :: 0 <= k < |at| ==> Missing(items, known)[k] == items[at[k]]
    ensures forall i: nat :: i < |items| ==> (i in at <==> items[i].entity.externalId !in known)
  {
    at := [];
    if items != [] {
      var n := |items| - 1;
      at := MissingAt(items[..n], known);
      PickMore(at, n);
      MissingMore(items, n, known);
      assert items[..n + 1] == items;
      hide Missing;
      forall i: nat | i < n ensures items[..n][i] == items[i] { }
      if items[n].entity.externalId !in known { at := at + [n]; }
    }
  }

  /** No entry before `a` brings the same external ID. */
  ghost predicate First(cells: seq<Cell>, a: At)
    requires Usable(cells, a)
  {
    forall b :: Usable(cells, b) && Before(b, a) ==> EntityAt(cells, b).externalId != EntityAt(cells, a).externalId
  }

  /** A live item: an entry of a cell, whose observation was rewritten if its row was found. */
  ghost predicate LiveFrom(shown: EntitySnapshot, cells: seq<Cell>, a: At, rows: map<string, string>) {
    Usable(cells, a) &&
    var e := EntityAt(cells, a);
    var id := e.layerType + ":" + e.externalId;
    && shown.entity == Entity(id, e.layerType, e.externalId, "live")
    && shown.observation == Observation(if id in rows then rows[id] else id, "live", ObservationAt(cells, a).payload)
  }

  lemma EarlierIs(cells: seq<Cell>, all: seq<At>, items: seq<EntitySnapshot>, i: nat)
    requires PairsFrom(items, cells, all) && i < |items|
    ensures Usable(cells, all[i])
    ensures Has(items[..i], items[i].entity.externalId) <==> !First(cells, all[i])
  {
    var x := items[i].entity.externalId;
    assert PairFrom(items[i], cells, all[i]);
    if Has(items[..i], x) {
      var j: nat :| j < i && items[..i][j].entity.externalId == x;
      assert PairFrom(items[j], cells, all[j]) && Before(all[j], all[i]);
    }
    if !First(cells, all[i]) {
      LaterHas(cells, all, items, i);
    }
  }

  lemma LaterHas(cells: seq<Cell>, all: seq<At>, items: seq<EntitySnapshot>, i: nat)
    requires PairsFrom(items, cells, all) && i < |items| && Usable(cells, all[i]) && !First(cells, all[i])
    ensures Has(items[..i], EntityAt(cells, all[i]).externalId)
  {
    var b :| Usable(cells, b) && Before(b, all[i]) && EntityAt(cells, b).externalId == EntityAt(cells, all[i]).externalId;
    var j :| 0 <= j < |all| && all[j] == b;
    assert PairFrom(items[j], cells, all[j]);
    assert Before(all[j], all[i]);
    assert items[..i][j].entity == EntityAt(cells, b);
  }

  lemma FirstAt(cells: seq<Cell>, known: set<string>) returns (at: seq<At>)
    ensures Ordered(at) && |at| == |Fresh(AllPaired(cells), known)|
    ensures forall a :: a in at <==> Usable(cells, a) && EntityAt(cells, a).externalId !in known && First(cells, a)
    ensures forall k :: 0 <= k < |at| ==>
      && at[k] in at && Usable(cells, at[k])
      && Marked(Fresh(AllPaired(cells), known)[k], EntityAt(cells, at[k]), ObservationAt(cells, at[k]), "live")
  {
    hide AllPaired, Fresh, Marked, First, Has, EntityAt, ObservationAt;
    var all := AllPairedAt(cells);
    var items := AllPaired(cells);
    var first := FreshAt(items, known);
    at := seq(|first|, k requires 0 <= k < |first| => all[first[k]]);
    forall i: nat | i < |items|
      ensures Usable(cells, all[i])
      ensures i in first <==> EntityAt(cells, all[i]).externalId !in known && First(cells, all[i])
    {
      EarlierIs(cells, all, items, i);
    }
    forall a | Usable(cells, a) && EntityAt(cells, a).externalId !in known && First(cells, a) ensures a in at {
      var i :| 0 <= i < |all| && all[i] == a;
      var k :| 0 <= k < |first| && first[k] == i;
      assert at[k] == a;
    }
    hide Before;
  }

  lemma LiveAt(cells: seq<Cell>, known: set<string>, rows: map<string, string>) returns (at: seq<At>)
    ensures Ordered(at) && |at| == |Live(Some(cells), known, rows)|
    ensures forall a :: a in at <==> Usable(cells, a) && EntityAt(cells, a).externalId !in known && First(cells, a)
    ensures forall k :: 0 <= k < |at| ==> at[k] in at && LiveFrom(Live(Some(cells), known, rows)[k], cells, at[k], rows)
  {
    hide AllPaired, Fresh, First, Ordered;
    at := FirstAt(cells, known);
    var first := Fresh(AllPaired(cells), known);
    forall k | 0 <= k < |at| ensures LiveFrom(Live(Some(cells), known, rows)[k], cells, at[k], rows) {
      assert Live(Some(cells), known, rows)[k] == EntitySnapshot(first[k].entity, Rewritten(first[k].observation, rows));
    }
    hide LiveFrom;
  }

  lemma RestAt(past: seq<EntitySnapshot>, known: set<string>, taken: set<string>) returns (at: seq<nat>)
    ensures Ascending(at, |past|) && |at| == |Missing(Stale(Some(past), known), taken)|
    ensures forall k :: 0 <= k < |at| ==>
      Marked(Missing(Stale(Some(past), known), taken)[k], past[at[k]].entity, past[at[k]].observation, "stale")
    ensures forall i: nat :: i < |past| ==>
      (i in at <==> past[i].entity.externalId !in known && past[i].entity.externalId !in taken)
  {
    hide Missing, Marked;
    var outer := MissingAt(past, known);
    var stale := Stale(Some(past), known);
    var inner := MissingAt(stale, taken);
    at := Within(outer, inner);
    WithinPicked(outer, inner, |past|);
    forall j: nat | j < |stale|
      ensures stale[j].entity.externalId == past[outer[j]].entity.externalId
      ensures Marked(stale[j], past[outer[j]].entity, past[outer[j]].observation, "stale")
    {
      TagMarks(past[outer[j]], "stale");
    }
    forall i: nat | i < |past|
      ensures i in at <==> past[i].entity.externalId !in known && past[i].entity.externalId !in taken
    {
      if i in outer { var j :| 0 <= j < |outer| && outer[j] == i; }
    }
    hide Ascending, Stale;
  }

  lemma TagMarks(item: EntitySnapshot, mark: string)
    ensures Marked(Tag(item, mark), item.entity, item.observation, mark)
  {
  }

  /** A viewport's items are first the store's own, then live ones from the entries `live` of the
      cells, then stale ones from the positions `stale` of the past: each in the order of its
      source, under its composite ID and marked as live or stale. A viewport that the store
      knows enough about has only the first. Otherwise an entry is taken when the store has not
      its external ID and no entry before it brings that, and an item of the past when neither
      the store nor any entry has its external ID. */
  ghost predicate FilledFrom(items: seq<EntitySnapshot>, stored: seq<EntitySnapshot>, threshold: int, cells: seq<Cell>,
                             past: seq<EntitySnapshot>, rows: map<string, string>, live: seq<At>, stale: seq<nat>)
  {
    && |items| == |stored| + |live| + |stale|
    && (forall k :: 0 <= k < |stored| ==> Marked(items[k], stored[k].entity, stored[k].observation, "live"))
    && (forall k :: 0 <= k < |live| ==> LiveFrom(items[|stored| + k], cells, live[k], rows))
    && Ordered(live) && Ascending(stale, |past|)
    && (forall k :: 0 <= k < |stale| ==>
          Marked(items[|stored| + |live| + k], past[stale[k]].entity, past[stale[k]].observation, "stale"))
    && if |stored| >= threshold then live == [] && stale == []
       else
         && (forall a :: a in live <==>
               Usable(cells, a) && !Has(stored, EntityAt(cells, a).externalId) && First(cells, a))
         && forall i: nat :: i < |past| ==>
              (i in stale <==>
                && !Has(stored, past[i].entity.externalId)
                && forall a :: Usable(cells, a) ==> EntityAt(cells, a).externalId != past[i].entity.externalId)
  }

  lemma LivePart(stored: seq<EntitySnapshot>, cells: Option<seq<Cell>>, rows: map<string, string>) returns (at: seq<At>)
    ensures (
      var (all, live) := (if cells.Some? then cells.value else [], Live(cells, Ids(TagAll(stored, "live")), rows));
      && Ordered(at) && |at| == |live|
      && (forall k :: 0 <= k < |at| ==> LiveFrom(live[k], all, at[k], rows))
      && (forall a :: a in at <==> Usable(all, a) && !Has(stored, EntityAt(all, a).externalId) && First(all, a)))
  {
    at := [];
    if cells.Some? {
      at := LiveAt(cells.value, Ids(TagAll(stored, "live")), rows);
      KnownIff(stored);
      hide Live, Has, First, Ids, LiveFrom, Ordered;
    }
  }

  lemma KnownIff(stored: seq<EntitySnapshot>)
    ensures forall x :: x in Ids(TagAll(stored, "live")) <==> Has(stored, x)
  {
    SameIds(stored, TagAll(stored, "live"));
    forall x ensures x in Ids(stored) <==> Has(stored, x) { HasIff(stored, x); }
    hide Ids, Has;
  }

  /** One of the cells brings the external ID. */
  ghost predicate Brought(cells: seq<Cell>, x: string) {
    exists a :: Usable(cells, a) && EntityAt(cells, a).externalId == x
  }

  lemma LiveIds(cells: Option<seq<Cell>>, known: set<string>, rows: map<string, string>, x: string)
    requires x !in known
    ensures x in Ids(Live(cells, known, rows)) <==> Brought(if cells.Some? then cells.value else [], x)
  {
    if cells.Some? {
      var items := AllPaired(cells.value);
      FreshIds(items, known);
      SameIds(Fresh(items, known), Live(cells, known, rows));
      HasIff(items, x);
      var at := AllPairedAt(cells.value);
      HasIsBrought(cells.value, items, at, x);
      hide Ids, Has, Brought, AllPaired, Fresh, Unique;
    }
  }

  lemma HasIsBrought(cells: seq<Cell>, items: seq<EntitySnapshot>, at: seq<At>, x: string)
    requires PairsFrom(items, cells, at)
    ensures Has(items, x) <==> Brought(cells, x)
  {
    if Has(items, x) {
      var i: nat :| i < |items| && items[i].entity.externalId == x;
      assert PairFrom(items[i], cells, at[i]);
    }
    if Brought(cells, x) {
      var a :| Usable(cells, a) && EntityAt(cells, a).externalId == x;
      var i :| 0 <= i < |at| && at[i] == a;
      assert PairFrom(items[i], cells, at[i]);
    }
  }

  lemma StalePart(stored: seq<EntitySnapshot>, cells: Option<seq<Cell>>, past: Option<seq<EntitySnapshot>>, rows: map<string, string>)
    returns (at: seq<nat>)
    ensures (
      var (known, items) := (Ids(TagAll(stored, "live")), if past.Some? then past.value else []);
      var rest := Missing(Stale(past, known), known + Ids(Live(cells, known, rows)));
      && Ascending(at, |items|) && |at| == |rest|
      && (forall k :: 0 <= k < |at| ==> Marked(rest[k], items[at[k]].entity, items[at[k]].observation, "stale"))
      && forall i: nat :: i < |items| ==>
           (i in at <==>
             && !Has(stored, items[i].entity.externalId)
             && !Brought(if cells.Some? then cells.value else [], items[i].entity.externalId)))
  {
    at := [];
    if past.Some? {
      var known := Ids(TagAll(stored, "live"));
      at := RestAt(past.value, known, known + Ids(Live(cells, known, rows)));
      KnownIff(stored);
      forall x | x !in known
        ensures x in Ids(Live(cells, known, rows)) <==> Brought(if cells.Some? then cells.value else [], x)
      {
        LiveIds(cells, known, rows, x);
      }
      hide Live, Has, Ids, Marked, Ascending, Brought, Missing, Stale;
    }
  }

  lemma FilledIsFrom(stored: seq<EntitySnapshot>, threshold: int, cells: Option<seq<Cell>>,
                     past: Option<seq<EntitySnapshot>>, rows: map<string, string>)
    returns (live: seq<At>, stale: seq<nat>)
    ensures FilledFrom(Filled(stored, threshold, cells, past, rows), stored, threshold,
                       if cells.Some? then cells.value else [], if past.Some? then past.value else [], rows, live, stale)
  {
    live, stale := [], [];
    hide Live, Stale, Missing, First, Marked, LiveFrom, Has, Ids, Usable;
    forall k | 0 <= k < |stored| ensures Marked(TagAll(stored, "live")[k], stored[k].entity, stored[k].observation, "live") {
      TagMarks(stored[k], "live");
    }
    if |stored| < threshold {
      live := LivePart(stored, cells, rows);
      stale := StalePart(stored, cells, past, rows);
    }
  }

  /** What goes out when every lookup finds the observation at the entity's own position. */
  lemma OwnInChunk(items: seq<EntitySnapshot>, page: Option<Snapshots.Page>, k: nat, j: nat)
    requires j < k <= Snapshots.ChunkCount(|items|)
    requires forall p: nat :: p < |items| ==>
      Snapshots.Last(Present(items), items[p].entity.id) == Some(items[p].observation)
    ensures |Snapshots.Chunks(EntitiesOf(items), Present(items), page, k)| == k && 500 * j < |items|
    ensures (
      var chunk := Snapshots.Chunks(EntitiesOf(items), Present(items), page, k)[j];
      var end := if |items| > 500 * j + 500 then 500 * j + 500 else |items|;
      chunk.entities == EntitiesOf(items)[500 * j..end] && chunk.observations == ObservationsOf(items)[500 * j..end])
  {
    hide Snapshots.SentWith, Snapshots.Chunks, Snapshots.Last;
    var (entities, observations) := (EntitiesOf(items), Present(items));
    Snapshots.ChunkMeaning(entities, observations, page, k, j);
    var chunk := Snapshots.Chunks(entities, observations, page, k)[j];
    var picked :| Snapshots.SentWith(chunk.entities, chunk.observations, observations, picked);
    forall p: nat | p < |chunk.entities| ensures Snapshots.Observed(observations, chunk.entities[p].id) {
      assert chunk.entities[p] == items[500 * j + p].entity;
      var i := Snapshots.LastIs(observations, chunk.entities[p].id);
    }
    Snapshots.EachWithItsOwn(chunk.entities, chunk.observations, observations, picked);
    forall p: nat | p < |chunk.entities| ensures chunk.observations[p] == items[500 * j + p].observation {
      Snapshots.LastAtIs(observations, chunk.observations[p], chunk.entities[p].id);
      assert chunk.entities[p] == items[500 * j + p].entity;
    }
  }

  /** In a store filled with entities under their composite IDs only, as all writers here do,
      every entity of every filled viewport goes out with its own observation, in its own place. */
  lemma AllAreSent(stored: seq<EntitySnapshot>, threshold: int, cells: seq<Cell>, past: Option<seq<EntitySnapshot>>,
                   batches: seq<seq<Entity>>, created: bool, readable: set<string>, page: Option<Snapshots.Page>, k: nat, j: nat)
    requires Unique(stored) && PlainLayers(stored) && PlainLayers(AllPaired(cells))
    requires past.Some? ==> Unique(past.value) && PlainLayers(past.value)
    requires forall b, e :: b in batches && e in b ==> Composite(e)
    ensures (
      var fetched := EntitiesOf(Fresh(AllPaired(cells), Ids(TagAll(stored, "live"))));
      var items := Filled(stored, threshold, Some(cells), past, RowsFor(RowsAfter(batches), created, fetched, readable));
      j < k <= Snapshots.ChunkCount(|items|) ==>
      && |Snapshots.Chunks(EntitiesOf(items), Present(items), page, k)| == k && 500 * j < |items|
      && var chunk := Snapshots.Chunks(EntitiesOf(items), Present(items), page, k)[j];
         var end := if |items| > 500 * j + 500 then 500 * j + 500 else |items|;
         chunk.entities == EntitiesOf(items)[500 * j..end] && chunk.observations == ObservationsOf(items)[500 * j..end])
  {
    var fetched := EntitiesOf(Fresh(AllPaired(cells), Ids(TagAll(stored, "live"))));
    var items := Filled(stored, threshold, Some(cells), past, RowsFor(RowsAfter(batches), created, fetched, readable));
    if j < k <= Snapshots.ChunkCount(|items|) {
      forall p: nat | p < |items| ensures Snapshots.Last(Present(items), items[p].entity.id) == Some(items[p].observation) {
        AllAreShown(stored, threshold, cells, past, batches, created, readable, p);
      }
      OwnInChunk(items, page, k, j);
    }
    hide *;
  }
}
