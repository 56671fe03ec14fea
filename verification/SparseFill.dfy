/** A viewport the store knows too little about is filled from two more sources: live data from
    an external API, fetched cell by cell, and stale data from the store's past. */
module SparseFill {
  import opened Wrappers
  import opened Records
  import opened EntityIds
  import opened Selections
  import Snapshots

  /** What one concurrent fetch returned; entities may be nil and observations may be missing. */
  datatype Cell = Cell(entities: seq<Option<Entity>>, observations: seq<Observation>)

  /** An item under its composite ID, marked with where it came from. */
  function Tag(item: EntitySnapshot, source: string): EntitySnapshot {
    var id := EntityId(item.entity.layerType, item.entity.externalId);
    EntitySnapshot(item.entity.(id := id, source := source), item.observation.(entityId := id, source := source))
  }

  function TagAll(items: seq<EntitySnapshot>, source: string): (r: seq<EntitySnapshot>)
    ensures |r| == |items| && forall i :: 0 <= i < |items| ==> r[i] == Tag(items[i], source)
  {
    seq(|items|, i requires 0 <= i < |items| => Tag(items[i], source))
  }

  function ExternalIds(items: seq<EntitySnapshot>): (r: seq<string>)
    ensures |r| == |items| && forall i :: 0 <= i < |items| ==> r[i] == items[i].entity.externalId
  {
    seq(|items|, i requires 0 <= i < |items| => items[i].entity.externalId)
  }

  function Ids(items: seq<EntitySnapshot>): set<string> {
    set x | x in ExternalIds(items)
  }

  ghost predicate Distinct(ids: seq<string>) {
    forall i, j :: 0 <= i < j < |ids| ==> ids[i] != ids[j]
  }

  /** No external ID occurs twice. */
  ghost predicate Unique(items: seq<EntitySnapshot>) {
    Distinct(ExternalIds(items))
  }

  predicate IsPaired(cell: Cell, i: nat) {
    i < |cell.entities| && i < |cell.observations| && cell.entities[i].Some?
  }

  function PairAt(cell: Cell, i: nat): EntitySnapshot
    requires IsPaired(cell, i)
  {
    EntitySnapshot(cell.entities[i].value, cell.observations[i])
  }

  /** The usable entries among the first `n` of a cell. */
  function Paired(cell: Cell, n: nat): seq<EntitySnapshot> {
    if n == 0 then [] else Paired(cell, n - 1) + if IsPaired(cell, n - 1) then [PairAt(cell, n - 1)] else []
  }

  /** Everything usable, cell after cell in the order in which the fetches came back. */
  function AllPaired(cells: seq<Cell>): seq<EntitySnapshot> {
    if cells == [] then []
    else AllPaired(cells[..|cells| - 1]) + Paired(cells[|cells| - 1], |cells[|cells| - 1].entities|)
  }

  /** The first item of every external ID not known yet, live. */
  function Fresh(items: seq<EntitySnapshot>, known: set<string>): seq<EntitySnapshot> {
    if items == [] then []
    else
      var kept, item := Fresh(items[..|items| - 1], known), items[|items| - 1];
      if item.entity.externalId in known + Ids(kept) then kept else kept + [Tag(item, "live")]
  }

  /** The items whose external ID is not known; among them IDs may repeat. */
  function Missing(items: seq<EntitySnapshot>, known: set<string>): seq<EntitySnapshot> {
    if items == [] then []
    else
      var item := items[|items| - 1];
      Missing(items[..|items| - 1], known) + if item.entity.externalId in known then [] else [item]
  }

  lemma IdsConcat(a: seq<EntitySnapshot>, b: seq<EntitySnapshot>)
    ensures ExternalIds(a + b) == ExternalIds(a) + ExternalIds(b)
    ensures Ids(a + b) == Ids(a) + Ids(b)
  {
    assert ExternalIds(a + b) == ExternalIds(a) + ExternalIds(b);
  }

  lemma DistinctConcat(a: seq<string>, b: seq<string>)
    ensures Distinct(a + b) <==> Distinct(a) && Distinct(b) && forall x :: x in a ==> x !in b
  {
    if Distinct(a + b) {
      forall i, j | 0 <= i < |a| && 0 <= j < |b| ensures a[i] != b[j] {
        assert (a + b)[i] != (a + b)[|a| + j];
      }
      forall i, j | 0 <= i < j < |b| ensures b[i] != b[j] {
        assert (a + b)[|a| + i] != (a + b)[|a| + j];
      }
      forall i, j | 0 <= i < j < |a| ensures a[i] != a[j] {
        assert (a + b)[i] != (a + b)[j];
      }
    }
    if Distinct(a) && Distinct(b) && forall x :: x in a ==> x !in b {
      forall i, j | 0 <= i < j < |a + b| ensures (a + b)[i] != (a + b)[j] {
        if i < |a| <= j { assert a[i] in a && b[j - |a|] in b; }
      }
    }
  }

  /** Appending keeps external IDs unique exactly when the new ones are neither there nor repeated. */
  lemma UniqueConcat(a: seq<EntitySnapshot>, b: seq<EntitySnapshot>)
    ensures Unique(a + b) <==> Unique(a) && Unique(b) && Ids(a) !! Ids(b)
  {
    IdsConcat(a, b);
    DistinctConcat(ExternalIds(a), ExternalIds(b));
    assert forall x :: x in Ids(a) <==> x in ExternalIds(a);
    assert forall x :: x in Ids(b) <==> x in ExternalIds(b);
    hide Distinct, ExternalIds;
  }

  /** One more item, when it is new. */
  lemma Snoc(items: seq<EntitySnapshot>, item: EntitySnapshot)
    ensures Ids(items + [item]) == Ids(items) + {item.entity.externalId}
    ensures Unique(items + [item]) <==> Unique(items) && item.entity.externalId !in Ids(items)
  {
    UniqueConcat(items, [item]);
    IdsConcat(items, [item]);
    assert ExternalIds([item]) == [item.entity.externalId];
  }

  /** One item of each ID is taken: the IDs are those that occurred and were not known, each
      once, and every item taken is one that was fetched, both parts together. */
  lemma FreshMeaning(items: seq<EntitySnapshot>, known: set<string>)
    ensures Ids(Fresh(items, known)) == Ids(items) - known
    ensures Unique(Fresh(items, known))
    ensures forall r :: r in Fresh(items, known) ==> r in TagAll(items, "live")
  {
    FreshIds(items, known);
    FreshTaken(items, known);
    hide Unique, Ids, Fresh, TagAll;
  }

  lemma {:induction false} FreshIds(items: seq<EntitySnapshot>, known: set<string>)
    ensures Ids(Fresh(items, known)) == Ids(items) - known
    ensures Unique(Fresh(items, known))
  {
    if items != [] {
      var before, item := items[..|items| - 1], items[|items| - 1];
      FreshIds(before, known);
      Snoc(Fresh(before, known), Tag(item, "live"));
      Snoc(before, item);
      assert before + [item] == items;
      assert item.entity.externalId in known + Ids(Fresh(before, known)) ==> Fresh(items, known) == Fresh(before, known);
      hide Unique, Ids, Fresh, Tag;
    }
  }

  lemma {:induction false} FreshTaken(items: seq<EntitySnapshot>, known: set<string>)
    ensures forall r :: r in Fresh(items, known) ==> r in TagAll(items, "live")
  {
    if items != [] {
      var before, item := items[..|items| - 1], items[|items| - 1];
      FreshTaken(before, known);
      assert TagAll(items, "live") == TagAll(before, "live") + [Tag(item, "live")];
      hide Ids, Tag;
    }
  }

  /** The external IDs that the cells bring: those of entries that have both parts. */
  ghost predicate Brings(cell: Cell, x: string) {
    exists i: nat :: IsPaired(cell, i) && PairAt(cell, i).entity.externalId == x
  }

  lemma {:induction false} IdsOfPaired(cell: Cell, n: nat, x: string)
    ensures x in Ids(Paired(cell, n)) <==>
      exists i: nat :: i < n && IsPaired(cell, i) && PairAt(cell, i).entity.externalId == x
  {
    if n > 0 {
      IdsOfPaired(cell, n - 1, x);
      var before := Paired(cell, n - 1);
      if IsPaired(cell, n - 1) {
        Snoc(before, PairAt(cell, n - 1));
        assert Paired(cell, n) == before + [PairAt(cell, n - 1)];
      } else {
        assert Paired(cell, n) == before;
      }
      hide Ids, Paired;
    }
  }

  lemma IdsOfCell(cell: Cell, x: string)
    ensures x in Ids(Paired(cell, |cell.entities|)) <==> Brings(cell, x)
  {
    IdsOfPaired(cell, |cell.entities|, x);
    hide Ids, Paired;
  }

  lemma {:induction false} IdsOfCells(cells: seq<Cell>, x: string)
    ensures x in Ids(AllPaired(cells)) <==> exists c :: c in cells && Brings(c, x)
  {
    if cells != [] {
      var before, last := cells[..|cells| - 1], cells[|cells| - 1];
      IdsOfCells(before, x);
      IdsOfCell(last, x);
      IdsConcat(AllPaired(before), Paired(last, |last.entities|));
      assert forall c :: c in cells <==> c in before || c == last;
      assert AllPaired(cells) == AllPaired(before) + Paired(last, |last.entities|);
      hide AllPaired, Paired, Ids, Brings;
    }
  }

  lemma {:induction false} IdCount(ids: seq<string>)
    requires Distinct(ids)
    ensures |set x | x in ids| == |ids|
  {
    if ids != [] {
      var n := |ids| - 1;
      IdCount(ids[..n]);
      assert (set x | x in ids) == (set x | x in ids[..n]) + {ids[n]};
    }
  }

  /** A fill brings each external ID of its cells that was not known, once, whatever the order
      in which the concurrent fetches come back. */
  lemma ArrivalOrderIrrelevant(cells: seq<Cell>, reordered: seq<Cell>, known: set<string>)
    requires multiset(cells) == multiset(reordered)
    ensures (
      var (a, b) := (Fresh(AllPaired(cells), known), Fresh(AllPaired(reordered), known));
      && Unique(a) && Unique(b) && |a| == |b|
      && (forall x :: x in Ids(a) <==> x !in known && exists c :: c in cells && Brings(c, x))
      && Ids(a) == Ids(b))
  {
    SameCells(cells, reordered);
    forall x ensures x in Ids(AllPaired(cells)) <==> exists c :: c in cells && Brings(c, x) { IdsOfCells(cells, x); }
    FreshMeaning(AllPaired(cells), known);
    FreshMeaning(AllPaired(reordered), known);
    IdCount(ExternalIds(Fresh(AllPaired(cells), known)));
    IdCount(ExternalIds(Fresh(AllPaired(reordered), known)));
    hide Fresh, AllPaired, Unique, Brings, ExternalIds;
  }

  lemma SameCells(cells: seq<Cell>, reordered: seq<Cell>)
    requires multiset(cells) == multiset(reordered)
    ensures Ids(AllPaired(cells)) == Ids(AllPaired(reordered))
  {
    forall c ensures c in cells <==> c in reordered {
      assert c in multiset(cells) <==> c in multiset(reordered);
    }
    forall x ensures x in Ids(AllPaired(cells)) <==> x in Ids(AllPaired(reordered)) {
      IdsOfCells(cells, x);
      IdsOfCells(reordered, x);
    }
    hide Ids, AllPaired, Brings;
  }

  lemma {:induction false} MissingMeaning(items: seq<EntitySnapshot>, known: set<string>)
    ensures Ids(Missing(items, known)) == Ids(items) - known
    ensures Unique(items) ==> Unique(Missing(items, known))
    ensures forall k :: 0 <= k < |Missing(items, known)| ==> Missing(items, known)[k] in items
  {
    if items != [] {
      var before, item := items[..|items| - 1], items[|items| - 1];
      MissingMeaning(before, known);
      Snoc(Missing(before, known), item);
      Snoc(before, item);
      assert before + [item] == items;
      assert item.entity.externalId in known ==> Missing(items, known) == Missing(before, known);
      assert forall o :: o in before ==> o in items;
      hide Unique, Ids, Missing;
    }
  }

  /** The observation's reference once it was stored under its row's own ID. */
  function Rewritten(o: Observation, rows: map<string, string>): Observation {
    if o.entityId in rows then o.(entityId := rows[o.entityId]) else o
  }

  function Persisted(items: seq<EntitySnapshot>, rows: map<string, string>): (r: seq<EntitySnapshot>)
    ensures |r| == |items|
    ensures forall i :: 0 <= i < |items| ==>
      r[i] == EntitySnapshot(items[i].entity, Rewritten(items[i].observation, rows))
  {
    seq(|items|, i requires 0 <= i < |items| =>
      EntitySnapshot(items[i].entity, Rewritten(items[i].observation, rows)))
  }

  /** The live part of a fill: no fetch at all is `None`. */
  function Live(cells: Option<seq<Cell>>, known: set<string>, rows: map<string, string>): seq<EntitySnapshot> {
    if cells.None? then [] else Persisted(Fresh(AllPaired(cells.value), known), rows)
  }

  /** The stale part: no query, or a failed one, is `None`. */
  function Stale(past: Option<seq<EntitySnapshot>>, known: set<string>): seq<EntitySnapshot> {
    if past.None? then [] else TagAll(Missing(past.value, known), "stale")
  }

  /** What a viewport shows: what the store has for it, then live data, then stale data for
      what both lack. */
  function Filled(stored: seq<EntitySnapshot>, threshold: int, cells: Option<seq<Cell>>,
                  past: Option<seq<EntitySnapshot>>, rows: map<string, string>): seq<EntitySnapshot>
  {
    var cache := TagAll(stored, "live");
    if |cache| >= threshold then cache
    else
      var live := Live(cells, Ids(cache), rows);
      cache + live + Missing(Stale(past, Ids(cache)), Ids(cache) + Ids(live))
  }

  lemma SameIds(a: seq<EntitySnapshot>, b: seq<EntitySnapshot>)
    requires |a| == |b| && forall i :: 0 <= i < |a| ==> a[i].entity.externalId == b[i].entity.externalId
    ensures Ids(a) == Ids(b)
    ensures Unique(a) <==> Unique(b)
  {
    assert ExternalIds(a) == ExternalIds(b);
  }

  lemma LiveMeaning(cells: Option<seq<Cell>>, known: set<string>, rows: map<string, string>)
    ensures Unique(Live(cells, known, rows)) && Ids(Live(cells, known, rows)) !! known
  {
    if cells.Some? {
      var first := Fresh(AllPaired(cells.value), known);
      FreshMeaning(AllPaired(cells.value), known);
      SameIds(first, Persisted(first, rows));
    }
  }

  lemma StaleMeaning(past: Option<seq<EntitySnapshot>>, known: set<string>)
    ensures past.Some? && Unique(past.value) ==> Unique(Stale(past, known))
  {
    if past.Some? {
      MissingMeaning(past.value, known);
      SameIds(Missing(past.value, known), Stale(past, known));
    }
  }

  /** No external ID is shown twice when neither of the store's two answers repeats one, and
      the IDs shown are those of all three sources. */
  lemma FilledIsUnique(stored: seq<EntitySnapshot>, threshold: int, cells: Option<seq<Cell>>,
                       past: Option<seq<EntitySnapshot>>, rows: map<string, string>)
    requires Unique(stored) && (past.Some? ==> Unique(past.value))
    ensures Unique(Filled(stored, threshold, cells, past, rows))
    ensures |stored| < threshold ==>
      Ids(Filled(stored, threshold, cells, past, rows))
      == Ids(stored) + (if cells.Some? then Ids(AllPaired(cells.value)) else {})
                     + (if past.Some? then Ids(past.value) else {})
  {
    var cache := TagAll(stored, "live");
    SameIds(stored, cache);
    if |cache| < threshold {
      var known := Ids(cache);
      var live, stale := Live(cells, known, rows), Stale(past, known);
      var rest := Missing(stale, known + Ids(live));
      LiveMeaning(cells, known, rows);
      StaleMeaning(past, known);
      MissingMeaning(stale, known + Ids(live));
      if cells.Some? {
        FreshMeaning(AllPaired(cells.value), known);
        SameIds(Fresh(AllPaired(cells.value), known), live);
      }
      if past.Some? {
        MissingMeaning(past.value, known);
        SameIds(Missing(past.value, known), stale);
      }
      UniqueConcat(cache, live);
      IdsConcat(cache, live);
      UniqueConcat(cache + live, rest);
      IdsConcat(cache + live, rest);
    }
    hide Ids, Unique, Live, Stale, Fresh, Missing, AllPaired;
  }

  ghost predicate PlainLayers(items: seq<EntitySnapshot>) {
    forall i :: 0 <= i < |items| ==> ':' !in items[i].entity.layerType
  }

  function Present(items: seq<EntitySnapshot>): (r: seq<Option<Observation>>)
    ensures |r| == |items| && forall i :: 0 <= i < |items| ==> r[i] == Some(items[i].observation)
  {
    seq(|items|, i requires 0 <= i < |items| => Some(items[i].observation))
  }

  /** An item carries its composite ID, and its observation that ID or a stored row's. */
  ghost predicate ItemKeyed(item: EntitySnapshot) {
    var (e, o) := (item.entity, item.observation);
    && ':' !in e.layerType && e.id == EntityId(e.layerType, e.externalId)
    && (o.entityId == e.id || ':' !in o.entityId)
  }

  /** Sending looks observations up by entity ID, not by position: it finds an entity's own one
      exactly when that still carries the composite ID, and otherwise finds none. */
  lemma FoundIff(items: seq<EntitySnapshot>, k: nat)
    requires k < |items| && Unique(items) && forall i :: 0 <= i < |items| ==> ItemKeyed(items[i])
    ensures Snapshots.Last(Present(items), items[k].entity.id)
         == if items[k].observation.entityId == items[k].entity.id then Some(items[k].observation) else None
  {
    var id := items[k].entity.id;
    var observations := Present(items);
    forall i | 0 <= i < |items| && observations[i].value.entityId == id ensures i == k {
      assert ':' in id;
      var (a, b) := (items[i].entity, items[k].entity);
      assert a.id == b.id;
      EntityIdInjective(a.layerType, a.externalId, b.layerType, b.externalId);
    }
    Snapshots.LastMeaning(observations, id);
    hide Snapshots.Last, Unique;
  }

  /** Rows carry composite IDs, or IDs of their own, which have no colon. */
  ghost predicate PlainRows(rows: map<string, string>) {
    forall id :: id in rows ==> rows[id] == id || ':' !in rows[id]
  }

  lemma LiveIsKeyed(cells: Option<seq<Cell>>, known: set<string>, rows: map<string, string>, k: nat)
    requires cells.Some? ==> PlainLayers(AllPaired(cells.value))
    requires PlainRows(rows)
    requires k < |Live(cells, known, rows)|
    ensures (
      var item := Live(cells, known, rows)[k];
      && ItemKeyed(item)
      && item.observation.entityId == if item.entity.id in rows then rows[item.entity.id] else item.entity.id)
  {
    var first := Fresh(AllPaired(cells.value), known);
    FreshTaken(AllPaired(cells.value), known);
    assert first[k] in TagAll(AllPaired(cells.value), "live");
    var i :| 0 <= i < |AllPaired(cells.value)| && first[k] == Tag(AllPaired(cells.value)[i], "live");
    hide Fresh, AllPaired, Ids;
  }

  lemma StaleIsKeyed(past: Option<seq<EntitySnapshot>>, known: set<string>, k: nat)
    requires past.Some? ==> PlainLayers(past.value)
    requires k < |Stale(past, known)|
    ensures (
      var item := Stale(past, known)[k];
      ItemKeyed(item) && item.observation.entityId == item.entity.id)
  {
    MissingMeaning(past.value, known);
    assert Missing(past.value, known)[k] in past.value;
    hide Missing, Ids;
  }

  /** Which entities of a viewport reach the client with their observation: all but the live
      ones resolved to a row under another ID, whose observations were rewritten to that. */
  lemma {:induction false} ShownWithObservationIff(stored: seq<EntitySnapshot>, threshold: int, cells: Option<seq<Cell>>,
                                past: Option<seq<EntitySnapshot>>, rows: map<string, string>, k: nat)
    requires Unique(stored) && PlainLayers(stored)
    requires past.Some? ==> Unique(past.value) && PlainLayers(past.value)
    requires cells.Some? ==> PlainLayers(AllPaired(cells.value))
    requires PlainRows(rows)
    requires k < |Filled(stored, threshold, cells, past, rows)|
    ensures (
      var items := Filled(stored, threshold, cells, past, rows);
      var live := |stored| <= k < |stored| + |Live(cells, Ids(TagAll(stored, "live")), rows)|;
      Snapshots.Last(Present(items), items[k].entity.id)
      == if live && items[k].entity.id in rows && rows[items[k].entity.id] != items[k].entity.id
         then None else Some(items[k].observation))
  {
    var items := Filled(stored, threshold, cells, past, rows);
    FilledIsUnique(stored, threshold, cells, past, rows);
    forall i | 0 <= i < |items| ensures ItemKeyed(items[i]) {
      FilledIsKeyed(stored, threshold, cells, past, rows, i);
    }
    FilledIsKeyed(stored, threshold, cells, past, rows, k);
    FoundIff(items, k);
    hide Filled, Unique, Live, Ids, Snapshots.Last, Present, TagAll;
  }

  /** The ID of every entity row, by layer type and external ID. */
  type Rows = map<(string, string), string>

  function RowKey(e: Entity): (string, string) { (e.layerType, e.externalId) }

  /** Inserting a batch: an entity without a row gets one under its own ID, a row that is there
      keeps its ID. */
  function Create(store: Rows, entities: seq<Entity>): Rows {
    if entities == [] then store
    else
      var e := entities[|entities| - 1];
      var before := Create(store, entities[..|entities| - 1]);
      if RowKey(e) in before then before else before[RowKey(e) := e.id]
  }

  /** The rows found for a batch, by composite ID, in the layers whose lookup worked. */
  function Resolved(store: Rows, entities: seq<Entity>, readable: set<string>): map<string, string> {
    if entities == [] then map[]
    else
      var e := entities[|entities| - 1];
      var before := Resolved(store, entities[..|entities| - 1], readable);
      if e.layerType in readable && RowKey(e) in store
      then before[EntityId(e.layerType, e.externalId) := store[RowKey(e)]] else before
  }

  /** What persisting a batch resolves; a failed insert leaves the rows as they were. */
  function RowsFor(store: Rows, created: bool, entities: seq<Entity>, readable: set<string>): map<string, string> {
    Resolved(if created then Create(store, entities) else store, entities, readable)
  }

  ghost predicate Composite(e: Entity) {
    ':' !in e.layerType && e.id == EntityId(e.layerType, e.externalId)
  }

  lemma {:induction false} CreateMeaning(store: Rows, entities: seq<Entity>)
    requires forall e :: e in entities ==> Composite(e)
    ensures forall key :: key in store ==> key in Create(store, entities) && Create(store, entities)[key] == store[key]
    ensures forall key :: key in Create(store, entities) && key !in store ==>
      Create(store, entities)[key] == EntityId(key.0, key.1)
    ensures forall e :: e in entities ==> RowKey(e) in Create(store, entities)
  {
    if entities != [] {
      CreateMeaning(store, entities[..|entities| - 1]);
      assert Composite(entities[|entities| - 1]);
      hide EntityId;
    }
  }

  lemma {:induction false} ResolvedMeaning(store: Rows, entities: seq<Entity>, readable: set<string>)
    requires forall e :: e in entities ==> Composite(e)
    ensures forall e :: e in entities ==>
      (e.id in Resolved(store, entities, readable) <==> e.layerType in readable && RowKey(e) in store)
    ensures forall e :: e in entities && e.id in Resolved(store, entities, readable) ==>
      Resolved(store, entities, readable)[e.id] == store[RowKey(e)]
    ensures forall id :: id in Resolved(store, entities, readable) ==> exists e :: e in entities && e.id == id
  {
    if entities != [] {
      var before, last := entities[..|entities| - 1], entities[|entities| - 1];
      ResolvedMeaning(store, before, readable);
      assert forall e :: e in entities <==> e in before || e == last;
      forall e | e in entities && e.id == last.id ensures RowKey(e) == RowKey(last) {
        EntityIdInjective(e.layerType, e.externalId, last.layerType, last.externalId);
      }
      hide EntityId;
    }
  }

  /** From the rows as they were before the fill: a live entity loses its observation exactly
      when it had a row already, under an ID that is not its composite one, and that row was
      found. Rows that a fill inserts have composite IDs, so a store filled by this path alone
      loses none. */
  lemma {:induction false} ShownFromRowsIff(stored: seq<EntitySnapshot>, threshold: int, cells: seq<Cell>, past: Option<seq<EntitySnapshot>>,
                         store: Rows, created: bool, readable: set<string>, k: nat)
    requires Unique(stored) && PlainLayers(stored) && PlainLayers(AllPaired(cells))
    requires past.Some? ==> Unique(past.value) && PlainLayers(past.value)
    requires forall key :: key in store ==> store[key] == EntityId(key.0, key.1) || ':' !in store[key]
    ensures (
      var known := Ids(TagAll(stored, "live"));
      var rows := RowsFor(store, created, EntitiesOf(Fresh(AllPaired(cells), known)), readable);
      var items := Filled(stored, threshold, Some(cells), past, rows);
      var live := |stored| <= k < |stored| + |Live(Some(cells), known, rows)|;
      k < |items| ==>
      var e := items[k].entity;
      Snapshots.Last(Present(items), e.id)
      == if live && e.layerType in readable && RowKey(e) in store && store[RowKey(e)] != e.id
         then None else Some(items[k].observation))
  {
    var known := Ids(TagAll(stored, "live"));
    var fetched := Fresh(AllPaired(cells), known);
    var rows := RowsFor(store, created, EntitiesOf(fetched), readable);
    FetchedRows(cells, known, store, created, readable);
    if k < |Filled(stored, threshold, Some(cells), past, rows)| {
      ShownWithObservationIff(stored, threshold, Some(cells), past, rows, k);
      FilledAt(stored, threshold, Some(cells), past, rows, k);
    }
    hide *;
    if |stored| <= k < |stored| + |Live(Some(cells), known, rows)| {
      LiveEntity(cells, known, rows, k - |stored|);
    }
  }

  /** The rows after a sequence of committed batches, from an empty store. */
  function RowsAfter(batches: seq<seq<Entity>>): Rows {
    if batches == [] then map[] else Create(RowsAfter(batches[..|batches| - 1]), batches[|batches| - 1])
  }

  lemma {:induction false} RowsAreComposite(batches: seq<seq<Entity>>)
    requires forall b, e :: b in batches && e in b ==> Composite(e)
    ensures forall key :: key in RowsAfter(batches) ==> RowsAfter(batches)[key] == EntityId(key.0, key.1)
  {
    if batches != [] {
      RowsAreComposite(batches[..|batches| - 1]);
      assert batches[|batches| - 1] in batches;
      CreateMeaning(RowsAfter(batches[..|batches| - 1]), batches[|batches| - 1]);
      hide Create, EntityId;
    }
  }

  /** In a store that was filled with entities under their composite IDs only, as all writers
      here do, every entity of every filled viewport is found with its own observation. */
  lemma {:induction false} AllAreShown(stored: seq<EntitySnapshot>, threshold: int, cells: seq<Cell>, past: Option<seq<EntitySnapshot>>,
                    batches: seq<seq<Entity>>, created: bool, readable: set<string>, k: nat)
    requires Unique(stored) && PlainLayers(stored) && PlainLayers(AllPaired(cells))
    requires past.Some? ==> Unique(past.value) && PlainLayers(past.value)
    requires forall b, e :: b in batches && e in b ==> Composite(e)
    ensures (
      var fetched := EntitiesOf(Fresh(AllPaired(cells), Ids(TagAll(stored, "live"))));
      var items := Filled(stored, threshold, Some(cells), past, RowsFor(RowsAfter(batches), created, fetched, readable));
      k < |items| ==> Snapshots.Last(Present(items), items[k].entity.id) == Some(items[k].observation))
  {
    hide *;
    var store := RowsAfter(batches);
    RowsAreComposite(batches);
    ShownFromRowsIff(stored, threshold, cells, past, store, created, readable, k);
    var fetched := EntitiesOf(Fresh(AllPaired(cells), Ids(TagAll(stored, "live"))));
    var rows := RowsFor(store, created, fetched, readable);
    FetchedRows(cells, Ids(TagAll(stored, "live")), store, created, readable);
    FilledIsComposite(stored, threshold, Some(cells), past, rows, k);
  }

  lemma FilledIsComposite(stored: seq<EntitySnapshot>, threshold: int, cells: Option<seq<Cell>>,
                          past: Option<seq<EntitySnapshot>>, rows: map<string, string>, k: nat)
    requires PlainLayers(stored) && (past.Some? ==> PlainLayers(past.value)) && PlainRows(rows)
    requires cells.Some? ==> PlainLayers(AllPaired(cells.value))
    ensures k < |Filled(stored, threshold, cells, past, rows)| ==> (
      var e := Filled(stored, threshold, cells, past, rows)[k].entity;
      e.id == EntityId(RowKey(e).0, RowKey(e).1))
  {
    if k < |Filled(stored, threshold, cells, past, rows)| { FilledIsKeyed(stored, threshold, cells, past, rows, k); }
    hide Filled, PlainLayers, AllPaired, EntityId, Live, TagAll, Ids;
  }

  /** A row under another ID, which must come from elsewhere, does lose its entity's observation:
      here for one live entity in an empty viewport. */
  lemma ForeignRowHidesObservation(e: Entity, o: Observation, row: string)
    requires ':' !in e.layerType && ':' !in row
    ensures (
      var cells, store: Rows := [Cell([Some(e)], [o])], map[RowKey(e) := row];
      var rows := RowsFor(store, true, EntitiesOf(Fresh(AllPaired(cells), {})), {e.layerType});
      var items := Filled([], 1, Some(cells), None, rows);
      && |items| == 1 && items[0].entity.externalId == e.externalId
      && Snapshots.Last(Present(items), items[0].entity.id) == None)
  {
    var cells, store: Rows := [Cell([Some(e)], [o])], map[RowKey(e) := row];
    OneFetched(e, o);
    assert Ids(TagAll([], "live")) == {};
    var rows := RowsFor(store, true, EntitiesOf(Fresh(AllPaired(cells), {})), {e.layerType});
    assert |Live(Some(cells), {}, rows)| == 1 && Filled([], 1, Some(cells), None, rows) == Live(Some(cells), {}, rows);
    assert ':' in EntityId(e.layerType, e.externalId);
    ShownFromRowsIff([], 1, cells, None, store, true, {e.layerType}, 0);
    hide Fresh, AllPaired, Filled, RowsFor, Snapshots.Last, Present, EntityId;
  }

  lemma OneFetched(e: Entity, o: Observation)
    ensures AllPaired([Cell([Some(e)], [o])]) == [EntitySnapshot(e, o)]
    ensures Fresh([EntitySnapshot(e, o)], {}) == [Tag(EntitySnapshot(e, o), "live")]
  {
    var cell := Cell([Some(e)], [o]);
    assert [cell][..0] == [];
    assert Paired(cell, 0) == [] && Paired(cell, 1) == [EntitySnapshot(e, o)];
    assert [EntitySnapshot(e, o)][..0] == [];
  }

  lemma LiveEntity(cells: seq<Cell>, known: set<string>, rows: map<string, string>, i: nat)
    requires i < |Live(Some(cells), known, rows)|
    ensures Live(Some(cells), known, rows)[i].entity in EntitiesOf(Fresh(AllPaired(cells), known))
  {
    hide Fresh, AllPaired;
    assert Live(Some(cells), known, rows)[i].entity == EntitiesOf(Fresh(AllPaired(cells), known))[i];
  }

  /** What the rows resolved for a fill say of each fetched entity. */
  lemma FetchedRows(cells: seq<Cell>, known: set<string>, store: Rows, created: bool, readable: set<string>)
    requires PlainLayers(AllPaired(cells))
    requires forall key :: key in store ==> store[key] == EntityId(key.0, key.1) || ':' !in store[key]
    ensures (
      var entities := EntitiesOf(Fresh(AllPaired(cells), known));
      var rows := RowsFor(store, created, entities, readable);
      && PlainRows(rows)
      && forall e :: e in entities ==>
           ((e.id in rows && rows[e.id] != e.id)
            <==> (e.layerType in readable && RowKey(e) in store && store[RowKey(e)] != e.id)))
  {
    var entities := EntitiesOf(Fresh(AllPaired(cells), known));
    FetchedAreComposite(cells, known);
    CreateMeaning(store, entities);
    var after := if created then Create(store, entities) else store;
    ResolvedMeaning(after, entities, readable);
    hide Fresh, AllPaired, Create, Resolved, EntitiesOf, PlainLayers;
  }

  lemma FetchedAreComposite(cells: seq<Cell>, known: set<string>)
    requires PlainLayers(AllPaired(cells))
    ensures forall e :: e in EntitiesOf(Fresh(AllPaired(cells), known)) ==> Composite(e)
  {
    var items, fetched := AllPaired(cells), Fresh(AllPaired(cells), known);
    FreshTaken(items, known);
    forall e | e in EntitiesOf(fetched) ensures Composite(e) {
      var i :| 0 <= i < |fetched| && EntitiesOf(fetched)[i] == e;
      assert fetched[i] in TagAll(items, "live");
      var j :| 0 <= j < |items| && Tag(items[j], "live") == fetched[i];
    }
    hide Fresh, AllPaired;
  }

  lemma FilledAt(stored: seq<EntitySnapshot>, threshold: int, cells: Option<seq<Cell>>,
                 past: Option<seq<EntitySnapshot>>, rows: map<string, string>, k: nat)
    requires k < |Filled(stored, threshold, cells, past, rows)|
    ensures (
      var known := Ids(TagAll(stored, "live"));
      var live := Live(cells, known, rows);
      var rest := Missing(Stale(past, known), known + Ids(live));
      && (k < |stored| || k < |stored| + |live| || k < |stored| + |live| + |rest|)
      && Filled(stored, threshold, cells, past, rows)[k]
         == if k < |stored| then Tag(stored[k], "live")
            else if k < |stored| + |live| then live[k - |stored|] else rest[k - |stored| - |live|])
  {
    hide Ids, Live, Stale, Missing, Tag;
  }

  lemma FilledIsKeyed(stored: seq<EntitySnapshot>, threshold: int, cells: Option<seq<Cell>>,
                      past: Option<seq<EntitySnapshot>>, rows: map<string, string>, k: nat)
    requires PlainLayers(stored)
    requires past.Some? ==> PlainLayers(past.value)
    requires cells.Some? ==> PlainLayers(AllPaired(cells.value))
    requires PlainRows(rows)
    requires k < |Filled(stored, threshold, cells, past, rows)|
    ensures (
      var item := Filled(stored, threshold, cells, past, rows)[k];
      var live := |stored| <= k < |stored| + |Live(cells, Ids(TagAll(stored, "live")), rows)|;
      && ItemKeyed(item)
      && item.observation.entityId
         == if live && item.entity.id in rows then rows[item.entity.id] else item.entity.id)
  {
    hide *;
    var known := Ids(TagAll(stored, "live"));
    var live := Live(cells, known, rows);
    FilledAt(stored, threshold, cells, past, rows, k);
    if k < |stored| {
      StoredIsKeyed(stored, k);
    } else if k < |stored| + |live| {
      LiveIsKeyed(cells, known, rows, k - |stored|);
    } else {
      RestIsKeyed(past, known, known + Ids(live), k - |stored| - |live|);
    }
  }

  lemma StoredIsKeyed(stored: seq<EntitySnapshot>, k: nat)
    requires PlainLayers(stored) && k < |stored|
    ensures ItemKeyed(Tag(stored[k], "live"))
    ensures Tag(stored[k], "live").observation.entityId == Tag(stored[k], "live").entity.id
  {
  }

  lemma RestIsKeyed(past: Option<seq<EntitySnapshot>>, known: set<string>, taken: set<string>, k: nat)
    requires past.Some? ==> PlainLayers(past.value)
    requires k < |Missing(Stale(past, known), taken)|
    ensures (
      var item := Missing(Stale(past, known), taken)[k];
      ItemKeyed(item) && item.observation.entityId == item.entity.id)
  {
    var stale := Stale(past, known);
    MissingMeaning(stale, taken);
    assert Missing(stale, taken)[k] in stale;
    var i :| 0 <= i < |stale| && stale[i] == Missing(stale, taken)[k];
    StaleIsKeyed(past, known, i);
    hide Ids, Stale, Missing, Unique, ItemKeyed;
  }

  /** The merge of the concurrent fetches, in the order `cells` in which they came back. */
  method MergeCells(cells: seq<Cell>, existing: seq<Entity>, ghost known: seq<EntitySnapshot>)
    returns (entities: seq<Entity>, observations: seq<Observation>)
    requires existing == EntitiesOf(known)
    ensures entities == EntitiesOf(Fresh(AllPaired(cells), Ids(known)))
    ensures observations == ObservationsOf(Fresh(AllPaired(cells), Ids(known)))
  {
    var existingIds := CollectIds(existing, known);
    var seen: set<string> := {};
    entities, observations := [], [];
    ghost var kept: seq<EntitySnapshot> := [];
    NothingPaired(existingIds);
    hide Fresh, AllPaired, Paired, Ids, EntitiesOf, ObservationsOf;
    for c := 0 to |cells|
      invariant kept == Fresh(AllPaired(cells[..c]), existingIds)
      invariant seen == Ids(kept) && entities == EntitiesOf(kept) && observations == ObservationsOf(kept)
    {
      var r := cells[c];
      ghost var before := AllPaired(cells[..c]);
      CellMore(cells, c);
      for i := 0 to |r.entities|
        invariant kept == Fresh(before + Paired(r, i), existingIds)
        invariant seen == Ids(kept) && entities == EntitiesOf(kept) && observations == ObservationsOf(kept)
      {
        PairedMore(before, r, i, existingIds);
        if r.entities[i].None? || i >= |r.observations| {
          continue;
        }
        var e, o := r.entities[i].value, r.observations[i];
        if e.externalId in existingIds || e.externalId in seen {
          continue;
        }
        seen := seen + {e.externalId};
        e, o := e.(source := "live"), o.(source := "live");
        var compositeId := EntityId(e.layerType, e.externalId);
        e, o := e.(id := compositeId), o.(entityId := compositeId);
        entities, observations := entities + [e], observations + [o];
        Snoc(kept, EntitySnapshot(e, o));
        UnzipConcat(kept, [EntitySnapshot(e, o)]);
        kept := kept + [EntitySnapshot(e, o)];
      }
    }
    assert cells[..|cells|] == cells;
  }

  lemma NothingPaired(known: set<string>)
    ensures AllPaired([]) == [] && Fresh([], known) == [] && Ids([]) == {}
    ensures EntitiesOf([]) == [] && ObservationsOf([]) == []
  {
  }

  lemma CellMore(cells: seq<Cell>, c: nat)
    requires c < |cells|
    ensures AllPaired(cells[..c]) + Paired(cells[c], 0) == AllPaired(cells[..c])
    ensures AllPaired(cells[..c + 1]) == AllPaired(cells[..c]) + Paired(cells[c], |cells[c].entities|)
  {
    assert cells[..c + 1][..c] == cells[..c];
  }

  lemma PairedMore(before: seq<EntitySnapshot>, cell: Cell, i: nat, known: set<string>)
    ensures (
      var kept := Fresh(before + Paired(cell, i), known);
      Fresh(before + Paired(cell, i + 1), known)
      == if !IsPaired(cell, i) || PairAt(cell, i).entity.externalId in known + Ids(kept) then kept
         else kept + [Tag(PairAt(cell, i), "live")])
  {
    var items := before + Paired(cell, i + 1);
    if IsPaired(cell, i) {
      assert items[..|items| - 1] == before + Paired(cell, i);
    } else {
      assert items == before + Paired(cell, i);
    }
    hide Ids, Tag;
  }

  method CollectIds(entities: seq<Entity>, ghost items: seq<EntitySnapshot>) returns (ids: set<string>)
    requires entities == EntitiesOf(items)
    ensures ids == Ids(items)
  {
    ids := {};
    for i := 0 to |entities|
      invariant ids == Ids(items[..i])
    {
      Snoc(items[..i], items[i]);
      assert items[..i + 1] == items[..i] + [items[i]];
      ids := ids + {entities[i].externalId};
    }
    assert items[..|items|] == items;
  }

  /** The array stands for the observations themselves, which this shares with its caller: the
      rewriting shows in what the fill returns. `valid` is what is written to the store: the
      observations of the resolved entities, at `picked`, rewritten. */
  method PersistOnDemand(observations: array<Observation>, rows: map<string, string>)
    returns (valid: seq<Observation>, ghost picked: seq<nat>)
    modifies observations
    ensures forall i :: 0 <= i < observations.Length ==> observations[i] == Rewritten(old(observations[i]), rows)
    ensures forall i :: 0 <= i < observations.Length ==>
      var o := old(observations[i]);
      observations[i] == Observation(if o.entityId in rows then rows[o.entityId] else o.entityId, o.source, o.payload)
    ensures Ascending(picked, observations.Length) && |valid| == |picked|
    ensures forall i: nat :: i < observations.Length ==> (i in picked <==> old(observations[i].entityId) in rows)
    ensures forall k :: 0 <= k < |valid| ==> valid[k] == observations[picked[k]]
  {
    valid, picked := [], [];
    ghost var before := observations[..];
    for i := 0 to observations.Length
      invariant forall k :: 0 <= k < i ==> observations[k] == Rewritten(before[k], rows)
      invariant forall k :: i <= k < observations.Length ==> observations[k] == before[k]
      invariant Ascending(picked, i) && |valid| == |picked|
      invariant forall k: nat :: k < i ==> (k in picked <==> before[k].entityId in rows)
      invariant forall k :: 0 <= k < |valid| ==> valid[k] == observations[picked[k]]
    {
      PickMore(picked, i);
      if observations[i].entityId in rows {
        picked := picked + [i];
        observations[i] := observations[i].(entityId := rows[observations[i].entityId]);
        valid := valid + [observations[i]];
      }
    }
  }

  /** A live fill: merge, store what is new, and return it. */
  method DoOnDemandFetch(cells: Option<seq<Cell>>, existing: seq<Entity>, rows: map<string, string>,
                         ghost known: seq<EntitySnapshot>)
    returns (entities: seq<Entity>, observations: seq<Observation>)
    requires existing == EntitiesOf(known)
    ensures entities == EntitiesOf(Live(cells, Ids(known), rows))
    ensures observations == ObservationsOf(Live(cells, Ids(known), rows))
  {
    if cells.None? { return [], []; }
    var merged: seq<Observation>;
    entities, merged := MergeCells(cells.value, existing, known);
    if entities == [] { return [], []; }
    var shared := new Observation[|merged|](i requires 0 <= i < |merged| => merged[i]);
    var valid, _ := PersistOnDemand(shared, rows);
    observations := shared[..];
  }

  /** A stale fill; a failed query is `None`. */
  method DoBackfill(snapshots: Option<seq<EntitySnapshot>>, existing: seq<Entity>, ghost known: seq<EntitySnapshot>)
    returns (entities: seq<Entity>, observations: seq<Observation>)
    requires existing == EntitiesOf(known)
    ensures entities == EntitiesOf(Stale(snapshots, Ids(known)))
    ensures observations == ObservationsOf(Stale(snapshots, Ids(known)))
  {
    entities, observations := [], [];
    if snapshots.None? || snapshots.value == [] { return; }
    var snaps := snapshots.value;
    var existingIds := CollectIds(existing, known);
    ghost var kept: seq<EntitySnapshot> := [];
    for i := 0 to |snaps|
      invariant kept == Missing(snaps[..i], existingIds)
      invariant entities == EntitiesOf(TagAll(kept, "stale")) && observations == ObservationsOf(TagAll(kept, "stale"))
    {
      MissingMore(snaps, i, existingIds);
      if snaps[i].entity.externalId in existingIds {
        continue;
      }
      var e, o := snaps[i].entity.(source := "stale"), snaps[i].observation.(source := "stale");
      var compositeId := EntityId(e.layerType, e.externalId);
      e, o := e.(id := compositeId), o.(entityId := compositeId);
      entities, observations := entities + [e], observations + [o];
      kept := kept + [snaps[i]];
    }
    assert snaps[..|snaps|] == snaps;
  }

  /** Both fills and their merge; the stale one only closes gaps. */
  method FetchSparseRegion(cells: Option<seq<Cell>>, snapshots: Option<seq<EntitySnapshot>>, rows: map<string, string>,
                           cacheEntities: seq<Entity>, ghost cache: seq<EntitySnapshot>)
    returns (entities: seq<Entity>, observations: seq<Observation>)
    requires cacheEntities == EntitiesOf(cache)
    ensures (
      var live := Live(cells, Ids(cache), rows);
      var rest := Missing(Stale(snapshots, Ids(cache)), Ids(cache) + Ids(live));
      entities == EntitiesOf(cache + live + rest) && observations == ObservationsOf(live + rest))
  {
    hide *;
    var odEntities, odObservations := DoOnDemandFetch(cells, cacheEntities, rows, cache);
    var bfEntities, bfObservations := DoBackfill(snapshots, cacheEntities, cache);
    ghost var live, stale := Live(cells, Ids(cache), rows), Stale(snapshots, Ids(cache));
    UnzipConcat(cache, live);
    IdsConcat(cache, live);
    entities, observations := cacheEntities + odEntities, odObservations;
    var existingIds := CollectIds(entities, cache + live);
    ghost var rest := Missing(stale[..0], existingIds);
    NoneMissing(existingIds);
    for i := 0 to |bfEntities|
      invariant rest == Missing(stale[..i], existingIds)
      invariant entities == EntitiesOf(cache + live) + EntitiesOf(rest)
      invariant observations == odObservations + ObservationsOf(rest)
    {
      MissingMore(stale, i, existingIds);
      if bfEntities[i].externalId !in existingIds {
        entities, observations := entities + [bfEntities[i]], observations + [bfObservations[i]];
        UnzipConcat(rest, [stale[i]]);
        rest := rest + [stale[i]];
      }
    }
    assert stale[..|stale|] == stale;
    UnzipConcat(cache + live, rest);
    UnzipConcat(live, rest);
  }

  lemma NoneMissing(known: set<string>)
    ensures Missing([], known) == [] && EntitiesOf([]) == [] && ObservationsOf([]) == []
  {
  }

  lemma MissingMore(items: seq<EntitySnapshot>, i: nat, known: set<string>)
    requires i < |items|
    ensures Missing(items[..i + 1], known)
         == Missing(items[..i], known) + if items[i].entity.externalId in known then [] else [items[i]]
  {
    assert items[..i + 1][..i] == items[..i];
  }

  lemma UnzipConcat(a: seq<EntitySnapshot>, b: seq<EntitySnapshot>)
    ensures EntitiesOf(a + b) == EntitiesOf(a) + EntitiesOf(b)
    ensures ObservationsOf(a + b) == ObservationsOf(a) + ObservationsOf(b)
    ensures |b| == 1 ==> EntitiesOf(b) == [b[0].entity] && ObservationsOf(b) == [b[0].observation]
  {
  }

  /** A viewport's snapshot: observations appended to the store's line up with the entities. A
      viewport with at least `threshold` stored items shows those and nothing else, whatever the
      other sources have; what a sparser one shows is said at `FillSources.FilledIsFrom`. */
  method BuildViewport(stored: seq<EntitySnapshot>, threshold: int, cells: Option<seq<Cell>>,
                       snapshots: Option<seq<EntitySnapshot>>, rows: map<string, string>)
    returns (entities: seq<Entity>, observations: seq<Observation>)
    ensures entities == EntitiesOf(Filled(stored, threshold, cells, snapshots, rows))
    ensures observations == ObservationsOf(Filled(stored, threshold, cells, snapshots, rows))
    ensures |stored| >= threshold ==> |entities| == |observations| == |stored|
    ensures |stored| >= threshold ==> forall k :: 0 <= k < |stored| ==>
      var (e, o) := (stored[k].entity, stored[k].observation);
      && entities[k] == Entity(e.layerType + ":" + e.externalId, e.layerType, e.externalId, "live")
      && observations[k] == Observation(e.layerType + ":" + e.externalId, "live", o.payload)
  {
    entities, observations := SnapshotsToLive(stored);
    ghost var cache := TagAll(stored, "live");
    hide TagAll, Live, Stale, Missing, Ids;
    if |entities| < threshold {
      var sparseObservations;
      entities, sparseObservations := FetchSparseRegion(cells, snapshots, rows, entities, cache);
      observations := observations + sparseObservations;
    }
  }

  method SnapshotsToLive(snaps: seq<EntitySnapshot>)
    returns (entities: seq<Entity>, observations: seq<Observation>)
    ensures entities == EntitiesOf(TagAll(snaps, "live")) && observations == ObservationsOf(TagAll(snaps, "live"))
  {
    entities, observations := [], [];
    for i := 0 to |snaps|
      invariant entities == EntitiesOf(TagAll(snaps[..i], "live"))
      invariant observations == ObservationsOf(TagAll(snaps[..i], "live"))
    {
      var id := EntityId(snaps[i].entity.layerType, snaps[i].entity.externalId);
      entities := entities + [snaps[i].entity.(id := id, source := "live")];
      observations := observations + [snaps[i].observation.(entityId := id, source := "live")];
    }
    assert snaps[..|snaps|] == snaps;
  }
}
