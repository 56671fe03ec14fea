/** Many runs of one operation against one store of insights, with time passing and expired
    insights removed between and after them. */
module DedupRuns {
  import opened Wrappers
  import opened Selections
  import opened Dedup

  datatype Insight = Insight(key: Option<Key>, createdAt: int, expiresAt: Option<int>)

  /** The operation's configuration; insights are kept forever without a retention. */
  datatype Setup = Setup(fields: seq<string>, window: int, retention: Option<int>)

  /** An insight as it was stored: by which run, whether that run's lookup of recent keys had
      worked, and the record the item was about, if it was faithful to one. */
  datatype Entry = Entry(run: nat, looked: bool, about: Option<Metadata>, insight: Insight)

  datatype State = State(now: int, runs: nat, rows: seq<Insight>, history: seq<Entry>)

  /** What the environment decides: how long things take, what a run sees, whether its lookup
      fails, what the model answers (`None` for an item that is no object) and which items
      pass the attention floor and are written. */
  datatype Step =
    | Tick(elapsed: nat)
    | Cleanup
    | Run(records: seq<AnalysisRecord>, fails: bool, thinking: nat, items: seq<Option<Item>>, written: set<nat>)

  predicate Expired(insight: Insight, now: int) {
    insight.expiresAt.Some? && insight.expiresAt.value <= now
  }

  function Unexpired(rows: seq<Insight>, now: int): seq<Insight> {
    if rows == [] then []
    else
      var row := rows[|rows| - 1];
      Unexpired(rows[..|rows| - 1], now) + if Expired(row, now) then [] else [row]
  }

  /** The keys stored since a time. */
  function RecentKeys(rows: seq<Insight>, since: int): set<Key> {
    if rows == [] then {}
    else
      var row := rows[|rows| - 1];
      RecentKeys(rows[..|rows| - 1], since) + if row.key.Some? && row.createdAt >= since then {row.key.value} else {}
  }

  function Stamp(key: Option<Key>, at: int, retention: Option<int>): Insight {
    Insight(key, at, if retention.None? then None else Some(at + retention.value))
  }

  /** The insights for the first `n` items of an answer. */
  function Insights(items: seq<Option<Item>>, n: nat, records: seq<AnalysisRecord>, fields: Option<seq<string>>,
                    norm: string -> string, at: int, retention: Option<int>, written: set<nat>): seq<Insight>
    requires n <= |items|
  {
    if n == 0 then []
    else
      var before := Insights(items, n - 1, records, fields, norm, at, retention, written);
      if items[n - 1].None? || n - 1 !in written then before
      else
        var item := items[n - 1].value;
        var key := if fields.None? then None else Some(StoredKey(item, Matching(item, records, norm), fields.value));
        before + [Stamp(key, at, retention)]
  }

  /** An item's insight: with the time, an expiry if there is a retention, and a key if there is
      a deduplication. */
  ghost predicate StoredAs(insight: Insight, item: Option<Item>, records: seq<AnalysisRecord>, dedup: Option<seq<string>>,
                           norm: string -> string, at: int, retention: Option<int>)
  {
    && item.Some? && insight.createdAt == at
    && insight.expiresAt == (if retention.None? then None else Some(at + retention.value))
    && (insight.key.None? <==> dedup.None?)
    && (dedup.Some? ==>
          insight.key.value == StoredKey(item.value, Matching(item.value, records, norm), dedup.value))
  }

  lemma {:induction false} InsightsAt(items: seq<Option<Item>>, n: nat, records: seq<AnalysisRecord>, fields: Option<seq<string>>,
                                       norm: string -> string, at: int, retention: Option<int>, written: set<nat>)
    returns (picked: seq<nat>)
    requires n <= |items|
    ensures (
      var insights := Insights(items, n, records, fields, norm, at, retention, written);
      && Ascending(picked, n) && |insights| == |picked|
      && (forall i: nat :: i < n ==> (i in picked <==> items[i].Some? && i in written))
      && forall k :: 0 <= k < |picked| ==>
           StoredAs(insights[k], items[picked[k]], records, fields, norm, at, retention))
  {
    picked := [];
    if n > 0 {
      picked := InsightsAt(items, n - 1, records, fields, norm, at, retention, written);
      PickMore(picked, n - 1);
      LastInsight(items, n, records, fields, norm, at, retention, written);
      hide Insights, StoredAs, StoredKey, Matching;
      if items[n - 1].Some? && n - 1 in written { picked := picked + [n - 1]; }
    }
  }

  lemma LastInsight(items: seq<Option<Item>>, n: nat, records: seq<AnalysisRecord>, fields: Option<seq<string>>,
                    norm: string -> string, at: int, retention: Option<int>, written: set<nat>)
    requires 0 < n <= |items|
    ensures (
      var insights := Insights(items, n, records, fields, norm, at, retention, written);
      var before := Insights(items, n - 1, records, fields, norm, at, retention, written);
      if items[n - 1].Some? && n - 1 in written then
        && |insights| == |before| + 1 && insights == before + [insights[|before|]]
        && StoredAs(insights[|before|], items[n - 1], records, fields, norm, at, retention)
      else insights == before)
  {
    hide StoredKey, Matching;
  }

  /** One insight per usable item; an answer without items leaves a summary without a key.
      `gated` items fall below the attention floor, `failed` ones could not be written. */
  method StoreResultsArray(items: seq<Option<Item>>, records: seq<AnalysisRecord>, dedup: Option<seq<string>>,
                           norm: string -> string, at: int, retention: Option<int>, gated: set<nat>, failed: set<nat>,
                           summaryGated: bool, ghost written: set<nat>)
    returns (insights: seq<Insight>, ghost picked: seq<nat>)
    requires forall i: nat :: i < |items| ==> (i in written <==> i !in gated && i !in failed)
    ensures items != [] ==> Ascending(picked, |items|) && |insights| == |picked|
    ensures items != [] ==> forall i: nat :: i < |items| ==>
      (i in picked <==> items[i].Some? && i !in gated && i !in failed)
    ensures items != [] ==> forall k :: 0 <= k < |picked| ==>
      StoredAs(insights[k], items[picked[k]], records, dedup, norm, at, retention)
    ensures items != [] ==> insights == Insights(items, |items|, records, dedup, norm, at, retention, written)
    ensures items == [] ==> insights == if summaryGated then [] else [Stamp(None, at, retention)]
  {
    insights, picked := [], [];
    if items == [] {
      if !summaryGated { insights := [Stamp(None, at, retention)]; }
      return;
    }
    for i := 0 to |items|
      invariant insights == Insights(items, i, records, dedup, norm, at, retention, written)
    {
      if items[i].None? { continue; }
      var item := items[i].value;
      var matched, _ := MatchRecordsByExternalId(item, records, norm);
      var key: Option<Key> := None;
      if dedup.Some? {
        var base := DedupRecordForItem(item, matched, dedup.value);
        var k := ComputeDedupKey(AnalysisRecord("", "", base), dedup.value);
        AgreeingKeys(base, ResolvedAll(item, matched, dedup.value), dedup.value);
        key := Some(k);
      }
      if i in gated || i in failed { continue; }
      insights := insights + [Stamp(key, at, retention)];
    }
    picked := InsightsAt(items, |items|, records, dedup, norm, at, retention, written);
    hide Insights, Ascending, StoredAs;
  }

  /** End to end: of records that share an external ID across layers, the one whose layer an item
      names is the one under whose key the item is stored. */
  lemma NamedLayerIsStored(item: Item, records: seq<AnalysisRecord>, a: nat, fields: seq<string>, norm: string -> string,
                           at: int, retention: Option<int>)
    requires a < |records| && records[a].layerType != ""
    requires "entity_external_id" in item && item["entity_external_id"].Text? && item["entity_external_id"].text != ""
    requires norm(item["entity_external_id"].text) == norm(records[a].externalId)
    requires "entity_layer_type" in item && item["entity_layer_type"] == Text(records[a].layerType)
    requires forall i: nat :: i < |records| && i != a && norm(records[i].externalId) == norm(records[a].externalId) ==>
      records[i].layerType != records[a].layerType
    requires forall f :: f in fields && f in item ==>
      item[f].text == if f in records[a].metadata then records[a].metadata[f] else ""
    ensures Insights([Some(item)], 1, records, Some(fields), norm, at, retention, {0})
         == [Insight(Some(KeyOf(records[a].metadata, fields)), at, if retention.None? then None else Some(at + retention.value))]
  {
    NamedLayerKey(item, records, a, fields, norm);
    hide KeyOf, StoredKey, Matching;
    assert Insights([Some(item)], 0, records, Some(fields), norm, at, retention, {0}) == [];
  }

  /** The record an item is about, when it omits or repeats each of its key fields. */
  ghost function About(item: Item, records: seq<AnalysisRecord>, fields: seq<string>, norm: string -> string): Option<Metadata> {
    var matched := Matching(item, records, norm);
    if Faithful(item, matched, fields) then Some(matched[Best(item, matched)].metadata) else None
  }

  /** The entries a run adds, for the first `n` items. */
  ghost function Entries(run: Entry, items: seq<Option<Item>>, n: nat, records: seq<AnalysisRecord>, setup: Setup,
                         norm: string -> string, at: int, written: set<nat>): seq<Entry>
    requires n <= |items|
  {
    if n == 0 then []
    else
      var before := Entries(run, items, n - 1, records, setup, norm, at, written);
      if items[n - 1].None? || n - 1 !in written then before
      else
        var item := items[n - 1].value;
        var key := StoredKey(item, Matching(item, records, norm), setup.fields);
        before + [run.(about := About(item, records, setup.fields, norm), insight := Stamp(Some(key), at, setup.retention))]
  }

  function InsightsOf(entries: seq<Entry>): (r: seq<Insight>)
    ensures |r| == |entries| && forall i :: 0 <= i < |entries| ==> r[i] == entries[i].insight
  {
    seq(|entries|, i requires 0 <= i < |entries| => entries[i].insight)
  }

  /** The entries are those of the insights that storing the answer creates. */
  lemma {:induction false} EntriesAreInsights(run: Entry, items: seq<Option<Item>>, n: nat, records: seq<AnalysisRecord>,
                                              setup: Setup, norm: string -> string, at: int, written: set<nat>)
    requires n <= |items|
    ensures InsightsOf(Entries(run, items, n, records, setup, norm, at, written))
         == Insights(items, n, records, Some(setup.fields), norm, at, setup.retention, written)
  {
    if n > 0 { EntriesAreInsights(run, items, n - 1, records, setup, norm, at, written); }
  }

  /** The records a run passes on to the model. */
  function Filtered(s: State, records: seq<AnalysisRecord>, fails: bool, setup: Setup): seq<AnalysisRecord> {
    if fails then records else Kept(records, setup.fields, RecentKeys(s.rows, s.now - setup.window))
  }

  ghost function Added(s: State, step: Step, setup: Setup, norm: string -> string): seq<Entry>
    requires step.Run?
  {
    var records := Filtered(s, step.records, step.fails, setup);
    var at := s.now + step.thinking;
    var run := Entry(s.runs, !step.fails, None, Stamp(None, at, setup.retention));
    if records == [] then []
    else if step.items == [] then if 0 in step.written then [run] else []
    else Entries(run, step.items, |step.items|, records, setup, norm, at, step.written)
  }

  ghost function Next(s: State, step: Step, setup: Setup, norm: string -> string): State {
    match step
    case Tick(elapsed) => s.(now := s.now + elapsed)
    case Cleanup => s.(rows := Unexpired(s.rows, s.now))
    case Run(_, _, thinking, _, _) =>
      var added := Added(s, step, setup, norm);
      State(s.now + thinking, s.runs + 1, s.rows + InsightsOf(added), s.history + added)
  }

  ghost function Exec(steps: seq<Step>, setup: Setup, norm: string -> string): State {
    if steps == [] then State(0, 0, [], [])
    else Next(Exec(steps[..|steps| - 1], setup, norm), steps[|steps| - 1], setup, norm)
  }

  lemma {:induction false} UnexpiredMeaning(rows: seq<Insight>, now: int)
    ensures forall row :: row in Unexpired(rows, now) <==> row in rows && !Expired(row, now)
  {
    if rows != [] {
      UnexpiredMeaning(rows[..|rows| - 1], now);
      assert rows == rows[..|rows| - 1] + [rows[|rows| - 1]];
    }
  }

  ghost predicate StoredSince(rows: seq<Insight>, key: Key, since: int) {
    exists row :: row in rows && row.key == Some(key) && row.createdAt >= since
  }

  lemma {:induction false} RecentMeaning(rows: seq<Insight>, key: Key, since: int)
    ensures key in RecentKeys(rows, since) <==> StoredSince(rows, key, since)
  {
    if rows != [] {
      RecentMeaning(rows[..|rows| - 1], key, since);
      assert rows == rows[..|rows| - 1] + [rows[|rows| - 1]];
    }
  }

  /** What every new entry is: stamped with its run's time, and when faithful keyed as the
      record it is about, one of those that passed the filter. */
  ghost predicate IsNew(e: Entry, s: State, step: Step, setup: Setup)
    requires step.Run?
  {
    && e.run == s.runs && e.looked == !step.fails
    && e.insight == Stamp(e.insight.key, s.now + step.thinking, setup.retention)
    && (e.about.Some? ==>
      && e.insight.key == Some(KeyOf(e.about.value, setup.fields))
      && exists r :: r in Filtered(s, step.records, step.fails, setup) && r.metadata == e.about.value)
  }

  lemma ItemIsNew(item: Item, e: Entry, s: State, step: Step, setup: Setup, norm: string -> string)
    requires step.Run?
    requires e.run == s.runs && e.looked == !step.fails
    requires (
      var records := Filtered(s, step.records, step.fails, setup);
      && e.about == About(item, records, setup.fields, norm)
      && e.insight == Stamp(Some(StoredKey(item, Matching(item, records, norm), setup.fields)), s.now + step.thinking, setup.retention))
    ensures IsNew(e, s, step, setup)
  {
    var records := Filtered(s, step.records, step.fails, setup);
    var matched := Matching(item, records, norm);
    MatchingMeaning(item, records, norm);
    hide Matching, Filtered, KeyOf, StoredKey, Best;
    if Faithful(item, matched, setup.fields) {
      FaithfulKey(item, matched, setup.fields);
      assert matched[Best(item, matched)] in records;
    }
  }

  lemma {:induction false} EntriesAreNew(n: nat, s: State, step: Step, setup: Setup, norm: string -> string)
    requires step.Run? && n <= |step.items|
    ensures (
      var records := Filtered(s, step.records, step.fails, setup);
      var at := s.now + step.thinking;
      var run := Entry(s.runs, !step.fails, None, Stamp(None, at, setup.retention));
      forall e :: e in Entries(run, step.items, n, records, setup, norm, at, step.written) ==> IsNew(e, s, step, setup))
  {
    hide Filtered, IsNew, StoredKey, About, Matching, Stamp;
    if n > 0 {
      EntriesAreNew(n - 1, s, step, setup, norm);
      if step.items[n - 1].Some? {
        var item := step.items[n - 1].value;
        var records := Filtered(s, step.records, step.fails, setup);
        var key := StoredKey(item, Matching(item, records, norm), setup.fields);
        var e := Entry(s.runs, !step.fails, About(item, records, setup.fields, norm),
                       Stamp(Some(key), s.now + step.thinking, setup.retention));
        ItemIsNew(item, e, s, step, setup, norm);
      }
    }
  }

  lemma AddedAreNew(s: State, step: Step, setup: Setup, norm: string -> string)
    requires step.Run?
    ensures forall e :: e in Added(s, step, setup, norm) ==> IsNew(e, s, step, setup)
  {
    EntriesAreNew(|step.items|, s, step, setup, norm);
    hide Entries, Filtered;
  }

  /** An entry's insight is still stored unless it expired. */
  ghost predicate Retained(e: Entry, s: State, setup: Setup) {
    && e.run < s.runs && e.insight.createdAt <= s.now
    && e.insight == Stamp(e.insight.key, e.insight.createdAt, setup.retention)
    && (e.about.Some? ==> e.insight.key == Some(KeyOf(e.about.value, setup.fields)))
    && (e.insight in s.rows || Expired(e.insight, s.now))
  }

  /** The store and what was ever stored agree, up to what expired. */
  ghost predicate Consistent(s: State, setup: Setup) {
    && (forall e :: e in s.history ==> Retained(e, s, setup))
    && forall row :: row in s.rows ==> row in InsightsOf(s.history)
  }

  lemma ConsistentRun(s: State, step: Step, setup: Setup, norm: string -> string)
    requires step.Run? && Consistent(s, setup)
    ensures Consistent(Next(s, step, setup, norm), setup)
  {
    var added := Added(s, step, setup, norm);
    var next := Next(s, step, setup, norm);
    AddedAreNew(s, step, setup, norm);
    assert InsightsOf(s.history + added) == InsightsOf(s.history) + InsightsOf(added);
    hide Added, Filtered, KeyOf, InsightsOf;
    forall e | e in added ensures Retained(e, next, setup) {
      assert IsNew(e, s, step, setup);
      var i :| 0 <= i < |added| && added[i] == e;
      assert InsightsOf(added)[i] == e.insight;
      assert e.insight in InsightsOf(added);
    }
    forall e | e in s.history ensures Retained(e, next, setup) {
      assert Retained(e, s, setup);
    }
    hide Retained, Next, IsNew;
  }

  lemma ConsistentStep(s: State, step: Step, setup: Setup, norm: string -> string)
    requires Consistent(s, setup)
    ensures Consistent(Next(s, step, setup, norm), setup)
  {
    if step.Run? {
      ConsistentRun(s, step, setup, norm);
    } else {
      UnexpiredMeaning(s.rows, s.now);
      hide Unexpired, KeyOf, Stamp;
      forall e | e in s.history ensures Retained(e, Next(s, step, setup, norm), setup) {
        assert Retained(e, s, setup);
      }
    }
  }

  lemma {:induction false} AlwaysConsistent(steps: seq<Step>, setup: Setup, norm: string -> string)
    ensures Consistent(Exec(steps, setup, norm), setup)
  {
    if steps != [] {
      AlwaysConsistent(steps[..|steps| - 1], setup, norm);
      ConsistentStep(Exec(steps[..|steps| - 1], setup, norm), steps[|steps| - 1], setup, norm);
    }
  }

  /** Insights outlive the window in which they suppress others. */
  predicate OutlivesWindow(setup: Setup) {
    setup.retention.None? || setup.retention.value > setup.window
  }

  /** Inside the window nothing has expired: the keys found are those ever stored since. */
  lemma RecentIsHistory(s: State, setup: Setup, key: Key)
    requires Consistent(s, setup) && OutlivesWindow(setup)
    ensures key in RecentKeys(s.rows, s.now - setup.window) <==>
      exists e :: e in s.history && e.insight.key == Some(key) && e.insight.createdAt >= s.now - setup.window
  {
    RecentMeaning(s.rows, key, s.now - setup.window);
    hide RecentKeys, KeyOf;
    if StoredSince(s.rows, key, s.now - setup.window) {
      var row :| row in s.rows && row.key == Some(key) && row.createdAt >= s.now - setup.window;
      var i :| 0 <= i < |s.history| && InsightsOf(s.history)[i] == row;
      assert s.history[i] in s.history;
    }
  }

  /** An insight stored since a time is about a record with the same values in the key fields. */
  ghost predicate Reported(history: seq<Entry>, setup: Setup, since: int, metadata: Metadata) {
    exists e :: e in history && e.insight.createdAt >= since && e.about.Some? && Agree(e.about.value, metadata, setup.fields)
  }

  /** Every stored item was faithful to its record, and no value holds a NUL. */
  ghost predicate AllFaithful(history: seq<Entry>, setup: Setup) {
    forall e :: e in history && e.insight.key.Some? ==> e.about.Some? && NulFree(e.about.value, setup.fields)
  }

  /** Some insight was stored under a key since a time. */
  ghost predicate StoredUnder(history: seq<Entry>, key: Key, since: int) {
    exists e :: e in history && e.insight.key == Some(key) && e.insight.createdAt >= since
  }

  lemma FilteredIff(s: State, setup: Setup, records: seq<AnalysisRecord>, r: AnalysisRecord)
    requires r in records
    ensures r !in Filtered(s, records, false, setup)
      <==> KeyOf(r.metadata, setup.fields) in RecentKeys(s.rows, s.now - setup.window)
  {
    KeptMeaning(records, setup.fields, RecentKeys(s.rows, s.now - setup.window));
    hide Kept, KeyOf, RecentKeys;
  }

  /** A run drops a record exactly when, inside the window, an insight was stored under its key,
      whatever else the store holds. */
  lemma {:induction false} DroppedIffKeyStored(
      steps: seq<Step>, setup: Setup, norm: string -> string, records: seq<AnalysisRecord>, r: AnalysisRecord)
    requires OutlivesWindow(setup) && r in records
    ensures (
      var s := Exec(steps, setup, norm);
      r !in Filtered(s, records, false, setup)
      <==> StoredUnder(s.history, KeyOf(r.metadata, setup.fields), s.now - setup.window))
  {
    hide Exec, Filtered, RecentKeys, KeyOf, Consistent;
    var s := Exec(steps, setup, norm);
    AlwaysConsistent(steps, setup, norm);
    FilteredIff(s, setup, records, r);
    RecentIsHistory(s, setup, KeyOf(r.metadata, setup.fields));
  }

  lemma IsRetained(s: State, setup: Setup, e: Entry)
    requires Consistent(s, setup) && e in s.history
    ensures Retained(e, s, setup)
  {
  }

  /** A record with the key fields of one that was faithfully reported inside the window is
      dropped, whatever other items were stored. */
  lemma {:induction false} ReportedIsDropped(
      steps: seq<Step>, setup: Setup, norm: string -> string, records: seq<AnalysisRecord>, r: AnalysisRecord)
    requires OutlivesWindow(setup) && r in records
    requires Reported(Exec(steps, setup, norm).history, setup, Exec(steps, setup, norm).now - setup.window, r.metadata)
    ensures r !in Filtered(Exec(steps, setup, norm), records, false, setup)
  {
    hide Exec, Filtered, KeyOf, Agree, Consistent;
    var s := Exec(steps, setup, norm);
    DroppedIffKeyStored(steps, setup, norm, records, r);
    AlwaysConsistent(steps, setup, norm);
    var e :| e in s.history && e.insight.createdAt >= s.now - setup.window && e.about.Some?
      && Agree(e.about.value, r.metadata, setup.fields);
    AgreeingKeys(e.about.value, r.metadata, setup.fields);
    IsRetained(s, setup, e);
  }

  /** If every stored item was faithful and no value holds a NUL, a run drops exactly the records
      that agree on every key field with one reported inside the window. */
  lemma {:induction false} DroppedIff(steps: seq<Step>, setup: Setup, norm: string -> string, records: seq<AnalysisRecord>, r: AnalysisRecord)
    requires OutlivesWindow(setup) && r in records && NulFree(r.metadata, setup.fields)
    requires AllFaithful(Exec(steps, setup, norm).history, setup)
    ensures (
      var s := Exec(steps, setup, norm);
      r !in Filtered(s, records, false, setup) <==> Reported(s.history, setup, s.now - setup.window, r.metadata))
  {
    hide Exec, Filtered, KeyOf, NulFree, Agree;
    var s := Exec(steps, setup, norm);
    var key, since := KeyOf(r.metadata, setup.fields), s.now - setup.window;
    DroppedIffKeyStored(steps, setup, norm, records, r);
    AlwaysConsistent(steps, setup, norm);
    if Reported(s.history, setup, since, r.metadata) { ReportedIsDropped(steps, setup, norm, records, r); }
    if StoredUnder(s.history, key, since) {
      var e :| e in s.history && e.insight.key == Some(key) && e.insight.createdAt >= since;
      assert Retained(e, s, setup);
      KeysEqualIff(e.about.value, r.metadata, setup.fields);
    }
  }

  /** Without that assumption on the retention: right after a cleanup a run drops a record
      exactly when an insight under its key is inside the window and has not expired. */
  lemma {:induction false} DroppedAfterCleanupIff(
      steps: seq<Step>, setup: Setup, norm: string -> string, records: seq<AnalysisRecord>, r: AnalysisRecord)
    requires r in records
    ensures (
      var (s, key) := (Exec(steps + [Cleanup], setup, norm), KeyOf(r.metadata, setup.fields));
      r !in Filtered(s, records, false, setup) <==>
      exists e :: e in s.history && e.insight.key == Some(key) && e.insight.createdAt >= s.now - setup.window
        && !Expired(e.insight, s.now))
  {
    var before, s := Exec(steps, setup, norm), Exec(steps + [Cleanup], setup, norm);
    var key, since := KeyOf(r.metadata, setup.fields), s.now - setup.window;
    Snoc(steps, Cleanup, setup, norm);
    hide Exec, Filtered, RecentKeys, KeyOf, Unexpired;
    AlwaysConsistent(steps + [Cleanup], setup, norm);
    UnexpiredMeaning(before.rows, before.now);
    FilteredIff(s, setup, records, r);
    RecentMeaning(s.rows, key, since);
    if StoredSince(s.rows, key, since) {
      var row :| row in s.rows && row.key == Some(key) && row.createdAt >= since;
      var i :| 0 <= i < |s.history| && InsightsOf(s.history)[i] == row;
      assert s.history[i] in s.history;
    }
    forall e | e in s.history && !Expired(e.insight, s.now) ensures e.insight in s.rows {
      assert Retained(e, s, setup);
    }
  }

  /** If the external ID is a key field, the record carries it, as rows from SQL do. */
  predicate SelfNamed(r: AnalysisRecord, fields: seq<string>) {
    "entity_external_id" in fields ==> Lookup(r.metadata, "entity_external_id") == r.externalId
  }

  /** The assumption is needed: with a retention no longer than the window, a record reported
      inside the window is let through again once its insight is cleaned up. */
  lemma {:induction false} ShortRetentionForgets(setup: Setup, norm: string -> string, r: AnalysisRecord)
    requires setup.retention.Some? && 0 <= setup.retention.value <= setup.window
    requires r.externalId != "" && SelfNamed(r, setup.fields)
    ensures (
      var item: Item := map["entity_external_id" := Text(r.externalId)];
      var steps := [Run([r], false, 0, [Some(item)], {0})] + [Tick(setup.retention.value)] + [Cleanup];
      var s := Exec(steps, setup, norm);
      Reported(s.history, setup, s.now - setup.window, r.metadata) && r in Filtered(s, [r], false, setup))
  {
    var item: Item := map["entity_external_id" := Text(r.externalId)];
    ForgettingRun(setup, norm, r, item);
    hide Exec, KeyOf, Filtered, Agree, RecentKeys;
    var entry := Entry(0, true, Some(r.metadata), Stamp(Some(KeyOf(r.metadata, setup.fields)), 0, setup.retention));
    var s := State(setup.retention.value, 1, [], [entry]);
    NoRows(s.now - setup.window);
    FilteredIff(s, setup, [r], r);
    SelfAgrees(r.metadata, setup.fields);
    assert s.history[0] == entry && entry in s.history;
  }

  lemma {:induction false} ForgettingRun(setup: Setup, norm: string -> string, r: AnalysisRecord, item: Item)
    requires setup.retention.Some? && 0 <= setup.retention.value
    requires r.externalId != "" && SelfNamed(r, setup.fields)
    requires item == map["entity_external_id" := Text(r.externalId)]
    ensures (
      var steps := [Run([r], false, 0, [Some(item)], {0})] + [Tick(setup.retention.value)] + [Cleanup];
      var entry := Entry(0, true, Some(r.metadata), Stamp(Some(KeyOf(r.metadata, setup.fields)), 0, setup.retention));
      Exec(steps, setup, norm) == State(setup.retention.value, 1, [], [entry]))
  {
    var run, expiry := Run([r], false, 0, [Some(item)], {0}), setup.retention.value;
    var row := Stamp(Some(KeyOf(r.metadata, setup.fields)), 0, setup.retention);
    var entry := Entry(0, true, Some(r.metadata), row);
    FirstRun(setup, norm, r, item);
    Snoc([], run, setup, norm);
    Snoc([run], Tick(expiry), setup, norm);
    Snoc([run] + [Tick(expiry)], Cleanup, setup, norm);
    OnlyRow(row, expiry);
    assert Exec([], setup, norm) == State(0, 0, [], []);
    hide Exec, KeyOf, Added, Unexpired;
    assert [] + [run] == [run] && InsightsOf([entry]) == [row] && [] + [row] == [row] && [] + [entry] == [entry];
    assert Exec([run], setup, norm) == State(0, 1, [row], [entry]);
  }

  lemma NoRows(since: int)
    ensures RecentKeys([], since) == {}
  {
  }

  lemma SelfAgrees(metadata: Metadata, fields: seq<string>)
    ensures Agree(metadata, metadata, fields)
  {
  }

  lemma OnlyRow(row: Insight, now: int)
    requires Expired(row, now)
    ensures Unexpired([row], now) == []
  {
    assert [row][..0] == [];
  }

  lemma Snoc(steps: seq<Step>, step: Step, setup: Setup, norm: string -> string)
    ensures Exec(steps + [step], setup, norm) == Next(Exec(steps, setup, norm), step, setup, norm)
  {
    assert (steps + [step])[..|steps|] == steps;
  }

  lemma {:induction false} FirstRun(setup: Setup, norm: string -> string, r: AnalysisRecord, item: Item)
    requires r.externalId != "" && SelfNamed(r, setup.fields)
    requires item == map["entity_external_id" := Text(r.externalId)]
    ensures (
      var row := Stamp(Some(KeyOf(r.metadata, setup.fields)), 0, setup.retention);
      Added(State(0, 0, [], []), Run([r], false, 0, [Some(item)], {0}), setup, norm)
      == [Entry(0, true, Some(r.metadata), row)])
  {
    var key := KeyOf(r.metadata, setup.fields);
    var run := Entry(0, true, None, Stamp(None, 0, setup.retention));
    OnlyRecord(setup, norm, r, item);
    NoRows(0 - setup.window);
    FaithfulKey(item, [r], setup.fields);
    hide KeyOf, StoredKey, Faithful, Matching, Kept, RecentKeys, Entries, Best;
    NextEntry(run, [Some(item)], [r], setup, norm);
  }

  lemma {:induction false} NextEntry(
      run: Entry, items: seq<Option<Item>>, records: seq<AnalysisRecord>, setup: Setup, norm: string -> string)
    requires |items| == 1 && items[0].Some?
    ensures (
      var item := items[0].value;
      Entries(run, items, 1, records, setup, norm, 0, {0})
      == [run.(about := About(item, records, setup.fields, norm),
               insight := Stamp(Some(StoredKey(item, Matching(item, records, norm), setup.fields)), 0, setup.retention))])
  {
    hide Matching, StoredKey, About, Stamp;
    assert Entries(run, items, 0, records, setup, norm, 0, {0}) == [];
  }

  lemma {:induction false} OnlyRecord(setup: Setup, norm: string -> string, r: AnalysisRecord, item: Item)
    requires r.externalId != "" && SelfNamed(r, setup.fields)
    requires item == map["entity_external_id" := Text(r.externalId)]
    ensures Kept([r], setup.fields, {}) == [r] && Matching(item, [r], norm) == [r]
    ensures Faithful(item, [r], setup.fields)
  {
    hide KeyOf, Best;
    assert [r][..0] == [];
  }

  /** No faithful insight repeats the key of an earlier run's inside the window. */
  ghost predicate Apart(history: seq<Entry>, window: int) {
    forall i, j :: 0 <= i < j < |history| && history[i].run < history[j].run
        && history[j].about.Some? && history[j].looked && history[i].insight.key == history[j].insight.key
      ==> history[j].insight.createdAt - history[i].insight.createdAt > window
  }

  lemma NewIsApart(s: State, step: Step, setup: Setup, e: Entry, f: Entry)
    requires step.Run? && Consistent(s, setup) && OutlivesWindow(setup)
    requires e in s.history && IsNew(f, s, step, setup)
    requires f.about.Some? && f.looked && e.insight.key == f.insight.key
    ensures f.insight.createdAt - e.insight.createdAt > setup.window
  {
    var recent := RecentKeys(s.rows, s.now - setup.window);
    var key := KeyOf(f.about.value, setup.fields);
    KeptMeaning(step.records, setup.fields, recent);
    assert key !in recent;
    RecentIsHistory(s, setup, key);
    hide RecentKeys, KeyOf, Kept;
  }

  /** Over every sequence of runs: an insight about a record whose key an earlier run already
      reported comes more than a window later, if that run's lookup worked and insights outlive
      the window. */
  lemma {:induction false} RunsAreApart(steps: seq<Step>, setup: Setup, norm: string -> string)
    requires OutlivesWindow(setup)
    ensures Apart(Exec(steps, setup, norm).history, setup.window)
  {
    if steps != [] {
      var (before, step) := (steps[..|steps| - 1], steps[|steps| - 1]);
      var s := Exec(before, setup, norm);
      RunsAreApart(before, setup, norm);
      AlwaysConsistent(before, setup, norm);
      if step.Run? {
        AddedAreNew(s, step, setup, norm);
        StepIsApart(s, step, setup, norm);
      }
    }
  }

  lemma StepIsApart(s: State, step: Step, setup: Setup, norm: string -> string)
    requires step.Run? && Consistent(s, setup) && OutlivesWindow(setup) && Apart(s.history, setup.window)
    ensures Apart(s.history + Added(s, step, setup, norm), setup.window)
  {
    var added := Added(s, step, setup, norm);
    AddedAreNew(s, step, setup, norm);
    hide Added, KeyOf, Filtered;
    var all := s.history + added;
    forall k | |s.history| <= k < |all| ensures all[k].run == s.runs { assert all[k] in added; }
    forall i, j | 0 <= i < j < |all| && all[i].run < all[j].run && all[j].about.Some? && all[j].looked
        && all[i].insight.key == all[j].insight.key
      ensures all[j].insight.createdAt - all[i].insight.createdAt > setup.window
    {
      if j < |s.history| {
        assert all[i] == s.history[i] && all[j] == s.history[j];
      } else {
        assert all[j] in added;
        assert i < |s.history|;
        NewIsApart(s, step, setup, all[i], all[j]);
      }
    }
  }
}
