/** Deduplication of analysis results: what one run stores must match what the filter of a
    later run looks for. */
module Dedup {
  import opened Wrappers
  import opened Selections

  type Metadata = map<string, string>

  datatype AnalysisRecord = AnalysisRecord(externalId: string, layerType: string, metadata: Metadata)

  /** A field of a result item: a JSON string, or anything else with the text it is keyed by. */
  datatype Value = Text(text: string) | Other(text: string)

  type Item = map<string, Value>

  /** The bytes that are hashed. SHA-256 is taken to be injective, so they stand for the key. */
  type Key = string

  datatype DedupConfig = DedupConfig(keyFields: seq<string>, window: Option<int>)

  function Lookup(metadata: Metadata, field: string): string {
    if field in metadata then metadata[field] else ""
  }

  function KeyOf(metadata: Metadata, fields: seq<string>): Key {
    if fields == [] then ""
    else
      var field := fields[|fields| - 1];
      KeyOf(metadata, fields[..|fields| - 1]) + field + "\0" + Lookup(metadata, field) + "\0"
  }

  method ComputeDedupKey(rec: AnalysisRecord, keyFields: seq<string>) returns (key: Key)
    ensures key == KeyOf(rec.metadata, keyFields)
  {
    key := "";
    for i := 0 to |keyFields|
      invariant key == KeyOf(rec.metadata, keyFields[..i])
    {
      assert keyFields[..i + 1][..i] == keyFields[..i];
      key := key + keyFields[i] + "\0";
      key := key + Lookup(rec.metadata, keyFields[i]) + "\0";
    }
    assert keyFields[..|keyFields|] == keyFields;
  }

  ghost predicate Agree(a: Metadata, b: Metadata, fields: seq<string>) {
    forall f :: f in fields ==> Lookup(a, f) == Lookup(b, f)
  }

  ghost predicate NulFree(metadata: Metadata, fields: seq<string>) {
    forall f :: f in fields ==> '\0' !in Lookup(metadata, f)
  }

  lemma LastField(a: string, b: string, u: string, v: string)
    requires '\0' !in u && '\0' !in v
    requires a + "\0" + u + "\0" == b + "\0" + v + "\0"
    ensures a == b && u == v
  {
    var (s, t) := (a + "\0" + u + "\0", b + "\0" + v + "\0");
    assert s[|a|] == '\0' && forall k :: |a| < k < |s| - 1 ==> s[k] == u[k - |a| - 1];
    assert t[|b|] == '\0' && forall k :: |b| < k < |t| - 1 ==> t[k] == v[k - |b| - 1];
    assert |a| == |b|;
    assert s[..|a|] == a && t[..|b|] == b;
    assert s[|a| + 1..|s| - 1] == u && t[|b| + 1..|t| - 1] == v;
  }

  /** Records get the same key exactly when they agree on every key field, if no value holds
      a NUL. */
  lemma {:induction false} KeysEqualIff(a: Metadata, b: Metadata, fields: seq<string>)
    requires NulFree(a, fields) && NulFree(b, fields)
    ensures KeyOf(a, fields) == KeyOf(b, fields) <==> Agree(a, b, fields)
  {
    if fields != [] {
      var before, f := fields[..|fields| - 1], fields[|fields| - 1];
      KeysEqualIff(a, b, before);
      assert forall g :: g in fields <==> g in before || g == f;
      if KeyOf(a, fields) == KeyOf(b, fields) {
        LastField(KeyOf(a, before) + f, KeyOf(b, before) + f, Lookup(a, f), Lookup(b, f));
        var (s, t) := (KeyOf(a, before) + f, KeyOf(b, before) + f);
        assert s[..|s| - |f|] == KeyOf(a, before) && t[..|t| - |f|] == KeyOf(b, before);
      }
    }
  }

  /** This direction holds for all values. */
  lemma {:induction false} AgreeingKeys(a: Metadata, b: Metadata, fields: seq<string>)
    requires Agree(a, b, fields)
    ensures KeyOf(a, fields) == KeyOf(b, fields)
  {
    if fields != [] { AgreeingKeys(a, b, fields[..|fields| - 1]); }
  }

  /** With a NUL in a value, different records collide, for any two fields. */
  lemma NulCollision(f: string, g: string, x: string, y: string, z: string)
    requires f != g
    ensures (
      var a: Metadata := map[f := x, g := y + "\0" + g + "\0" + z];
      var b: Metadata := map[f := x + "\0" + g + "\0" + y, g := z];
      KeyOf(a, [f, g]) == KeyOf(b, [f, g]) && !Agree(a, b, [f, g]))
  {
    var a: Metadata := map[f := x, g := y + "\0" + g + "\0" + z];
    var b: Metadata := map[f := x + "\0" + g + "\0" + y, g := z];
    TwoFields(a, f, g);
    TwoFields(b, f, g);
    Regroup(f + "\0" + x + "\0" + g + "\0", y, g, z);
    Regroup(f + "\0", x, g, y);
    hide KeyOf;
    assert f in [f, g] && |Lookup(a, f)| != |Lookup(b, f)|;
  }

  ghost predicate NoRepeats(fields: seq<string>) {
    forall i, j :: 0 <= i < j < |fields| ==> fields[i] != fields[j]
  }

  /** Different values of these fields have different keys, whatever characters they hold. */
  ghost predicate Injective(fields: seq<string>) {
    forall a: Metadata, b: Metadata :: KeyOf(a, fields) == KeyOf(b, fields) ==> Agree(a, b, fields)
  }

  /** Only a list of at most one field is safe without looking at the values. */
  lemma NulFreeNeededIff(fields: seq<string>)
    requires NoRepeats(fields)
    ensures Injective(fields) <==> |fields| <= 1
  {
    if |fields| <= 1 {
      forall a: Metadata, b: Metadata | KeyOf(a, fields) == KeyOf(b, fields) ensures Agree(a, b, fields) {
        if fields != [] { OneField(a, b, fields[0]); assert fields == [fields[0]]; }
      }
    } else {
      var (f, g) := (fields[0], fields[1]);
      var a: Metadata := map[f := "", g := "" + "\0" + g + "\0" + ""];
      var b: Metadata := map[f := "" + "\0" + g + "\0" + "", g := ""];
      NulCollision(f, g, "", "", "");
      CollisionCarriesOn(a, b, fields, |fields|);
      assert fields[..|fields|] == fields;
      hide KeyOf;
      assert f in fields && Lookup(a, f) != Lookup(b, f) by { assert |Lookup(a, f)| != |Lookup(b, f)|; }
      assert !Agree(a, b, fields);
    }
  }

  lemma OneField(a: Metadata, b: Metadata, f: string)
    requires KeyOf(a, [f]) == KeyOf(b, [f])
    ensures Lookup(a, f) == Lookup(b, f)
  {
    assert [f][..0] == [];
    var (s, t) := (f + "\0" + Lookup(a, f) + "\0", f + "\0" + Lookup(b, f) + "\0");
    assert s == "" + s && t == "" + t;
    assert KeyOf(a, [f]) == s && KeyOf(b, [f]) == t;
    assert s[|f| + 1..|s| - 1] == Lookup(a, f) && t[|f| + 1..|t| - 1] == Lookup(b, f);
  }

  /** Fields that neither record has do not tell two colliding records apart. */
  lemma {:induction false} CollisionCarriesOn(a: Metadata, b: Metadata, fields: seq<string>, n: nat)
    requires 2 <= n <= |fields| && NoRepeats(fields) && a.Keys == b.Keys == {fields[0], fields[1]}
    requires KeyOf(a, [fields[0], fields[1]]) == KeyOf(b, [fields[0], fields[1]])
    ensures KeyOf(a, fields[..n]) == KeyOf(b, fields[..n])
  {
    if n == 2 {
      assert fields[..2] == [fields[0], fields[1]];
    } else {
      CollisionCarriesOn(a, b, fields, n - 1);
      assert fields[..n][..n - 1] == fields[..n - 1];
      assert fields[n - 1] !in a && fields[n - 1] !in b;
    }
  }

  lemma TwoFields(m: Metadata, f: string, g: string)
    ensures KeyOf(m, [f, g]) == f + "\0" + Lookup(m, f) + "\0" + g + "\0" + Lookup(m, g) + "\0"
  {
    assert [f, g][..1] == [f] && [f][..0] == [];
    assert "" + f == f;
    assert KeyOf(m, [f]) == f + "\0" + Lookup(m, f) + "\0";
  }

  lemma Regroup(a: string, y: string, g: string, z: string)
    ensures a + (y + "\0" + g + "\0" + z) == a + y + "\0" + g + "\0" + z
  {
    var b := y + "\0";
    assert a + b == a + y + "\0";
    assert a + (b + g) == a + b + g;
    assert a + (b + g + "\0") == a + (b + g) + "\0";
  }

  /** The records without a recent insight, in order. */
  function Kept(records: seq<AnalysisRecord>, fields: seq<string>, recent: set<Key>): seq<AnalysisRecord> {
    if records == [] then []
    else
      var rec := records[|records| - 1];
      Kept(records[..|records| - 1], fields, recent) + if KeyOf(rec.metadata, fields) in recent then [] else [rec]
  }

  /** `keys` holds the key of each record under the record's own position, and nothing else. */
  ghost predicate Indexed(keys: map<nat, Key>, records: seq<AnalysisRecord>, fields: seq<string>) {
    && (forall i: nat :: i in keys <==> i < |records|)
    && forall i: nat :: i < |records| ==> keys[i] == KeyOf(records[i].metadata, fields)
  }

  method KeyAll(records: seq<AnalysisRecord>, fields: seq<string>) returns (keys: map<nat, Key>)
    ensures Indexed(keys, records, fields)
  {
    keys := map[];
    for i := 0 to |records|
      invariant Indexed(keys, records[..i], fields)
    {
      var key := ComputeDedupKey(records[i], fields);
      keys := keys[i := key];
    }
    assert records[..|records|] == records;
  }

  /** The filter before the model is asked. Without a configuration, with a window that does
      not parse or when the lookup fails, nothing is dropped; `lookup` answers which keys were
      stored since a time. */
  method DedupRecords(records: seq<AnalysisRecord>, cfg: Option<DedupConfig>, now: int, lookup: int -> Option<set<Key>>)
    returns (filtered: seq<AnalysisRecord>, keys: Option<map<nat, Key>>, ghost picked: seq<nat>)
    ensures cfg.None? || cfg.value.window.None? ==> filtered == records && keys == None
    ensures cfg.Some? && cfg.value.window.Some? ==>
      && keys.Some? && Indexed(keys.value, filtered, cfg.value.keyFields)
      && var recent := lookup(now - cfg.value.window.value);
         if recent.None? then filtered == records
         else
           && filtered == Kept(records, cfg.value.keyFields, recent.value)
           && Ascending(picked, |records|) && filtered == At(records, picked)
           && forall i: nat :: i < |records| ==>
                (i in picked <==> KeyOf(records[i].metadata, cfg.value.keyFields) !in recent.value)
  {
    picked := [];
    if cfg.None? || cfg.value.window.None? { return records, None, []; }
    var fields := cfg.value.keyFields;
    var recordKeys := KeyAll(records, fields);
    hide KeyOf;
    var existing := lookup(now - cfg.value.window.value);
    if existing.None? { return records, Some(recordKeys), []; }
    var filteredKeys: map<nat, Key> := map[];
    filtered := [];
    for i := 0 to |records|
      invariant filtered == Kept(records[..i], fields, existing.value)
      invariant Indexed(filteredKeys, filtered, fields)
    {
      assert records[..i + 1][..i] == records[..i];
      if recordKeys[i] !in existing.value {
        filteredKeys := filteredKeys[|filtered| := recordKeys[i]];
        filtered := filtered + [records[i]];
      }
    }
    assert records[..|records|] == records;
    keys := Some(filteredKeys);
    hide Kept;
    picked := KeptAt(records, fields, existing.value);
  }

  lemma {:induction false} KeptAt(records: seq<AnalysisRecord>, fields: seq<string>, recent: set<Key>)
    returns (picked: seq<nat>)
    ensures Ascending(picked, |records|) && Kept(records, fields, recent) == At(records, picked)
    ensures forall i: nat :: i < |records| ==> (i in picked <==> KeyOf(records[i].metadata, fields) !in recent)
  {
    picked := [];
    if records != [] {
      var n := |records| - 1;
      picked := KeptAt(records[..n], fields, recent);
      PickMore(picked, n);
      hide KeyOf;
      forall i: nat | i < n ensures records[..n][i] == records[i] { }
      if KeyOf(records[n].metadata, fields) !in recent { picked := picked + [n]; }
    }
  }

  lemma {:induction false} KeptMeaning(records: seq<AnalysisRecord>, fields: seq<string>, recent: set<Key>)
    ensures forall r :: r in Kept(records, fields, recent) <==> r in records && KeyOf(r.metadata, fields) !in recent
  {
    if records != [] {
      KeptMeaning(records[..|records| - 1], fields, recent);
      assert records == records[..|records| - 1] + [records[|records| - 1]];
    }
  }

  /** `m[key]` when it is there and a string. */
  function StringField(item: Item, key: string): string {
    if key in item && item[key].Text? then item[key].text else ""
  }

  predicate Matches(item: Item, rec: AnalysisRecord, norm: string -> string) {
    var (target, layer) := (StringField(item, "entity_external_id"), StringField(item, "entity_layer_type"));
    target != "" && norm(rec.externalId) == norm(target) && (layer == "" || rec.layerType == layer)
  }

  /** The records an item names, in order: none, not all, when it names no record. */
  function Matching(item: Item, records: seq<AnalysisRecord>, norm: string -> string): seq<AnalysisRecord> {
    if records == [] then []
    else
      var rec := records[|records| - 1];
      Matching(item, records[..|records| - 1], norm) + if Matches(item, rec, norm) then [rec] else []
  }

  lemma {:induction false} MatchingMeaning(item: Item, records: seq<AnalysisRecord>, norm: string -> string)
    ensures forall r :: r in Matching(item, records, norm) <==> r in records && Matches(item, r, norm)
  {
    if records != [] {
      MatchingMeaning(item, records[..|records| - 1], norm);
      assert records == records[..|records| - 1] + [records[|records| - 1]];
    }
  }

  /** An item names the records with its external ID, if that is a string and not empty, and of
      its layer type, if that is; no other fields matter, nor does their order. */
  lemma {:induction false} MatchingAt(item: Item, records: seq<AnalysisRecord>, norm: string -> string)
    returns (picked: seq<nat>)
    ensures Ascending(picked, |records|) && Matching(item, records, norm) == At(records, picked)
    ensures forall i: nat :: i < |records| ==>
      (i in picked <==>
        && "entity_external_id" in item && item["entity_external_id"].Text? && item["entity_external_id"].text != ""
        && norm(item["entity_external_id"].text) == norm(records[i].externalId)
        && ("entity_layer_type" in item && item["entity_layer_type"].Text? && item["entity_layer_type"].text != "" ==>
              item["entity_layer_type"].text == records[i].layerType))
  {
    picked := [];
    if records != [] {
      var n := |records| - 1;
      picked := MatchingAt(item, records[..n], norm);
      PickMore(picked, n);
      forall i: nat | i < n ensures records[..n][i] == records[i] { }
      if Matches(item, records[n], norm) { picked := picked + [n]; }
    }
  }

  lemma {:induction false} NamesNothing(item: Item, records: seq<AnalysisRecord>, norm: string -> string)
    requires StringField(item, "entity_external_id") == ""
    ensures Matching(item, records, norm) == []
  {
    if records != [] { NamesNothing(item, records[..|records| - 1], norm); }
  }

  /** `picked` are the positions of the records found: those with the item's external ID, if it
      has one, and of its layer, if it names one. */
  method MatchRecordsByExternalId(item: Item, records: seq<AnalysisRecord>, norm: string -> string)
    returns (matched: seq<AnalysisRecord>, ghost picked: seq<nat>)
    ensures matched == Matching(item, records, norm)
    ensures Ascending(picked, |records|) && matched == At(records, picked)
    ensures forall i: nat :: i < |records| ==>
      (i in picked <==>
        && "entity_external_id" in item && item["entity_external_id"].Text? && item["entity_external_id"].text != ""
        && norm(item["entity_external_id"].text) == norm(records[i].externalId)
        && ("entity_layer_type" in item && item["entity_layer_type"].Text? && item["entity_layer_type"].text != "" ==>
              item["entity_layer_type"].text == records[i].layerType))
  {
    picked := MatchingAt(item, records, norm);
    matched := [];
    var target := StringField(item, "entity_external_id");
    if target == "" {
      NamesNothing(item, records, norm);
      return;
    }
    var layer := StringField(item, "entity_layer_type");
    for i := 0 to |records|
      invariant matched == Matching(item, records[..i], norm)
    {
      assert records[..i + 1][..i] == records[..i];
      if norm(records[i].externalId) != norm(target) { continue; }
      if layer != "" && records[i].layerType != layer { continue; }
      matched := matched + [records[i]];
    }
    assert records[..|records|] == records;
  }

  /** How many of an item's non-empty strings a record repeats. */
  function Score(item: Item, rec: AnalysisRecord): nat {
    |set k | k in item && Echoes(item, rec, k)|
  }

  predicate Echoes(item: Item, rec: AnalysisRecord, k: string)
    requires k in item
  {
    item[k].Text? && item[k].text != "" && Lookup(rec.metadata, k) == item[k].text
  }

  /** The non-empty strings of an item that a record's metadata repeats. */
  ghost function Repeated(item: Item, rec: AnalysisRecord): set<string> {
    set k | k in item && item[k].Text? && item[k].text != "" && k in rec.metadata && rec.metadata[k] == item[k].text
  }

  lemma ScoreIs(item: Item, rec: AnalysisRecord)
    ensures Score(item, rec) == |Repeated(item, rec)|
  {
    assert Repeated(item, rec) == set k | k in item && Echoes(item, rec, k);
  }

  /** The first record with the highest score. */
  function Best(item: Item, matched: seq<AnalysisRecord>): (b: nat)
    requires matched != []
    ensures b < |matched|
    ensures forall i :: 0 <= i < |matched| ==> Score(item, matched[i]) <= Score(item, matched[b])
    ensures forall i :: 0 <= i < b ==> Score(item, matched[i]) < Score(item, matched[b])
  {
    var n := |matched| - 1;
    if n == 0 then 0
    else
      var b := Best(item, matched[..n]);
      assert forall i :: 0 <= i < n ==> matched[..n][i] == matched[i];
      if Score(item, matched[n]) > Score(item, matched[b]) then n else b
  }

  /** The record picked for an item is the first of those that repeat most of it. */
  lemma BestRepeatsMost(item: Item, matched: seq<AnalysisRecord>)
    requires matched != []
    ensures (
      var b := Best(item, matched);
      && (forall i: nat :: i < |matched| ==> |Repeated(item, matched[i])| <= |Repeated(item, matched[b])|)
      && forall i: nat :: i < b ==> |Repeated(item, matched[i])| < |Repeated(item, matched[b])|)
  {
    forall i: nat | i < |matched| ensures Score(item, matched[i]) == |Repeated(item, matched[i])| {
      ScoreIs(item, matched[i]);
    }
    hide Score, Repeated;
  }

  method ComputeScore(item: Item, rec: AnalysisRecord) returns (score: nat)
    ensures score == Score(item, rec)
  {
    score := 0;
    var rest := item.Keys;
    ghost var echoed: set<string> := {};
    while rest != {}
      invariant rest <= item.Keys
      invariant echoed == set k | k in item.Keys - rest && Echoes(item, rec, k)
      invariant score == |echoed|
    {
      var k :| k in rest;
      rest := rest - {k};
      if item[k].Text? && item[k].text != "" && Lookup(rec.metadata, k) == item[k].text {
        score := score + 1;
        echoed := echoed + {k};
      }
    }
    assert echoed == set k | k in item && Echoes(item, rec, k);
  }

  method PickRecordForItem(item: Item, matched: seq<AnalysisRecord>) returns (picked: Option<AnalysisRecord>)
    ensures picked == if matched == [] then None else Some(matched[Best(item, matched)])
  {
    if matched == [] { return None; }
    if |matched| == 1 { return Some(matched[0]); }
    hide Score, Best;
    var best, bestScore: int := matched[0], -1;
    for i := 0 to |matched|
      invariant i == 0 ==> bestScore == -1
      invariant i > 0 ==> best == matched[Best(item, matched[..i])] && bestScore == Score(item, best)
    {
      BestOfOneMore(item, matched, i);
      var score := ComputeScore(item, matched[i]);
      if score > bestScore {
        best, bestScore := matched[i], score;
      }
    }
    assert matched[..|matched|] == matched;
    picked := Some(best);
  }

  lemma BestOfOneMore(item: Item, matched: seq<AnalysisRecord>, i: nat)
    requires i < |matched|
    ensures Best(item, matched[..i + 1])
         == if i == 0 then 0
            else if Score(item, matched[i]) > Score(item, matched[Best(item, matched[..i])]) then i
            else Best(item, matched[..i])
  {
    hide Score;
    assert matched[..i + 1][..i] == matched[..i];
  }

  /** The fields a result item is keyed by: its own where it has them, else its record's. */
  method DedupRecordForItem(item: Item, matched: seq<AnalysisRecord>, keyFields: seq<string>) returns (base: Metadata)
    ensures forall f :: f in keyFields ==> Lookup(base, f) == Resolved(item, matched, f)
  {
    var rec := PickRecordForItem(item, matched);
    base := if rec.Some? then rec.value.metadata else map[];
    for i := 0 to |keyFields|
      invariant forall f :: f in keyFields[..i] || f !in item ==> Lookup(base, f) == Resolved(item, matched, f)
      invariant forall f :: f !in keyFields[..i] ==> Lookup(base, f) == PickedValue(item, matched, f)
    {
      if keyFields[i] in item {
        base := base[keyFields[i] := item[keyFields[i]].text];
      }
    }
  }

  /** What the record an item is about says of a field. */
  function PickedValue(item: Item, matched: seq<AnalysisRecord>, field: string): string {
    if matched == [] then "" else Lookup(matched[Best(item, matched)].metadata, field)
  }

  function Resolved(item: Item, matched: seq<AnalysisRecord>, field: string): string {
    if field in item then item[field].text else PickedValue(item, matched, field)
  }

  function ResolvedAll(item: Item, matched: seq<AnalysisRecord>, fields: seq<string>): (r: Metadata)
    ensures forall f :: f in fields ==> Lookup(r, f) == Resolved(item, matched, f)
  {
    map f | f in fields :: Resolved(item, matched, f)
  }

  /** The key a result item is stored under. */
  function StoredKey(item: Item, matched: seq<AnalysisRecord>, fields: seq<string>): Key {
    KeyOf(ResolvedAll(item, matched, fields), fields)
  }

  /** The item repeats its record's key fields or omits them. */
  ghost predicate Faithful(item: Item, matched: seq<AnalysisRecord>, fields: seq<string>) {
    matched != [] && forall f :: f in fields && f in item ==> item[f].text == PickedValue(item, matched, f)
  }

  /** The stored key is the one the filter computes for the item's record exactly when the item
      omits or repeats each of the record's key fields. */
  lemma StoredKeyIsRecordKeyIff(item: Item, matched: seq<AnalysisRecord>, fields: seq<string>)
    requires matched != []
    requires NulFree(matched[Best(item, matched)].metadata, fields)
    requires forall f :: f in fields && f in item ==> '\0' !in item[f].text
    ensures StoredKey(item, matched, fields) == KeyOf(matched[Best(item, matched)].metadata, fields)
      <==> Faithful(item, matched, fields)
  {
    KeysEqualIff(ResolvedAll(item, matched, fields), matched[Best(item, matched)].metadata, fields);
    hide KeyOf, Best;
  }

  /** Records of different layers may share an external ID. An item that names one layer, and
      omits or repeats the key fields, is stored under the key of the record of that layer,
      whatever the others say. */
  lemma NamedLayerKey(item: Item, records: seq<AnalysisRecord>, a: nat, fields: seq<string>, norm: string -> string)
    requires a < |records| && records[a].layerType != ""
    requires "entity_external_id" in item && item["entity_external_id"].Text? && item["entity_external_id"].text != ""
    requires norm(item["entity_external_id"].text) == norm(records[a].externalId)
    requires "entity_layer_type" in item && item["entity_layer_type"] == Text(records[a].layerType)
    requires forall i: nat :: i < |records| && i != a && norm(records[i].externalId) == norm(records[a].externalId) ==>
      records[i].layerType != records[a].layerType
    requires forall f :: f in fields && f in item ==>
      item[f].text == if f in records[a].metadata then records[a].metadata[f] else ""
    ensures Matching(item, records, norm) == [records[a]]
    ensures StoredKey(item, Matching(item, records, norm), fields) == KeyOf(records[a].metadata, fields)
  {
    var picked := MatchingAt(item, records, norm);
    Once(picked, |records|, a);
    hide Matching, KeyOf;
    assert Matching(item, records, norm) == [records[a]];
    FaithfulKey(item, [records[a]], fields);
  }

  lemma FaithfulKey(item: Item, matched: seq<AnalysisRecord>, fields: seq<string>)
    requires Faithful(item, matched, fields)
    ensures StoredKey(item, matched, fields) == KeyOf(matched[Best(item, matched)].metadata, fields)
  {
    AgreeingKeys(ResolvedAll(item, matched, fields), matched[Best(item, matched)].metadata, fields);
    hide KeyOf, Best;
  }
}
