/** Origins a layer's media may be loaded from: several sources feed one layer, and each
    registration folds the origins declared so far into the incoming display settings. */
module Origins {
  import opened Wrappers

  /** One media slot of a display configuration; no origins means any origin. */
  datatype Media = Media(id: string, allowedOrigins: seq<string>)

  /** The order `slices.Sort` uses on strings. */
  predicate Below(a: string, b: string) {
    a == [] || (b != [] && (a[0] < b[0] || (a[0] == b[0] && Below(a[1..], b[1..]))))
  }

  ghost predicate FirstDiffer(a: string, b: string, k: nat) {
    && k < |a| && k < |b| && a[k] < b[k]
    && forall i :: 0 <= i < k ==> a[i] == b[i]
  }

  /** It is the lexicographic one: a prefix comes first, and otherwise the first difference decides. */
  lemma {:induction false} BelowIff(a: string, b: string)
    ensures Below(a, b) <==> a <= b || exists k: nat :: FirstDiffer(a, b, k)
  {
    if a != [] && b != [] && a[0] == b[0] {
      BelowIff(a[1..], b[1..]);
      assert a <= b <==> a[1..] <= b[1..] by { assert a == [a[0]] + a[1..] && b == [b[0]] + b[1..]; }
      forall k: nat | FirstDiffer(a[1..], b[1..], k) ensures FirstDiffer(a, b, k + 1) { }
      forall k: nat | FirstDiffer(a, b, k) ensures k > 0 && FirstDiffer(a[1..], b[1..], k - 1) { }
    } else if a != [] && b != [] {
      assert a[0] < b[0] <==> FirstDiffer(a, b, 0);
      assert forall k: nat :: FirstDiffer(a, b, k) ==> k == 0;
    }
  }

  lemma {:induction false} BelowTotal(a: string, b: string)
    ensures Below(a, b) || Below(b, a)
    ensures Below(a, b) && Below(b, a) ==> a == b
  {
    if a != [] && b != [] && a[0] == b[0] {
      BelowTotal(a[1..], b[1..]);
      assert a == [a[0]] + a[1..] && b == [b[0]] + b[1..];
    }
  }

  lemma {:induction false} BelowTransitive(a: string, b: string, c: string)
    requires Below(a, b) && Below(b, c)
    ensures Below(a, c)
  {
    if a != [] && a[0] == b[0] == c[0] { BelowTransitive(a[1..], b[1..], c[1..]); }
  }

  ghost predicate Sorted(s: seq<string>) {
    forall i, j :: 0 <= i < j < |s| ==> Below(s[i], s[j])
  }

  ghost predicate NoRepeats(s: seq<string>) {
    forall i, j :: 0 <= i < j < |s| ==> s[i] != s[j]
  }

  function Insert(x: string, s: seq<string>): seq<string> {
    if s == [] || Below(x, s[0]) then [x] + s else [s[0]] + Insert(x, s[1..])
  }

  /** `slices.Sort`: by `SortedIsUnique` any sorting of a list gives this one. */
  function Sort(s: seq<string>): seq<string> {
    if s == [] then [] else Insert(s[0], Sort(s[1..]))
  }

  lemma {:induction false} InsertKeeps(x: string, s: seq<string>)
    ensures multiset(Insert(x, s)) == multiset(s)[x := multiset(s)[x] + 1]
  {
    if s != [] && !Below(x, s[0]) {
      InsertKeeps(x, s[1..]);
      assert s == [s[0]] + s[1..];
    }
  }

  lemma SameElements(a: seq<string>, b: seq<string>)
    requires multiset(a) == multiset(b)
    ensures |a| == |b|
    ensures forall x :: x in a <==> x in b
  {
    assert |multiset(a)| == |multiset(b)|;
    forall x ensures x in a <==> x in b { assert x in multiset(a) <==> x in multiset(b); }
  }

  lemma {:induction false} InsertSorted(x: string, s: seq<string>)
    requires Sorted(s)
    ensures Sorted(Insert(x, s))
  {
    if s != [] {
      BelowTotal(x, s[0]);
      if Below(x, s[0]) {
        forall y | y in s ensures Below(x, y) {
          if y != s[0] { BelowTransitive(x, s[0], y); }
        }
      } else {
        InsertSorted(x, s[1..]);
        InsertKeeps(x, s[1..]);
        var rest := Insert(x, s[1..]);
        forall y | y in rest ensures Below(s[0], y) {
          assert y in multiset(rest);
          assert y == x || y in s[1..];
        }
      }
    }
  }

  lemma {:induction false} SortMeaning(s: seq<string>)
    ensures Sorted(Sort(s)) && multiset(Sort(s)) == multiset(s)
  {
    if s != [] {
      SortMeaning(s[1..]);
      InsertSorted(s[0], Sort(s[1..]));
      InsertKeeps(s[0], Sort(s[1..]));
      assert s == [s[0]] + s[1..];
    }
  }

  /** Two sorted lists with the same contents are the same list. */
  lemma {:induction false} SortedIsUnique(a: seq<string>, b: seq<string>)
    requires Sorted(a) && Sorted(b) && multiset(a) == multiset(b)
    ensures a == b
  {
    SameElements(a, b);
    if a != [] {
      assert a[0] in b && b[0] in a;
      BelowTotal(a[0], b[0]);
      BelowTotal(a[0], a[0]);
      assert a[0] == b[0];
      assert a == [a[0]] + a[1..] && b == [b[0]] + b[1..];
      assert multiset(a[1..]) == multiset(a) - multiset{a[0]};
      assert multiset(b[1..]) == multiset(b) - multiset{b[0]};
      SortedIsUnique(a[1..], b[1..]);
    }
  }

  lemma {:induction false} NoRepeatsCounts(s: seq<string>)
    ensures NoRepeats(s) <==> forall x :: multiset(s)[x] <= 1
  {
    if s != [] {
      NoRepeatsCounts(s[1..]);
      assert s == [s[0]] + s[1..];
      assert multiset(s) == multiset(s[1..])[s[0] := multiset(s[1..])[s[0]] + 1];
      if NoRepeats(s) {
        assert s[0] !in s[1..];
      }
      if forall x :: multiset(s)[x] <= 1 {
        assert forall x :: multiset(s[1..])[x] <= multiset(s)[x];
        assert s[0] !in multiset(s[1..]);
        assert s[0] !in s[1..];
      }
    }
  }

  /** The inner loop: the prior origins the list does not have yet, appended one by one. */
  function AddMissing(list: seq<string>, prior: seq<string>): seq<string>
    decreases prior
  {
    if prior == [] then list
    else AddMissing(if prior[0] in list then list else list + [prior[0]], prior[1..])
  }

  /** How often an origin stands in a list that took in the missing ones of another. */
  function Copies(list: seq<string>, more: bool, origin: string): nat {
    if origin in list then multiset(list)[origin] else if more then 1 else 0
  }

  lemma {:induction false} AddMissingMeaning(list: seq<string>, prior: seq<string>)
    ensures forall o :: multiset(AddMissing(list, prior))[o] == Copies(list, o in prior, o)
    decreases prior
  {
    if prior != [] {
      var more := if prior[0] in list then list else list + [prior[0]];
      AddMissingMeaning(more, prior[1..]);
      assert prior == [prior[0]] + prior[1..];
    }
  }

  /** What a registration leaves in one slot, given what the layer had for it (if it had the
      slot at all) and what the incoming configuration declares. */
  function Merge(prior: Option<seq<string>>, incoming: seq<string>): seq<string> {
    if incoming == [] || prior == Some([]) then []
    else Sort(AddMissing(incoming, if prior.Some? then prior.value else []))
  }

  ghost predicate Declared(declared: seq<seq<string>>, origin: string) {
    exists origins :: origins in declared && origin in origins
  }

  lemma MergeMeaning(prior: Option<seq<string>>, incoming: seq<string>)
    ensures Merge(prior, incoming) == [] <==> prior == Some([]) || incoming == []
    ensures Sorted(Merge(prior, incoming))
    ensures prior != Some([]) && incoming != [] ==>
      forall o :: multiset(Merge(prior, incoming))[o] == Copies(incoming, prior.Some? && o in prior.value, o)
  {
    var had := if prior.Some? then prior.value else [];
    var all := AddMissing(incoming, had);
    AddMissingMeaning(incoming, had);
    SortMeaning(all);
    if incoming != [] {
      assert incoming[0] in incoming && multiset(all)[incoming[0]] > 0;
      assert incoming[0] in multiset(Sort(all));
    }
  }

  /** What a configuration declares for a slot; with a repeated ID the last entry counts. */
  function Slot(config: seq<Media>, id: string): Option<seq<string>> {
    if config == [] then None
    else
      var m := config[|config| - 1];
      if m.id == id then Some(m.allowedOrigins) else Slot(config[..|config| - 1], id)
  }

  /** The incoming configuration after the merge. */
  function Merged(previous: seq<Media>, incoming: seq<Media>): (r: seq<Media>)
    ensures |r| == |incoming|
  {
    if incoming == [] then []
    else
      var m := incoming[|incoming| - 1];
      Merged(previous, incoming[..|incoming| - 1]) + [Media(m.id, Merge(Slot(previous, m.id), m.allowedOrigins))]
  }

  /** What a layer shows after these configurations were registered for it. */
  function Registered(configs: seq<seq<Media>>): seq<Media>
    requires configs != []
  {
    var n := |configs| - 1;
    if n == 0 then configs[0] else Merged(Registered(configs[..n]), configs[n])
  }

  /** What the latest configurations declared for a slot, back to the last one without it. */
  function Recent(configs: seq<seq<Media>>, id: string): seq<seq<string>> {
    if configs == [] then []
    else
      var n := |configs| - 1;
      var slot := Slot(configs[n], id);
      if slot.None? then [] else Recent(configs[..n], id) + [slot.value]
  }

  lemma {:induction false} SlotOfMerged(previous: seq<Media>, incoming: seq<Media>, id: string)
    ensures Slot(Merged(previous, incoming), id)
         == if Slot(incoming, id).None? then None else Some(Merge(Slot(previous, id), Slot(incoming, id).value))
  {
    if incoming != [] {
      var before := incoming[..|incoming| - 1];
      SlotOfMerged(previous, before, id);
      var merged := Merged(previous, incoming);
      assert merged[..|merged| - 1] == Merged(previous, before);
    }
  }

  lemma SlotOfRegistered(configs: seq<seq<Media>>, id: string)
    requires configs != []
    ensures Slot(Registered(configs), id).Some? <==> Recent(configs, id) != []
  {
    var n := |configs| - 1;
    if n > 0 { SlotOfMerged(Registered(configs[..n]), configs[n], id); }
  }

  /** A layer after any sequence of registrations: a slot is unrestricted exactly when one of
      the declarations since the last configuration without it was; otherwise it holds exactly
      the union of these, as often as the last declaration says and once what only the others
      say, and from the second registration on sorted. */
  lemma {:induction false} SlotAfterRun(configs: seq<seq<Media>>, id: string)
    requires configs != [] && Recent(configs, id) != []
    ensures Slot(Registered(configs), id).Some?
    ensures (
      var (got, recent) := (Slot(Registered(configs), id).value, Recent(configs, id));
      && (got == [] <==> [] in recent)
      && ([] !in recent ==> forall o :: o in got <==> Declared(recent, o))
      && ([] !in recent ==> forall o :: multiset(got)[o] == Copies(recent[|recent| - 1], Declared(recent, o), o))
      && (|configs| > 1 ==> Sorted(got)))
  {
    var n := |configs| - 1;
    var last := Slot(configs[n], id).value;
    SlotOfRegistered(configs, id);
    if n == 0 {
      DeclaredMore([], last);
      assert Recent(configs, id) == [last];
      hide Recent, Sorted, Declared;
      assert forall o :: o in last <==> multiset(last)[o] > 0;
    } else {
      var before := Recent(configs[..n], id);
      SlotOfMerged(Registered(configs[..n]), configs[n], id);
      SlotOfRegistered(configs[..n], id);
      if before != [] { SlotAfterRun(configs[..n], id); }
      assert Recent(configs, id) == before + [last];
      hide Registered, Recent, Slot, Sorted, Declared, Merge, Copies;
      SlotStep(Slot(Registered(configs[..n]), id), before, last);
    }
  }

  /** One more declaration on top of what the layer has. */
  lemma SlotStep(prior: Option<seq<string>>, before: seq<seq<string>>, last: seq<string>)
    requires prior.Some? <==> before != []
    requires prior.Some? ==> (prior.value == [] <==> [] in before)
    requires prior.Some? && [] !in before ==> forall o :: o in prior.value <==> Declared(before, o)
    ensures (
      var (got, recent) := (Merge(prior, last), before + [last]);
      && (got == [] <==> [] in recent)
      && ([] !in recent ==> forall o :: o in got <==> Declared(recent, o))
      && ([] !in recent ==> forall o :: multiset(got)[o] == Copies(last, Declared(recent, o), o))
      && Sorted(got))
  {
    MergeMeaning(prior, last);
    DeclaredMore(before, last);
    assert before == [] ==> forall o :: !Declared(before, o);
    hide Sorted, Declared, Merge;
    var got := Merge(prior, last);
    forall o ensures (o in got <==> multiset(got)[o] > 0) && (o in last <==> multiset(last)[o] > 0) { }
  }

  /** A slot repeats no origin exactly when its last declaration repeats none. */
  lemma RepeatFreeIff(configs: seq<seq<Media>>, id: string)
    requires configs != [] && Recent(configs, id) != [] && [] !in Recent(configs, id)
    ensures Slot(Registered(configs), id).Some?
    ensures NoRepeats(Slot(Registered(configs), id).value)
      <==> NoRepeats(Recent(configs, id)[|Recent(configs, id)| - 1])
  {
    SlotAfterRun(configs, id);
    var (got, last) := (Slot(Registered(configs), id).value, Recent(configs, id)[|Recent(configs, id)| - 1]);
    NoRepeatsCounts(got);
    NoRepeatsCounts(last);
    hide Registered, Recent, Slot, Sorted, Declared, NoRepeats;
    forall o ensures (multiset(got)[o] <= 1) <==> (multiset(last)[o] <= 1) {
      assert o in last <==> multiset(last)[o] > 0;
    }
  }

  lemma DeclaredMore(before: seq<seq<string>>, last: seq<string>)
    ensures forall o :: Declared(before + [last], o) <==> Declared(before, o) || o in last
    ensures [] in before + [last] <==> [] in before || last == []
  {
    forall o ensures Declared(before + [last], o) <==> Declared(before, o) || o in last {
      if o in last { assert last in before + [last]; }
      if Declared(before, o) {
        var origins :| origins in before && o in origins;
        assert origins in before + [last];
      }
    }
  }

  /** Two histories declare the same for a slot since their last gaps: both nothing, both without
      restriction, or the same origins with the same repeats in the last declaration. */
  ghost predicate SameDeclared(a: seq<seq<string>>, b: seq<seq<string>>) {
    && (a == [] <==> b == []) && ([] in a <==> [] in b)
    && (a != [] && b != [] && [] !in a ==>
      forall o :: Copies(a[|a| - 1], Declared(a, o), o) == Copies(b[|b| - 1], Declared(b, o), o))
  }

  /** Any two sequences of registrations leave the same origins in a slot, as often, exactly when
      they declare the same since the last configuration without it; what came before the gap
      does not matter, and nothing else than the last declaration's repeats does. The lists are
      then equal too, unless one is a single registration, which is not sorted. */
  lemma {:induction false} SameOutcomeIff(a: seq<seq<Media>>, b: seq<seq<Media>>, id: string)
    requires a != [] && b != []
    ensures SameDeclared(Recent(a, id), Recent(b, id)) <==>
      SameContents(Slot(Registered(a), id), Slot(Registered(b), id))
    ensures |a| > 1 && |b| > 1 ==>
      (Slot(Registered(a), id) == Slot(Registered(b), id) <==> SameDeclared(Recent(a, id), Recent(b, id)))
  {
    hide Registered, Recent, Slot, Sorted, Declared, Copies;
    SlotOfRegistered(a, id);
    SlotOfRegistered(b, id);
    if Recent(a, id) != [] && Recent(b, id) != [] {
      SlotAfterRun(a, id);
      SlotAfterRun(b, id);
      var (got, other) := (Slot(Registered(a), id).value, Slot(Registered(b), id).value);
      CountsDecide(Recent(a, id), Recent(b, id), got, other);
      if |a| > 1 && |b| > 1 && multiset(got) == multiset(other) { SortedIsUnique(got, other); }
    }
  }

  ghost predicate SameContents(a: Option<seq<string>>, b: Option<seq<string>>) {
    (a.Some? <==> b.Some?) && (a.Some? && b.Some? ==> multiset(a.value) == multiset(b.value))
  }

  lemma CountsDecide(a: seq<seq<string>>, b: seq<seq<string>>, got: seq<string>, other: seq<string>)
    requires a != [] && b != [] && (got == [] <==> [] in a) && (other == [] <==> [] in b)
    requires [] !in a ==> forall o :: multiset(got)[o] == Copies(a[|a| - 1], Declared(a, o), o)
    requires [] !in b ==> forall o :: multiset(other)[o] == Copies(b[|b| - 1], Declared(b, o), o)
    ensures SameDeclared(a, b) <==> multiset(got) == multiset(other)
  {
    hide Copies, Declared;
    assert got == [] <==> multiset(got) == multiset{} by { assert got != [] ==> got[0] in multiset(got); }
    assert other == [] <==> multiset(other) == multiset{} by { assert other != [] ==> other[0] in multiset(other); }
  }

  ghost predicate DeclaredByAll(configs: seq<seq<Media>>, id: string) {
    forall c :: c in configs ==> Slot(c, id).Some?
  }

  /** Every configuration lists each of its origins once. */
  ghost predicate ListedOnce(configs: seq<seq<Media>>, id: string) {
    forall c :: c in configs && Slot(c, id).Some? ==> NoRepeats(Slot(c, id).value)
  }

  lemma {:induction false} RecentIsAll(configs: seq<seq<Media>>, id: string)
    requires DeclaredByAll(configs, id)
    ensures |Recent(configs, id)| == |configs|
    ensures forall k :: 0 <= k < |configs| ==> Slot(configs[k], id) == Some(Recent(configs, id)[k])
    ensures forall origins :: origins in Recent(configs, id) <==> exists c :: c in configs && Slot(c, id) == Some(origins)
  {
    if configs != [] {
      var before, c := configs[..|configs| - 1], configs[|configs| - 1];
      RecentIsAll(before, id);
      assert forall d :: d in configs <==> d in before || d == c;
      hide Slot;
    }
  }

  /** What the last configuration declares for the slot. */
  ghost function Latest(configs: seq<seq<Media>>, id: string): seq<string>
    requires configs != [] && DeclaredByAll(configs, id)
  {
    Slot(configs[|configs| - 1], id).value
  }

  /** Two lists that repeat the same origins equally often; what only one has, it has once. */
  ghost predicate SameRepeats(a: seq<string>, b: seq<string>) {
    forall o :: Copies(a, true, o) == Copies(b, true, o)
  }

  /** Histories that declare the same lists all along end with the same origins, and from the
      second registration on with the same list exactly when their last declarations repeat the
      same ones, or some list is unrestricted. */
  lemma {:induction false} SameListsIff(a: seq<seq<Media>>, b: seq<seq<Media>>, id: string)
    requires |a| > 1 && |b| > 1 && DeclaredByAll(a, id) && DeclaredByAll(b, id)
    requires forall origins :: origins in Recent(a, id) <==> origins in Recent(b, id)
    ensures Slot(Registered(a), id).Some? && Slot(Registered(b), id).Some?
    ensures forall o :: o in Slot(Registered(a), id).value <==> o in Slot(Registered(b), id).value
    ensures Slot(Registered(a), id) == Slot(Registered(b), id)
      <==> [] in Recent(a, id) || SameRepeats(Latest(a, id), Latest(b, id))
  {
    RecentIsAll(a, id);
    RecentIsAll(b, id);
    SlotAfterRun(a, id);
    SlotAfterRun(b, id);
    SameOutcomeIff(a, b, id);
    hide Registered, Slot, Recent, Sorted;
    forall o ensures Declared(Recent(a, id), o) <==> Declared(Recent(b, id), o) { }
    if [] !in Recent(a, id) { SameDeclaredIff(Recent(a, id), Recent(b, id)); }
  }

  lemma SameDeclaredIff(a: seq<seq<string>>, b: seq<seq<string>>)
    requires a != [] && b != [] && [] !in a && [] !in b && forall o :: Declared(a, o) <==> Declared(b, o)
    ensures SameDeclared(a, b) <==> SameRepeats(a[|a| - 1], b[|b| - 1])
  {
    var (x, y) := (a[|a| - 1], b[|b| - 1]);
    forall o ensures Copies(x, Declared(a, o), o) == Copies(y, Declared(b, o), o) <==> Copies(x, true, o) == Copies(y, true, o) {
      assert o in x ==> x in a && Declared(a, o);
      assert o in y ==> y in b && Declared(b, o);
    }
    hide Declared, Copies;
  }

  /** When every source declares the slot, each load order gives the same origins. */
  lemma LoadOrderSameOrigins(configs: seq<seq<Media>>, reordered: seq<seq<Media>>, id: string)
    requires configs != [] && multiset(configs) == multiset(reordered) && DeclaredByAll(configs, id)
    ensures reordered != [] && Slot(Registered(configs), id).Some? && Slot(Registered(reordered), id).Some?
    ensures forall o :: o in Slot(Registered(configs), id).value <==> o in Slot(Registered(reordered), id).value
  {
    Reordered(configs, reordered, id);
    if |configs| > 1 { SameListsIff(configs, reordered, id); }
    hide Registered, Slot, Recent;
  }

  lemma Reordered(configs: seq<seq<Media>>, reordered: seq<seq<Media>>, id: string)
    requires configs != [] && multiset(configs) == multiset(reordered) && DeclaredByAll(configs, id)
    ensures |configs| == |reordered| && DeclaredByAll(reordered, id)
    ensures forall origins :: origins in Recent(configs, id) <==> origins in Recent(reordered, id)
    ensures |configs| == 1 ==> configs == reordered && Slot(Registered(configs), id).Some?
  {
    SameConfigs(configs, reordered);
    RecentIsAll(configs, id);
    RecentIsAll(reordered, id);
    SlotOfRegistered(configs, id);
    hide Recent, Slot, Registered;
  }

  /** And the same list exactly when the configurations that come last in the two orders repeat
      the same origins, or some configuration is unrestricted. */
  lemma {:induction false} LoadOrderIrrelevantIff(configs: seq<seq<Media>>, reordered: seq<seq<Media>>, id: string)
    requires configs != [] && multiset(configs) == multiset(reordered) && DeclaredByAll(configs, id)
    ensures reordered != [] && DeclaredByAll(reordered, id)
    ensures Slot(Registered(configs), id) == Slot(Registered(reordered), id)
      <==> [] in Recent(configs, id) || SameRepeats(Latest(configs, id), Latest(reordered, id))
  {
    Reordered(configs, reordered, id);
    if |configs| > 1 { SameListsIff(configs, reordered, id); }
    hide Registered, Slot, Recent;
  }

  lemma NoRepeatsAreSame(a: seq<string>, b: seq<string>)
    requires NoRepeats(a) && NoRepeats(b)
    ensures SameRepeats(a, b)
  {
    NoRepeatsCounts(a);
    NoRepeatsCounts(b);
    hide NoRepeats;
    forall o ensures Copies(a, true, o) == 1 && Copies(b, true, o) == 1 {
      assert o in a <==> multiset(a)[o] > 0;
      assert o in b <==> multiset(b)[o] > 0;
    }
  }

  /** So it does not depend on the load order when no configuration lists an origin twice. */
  lemma {:induction false} LoadOrderIrrelevant(configs: seq<seq<Media>>, reordered: seq<seq<Media>>, id: string)
    requires configs != [] && multiset(configs) == multiset(reordered)
    requires DeclaredByAll(configs, id) && ListedOnce(configs, id)
    ensures reordered != [] && Slot(Registered(configs), id) == Slot(Registered(reordered), id)
  {
    LoadOrderIrrelevantIff(configs, reordered, id);
    SameConfigs(configs, reordered);
    assert configs[|configs| - 1] in configs && reordered[|reordered| - 1] in configs;
    NoRepeatsAreSame(Latest(configs, id), Latest(reordered, id));
    hide Registered, Slot, Recent, SameRepeats;
  }

  /** But it does for one that does: here the repeat stays only if its configuration is last. */
  lemma RepeatsDependOnOrder(id: string, origin: string)
    ensures (
      var twice, once := [Media(id, [origin, origin])], [Media(id, [origin])];
      Slot(Registered([twice, once]), id) != Slot(Registered([once, twice]), id))
  {
    var twice, once := [Media(id, [origin, origin])], [Media(id, [origin])];
    assert Slot(twice, id) == Some([origin, origin]) && Slot(once, id) == Some([origin]);
    LoadOrderIrrelevantIff([twice, once], [once, twice], id);
    RecentIsAll([twice, once], id);
    hide Registered, Slot, Recent;
    assert Copies([origin, origin], true, origin) == 2 && Copies([origin], true, origin) == 1;
  }

  /** Registering once more what the layer has already seen changes nothing exactly when: the
      layer has seen only that, and it is sorted; or it is unrestricted; or what is registered
      repeats the same origins as what was registered last. */
  lemma {:induction false} IdempotentIff(configs: seq<seq<Media>>, again: seq<Media>, id: string)
    requires again in configs && DeclaredByAll(configs, id)
    ensures Slot(Registered(configs + [again]), id) == Slot(Registered(configs), id)
      <==> if |configs| == 1 then Sorted(Latest(configs, id))
           else [] in Recent(configs, id) || SameRepeats(Slot(again, id).value, Latest(configs, id))
  {
    if |configs| == 1 {
      OnceMore(again, id);
      assert configs == [again];
    } else {
      RecentIsAll(configs, id);
      RecentIsAll(configs + [again], id);
      assert Latest(configs + [again], id) == Slot(again, id).value;
      hide Registered, Slot, Recent, Sorted;
      SameListsIff(configs + [again], configs, id);
    }
  }

  lemma OnceMore(again: seq<Media>, id: string)
    requires Slot(again, id).Some?
    ensures Slot(Registered([again] + [again]), id) == Slot(Registered([again]), id) <==> Sorted(Slot(again, id).value)
  {
    var list := Slot(again, id).value;
    assert ([again] + [again])[..1] == [again];
    SlotOfMerged(again, again, id);
    MergeMeaning(Some(list), list);
    if list != [] {
      forall o ensures multiset(Merge(Some(list), list))[o] == multiset(list)[o] {
        assert o in list <==> multiset(list)[o] > 0;
      }
      assert multiset(Merge(Some(list), list)) == multiset(list);
      if Sorted(list) { SortedIsUnique(Merge(Some(list), list), list); }
    }
    hide Slot, Merge, Sorted;
  }

  /** In particular from the second registration on, when no configuration lists an origin twice. */
  lemma MergeIsIdempotent(configs: seq<seq<Media>>, again: seq<Media>, id: string)
    requires |configs| > 1 && again in configs && DeclaredByAll(configs, id) && ListedOnce(configs, id)
    ensures Slot(Registered(configs + [again]), id) == Slot(Registered(configs), id)
  {
    IdempotentIff(configs, again, id);
    assert configs[|configs| - 1] in configs;
    NoRepeatsAreSame(Slot(again, id).value, Latest(configs, id));
    hide Registered, Slot, Recent, SameRepeats;
  }

  lemma SameConfigs(configs: seq<seq<Media>>, reordered: seq<seq<Media>>)
    requires multiset(configs) == multiset(reordered)
    ensures |configs| == |reordered|
    ensures forall c :: c in configs <==> c in reordered
    ensures |configs| == 1 ==> configs == reordered
  {
    assert |multiset(configs)| == |multiset(reordered)|;
    forall c ensures c in configs <==> c in reordered {
      assert c in multiset(configs) <==> c in multiset(reordered);
    }
    if |configs| == 1 { assert configs[0] in reordered; }
  }

  /** Of three configurations, one without the slot between two with it loses the first one's
      origins: with gaps the outcome depends on the load order, as `SameOutcomeIff` says when. */
  lemma GapLosesOrigins(a: seq<Media>, b: seq<Media>, c: seq<Media>, id: string, origin: string)
    requires Slot(b, id).None? && Slot(a, id).Some? && Slot(c, id).Some?
    requires origin in Slot(a, id).value && origin !in Slot(c, id).value && Slot(c, id).value != []
    ensures Slot(Registered([a, b, c]), id).Some? && origin !in Slot(Registered([a, b, c]), id).value
    ensures Slot(Registered([b, a, c]), id).Some? && origin in Slot(Registered([b, a, c]), id).value
  {
    assert [a, b, c][..2] == [a, b] && [b, a, c][..2] == [b, a] && [b, a][..1] == [b];
    assert Recent([a, b], id) == [] && Recent([b], id) == [];
    assert Recent([a, b, c], id) == [Slot(c, id).value];
    assert Recent([b, a], id) == [Slot(a, id).value];
    assert Recent([b, a, c], id) == [Slot(a, id).value, Slot(c, id).value];
    hide Recent, Registered;
    SlotAfterRun([a, b, c], id);
    SlotAfterRun([b, a, c], id);
    assert Slot(a, id).value in Recent([b, a, c], id);
    assert Declared(Recent([b, a, c], id), origin);
  }

  /** The settings of a layer's display, shared by pointer with whoever declared them. */
  class LayerDisplayConfig {
    var media: seq<Media>

    constructor (media: seq<Media>)
      ensures this.media == media
    {
      this.media := media;
    }
  }

  /** Folds the origins of the previous configuration into the incoming one, in place. The two
      may be the same object. */
  method MergeMediaOrigins(previous: LayerDisplayConfig, incoming: LayerDisplayConfig)
    modifies incoming
    ensures incoming.media == Merged(old(previous.media), old(incoming.media))
  {
    ghost var before, arriving := previous.media, incoming.media;
    var prior := PriorOrigins(previous.media);
    for i := 0 to |incoming.media|
      invariant |incoming.media| == |arriving|
      invariant incoming.media == Merged(before, arriving[..i]) + arriving[i..]
    {
      hide Slot, Merge;
      assert incoming.media[i] == arriving[i];
      var origins := MergeSlot(prior, incoming.media[i], before);
      MergedMore(before, arriving, i);
      hide Merged;
      incoming.media := incoming.media[i := incoming.media[i].(allowedOrigins := origins)];
    }
    assert arriving[..|arriving|] == arriving;
  }

  lemma MergedMore(previous: seq<Media>, incoming: seq<Media>, i: nat)
    requires i < |incoming|
    ensures Merged(previous, incoming[..i + 1])
         == Merged(previous, incoming[..i])
            + [Media(incoming[i].id, Merge(Slot(previous, incoming[i].id), incoming[i].allowedOrigins))]
  {
    assert incoming[..i + 1][..i] == incoming[..i];
  }

  method MergeSlot(prior: map<string, seq<string>>, media: Media, ghost previous: seq<Media>)
    returns (origins: seq<string>)
    requires forall id :: (if id in prior then Some(prior[id]) else None) == Slot(previous, id)
    ensures origins == Merge(Slot(previous, media.id), media.allowedOrigins)
  {
    assert (if media.id in prior then Some(prior[media.id]) else None) == Slot(previous, media.id);
    hide Slot, Sort, AddMissing;
    origins := media.allowedOrigins;
    if origins == [] { return; }
    if media.id in prior && prior[media.id] == [] { return []; }
    origins := AppendMissing(origins, if media.id in prior then prior[media.id] else []);
    origins := Sort(origins);
  }

  method PriorOrigins(media: seq<Media>) returns (prior: map<string, seq<string>>)
    ensures forall id :: (if id in prior then Some(prior[id]) else None) == Slot(media, id)
  {
    prior := map[];
    for i := 0 to |media|
      invariant forall id :: (if id in prior then Some(prior[id]) else None) == Slot(media[..i], id)
    {
      assert media[..i + 1][..i] == media[..i];
      prior := prior[media[i].id := media[i].allowedOrigins];
    }
    assert media[..|media|] == media;
  }

  method AppendMissing(list: seq<string>, prior: seq<string>) returns (r: seq<string>)
    ensures r == AddMissing(list, prior)
  {
    r := list;
    for i := 0 to |prior|
      invariant AddMissing(r, prior[i..]) == AddMissing(list, prior)
    {
      assert prior[i..][1..] == prior[i + 1..];
      if prior[i] !in r {
        r := r + [prior[i]];
      }
    }
  }
}
