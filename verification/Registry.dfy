/** The registry's two-way index: every registered source feeds one layer, and every layer
    lists the sources that feed it. */
module Registry {
  import opened Wrappers
  import Origins

  type SourceType = string
  type LayerType = string

  datatype Index = Index(
    sourceToLayer: map<SourceType, LayerType>, layerToSources: map<LayerType, seq<SourceType>>)

  datatype Call = Register(st: SourceType, lt: LayerType) | Unregister(st: SourceType)

  /** A layer's sources; a layer that is not in the map has none. */
  function Sources(layers: map<LayerType, seq<SourceType>>, lt: LayerType): seq<SourceType> {
    if lt in layers then layers[lt] else []
  }

  function RemoveFirst(sources: seq<SourceType>, st: SourceType): seq<SourceType> {
    if sources == [] then []
    else if sources[0] == st then sources[1..]
    else [sources[0]] + RemoveFirst(sources[1..], st)
  }

  /** Layer `lt` gets this list of sources; an empty list is not kept. */
  function Relist(layers: map<LayerType, seq<SourceType>>, lt: LayerType, sources: seq<SourceType>)
    : map<LayerType, seq<SourceType>>
  {
    if sources == [] then layers - {lt} else layers[lt := sources]
  }

  function Dropped(layers: map<LayerType, seq<SourceType>>, lt: LayerType, st: SourceType)
    : map<LayerType, seq<SourceType>>
  {
    Relist(layers, lt, RemoveFirst(Sources(layers, lt), st))
  }

  function Added(layers: map<LayerType, seq<SourceType>>, lt: LayerType, st: SourceType)
    : map<LayerType, seq<SourceType>>
  {
    if st in Sources(layers, lt) then layers else layers[lt := Sources(layers, lt) + [st]]
  }

  /** The lists once the call's source is out of a layer it leaves. */
  function Cleared(x: Index, call: Call): map<LayerType, seq<SourceType>> {
    if call.st in x.sourceToLayer && !(call.Register? && x.sourceToLayer[call.st] == call.lt)
    then Dropped(x.layerToSources, x.sourceToLayer[call.st], call.st)
    else x.layerToSources
  }

  /** The effect of one call on the index. */
  function Next(x: Index, call: Call): Index {
    match call
    case Register(st, lt) => Index(x.sourceToLayer[st := lt], Added(Cleared(x, call), lt, st))
    case Unregister(st) => Index(x.sourceToLayer - {st}, Cleared(x, call))
  }

  function Exec(calls: seq<Call>): Index {
    if calls == [] then Index(map[], map[]) else Next(Exec(calls[..|calls| - 1]), calls[|calls| - 1])
  }

  /** What the calls say of one source, without replaying the others: the layer of its last
      registration, if it was not unregistered since. */
  function Latest(calls: seq<Call>, st: SourceType): Option<LayerType> {
    if calls == [] then None
    else
      var c := calls[|calls| - 1];
      if c.st != st then Latest(calls[..|calls| - 1], st)
      else if c.Register? then Some(c.lt) else None
  }

  /** Which call brought a source into the layer it is in now: registering it again for the
      same layer does not count. */
  function Joined(calls: seq<Call>, st: SourceType): nat {
    if calls == [] then 0
    else
      var before := calls[..|calls| - 1];
      if Latest(calls, st) != Latest(before, st) then |before| else Joined(before, st)
  }

  ghost predicate Ordered(calls: seq<Call>, sources: seq<SourceType>) {
    forall i, j :: 0 <= i < j < |sources| ==> Joined(calls, sources[i]) < Joined(calls, sources[j])
  }

  /** The index a history of calls must leave: forward the latest layer of each source, backward
      for each layer exactly its sources in the order they joined it, and no empty list. */
  ghost predicate Reflects(x: Index, calls: seq<Call>) {
    && (forall st :: st in x.sourceToLayer <==> Latest(calls, st).Some?)
    && (forall st :: st in x.sourceToLayer ==> Latest(calls, st) == Some(x.sourceToLayer[st]))
    && (forall lt :: lt in x.layerToSources ==> x.layerToSources[lt] != [])
    && (forall lt, st :: st in Sources(x.layerToSources, lt) <==> Latest(calls, st) == Some(lt))
    && (forall lt :: Ordered(calls, Sources(x.layerToSources, lt)))
  }

  lemma {:induction false} AfterRemove(sources: seq<SourceType>, st: SourceType)
    requires forall i, j :: 0 <= i < j < |sources| ==> sources[i] != sources[j]
    ensures forall s :: s in RemoveFirst(sources, st) <==> s in sources && s != st
  {
    if sources != [] && sources[0] != st {
      AfterRemove(sources[1..], st);
      forall s ensures s in RemoveFirst(sources, st) <==> s in sources && s != st {
        assert s in sources <==> s == sources[0] || s in sources[1..];
      }
    } else if sources != [] {
      forall s ensures s in sources[1..] <==> s in sources && s != st {
        assert s in sources <==> s == sources[0] || s in sources[1..];
      }
    }
  }

  /** Removing from an ordered list keeps it ordered. */
  lemma {:induction false} OrderedRemove(calls: seq<Call>, sources: seq<SourceType>, st: SourceType)
    requires Ordered(calls, sources)
    ensures Ordered(calls, RemoveFirst(sources, st))
    ensures forall s :: s in RemoveFirst(sources, st) ==> s in sources
  {
    if sources != [] && sources[0] != st {
      OrderedRemove(calls, sources[1..], st);
      var rest := RemoveFirst(sources[1..], st);
      forall j | 0 <= j < |rest| ensures Joined(calls, sources[0]) < Joined(calls, rest[j]) {
        assert rest[j] in rest;
        assert rest[j] in sources[1..];
        var k :| 0 <= k < |sources[1..]| && sources[1..][k] == rest[j];
        assert sources[1 + k] == rest[j];
      }
    }
  }

  lemma {:induction false} RemoveFirstAt(sources: seq<SourceType>, st: SourceType, i: nat)
    requires i <= |sources| && st !in sources[..i] && (i < |sources| ==> sources[i] == st)
    ensures RemoveFirst(sources, st) == if i < |sources| then sources[..i] + sources[i + 1..] else sources
  {
    if i > 0 {
      assert sources[1..][..i - 1] == sources[..i][1..];
      assert sources[0] == sources[..i][0];
      RemoveFirstAt(sources[1..], st, i - 1);
    }
  }

  lemma {:induction false} JoinedEarlier(calls: seq<Call>, st: SourceType)
    requires Latest(calls, st).Some?
    ensures Joined(calls, st) < |calls|
  {
    if Latest(calls[..|calls| - 1], st) == Latest(calls, st) { JoinedEarlier(calls[..|calls| - 1], st); }
  }

  /** Only the source a call names can change layer by it. */
  lemma Untouched(calls: seq<Call>, call: Call, st: SourceType)
    requires Latest(calls + [call], st) == Latest(calls, st)
    ensures Joined(calls + [call], st) == Joined(calls, st)
  {
    assert (calls + [call])[..|calls|] == calls;
  }

  lemma OrderedStill(calls: seq<Call>, call: Call, sources: seq<SourceType>)
    requires Ordered(calls, sources)
    requires forall s :: s in sources ==> Latest(calls + [call], s) == Latest(calls, s)
    ensures Ordered(calls + [call], sources)
  {
    forall s | s in sources ensures Joined(calls + [call], s) == Joined(calls, s) { Untouched(calls, call, s); }
  }

  lemma OrderedAppend(calls: seq<Call>, call: Call, sources: seq<SourceType>, st: SourceType)
    requires Ordered(calls, sources)
    requires forall s :: s in sources ==> Latest(calls + [call], s) == Latest(calls, s) != None
    requires Latest(calls + [call], st) != Latest(calls, st)
    ensures Ordered(calls + [call], sources + [st])
  {
    OrderedStill(calls, call, sources);
    assert (calls + [call])[..|calls|] == calls;
    assert Joined(calls + [call], st) == |calls|;
    forall s | s in sources ensures Joined(calls + [call], s) < |calls| {
      Untouched(calls, call, s);
      JoinedEarlier(calls, s);
    }
  }

  lemma LatestNext(calls: seq<Call>, call: Call, st: SourceType)
    ensures Latest(calls + [call], st)
         == if call.st != st then Latest(calls, st) else if call.Register? then Some(call.lt) else None
  {
    assert (calls + [call])[..|calls|] == calls;
  }

  lemma ForwardStep(x: Index, calls: seq<Call>, call: Call)
    requires Reflects(x, calls)
    ensures forall st :: st in Next(x, call).sourceToLayer <==> Latest(calls + [call], st).Some?
    ensures forall st :: st in Next(x, call).sourceToLayer
              ==> Latest(calls + [call], st) == Some(Next(x, call).sourceToLayer[st])
  {
    forall st
      ensures st in Next(x, call).sourceToLayer <==> Latest(calls + [call], st).Some?
      ensures st in Next(x, call).sourceToLayer
        ==> Latest(calls + [call], st) == Some(Next(x, call).sourceToLayer[st])
    {
      LatestNext(calls, call, st);
    }
  }

  lemma Distinct(calls: seq<Call>, sources: seq<SourceType>)
    requires Ordered(calls, sources)
    ensures forall i, j :: 0 <= i < j < |sources| ==> sources[i] != sources[j]
  {
  }

  /** Clearing leaves every other pairing in place. */
  lemma ClearStep(x: Index, calls: seq<Call>, call: Call, lt: LayerType)
    requires Reflects(x, calls)
    ensures (
      var kept := Sources(Cleared(x, call), lt);
      && (forall st :: st in kept <==> Latest(calls, st) == Some(lt) && (st == call.st ==> call.Register? && call.lt == lt))
      && Ordered(calls, kept))
    ensures lt in Cleared(x, call) ==> Cleared(x, call)[lt] != []
  {
    hide Ordered, Joined, RemoveFirst, Latest;
    if call.st in x.sourceToLayer {
      var sources := Sources(x.layerToSources, x.sourceToLayer[call.st]);
      Distinct(calls, sources);
      AfterRemove(sources, call.st);
      OrderedRemove(calls, sources, call.st);
    }
  }

  /** One call keeps the index equal to what the history says. */
  lemma StepReflects(x: Index, calls: seq<Call>, call: Call, lt: LayerType)
    requires Reflects(x, calls)
    ensures (
      var after := Next(x, call).layerToSources;
      && (lt in after ==> after[lt] != [])
      && (forall st :: st in Sources(after, lt) <==> Latest(calls + [call], st) == Some(lt))
      && Ordered(calls + [call], Sources(after, lt)))
  {
    forall st
      ensures Latest(calls + [call], st)
           == if call.st != st then Latest(calls, st) else if call.Register? then Some(call.lt) else None
    {
      LatestNext(calls, call, st);
    }
    ClearStep(x, calls, call, lt);
    var kept := Sources(Cleared(x, call), lt);
    if call.Register? && lt == call.lt && call.st !in kept {
      OrderedAppend(calls, call, kept, call.st);
    } else {
      OrderedStill(calls, call, kept);
    }
    hide Ordered, Joined, Latest, Cleared, Reflects;
  }

  lemma {:induction false} AlwaysReflects(calls: seq<Call>)
    ensures Reflects(Exec(calls), calls)
  {
    if calls != [] {
      var before, call := calls[..|calls| - 1], calls[|calls| - 1];
      AlwaysReflects(before);
      assert before + [call] == calls;
      ForwardStep(Exec(before), before, call);
      forall lt { StepReflects(Exec(before), before, call, lt); }
    }
  }

  /** On every run the two maps are exact inverses: a source is in a layer's list once when
      that is its layer and not at all otherwise, and no layer is kept without sources. */
  lemma {:induction false} ExactInverses(calls: seq<Call>, st: SourceType, lt: LayerType)
    ensures (
      var x := Exec(calls);
      && multiset(Sources(x.layerToSources, lt))[st]
         == (if st in x.sourceToLayer && x.sourceToLayer[st] == lt then 1 else 0)
      && (lt in x.layerToSources <==> lt in x.sourceToLayer.Values))
  {
    AlwaysReflects(calls);
    var x := Exec(calls);
    Distinct(calls, Sources(x.layerToSources, lt));
    CountOnce(Sources(x.layerToSources, lt), st);
    assert st in Sources(x.layerToSources, lt) <==> Latest(calls, st) == Some(lt);
    Range(x, calls, lt);
    hide Exec, Ordered, Reflects, Latest;
  }

  lemma Range(x: Index, calls: seq<Call>, lt: LayerType)
    requires Reflects(x, calls)
    ensures lt in x.layerToSources <==> lt in x.sourceToLayer.Values
  {
    hide Ordered, Latest, Joined;
    if lt in x.layerToSources {
      var st := x.layerToSources[lt][0];
      assert st in Sources(x.layerToSources, lt);
      assert x.sourceToLayer[st] == lt;
    }
    if lt in x.sourceToLayer.Values {
      var st :| st in x.sourceToLayer && x.sourceToLayer[st] == lt;
      assert st in Sources(x.layerToSources, lt);
    }
  }

  lemma {:induction false} CountOnce(sources: seq<SourceType>, st: SourceType)
    requires forall i, j :: 0 <= i < j < |sources| ==> sources[i] != sources[j]
    ensures multiset(sources)[st] == if st in sources then 1 else 0
  {
    if sources != [] {
      CountOnce(sources[1..], st);
      assert sources == [sources[0]] + sources[1..];
      assert st in sources <==> st == sources[0] || st in sources[1..];
    }
  }

  /** The registry itself; the lock makes each call one step. */
  class DynamicSourceRegistry {
    var sourceToLayer: map<SourceType, LayerType>
    var layerToSources: map<LayerType, seq<SourceType>>
    var displayConfigs: map<LayerType, Origins.LayerDisplayConfig>

    ghost function Value(): Index
      reads this
    {
      Index(sourceToLayer, layerToSources)
    }

    constructor ()
      ensures Value() == Exec([]) && displayConfigs == map[]
    {
      sourceToLayer, layerToSources, displayConfigs := map[], map[], map[];
    }

    method Register(st: SourceType, lt: LayerType)
      modifies this`sourceToLayer, this`layerToSources
      ensures Value() == Next(old(Value()), Call.Register(st, lt))
    {
      if st in sourceToLayer && sourceToLayer[st] != lt {
        RemoveFromLayerLocked(sourceToLayer[st], st);
      }
      sourceToLayer := sourceToLayer[st := lt];
      var sources := if lt in layerToSources then layerToSources[lt] else [];
      for i := 0 to |sources|
        invariant st !in sources[..i]
      {
        if sources[i] == st { return; }
      }
      layerToSources := layerToSources[lt := sources + [st]];
    }

    method Unregister(st: SourceType)
      modifies this`sourceToLayer, this`layerToSources
      ensures Value() == Next(old(Value()), Call.Unregister(st))
    {
      if st !in sourceToLayer { return; }
      var lt := sourceToLayer[st];
      sourceToLayer := sourceToLayer - {st};
      RemoveFromLayerLocked(lt, st);
    }

    method RemoveFromLayerLocked(lt: LayerType, st: SourceType)
      modifies this`layerToSources
      ensures layerToSources == Dropped(old(layerToSources), lt, st)
    {
      var sources := if lt in layerToSources then layerToSources[lt] else [];
      var i := 0;
      while i < |sources| && sources[i] != st
        invariant 0 <= i <= |sources|
        invariant st !in sources[..i]
      {
        i := i + 1;
      }
      RemoveFirstAt(sources, st, i);
      hide RemoveFirst;
      if i < |sources| {
        layerToSources := layerToSources[lt := sources[..i] + sources[i + 1..]];
      }
      if lt !in layerToSources || layerToSources[lt] == [] {
        layerToSources := layerToSources - {lt};
      }
    }

    /** The last display settings win, except for origins: those of the previous settings are
        folded into the incoming ones, whose object the registry then shares. */
    method RegisterWithDisplay(st: SourceType, lt: LayerType, dc: Origins.LayerDisplayConfig?)
      modifies this, if dc == null then {} else {dc}
      ensures Value() == Next(old(Value()), Call.Register(st, lt))
      ensures dc == null ==> displayConfigs == old(displayConfigs)
      ensures dc != null ==> displayConfigs == old(displayConfigs)[lt := dc]
      ensures dc != null && lt in old(displayConfigs)
        ==> dc.media == Origins.Merged(old(displayConfigs[lt].media), old(dc.media))
      ensures dc != null && lt !in old(displayConfigs) ==> dc.media == old(dc.media)
    {
      Register(st, lt);
      if dc == null { return; }
      if lt in displayConfigs {
        Origins.MergeMediaOrigins(displayConfigs[lt], dc);
      }
      displayConfigs := displayConfigs[lt := dc];
    }

    /** The layers with at least one source, each once; the order is the map's. */
    method AllLayerTypes(ghost calls: seq<Call>) returns (result: seq<LayerType>)
      requires Value() == Exec(calls)
      ensures forall lt :: multiset(result)[lt] == if lt in sourceToLayer.Values then 1 else 0
    {
      result := [];
      var rest := layerToSources.Keys;
      while rest != {}
        invariant rest <= layerToSources.Keys
        invariant forall lt :: multiset(result)[lt] == if lt in layerToSources.Keys - rest then 1 else 0
      {
        var lt :| lt in rest;
        rest := rest - {lt};
        result := result + [lt];
      }
      forall lt ensures lt in layerToSources <==> lt in sourceToLayer.Values {
        ExactInverses(calls, "", lt);
      }
    }
  }
}
