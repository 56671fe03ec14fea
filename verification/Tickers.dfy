/** The on-demand polling contexts of one client, over all interleavings of its reader, which
    starts and stops them layer by layer, with the server loop, which stops them all. */
module Tickers {
  import opened Wrappers
  import ClientState

  type Layer = ClientState.Layer

  /** A cancellable context; the number tells contexts of one layer apart. */
  datatype Context = Context(layer: Layer, number: nat)

  /** Where the reader is: between messages, or part way through starting a ticker. */
  datatype Reader = AtBoundary | Restarting(layer: Layer) | Created(context: Context) | Exited

  datatype State = State(
    tickers: map<Layer, Context>,
    uncancelled: set<Context>,
    created: nat,
    reader: Reader)

  const INIT := State(map[], {}, 0, AtBoundary)

  /** One step per critical section. Starting a ticker takes three: stop the old one, create a
      context, store its cancel function. */
  datatype Step =
    | StopTicker(layer: Layer)
    | BeginStart(layer: Layer)
    | NoInterval
    | Create
    | Store
    | ReaderExit
    | StopAll

  predicate Enabled(s: State, e: Step) {
    match e
    case StopTicker(_) => s.reader.AtBoundary?
    case BeginStart(_) => s.reader.AtBoundary?
    case NoInterval => s.reader.Restarting?
    case Create => s.reader.Restarting?
    case Store => s.reader.Created?
    case ReaderExit => s.reader.AtBoundary?
    case StopAll => true
  }

  function Stop(s: State, l: Layer): State {
    if l in s.tickers then s.(uncancelled := s.uncancelled - {s.tickers[l]}, tickers := s.tickers - {l}) else s
  }

  function Next(s: State, e: Step): State
    requires Enabled(s, e)
  {
    match e
    case StopTicker(l) => Stop(s, l)
    case BeginStart(l) => Stop(s, l).(reader := Restarting(l))
    case NoInterval => s.(reader := AtBoundary)
    case Create =>
      var context := Context(s.reader.layer, s.created);
      s.(created := s.created + 1, uncancelled := s.uncancelled + {context}, reader := Created(context))
    case Store => s.(tickers := s.tickers[s.reader.context.layer := s.reader.context], reader := AtBoundary)
    case ReaderExit => s.(reader := Exited)
    case StopAll => s.(tickers := map[], uncancelled := s.uncancelled - s.tickers.Values)
  }

  function Exec(trace: seq<Step>): Option<State> {
    if trace == [] then Some(INIT)
    else
      var before := Exec(trace[..|trace| - 1]);
      var e := trace[|trace| - 1];
      if before.None? || !Enabled(before.value, e) then None else Some(Next(before.value, e))
  }

  /** The uncancelled contexts are those of the map, plus one not yet stored, whose layer the
      map does not have. */
  ghost predicate Inv(s: State) {
    && (forall l :: l in s.tickers ==> s.tickers[l].layer == l)
    && (forall x :: x in s.uncancelled ==> x.number < s.created)
    && (forall x :: x in s.uncancelled <==>
          (x.layer in s.tickers && s.tickers[x.layer] == x) || s.reader == Created(x))
    && (s.reader.Restarting? ==> s.reader.layer !in s.tickers)
    && (s.reader.Created? ==> s.reader.context.layer !in s.tickers)
  }

  lemma StopKeeps(s: State, l: Layer)
    requires Inv(s) && s.reader.AtBoundary?
    ensures Inv(Stop(s, l)) && l !in Stop(s, l).tickers
    ensures forall x :: x in Stop(s, l).uncancelled ==> x.layer != l
  {
  }

  lemma StepKeeps(s: State, e: Step)
    requires Inv(s) && Enabled(s, e)
    ensures Inv(Next(s, e))
  {
    match e
    case StopTicker(l) => StopKeeps(s, l);
    case BeginStart(l) => StopKeeps(s, l); hide Stop;
    case StopAll => StopAllKeeps(s);
    case _ =>
  }

  lemma StopAllKeeps(s: State)
    requires Inv(s)
    ensures Inv(Next(s, StopAll))
    ensures Next(s, StopAll).uncancelled == {} <==> !s.reader.Created?
  {
    if s.reader.Created? {
      assert s.reader.context in Next(s, StopAll).uncancelled;
    }
    forall x | x in s.uncancelled && x in s.tickers.Values
      ensures x.layer in s.tickers && s.tickers[x.layer] == x
    {
    }
    forall l | l in s.tickers
      ensures s.tickers[l] in s.tickers.Values
    {
    }
  }

  lemma {:induction false} Always(trace: seq<Step>)
    requires Exec(trace).Some?
    ensures Inv(Exec(trace).value)
  {
    if trace != [] {
      Always(trace[..|trace| - 1]);
      StepKeeps(Exec(trace[..|trace| - 1]).value, trace[|trace| - 1]);
      hide Inv, Next, Enabled;
    }
  }

  /** Between two messages of any run, the uncancelled contexts are exactly the values of the
      map, one per layer. */
  lemma OnePerLayer(trace: seq<Step>)
    requires Exec(trace).Some? && Exec(trace).value.reader.AtBoundary?
    ensures var s := Exec(trace).value;
            && s.uncancelled == s.tickers.Values
            && forall l :: l in s.tickers ==> s.tickers[l].layer == l
  {
    Always(trace);
    hide Exec;
    var s := Exec(trace).value;
    forall x | x in s.tickers.Values
      ensures x in s.uncancelled
    {
      var l :| l in s.tickers && s.tickers[l] == x;
    }
  }

  /** Nothing polls for a layer right after it was unsubscribed. */
  lemma NoneAfterUnsubscribe(trace: seq<Step>, l: Layer)
    requires Exec(trace).Some? && Exec(trace).value.reader.AtBoundary?
    ensures forall x :: x in Next(Exec(trace).value, StopTicker(l)).uncancelled ==> x.layer != l
  {
    Always(trace);
    StopKeeps(Exec(trace).value, l);
    hide Exec, Inv, Stop;
  }

  /** An unregister cancels everything at once unless it falls between the creation of a
      context and its storing; the reader then stores a context that polls on. */
  lemma UnregisterCancelsAllIff(trace: seq<Step>)
    requires Exec(trace).Some?
    ensures Next(Exec(trace).value, StopAll).uncancelled == {} <==> !Exec(trace).value.reader.Created?
  {
    Always(trace);
    StopAllKeeps(Exec(trace).value);
    hide Exec, Inv, Next;
  }

  /** Such a run exists: the reader has created a context for a sparse viewport when the server
      loop unregisters the client, and stores it afterwards. */
  lemma UnregisterCanMiss(l: Layer)
    ensures (
      var s := Exec([BeginStart(l)] + [Create] + [StopAll] + [Store]);
      s.Some? && s.value.reader.AtBoundary? && s.value.uncancelled == {Context(l, 0)})
  {
    assert Exec([]) == Some(INIT) && [] + [BeginStart(l)] == [BeginStart(l)];
    var s0 := Extend([], BeginStart(l), INIT);
    var s1 := Extend([BeginStart(l)], Create, s0);
    var s2 := Extend([BeginStart(l)] + [Create], StopAll, s1);
    var s3 := Extend([BeginStart(l)] + [Create] + [StopAll], Store, s2);
  }

  lemma Extend(trace: seq<Step>, e: Step, s: State) returns (s': State)
    requires Exec(trace) == Some(s) && Enabled(s, e)
    ensures s' == Next(s, e) && Exec(trace + [e]) == Some(s')
  {
    assert (trace + [e])[..|trace|] == trace;
    s' := Next(s, e);
  }

  /** Once the reader has exited, the unregister it asks for leaves nothing polling, for good. */
  lemma {:induction false} NoneAfterDisconnect(trace: seq<Step>, after: seq<Step>)
    requires Exec(trace).Some? && Exec(trace).value.reader.Exited?
    requires Exec(trace + [StopAll] + after).Some?
    ensures Exec(trace + [StopAll] + after).value.uncancelled == {}
    ensures Exec(trace + [StopAll] + after).value.reader.Exited?
    ensures Exec(trace + [StopAll] + after).value.tickers == map[]
  {
    if after == [] {
      assert trace + [StopAll] + after == trace + [StopAll];
      assert (trace + [StopAll])[..|trace|] == trace;
      Always(trace);
      StopAllKeeps(Exec(trace).value);
    } else {
      var whole := trace + [StopAll] + after;
      assert whole[..|whole| - 1] == trace + [StopAll] + after[..|after| - 1];
      NoneAfterDisconnect(trace, after[..|after| - 1]);
    }
  }
}
