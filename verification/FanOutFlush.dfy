/** Queueing and flushing over all runs: no update is lost or repeated on its way from
    `QueueUpdate` to a client, and each client is offered exactly the updates it asked for. */
module FanOutFlush {
  import opened Wrappers
  import opened ClientState
  import opened Batching
  import opened FanOut
  import opened FanOutSafety

  function Of(m: map<Layer, seq<Update>>, l: Layer): seq<Update> {
    if l in m then m[l] else []
  }

  /** The updates queued for a layer during a run. */
  function Queued(trace: seq<Step>, l: Layer): seq<Update> {
    if trace == [] then []
    else
      var e := trace[|trace| - 1];
      Queued(trace[..|trace| - 1], l) + if e.QueueUpdate? && e.layer == l then [e.update] else []
  }

  /** The batches of a layer the flush ticker swapped out, one after the other. */
  function Drained(trace: seq<Step>, l: Layer): seq<Update> {
    if trace == [] then []
    else
      var e := trace[|trace| - 1];
      Drained(trace[..|trace| - 1], l) + if e.FlushSwap? then Of(e.work, l) else []
  }

  lemma QueueStep(s: State, e: Step, l: Layer, spatial: Spatial)
    requires Enabled(s, e)
    ensures (if e.FlushSwap? then Of(e.work, l) else []) + Of(Next(s, e, spatial).pending, l)
         == Of(s.pending, l) + if e.QueueUpdate? && e.layer == l then [e.update] else []
  {
    hide NextConns, NextThreads, NextMembers, NextDrained, NoReaders;
  }

  /** Every queued update is in exactly one drained batch or still pending, in order. */
  lemma {:induction false} QueueConserved(trace: seq<Step>, l: Layer, spatial: Spatial)
    requires Exec(trace, spatial).Some?
    ensures Queued(trace, l) == Drained(trace, l) + Of(Exec(trace, spatial).value.pending, l)
  {
    hide Enabled, Next, Of;
    if trace == [] {
      EmptyOf(l);
    } else {
      var before, e := trace[..|trace| - 1], trace[|trace| - 1];
      QueueConserved(before, l, spatial);
      QueueStep(Exec(before, spatial).value, e, l, spatial);
      Regroup(Drained(before, l), if e.FlushSwap? then Of(e.work, l) else [],
              Of(Exec(before, spatial).value.pending, l), Of(Exec(trace, spatial).value.pending, l),
              if e.QueueUpdate? && e.layer == l then [e.update] else []);
    }
  }

  lemma EmptyOf(l: Layer)
    ensures Of(map[], l) == []
  {
  }

  /** What the flush loop offers a client for a layer during a run, batch after batch. */
  function Offered(trace: seq<Step>, c: ClientId, l: Layer): seq<string> {
    if trace == [] then []
    else Offered(trace[..|trace| - 1], c, l) + OfferedBy(trace[|trace| - 1], c, l)
  }

  function OfferedBy(e: Step, c: ClientId, l: Layer): seq<string> {
    if e.Send? && e.thread == FLUSH && e.client == c && e.frame.BatchUpdate? && e.frame.layer == l
    then e.frame.updates else []
  }

  /** A flush that took the shared lock: who was registered, and the layer's batch. */
  datatype Lock = Lock(present: set<ClientId>, batch: seq<Update>)

  function Locks(trace: seq<Step>, l: Layer): seq<Lock> {
    if trace == [] then []
    else Locks(trace[..|trace| - 1], l) + LocksBy(trace[|trace| - 1], l)
  }

  function LocksBy(e: Step, l: Layer): seq<Lock> {
    if e.FlushLock? then [Lock(e.present, Of(e.work, l))] else []
  }

  /** All batches one after the other. */
  function Flat(locks: seq<Lock>): seq<Update> {
    if locks == [] then [] else Flat(locks[..|locks| - 1]) + locks[|locks| - 1].batch
  }

  /** The batches that are a client's to look at: not empty, and flushed while it was registered. */
  function For(locks: seq<Lock>, c: ClientId): seq<seq<Update>> {
    if locks == [] then []
    else
      var lock := locks[|locks| - 1];
      For(locks[..|locks| - 1], c) + if c in lock.present && lock.batch != [] then [lock.batch] else []
  }

  /** A turn of the flush loop at a client: what it read about it, and the batch at hand. */
  datatype Visit = Visit(view: View, batch: seq<Update>)

  ghost function Visits(trace: seq<Step>, c: ClientId, l: Layer, spatial: Spatial): seq<Visit> {
    if trace == [] then []
    else
      var before := trace[..|trace| - 1];
      Visits(before, c, l, spatial)
      + match Exec(before, spatial)
        case Some(s) => VisitsBy(s, trace[|trace| - 1], c, l)
        case None => []
  }

  function VisitsBy(s: State, e: Step, c: ClientId, l: Layer): seq<Visit> {
    if e.Turn? && e.thread == FLUSH && e.client == c && FLUSH in s.threads
       && s.threads[FLUSH].job.Flush? && s.threads[FLUSH].job.current == l
    then [Visit(e.view, s.threads[FLUSH].job.batch)] else []
  }

  function Batches(visits: seq<Visit>): (r: seq<seq<Update>>)
    ensures |r| == |visits| && forall i :: 0 <= i < |visits| ==> r[i] == visits[i].batch
  {
    seq(|visits|, i requires 0 <= i < |visits| => visits[i].batch)
  }

  /** What a client is to be offered at a turn: nothing unless it is subscribed and live, and
      otherwise the first updates of the batch that pass its own filter, up to its limit. */
  function DueAt(v: Visit, l: Layer, spatial: Spatial): seq<string> {
    if !v.view.IsSubscribed(l) || v.view.IsFrozen(l) then []
    else Batch(FilterOf(v.view, l, l in spatial), v.batch)
  }

  function Due(visits: seq<Visit>, l: Layer, spatial: Spatial): seq<string> {
    if visits == [] then []
    else Due(visits[..|visits| - 1], l, spatial) + DueAt(visits[|visits| - 1], l, spatial)
  }

  /** The frame a flush is about to offer the client. */
  function Hand(s: State, c: ClientId, l: Layer): seq<string> {
    if FLUSH !in s.threads || !s.threads[FLUSH].job.Flush? then [] else InHand(s.threads[FLUSH], c, l)
  }

  function InHand(th: Thread, c: ClientId, l: Layer): seq<string>
    requires th.job.Flush?
  {
    if th.job.current == l && th.phase.Offering? && th.phase.client == c && th.phase.frame.BatchUpdate?
    then th.phase.frame.updates else []
  }

  /** The batches a flush under way has still to show the client. */
  function Remaining(s: State, c: ClientId, l: Layer): seq<seq<Update>> {
    if FLUSH !in s.threads || !s.threads[FLUSH].job.Flush? then []
    else ToShow(s.threads[FLUSH], c, l, c in s.members)
  }

  function ToShow(th: Thread, c: ClientId, l: Layer, member: bool): seq<seq<Update>>
    requires th.job.Flush?
  {
    (if th.job.current == l && c in th.phase.todo then [th.job.batch] else [])
    + if member && Of(th.job.work, l) != [] then [Of(th.job.work, l)] else []
  }

  /** A flush offers frames of the layer it is at. */
  ghost predicate FlushOk(s: State) {
    FLUSH in s.threads && s.threads[FLUSH].job.Flush? ==>
      var th := s.threads[FLUSH];
      th.phase.Offering? ==> th.phase.frame.BatchUpdate? && th.phase.frame.layer == th.job.current
  }

  /** A turn shows one client the batch at hand and leaves what the others are owed alone. */
  lemma TurnOffers(th: Thread, c: ClientId, d: ClientId, l: Layer, member: bool, view: View, passes: bool, spatial: Spatial)
    requires th.job.Flush? && th.phase.Choosing? && d in th.phase.todo
    ensures (
      var th' := AfterTurn(th, d, view, passes, spatial);
      var shown := if d == c && th.job.current == l then [Visit(view, th.job.batch)] else [];
      && th'.job.Flush? && InHand(th, c, l) == []
      && InHand(th', c, l) == (if shown == [] then [] else DueAt(shown[0], l, spatial))
      && Batches(shown) + ToShow(th', c, l, member) == ToShow(th, c, l, member)
      && (th'.phase.Offering? ==> th'.phase.frame.BatchUpdate? && th'.phase.frame.layer == th'.job.current))
  {
    hide Batch, FilterOf, Of;
  }

  ghost predicate Accounted(s: State, e: Step, c: ClientId, l: Layer, spatial: Spatial)
    requires Enabled(s, e)
  {
    var s' := Next(s, e, spatial);
    && FlushOk(s')
    && OfferedBy(e, c, l) + Hand(s', c, l) == Hand(s, c, l) + Due(VisitsBy(s, e, c, l), l, spatial)
    && Batches(VisitsBy(s, e, c, l)) + Remaining(s', c, l) == Remaining(s, c, l) + For(LocksBy(e, l), c)
  }

  lemma NothingDue(l: Layer, c: ClientId, spatial: Spatial)
    ensures Due([], l, spatial) == [] && For([], c) == []
  {
  }

  lemma LockStep(s: State, e: Step, c: ClientId, l: Layer, spatial: Spatial)
    requires Inv(s) && Enabled(s, e) && e.FlushLock?
    ensures Accounted(s, e, c, l, spatial)
  {
    NothingDue(l, c, spatial);
    OneLock(Lock(e.present, Of(e.work, l)), c);
    hide NextConns, NextPending, NextDrained, ThreadsOk, ConnsOk, Of, NoReaders, Due, For;
  }

  lemma OneLock(lock: Lock, c: ClientId)
    ensures For([lock], c) == if c in lock.present && lock.batch != [] then [lock.batch] else []
  {
    assert [lock][..0] == [];
  }

  lemma PickStep(s: State, e: Step, c: ClientId, l: Layer, spatial: Spatial)
    requires Inv(s) && Enabled(s, e) && e.FlushPick?
    ensures Accounted(s, e, c, l, spatial)
  {
    NothingDue(l, c, spatial);
    hide NextConns, NextPending, NextDrained, ThreadsOk, ConnsOk, NoReaders, Due, For;
  }

  lemma OneDue(v: Visit, l: Layer, spatial: Spatial)
    ensures Due([v], l, spatial) == DueAt(v, l, spatial)
  {
    assert [v][..0] == [];
  }

  lemma TurnStep(s: State, e: Step, c: ClientId, l: Layer, spatial: Spatial)
    requires Inv(s) && Enabled(s, e) && e.Turn? && e.thread == FLUSH
    ensures Accounted(s, e, c, l, spatial)
  {
    TurnNext(s, e, spatial);
    hide Next, Enabled, AfterTurn, Of, Due, DueAt, For, InHand, ToShow;
    FlushIsFlush(s);
    hide Inv;
    var th := s.threads[FLUSH];
    TurnOffers(th, c, e.client, l, c in s.members, e.view, e.passes, spatial);
    NothingDue(l, c, spatial);
    OneDue(Visit(e.view, th.job.batch), l, spatial);
  }

  lemma TurnNext(s: State, e: Step, spatial: Spatial)
    requires Enabled(s, e) && e.Turn? && e.thread == FLUSH
    ensures (
      var s' := Next(s, e, spatial);
      && s.threads[FLUSH].phase.Choosing? && e.client in s.threads[FLUSH].phase.todo
      && FLUSH in s'.threads && s'.threads[FLUSH] == AfterTurn(s.threads[FLUSH], e.client, e.view, e.passes, spatial)
      && s'.members == s.members)
  {
    hide NextConns, NextPending, NextDrained, AfterTurn;
  }

  lemma FlushIsFlush(s: State)
    requires Inv(s) && FLUSH in s.threads
    ensures s.threads[FLUSH].job.Flush?
  {
  }

  lemma SendStep(s: State, e: Step, c: ClientId, l: Layer, spatial: Spatial)
    requires Inv(s) && Enabled(s, e) && FlushOk(s) && !Crashes(s, e)
    requires (e.Send? || e.CountDrop? || e.End?) && e.thread == FLUSH
    ensures Accounted(s, e, c, l, spatial)
  {
    NothingDue(l, c, spatial);
    FlushIsFlush(s);
    hide NextConns, NextPending, NextDrained, ThreadsOk, ConnsOk, NoReaders, Due, For, Of;
  }

  lemma FlushUntouched(s: State, e: Step, c: ClientId, l: Layer, spatial: Spatial)
    requires Inv(s) && Enabled(s, e) && !Crashes(s, e) && Actor(e) != Some(FLUSH)
    ensures var s' := Next(s, e, spatial);
            && (FLUSH in s'.threads <==> FLUSH in s.threads)
            && (FLUSH in s.threads ==> s'.threads[FLUSH] == s.threads[FLUSH] && s'.members == s.members)
    ensures OfferedBy(e, c, l) == [] && LocksBy(e, l) == [] && VisitsBy(s, e, c, l) == []
  {
    OnlyActorMoves(s, e, spatial, FLUSH);
    if NextMembers(s.members, e) != s.members {
      MembersStable(s, e);
    }
    hide NextConns, NextThreads, NextPending, NextDrained, NextMembers, Enabled, Crashes, ConnsOk;
  }

  lemma SameFlush(s: State, s': State, c: ClientId, l: Layer)
    requires FLUSH in s'.threads <==> FLUSH in s.threads
    requires FLUSH in s.threads ==> s'.threads[FLUSH] == s.threads[FLUSH] && s'.members == s.members
    ensures Hand(s', c, l) == Hand(s, c, l) && Remaining(s', c, l) == Remaining(s, c, l)
    ensures FlushOk(s') <==> FlushOk(s)
  {
    hide Of;
  }

  /** Any other step leaves the flush under way, and the clients it may reach, alone. */
  lemma ForeignStep(s: State, e: Step, c: ClientId, l: Layer, spatial: Spatial)
    requires Inv(s) && Enabled(s, e) && !Crashes(s, e) && FlushOk(s)
    requires Actor(e) != Some(FLUSH)
    ensures Accounted(s, e, c, l, spatial)
  {
    hide Next, Enabled, Crashes, Inv, FlushOk, Hand, Remaining, OfferedBy, LocksBy, VisitsBy, For, Due;
    NothingDue(l, c, spatial);
    FlushUntouched(s, e, c, l, spatial);
    SameFlush(s, Next(s, e, spatial), c, l);
  }

  lemma AnyStep(s: State, e: Step, c: ClientId, l: Layer, spatial: Spatial)
    requires Inv(s) && Enabled(s, e) && !Crashes(s, e) && FlushOk(s)
    ensures Accounted(s, e, c, l, spatial)
  {
    hide Enabled, Crashes, Accounted, Inv, FlushOk;
    if Actor(e) != Some(FLUSH) {
      ForeignStep(s, e, c, l, spatial);
    } else if e.FlushLock? {
      LockStep(s, e, c, l, spatial);
    } else if e.FlushPick? {
      PickStep(s, e, c, l, spatial);
    } else {
      FlushNeverBegins(s, e);
      if e.Turn? {
        TurnStep(s, e, c, l, spatial);
      } else {
        SendStep(s, e, c, l, spatial);
      }
    }
  }

  lemma FlushNeverBegins(s: State, e: Step)
    requires Enabled(s, e) && Actor(e) == Some(FLUSH)
    ensures e.FlushLock? || e.FlushPick? || ((e.Turn? || e.Send? || e.CountDrop? || e.End?) && e.thread == FLUSH)
  {
    hide NoReaders;
  }

  lemma {:induction false} DueConcat(a: seq<Visit>, b: seq<Visit>, l: Layer, spatial: Spatial)
    ensures Due(a + b, l, spatial) == Due(a, l, spatial) + Due(b, l, spatial)
  {
    hide DueAt;
    if b == [] {
      assert a + b == a;
    } else {
      assert (a + b)[..|a + b| - 1] == a + b[..|b| - 1];
      DueConcat(a, b[..|b| - 1], l, spatial);
    }
  }

  lemma {:induction false} ForConcat(a: seq<Lock>, b: seq<Lock>, c: ClientId)
    ensures For(a + b, c) == For(a, c) + For(b, c)
  {
    if b == [] {
      assert a + b == a;
    } else {
      assert (a + b)[..|a + b| - 1] == a + b[..|b| - 1];
      ForConcat(a, b[..|b| - 1], c);
    }
  }

  lemma FlatMore(locks: seq<Lock>, e: Step, l: Layer)
    ensures Flat(locks + LocksBy(e, l)) == Flat(locks) + Flat(LocksBy(e, l))
  {
    if e.FlushLock? {
      assert (locks + LocksBy(e, l))[..|locks|] == locks;
    } else {
      assert locks + LocksBy(e, l) == locks;
    }
  }

  lemma {:induction false} OfferedAlways(trace: seq<Step>, c: ClientId, l: Layer, spatial: Spatial)
    requires Exec(trace, spatial).Some? && !Exec(trace, spatial).value.crashed
    ensures (
      var (s, visits) := (Exec(trace, spatial).value, Visits(trace, c, l, spatial));
      && FlushOk(s)
      && Offered(trace, c, l) + Hand(s, c, l) == Due(visits, l, spatial)
      && Batches(visits) + Remaining(s, c, l) == For(Locks(trace, l), c))
  {
    hide Enabled, Next, FlushOk, Hand, Remaining, Due, For, LocksBy, OfferedBy, VisitsBy;
    if trace == [] {
      NothingYet(c, l, spatial);
    } else {
      var before, e := trace[..|trace| - 1], trace[|trace| - 1];
      var s := Exec(before, spatial).value;
      NotCrashed(s, e, spatial);
      OfferedAlways(before, c, l, spatial);
      Always(before, spatial);
      AnyStep(s, e, c, l, spatial);
      var s', visits, visit := Next(s, e, spatial), Visits(before, c, l, spatial), VisitsBy(s, e, c, l);
      DueConcat(visits, visit, l, spatial);
      assert Batches(visits + visit) == Batches(visits) + Batches(visit);
      ForConcat(Locks(before, l), LocksBy(e, l), c);
      Regroup(Offered(before, c, l), OfferedBy(e, c, l), Hand(s, c, l), Hand(s', c, l), Due(visit, l, spatial));
      Regroup(Batches(visits), Batches(visit), Remaining(s, c, l), Remaining(s', c, l), For(LocksBy(e, l), c));
    }
  }

  lemma NothingYet(c: ClientId, l: Layer, spatial: Spatial)
    ensures FlushOk(INIT) && Hand(INIT, c, l) == [] && Remaining(INIT, c, l) == []
    ensures Due([], l, spatial) == [] && For([], c) == []
  {
  }

  lemma Regroup<T>(done: seq<T>, moved: seq<T>, left: seq<T>, left': seq<T>, added: seq<T>)
    requires moved + left' == left + added
    ensures done + moved + left' == done + left + added
  {
    assert done + moved + left' == done + (moved + left');
    assert done + (left + added) == done + left + added;
  }

  lemma NotCrashed(s: State, e: Step, spatial: Spatial)
    requires Enabled(s, e) && !Next(s, e, spatial).crashed
    ensures !s.crashed && !Crashes(s, e)
  {
    hide NoReaders, NextConns, NextMembers, NextPending, NextDrained, NextThreads, Crashes;
  }

  /** Over every run, whenever no flush is under way: the flush loop has had one turn at the
      client for every batch that was its to look at, in order, and at each turn has offered
      it what its view at that turn asks for: the first updates passing its filter, up to its
      limit, or nothing if it was not subscribed or frozen. */
  lemma {:induction false} OfferedExactly(trace: seq<Step>, c: ClientId, l: Layer, spatial: Spatial)
    requires Exec(trace, spatial).Some? && !Exec(trace, spatial).value.crashed
    requires FLUSH !in Exec(trace, spatial).value.threads
    ensures Offered(trace, c, l) == Due(Visits(trace, c, l, spatial), l, spatial)
    ensures Batches(Visits(trace, c, l, spatial)) == For(Locks(trace, l), c)
  {
    OfferedAlways(trace, c, l, spatial);
    hide Exec, FlushOk, Offered, Visits, Due, For, Locks, Batches;
  }

  function Swapped(s: State, l: Layer): seq<Update> {
    if s.drained.Some? then Of(s.drained.value, l) else []
  }

  lemma SwapStep(s: State, e: Step, l: Layer, spatial: Spatial)
    requires Enabled(s, e) && !Crashes(s, e)
    ensures Swapped(s, l) + (if e.FlushSwap? then Of(e.work, l) else [])
         == Flat(LocksBy(e, l)) + Swapped(Next(s, e, spatial), l)
  {
    hide NextConns, NextThreads, NextPending, NextMembers, NoReaders, Of, Crashes;
  }

  lemma {:induction false} DrainedIsLocked(trace: seq<Step>, l: Layer, spatial: Spatial)
    requires Exec(trace, spatial).Some? && !Exec(trace, spatial).value.crashed
    ensures Drained(trace, l) == Flat(Locks(trace, l)) + Swapped(Exec(trace, spatial).value, l)
  {
    if trace != [] {
      var before, e := trace[..|trace| - 1], trace[|trace| - 1];
      var s := Exec(before, spatial).value;
      NotCrashed(s, e, spatial);
      DrainedIsLocked(before, l, spatial);
      SwapStep(s, e, l, spatial);
      FlatMore(Locks(before, l), e, l);
      hide Enabled, Next, LocksBy, Swapped, Of, Flat, For;
      Regroup(Flat(Locks(before, l)), Flat(LocksBy(e, l)), Swapped(s, l), Swapped(Next(s, e, spatial), l),
              if e.FlushSwap? then Of(e.work, l) else []);
    }
  }

  /** End to end, over every run and for every client: the updates ever queued for a layer are,
      in order, those of the batches flushed, those swapped out and those pending; of the
      batches flushed while it was registered the client has had its turn at all but those the
      flush under way has still to show it; and it was offered what its turns called for. */
  lemma {:induction false} EveryUpdateAccountedFor(trace: seq<Step>, c: ClientId, l: Layer, spatial: Spatial)
    requires Exec(trace, spatial).Some? && !Exec(trace, spatial).value.crashed
    ensures (
      var (s, visits, locks) := (Exec(trace, spatial).value, Visits(trace, c, l, spatial), Locks(trace, l));
      && Queued(trace, l) == Flat(locks) + Swapped(s, l) + Of(s.pending, l)
      && For(locks, c) == Batches(visits) + Remaining(s, c, l)
      && Due(visits, l, spatial) == Offered(trace, c, l) + Hand(s, c, l))
  {
    OfferedAlways(trace, c, l, spatial);
    DrainedIsLocked(trace, l, spatial);
    QueueConserved(trace, l, spatial);
    hide Exec, FlushOk, Hand, Remaining, Swapped, Of, Offered, Drained, Visits, Queued, Locks, Due, For, Flat;
  }

  /** Every turn finds the client subscribed, live and asking for `f`. */
  ghost predicate Steady(visits: seq<Visit>, l: Layer, f: Filter, spatial: Spatial) {
    forall v :: v in visits ==>
      v.view.IsSubscribed(l) && !v.view.IsFrozen(l) && FilterOf(v.view, l, l in spatial) == f
  }

  function BatchAll(f: Filter, batches: seq<seq<Update>>): seq<string> {
    if batches == [] then []
    else BatchAll(f, batches[..|batches| - 1]) + Batch(f, batches[|batches| - 1])
  }

  function Join(batches: seq<seq<Update>>): seq<Update> {
    if batches == [] then [] else Join(batches[..|batches| - 1]) + batches[|batches| - 1]
  }

  lemma {:induction false} SteadyDue(visits: seq<Visit>, l: Layer, f: Filter, spatial: Spatial)
    requires Steady(visits, l, f, spatial)
    ensures Due(visits, l, spatial) == BatchAll(f, Batches(visits))
  {
    if visits != [] {
      SteadyDue(visits[..|visits| - 1], l, f, spatial);
      assert Batches(visits)[..|visits| - 1] == Batches(visits[..|visits| - 1]);
      assert visits[|visits| - 1] in visits;
    }
  }

  lemma {:induction false} WholeBatches(f: Filter, batches: seq<seq<Update>>)
    requires forall b :: b in batches ==> |b| <= 500 || !f.UsesViewport()
    ensures BatchAll(f, batches) == Payloads(f, Join(batches))
  {
    if batches == [] {
      EmptyPayloads(f);
    } else {
      var before, last := batches[..|batches| - 1], batches[|batches| - 1];
      WholeBatches(f, before);
      assert last in batches;
      SmallBatchIsWhole(f, last);
      PayloadsConcat(f, Join(before), last);
    }
  }

  /** A client whose filter stays the same is offered the cut of each batch by that filter; and
      if no batch is large enough to be cut short, every passing update of all of them. */
  lemma {:induction false} SteadyClientGetsAll(trace: seq<Step>, c: ClientId, l: Layer, f: Filter, spatial: Spatial)
    requires Exec(trace, spatial).Some? && !Exec(trace, spatial).value.crashed
    requires FLUSH !in Exec(trace, spatial).value.threads
    requires Steady(Visits(trace, c, l, spatial), l, f, spatial)
    ensures (
      var batches := For(Locks(trace, l), c);
      && Offered(trace, c, l) == BatchAll(f, batches)
      && ((forall b :: b in batches ==> |b| <= 500 || !f.UsesViewport()) ==>
           Offered(trace, c, l) == Payloads(f, Join(batches))))
  {
    OfferedExactly(trace, c, l, spatial);
    SteadyDue(Visits(trace, c, l, spatial), l, f, spatial);
    var batches := For(Locks(trace, l), c);
    if forall b :: b in batches ==> |b| <= 500 || !f.UsesViewport() {
      WholeBatches(f, batches);
    }
    hide Exec, Visits, Locks, For, Offered, Due, BatchAll, Payloads, Join;
  }
}
