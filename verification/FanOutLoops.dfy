/** The other loops under the shared lock, over all runs: broadcasts, notifications and layer
    updates have one turn each at every client registered when they begin, and at each turn
    offer it their frame if it is one of those they are for. */
module FanOutLoops {
  import opened Wrappers
  import opened ClientState
  import opened Batching
  import opened FanOut
  import opened FanOutSafety
  import opened FanOutDelivery
  import opened FanOutFlush

  /** The loops a thread begins while a client is registered. */
  ghost function Begun(trace: seq<Step>, t: ThreadId, c: ClientId, spatial: Spatial): seq<Job> {
    if trace == [] then []
    else
      var before := trace[..|trace| - 1];
      Begun(before, t, c, spatial)
      + match Exec(before, spatial)
        case Some(s) => BegunBy(s, trace[|trace| - 1], t, c)
        case None => []
  }

  function BegunBy(s: State, e: Step, t: ThreadId, c: ClientId): seq<Job> {
    match e
    case BeginBroadcast(f) => if t == RUN && c in s.members then [Broadcast(f)] else []
    case BeginNotify(f) => if t == RUN && c in s.members then [Notify(f)] else []
    case BeginLayerUpdate(u, l, f) => if t == u && c in s.members then [LayerUpdate(l, f)] else []
    case _ => []
  }

  /** A turn of a loop at a client: what the loop is for and what it learns about the client. */
  datatype Look = Look(job: Job, view: View, passes: bool)

  ghost function Looks(trace: seq<Step>, t: ThreadId, c: ClientId, spatial: Spatial): seq<Look> {
    if trace == [] then []
    else
      var before := trace[..|trace| - 1];
      Looks(before, t, c, spatial)
      + match Exec(before, spatial)
        case Some(s) => LooksBy(s, trace[|trace| - 1], t, c)
        case None => []
  }

  function LooksBy(s: State, e: Step, t: ThreadId, c: ClientId): seq<Look> {
    if e.Turn? && e.thread == t && e.client == c && t in s.threads then [Look(s.threads[t].job, e.view, e.passes)] else []
  }

  function JobsOf(looks: seq<Look>): (r: seq<Job>)
    ensures |r| == |looks| && forall i :: 0 <= i < |looks| ==> r[i] == looks[i].job
  {
    seq(|looks|, i requires 0 <= i < |looks| => looks[i].job)
  }

  /** What a client is to be offered at a turn. */
  function DueAt(look: Look): seq<Frame> {
    match look.job
    case Broadcast(f) => [f]
    case Notify(f) => if look.passes then [f] else []
    case LayerUpdate(l, f) => if l in look.view.subscriptions then [f] else []
    case _ => []
  }

  function Due(looks: seq<Look>): seq<Frame> {
    if looks == [] then [] else Due(looks[..|looks| - 1]) + DueAt(looks[|looks| - 1])
  }

  /** What a thread's loops offer a client during a run. */
  ghost function Offers(trace: seq<Step>, t: ThreadId, c: ClientId, spatial: Spatial): seq<Frame> {
    if trace == [] then []
    else
      var before := trace[..|trace| - 1];
      Offers(before, t, c, spatial)
      + match Exec(before, spatial)
        case Some(s) => OffersBy(s, trace[|trace| - 1], t, c)
        case None => []
  }

  function OffersBy(s: State, e: Step, t: ThreadId, c: ClientId): seq<Frame> {
    if e.Send? && e.thread == t && e.client == c && t in s.threads && !s.threads[t].job.Handler? then [e.frame] else []
  }

  /** The loop under way that has still to come to the client. */
  function Remaining(s: State, t: ThreadId, c: ClientId): seq<Job> {
    if t in s.threads && !s.threads[t].job.Handler? && c in s.threads[t].phase.todo then [s.threads[t].job] else []
  }

  /** The frame it is about to offer the client. */
  function Hand(s: State, t: ThreadId, c: ClientId): seq<Frame> {
    if t in s.threads && !s.threads[t].job.Handler? && s.threads[t].phase.Offering? && s.threads[t].phase.client == c
    then [s.threads[t].phase.frame] else []
  }

  ghost predicate Accounted(s: State, e: Step, t: ThreadId, c: ClientId, spatial: Spatial)
    requires Enabled(s, e)
  {
    var (s', looks) := (Next(s, e, spatial), LooksBy(s, e, t, c));
    && JobsOf(looks) + Remaining(s', t, c) == Remaining(s, t, c) + BegunBy(s, e, t, c)
    && OffersBy(s, e, t, c) + Hand(s', t, c) == Hand(s, t, c) + Due(looks)
  }

  lemma Untouched(s: State, e: Step, t: ThreadId, c: ClientId, spatial: Spatial)
    requires Enabled(s, e) && !Crashes(s, e) && Actor(e) != Some(t)
    ensures Accounted(s, e, t, c, spatial)
  {
    OnlyActorMoves(s, e, spatial, t);
    hide NextConns, NextThreads, NextPending, NextDrained, NextMembers, Enabled, Crashes;
  }

  /** What becomes of a thread that takes a step of its own. */
  lemma OwnStep(s: State, e: Step, t: ThreadId, c: ClientId, spatial: Spatial)
    requires Inv(s) && Enabled(s, e) && !Crashes(s, e) && Actor(e) == Some(t) && t != FLUSH
    ensures Accounted(s, e, t, c, spatial)
  {
    if e.Turn? {
      TurnStep(s, e, t, c, spatial);
    } else if e.Send? || e.CountDrop? || e.End? || e.HandlerSend? {
      SendStep(s, e, t, c, spatial);
    } else {
      BeginStep(s, e, t, c, spatial);
    }
    hide *;
  }

  lemma BeginStep(s: State, e: Step, t: ThreadId, c: ClientId, spatial: Spatial)
    requires Enabled(s, e) && !Crashes(s, e) && Actor(e) == Some(t) && t != FLUSH
    requires !e.Turn? && !e.Send? && !e.CountDrop? && !e.End? && !e.HandlerSend?
    ensures Accounted(s, e, t, c, spatial)
  {
    hide NextConns, NextPending, NextDrained, NextMembers, Crashes, NoReaders;
  }

  lemma SendStep(s: State, e: Step, t: ThreadId, c: ClientId, spatial: Spatial)
    requires Enabled(s, e) && !Crashes(s, e) && Actor(e) == Some(t) && t != FLUSH
    requires e.Send? || e.CountDrop? || e.End? || e.HandlerSend?
    ensures Accounted(s, e, t, c, spatial)
  {
    hide NextConns, NextPending, NextDrained, NextMembers, Crashes, NoReaders;
  }

  lemma TurnStep(s: State, e: Step, t: ThreadId, c: ClientId, spatial: Spatial)
    requires Inv(s) && Enabled(s, e) && !Crashes(s, e) && e.Turn? && e.thread == t && t != FLUSH
    ensures Accounted(s, e, t, c, spatial)
  {
    TurnNext(s, e, t, spatial);
    OneDue(Look(s.threads[t].job, e.view, e.passes));
    hide Next, Enabled, Crashes, Inv, Due, AfterTurn, DueAt;
    TurnOffers(s.threads[t], e.client, e.view, e.passes, spatial);
  }

  lemma TurnNext(s: State, e: Step, t: ThreadId, spatial: Spatial)
    requires Inv(s) && Enabled(s, e) && e.Turn? && e.thread == t && t != FLUSH
    ensures t in s.threads && !s.threads[t].job.Handler? && !s.threads[t].job.Flush?
    ensures s.threads[t].phase.Choosing? && e.client in s.threads[t].phase.todo
    ensures t in Next(s, e, spatial).threads
    ensures Next(s, e, spatial).threads[t] == AfterTurn(s.threads[t], e.client, e.view, e.passes, spatial)
  {
    hide NextConns, NextPending, NextDrained, NextMembers, AfterTurn, ConnsOk, NoReaders;
  }

  lemma TurnOffers(th: Thread, c: ClientId, view: View, passes: bool, spatial: Spatial)
    requires th.phase.Choosing? && !th.job.Flush? && !th.job.Handler?
    ensures (
      var (th', due) := (AfterTurn(th, c, view, passes, spatial), DueAt(Look(th.job, view, passes)));
      && th'.job == th.job && th'.phase.todo == th.phase.todo - {c}
      && if due == [] then th'.phase.Choosing?
         else th'.phase.Offering? && th'.phase.client == c && due == [th'.phase.frame])
  {
  }

  lemma OneDue(look: Look)
    ensures Due([look]) == DueAt(look) && Due([]) == []
  {
    assert [look][..0] == [];
  }

  lemma {:induction false} DueConcat(a: seq<Look>, b: seq<Look>)
    ensures Due(a + b) == Due(a) + Due(b)
  {
    hide DueAt;
    if b == [] {
      assert a + b == a;
    } else {
      assert (a + b)[..|a + b| - 1] == a + b[..|b| - 1];
      DueConcat(a, b[..|b| - 1]);
    }
  }

  lemma {:induction false} AccountedAlways(trace: seq<Step>, t: ThreadId, c: ClientId, spatial: Spatial)
    requires Exec(trace, spatial).Some? && !Exec(trace, spatial).value.crashed && t != FLUSH
    ensures (
      var (s, looks) := (Exec(trace, spatial).value, Looks(trace, t, c, spatial));
      && Begun(trace, t, c, spatial) == JobsOf(looks) + Remaining(s, t, c)
      && Due(looks) == Offers(trace, t, c, spatial) + Hand(s, t, c))
  {
    hide Enabled, Next, Remaining, Hand, LooksBy, BegunBy, OffersBy, Due;
    if trace == [] {
      NothingYet(t, c);
    } else {
      var before, e := trace[..|trace| - 1], trace[|trace| - 1];
      var s := Exec(before, spatial).value;
      StepIsAccounted(before, e, t, c, spatial);
      AccountedAlways(before, t, c, spatial);
      var (s', looks, look) := (Next(s, e, spatial), Looks(before, t, c, spatial), LooksBy(s, e, t, c));
      DueConcat(looks, look);
      JobsConcat(looks, look);
      Regroup(JobsOf(looks), JobsOf(look), Remaining(s, t, c), Remaining(s', t, c), BegunBy(s, e, t, c));
      Regroup(Offers(before, t, c, spatial), OffersBy(s, e, t, c), Hand(s, t, c), Hand(s', t, c), Due(look));
    }
  }

  lemma NothingYet(t: ThreadId, c: ClientId)
    ensures Remaining(INIT, t, c) == [] && Hand(INIT, t, c) == [] && Due([]) == []
  {
  }

  lemma JobsConcat(a: seq<Look>, b: seq<Look>)
    ensures JobsOf(a + b) == JobsOf(a) + JobsOf(b)
  {
  }

  lemma StepIsAccounted(before: seq<Step>, e: Step, t: ThreadId, c: ClientId, spatial: Spatial)
    requires Exec(before, spatial).Some? && Enabled(Exec(before, spatial).value, e) && t != FLUSH
    requires !Next(Exec(before, spatial).value, e, spatial).crashed
    ensures !Exec(before, spatial).value.crashed
    ensures Accounted(Exec(before, spatial).value, e, t, c, spatial)
  {
    var s := Exec(before, spatial).value;
    Always(before, spatial);
    NotCrashedBefore(s, e, spatial);
    hide Exec, Enabled, Next, Crashes, Inv, Accounted;
    if Actor(e) == Some(t) {
      OwnStep(s, e, t, c, spatial);
    } else {
      Untouched(s, e, t, c, spatial);
    }
  }

  /** Over every run, whenever a thread is not in a loop: each of the loops it has begun while
      the client was registered has had one turn at it, in order, and at these turns it was
      offered every broadcast once, every notification that it wants, and every update of a
      layer that it was subscribed to at its turn. */
  lemma OfferedOnce(trace: seq<Step>, t: ThreadId, c: ClientId, spatial: Spatial)
    requires Exec(trace, spatial).Some? && !Exec(trace, spatial).value.crashed
    requires t != FLUSH && t !in Exec(trace, spatial).value.threads
    ensures JobsOf(Looks(trace, t, c, spatial)) == Begun(trace, t, c, spatial)
    ensures Offers(trace, t, c, spatial) == Due(Looks(trace, t, c, spatial))
  {
    AccountedAlways(trace, t, c, spatial);
    hide Exec, Looks, Offers, Due, Begun, JobsOf;
  }
}
