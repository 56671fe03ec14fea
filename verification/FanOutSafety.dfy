/** Lifecycle safety of the fan-out server over all runs: who is registered, who is closed,
    and that no loop under the shared lock ever sends on a closed channel. */
module FanOutSafety {
  import opened Wrappers
  import opened ClientState
  import opened Batching
  import opened FanOut

  ghost predicate ConnsOk(s: State) {
    && s.members <= s.conns.Keys
    && (s.arriving.Some? ==> s.arriving.value in s.conns && s.arriving.value !in s.members)
    && forall c :: c in s.conns ==> (IsLive(s, c) <==> !s.conns[c].closed) && |s.conns[c].buffer| <= SEND_BUFFER
  }

  /** Registered, or about to be. */
  predicate IsLive(s: State, c: ClientId) {
    c in s.members || s.arriving == Some(c)
  }

  ghost predicate ThreadOk(members: set<ClientId>, known: set<ClientId>, t: ThreadId, th: Thread) {
    && (th.job.Flush? <==> t == FLUSH)
    && (t == RUN ==> th.job.Broadcast? || th.job.Notify?)
    && match th.phase
       case Choosing(todo) => !th.job.Handler? && todo <= members
       case Offering(todo, c, _) => if th.job.Handler? then todo == {} && c in known else todo <= members && c in members
       case Owing(todo, c) => if th.job.Handler? then todo == {} && c in known else todo <= members && c in members
  }

  ghost predicate ThreadsOk(s: State) {
    && (s.drained.Some? ==> FLUSH !in s.threads)
    && forall t :: t in s.threads ==> ThreadOk(s.members, s.conns.Keys, t, s.threads[t])
  }

  ghost predicate Inv(s: State) { ConnsOk(s) && ThreadsOk(s) }

  ghost predicate Closes(e: Step, c: ClientId) { e == Unregister(c) || e.Shutdown? }

  lemma ConnStep(conn: Conn, c: ClientId, member: bool, e: Step)
    ensures var conn' := NextConn(conn, c, member, e);
            && (conn'.closed <==> conn.closed || (member && Closes(e, c)))
            && |conn'.buffer| <= |conn.buffer| + 1
            && (|conn'.buffer| > |conn.buffer| ==> e.Send? || e.Pong?)
            && (|conn'.buffer| > |conn.buffer| ==> e.client == c && e.accepted)
  {
  }

  lemma RoomIfAccepted(s: State, e: Step)
    requires Enabled(s, e) && (e.Send? || e.Pong?) && e.accepted
    ensures e.client in s.conns && |s.conns[e.client].buffer| < SEND_BUFFER
  {
  }

  lemma EnabledLifecycle(s: State, e: Step)
    requires Enabled(s, e)
    ensures e.Connect? ==> e.client !in s.conns
    ensures e.Register? ==> s.arriving == Some(e.client)
    ensures e.Connect? || e.Unregister? || e.Shutdown? ==> s.arriving.None?
    ensures e.Register? || e.Unregister? || e.Shutdown? ==> NoReaders(s)
  {
    hide NoReaders;
  }

  /** A client's connection after a step that does not bring the process down. */
  lemma ConnAt(s: State, e: Step, c: ClientId)
    ensures c in NextConns(s, e) <==> c in s.conns || e == Connect(c)
    ensures e == Connect(c) ==> NextConns(s, e)[c] == FRESH
    ensures c in s.conns && e != Connect(c) ==> NextConns(s, e)[c] == NextConn(s.conns[c], c, c in s.members, e)
  {
    hide NextConn;
  }

  lemma ConnOkAt(s: State, e: Step, c: ClientId)
    requires ConnsOk(s) && Enabled(s, e) && c in NextConns(s, e)
    ensures c in NextMembers(s.members, e) || NextArriving(s.arriving, e) == Some(c) <==> !NextConns(s, e)[c].closed
    ensures |NextConns(s, e)[c].buffer| <= SEND_BUFFER
  {
    ConnAt(s, e, c);
    EnabledLifecycle(s, e);
    if (e.Send? || e.Pong?) && e.accepted {
      RoomIfAccepted(s, e);
    }
    if c in s.conns {
      ConnStep(s.conns[c], c, c in s.members, e);
    }
    hide NextConns, NextConn, NoReaders, Enabled;
  }

  lemma ConnsStep(s: State, e: Step, spatial: Spatial)
    requires Inv(s) && Enabled(s, e)
    ensures ConnsOk(Next(s, e, spatial))
  {
    hide NextThreads, ThreadsOk, NextPending, NextDrained, NextConns, NoReaders, Enabled, NextMembers, Crashes;
    if !Crashes(s, e) {
      forall c
        ensures c in NextMembers(s.members, e) ==> c in NextConns(s, e) && NextArriving(s.arriving, e) != Some(c)
        ensures NextArriving(s.arriving, e) == Some(c) ==> c in NextConns(s, e)
        ensures c in NextConns(s, e) ==>
                  && (c in NextMembers(s.members, e) || NextArriving(s.arriving, e) == Some(c) <==> !NextConns(s, e)[c].closed)
                  && |NextConns(s, e)[c].buffer| <= SEND_BUFFER
      {
        MemberKnown(s, e, c);
        if c in NextConns(s, e) {
          ConnOkAt(s, e, c);
        }
      }
    }
  }

  lemma MemberKnown(s: State, e: Step, c: ClientId)
    requires ConnsOk(s) && Enabled(s, e)
    ensures c in NextMembers(s.members, e) ==> c in NextConns(s, e) && NextArriving(s.arriving, e) != Some(c)
    ensures NextArriving(s.arriving, e) == Some(c) ==> c in NextConns(s, e)
  {
    EnabledLifecycle(s, e);
    ConnAt(s, e, c);
    hide NextConns, Enabled, NoReaders;
  }

  lemma MembersStable(s: State, e: Step)
    requires Enabled(s, e) && NextMembers(s.members, e) != s.members
    ensures NoReaders(s)
  {
    hide NoReaders;
  }

  lemma KnownGrows(s: State, e: Step, spatial: Spatial)
    requires Enabled(s, e)
    ensures s.conns.Keys <= Next(s, e, spatial).conns.Keys
  {
    hide NextThreads, NextConn, NextPending, NextDrained, NextMembers, Enabled, Crashes;
  }

  /** Threads untouched by a step stay within the members, because members only change
      when no loop is under way. */
  lemma OtherThreadOk(s: State, e: Step, spatial: Spatial, t: ThreadId)
    requires Inv(s) && Enabled(s, e) && t in s.threads
    ensures ThreadOk(NextMembers(s.members, e), Next(s, e, spatial).conns.Keys, t, s.threads[t])
  {
    KnownGrows(s, e, spatial);
    if NextMembers(s.members, e) != s.members {
      MembersStable(s, e);
    }
    hide Enabled, Next, NextMembers, ConnsOk;
  }

  /** The thread a step belongs to, if it has one. */
  function Actor(e: Step): Option<ThreadId> {
    match e
    case FlushLock(_, _) => Some(FLUSH)
    case FlushPick(_) => Some(FLUSH)
    case BeginBroadcast(_) => Some(RUN)
    case BeginNotify(_) => Some(RUN)
    case BeginLayerUpdate(t, _, _) => Some(t)
    case Turn(t, _, _, _) => Some(t)
    case End(t) => Some(t)
    case HandlerSend(t, _, _) => Some(t)
    case Send(t, _, _, _) => Some(t)
    case CountDrop(t, _) => Some(t)
    case _ => None
  }

  lemma OnlyActorMoves(s: State, e: Step, spatial: Spatial, t: ThreadId)
    requires Enabled(s, e) && Actor(e) != Some(t)
    ensures t in NextThreads(s, e, spatial) <==> t in s.threads
    ensures t in s.threads ==> NextThreads(s, e, spatial)[t] == s.threads[t]
  {
    hide Decide, NoReaders;
  }

  lemma ActorOk(s: State, e: Step, spatial: Spatial, t: ThreadId)
    requires Inv(s) && Enabled(s, e) && Actor(e) == Some(t) && t in NextThreads(s, e, spatial)
    ensures ThreadOk(s.members, s.conns.Keys, t, NextThreads(s, e, spatial)[t])
    ensures NextMembers(s.members, e) == s.members
  {
    hide Decide, NoReaders, NextConn;
  }

  lemma DrainedOk(s: State, e: Step, spatial: Spatial)
    requires ThreadsOk(s) && Enabled(s, e)
    ensures NextDrained(s.drained, e).Some? ==> FLUSH !in NextThreads(s, e, spatial)
  {
    hide Decide, NoReaders, ThreadOk;
  }

  lemma ThreadsStep(s: State, e: Step, spatial: Spatial)
    requires Inv(s) && Enabled(s, e)
    ensures ThreadsOk(Next(s, e, spatial))
  {
    if !Crashes(s, e) {
      DrainedOk(s, e, spatial);
      KnownGrows(s, e, spatial);
      forall t | t in NextThreads(s, e, spatial)
        ensures ThreadOk(NextMembers(s.members, e), Next(s, e, spatial).conns.Keys, t, NextThreads(s, e, spatial)[t])
      {
        if Actor(e) == Some(t) {
          ActorOk(s, e, spatial, t);
        } else {
          OnlyActorMoves(s, e, spatial, t);
          OtherThreadOk(s, e, spatial, t);
        }
      }
    }
    hide NextThreads, Enabled, NextMembers, NextConns, Crashes;
  }

  lemma {:induction false} Always(trace: seq<Step>, spatial: Spatial)
    requires Exec(trace, spatial).Some?
    ensures Inv(Exec(trace, spatial).value)
  {
    hide Enabled, Next;
    if trace != [] {
      var before := trace[..|trace| - 1];
      Always(before, spatial);
      ConnsStep(Exec(before, spatial).value, trace[|trace| - 1], spatial);
      ThreadsStep(Exec(before, spatial).value, trace[|trace| - 1], spatial);
    }
  }

  /** The sends that are not made under the shared lock. */
  ghost predicate Unlocked(s: State, e: Step) {
    e.Pong? || (e.Send? && e.thread in s.threads && s.threads[e.thread].job.Handler?)
  }

  /** In every run, a step brings the process down exactly when it is a handler's own send to
      a client that has been unregistered. No close is ever repeated, and no broadcast,
      notification, flush or layer-update loop sends on a closed channel. */
  lemma CrashIff(trace: seq<Step>, e: Step, spatial: Spatial)
    requires var s := Exec(trace, spatial); s.Some? && Enabled(s.value, e)
    ensures var s := Exec(trace, spatial).value;
            Next(s, e, spatial).crashed <==> Unlocked(s, e) && !IsLive(s, e.client)
  {
    Always(trace, spatial);
    hide NextThreads, Exec, NextConn, NextPending, NextDrained;
  }

  /** Operations that close a client's channel, over a run. */
  ghost function Closings(trace: seq<Step>, c: ClientId, spatial: Spatial): nat {
    if trace == [] then 0
    else
      var before, e := trace[..|trace| - 1], trace[|trace| - 1];
      Closings(before, c, spatial)
      + match Exec(before, spatial)
        case Some(s) => if c in s.members && Closes(e, c) then 1 else 0
        case None => 0
  }

  lemma {:induction false} ClosedOnce(trace: seq<Step>, c: ClientId, spatial: Spatial)
    requires Exec(trace, spatial).Some?
    ensures var s := Exec(trace, spatial).value;
            Closings(trace, c, spatial) == (if IsClosed(s, c) then 1 else 0)
  {
    if trace != [] {
      var before, e := trace[..|trace| - 1], trace[|trace| - 1];
      ClosedOnce(before, c, spatial);
      Always(before, spatial);
      ClosingStep(Exec(before, spatial).value, e, c, spatial);
      hide Enabled, Next, Inv;
    }
  }

  lemma NoRepeatedClose(s: State, e: Step)
    requires ConnsOk(s) && Crashes(s, e)
    ensures e.Send? || e.Pong?
  {
  }

  lemma ClosingStep(s: State, e: Step, c: ClientId, spatial: Spatial)
    requires Inv(s) && Enabled(s, e)
    ensures IsClosed(Next(s, e, spatial), c) <==> IsClosed(s, c) || (c in s.members && Closes(e, c))
  {
    hide NextThreads, ThreadsOk, NextPending, NextDrained, NextConns, NextMembers, NoReaders, Enabled, Crashes;
    if Crashes(s, e) {
      NoRepeatedClose(s, e);
    } else {
      ClosingConn(s, e, c);
    }
  }

  lemma ClosingConn(s: State, e: Step, c: ClientId)
    requires ConnsOk(s) && Enabled(s, e)
    ensures c in NextConns(s, e) && NextConns(s, e)[c].closed <==>
              IsClosed(s, c) || (c in s.members && Closes(e, c))
  {
    EnabledLifecycle(s, e);
    ConnAt(s, e, c);
    if c in s.conns {
      ConnStep(s.conns[c], c, c in s.members, e);
    }
    hide NextConns, NextConn, NoReaders, Enabled;
  }

  /** The protection does not extend to handlers: whenever one is about to send, unregistering
      its client first turns the send into a crash. */
  lemma HandlerSendCanCrash(trace: seq<Step>, t: ThreadId, c: ClientId, f: Frame, spatial: Spatial)
    requires Exec(trace, spatial).Some?
    requires var s := Exec(trace, spatial).value;
             && !s.crashed && RunIsIdle(s) && NoReaders(s) && c in s.members
             && t in s.threads && s.threads[t] == Thread(Handler, Offering({}, c, f))
    ensures var s := Exec(trace + [Unregister(c)] + [Send(t, c, f, false)], spatial);
            s.Some? && s.value.crashed
  {
    Always(trace, spatial);
    var s := Exec(trace, spatial).value;
    ClosingStep(s, Unregister(c), c, spatial);
    hide Exec, Inv, NoReaders;
    var s1 := Extend(trace, Unregister(c), spatial, s);
    ConnAt(s, Unregister(c), c);
    hide NextConns;
    var s2 := Extend(trace + [Unregister(c)], Send(t, c, f, false), spatial, s1);
  }

  /** Such a run exists: a client registers and one of its handlers is about to answer it. */
  lemma HandlerAboutToSend(f: Frame, spatial: Spatial)
    ensures var s := Exec([Connect(0)] + [Register(0)] + [HandlerSend(2, 0, f)], spatial);
            && s.Some? && !s.value.crashed && RunIsIdle(s.value) && NoReaders(s.value) && 0 in s.value.members
            && 2 in s.value.threads && s.value.threads[2] == Thread(Handler, Offering({}, 0, f))
  {
    assert Exec([], spatial) == Some(INIT);
    assert [] + [Connect(0)] == [Connect(0)];
    FirstClient(spatial);
    hide Exec, Next, Enabled;
    var s1 := Extend([], Connect(0), spatial, INIT);
    var s2 := Extend([Connect(0)], Register(0), spatial, s1);
    AboutToSend(f, spatial);
    var s3 := Extend([Connect(0)] + [Register(0)], HandlerSend(2, 0, f), spatial, s2);
  }

  const ARRIVING := State(map[], None, Some(0), {}, map[0 := FRESH], map[], true, false)
  const REGISTERED := State(map[], None, None, {0}, map[0 := FRESH], map[], true, false)

  lemma FirstClient(spatial: Spatial)
    ensures Enabled(INIT, Connect(0)) && Next(INIT, Connect(0), spatial) == ARRIVING
    ensures Enabled(ARRIVING, Register(0)) && Next(ARRIVING, Register(0), spatial) == REGISTERED
  {
  }

  lemma AboutToSend(f: Frame, spatial: Spatial)
    ensures Enabled(REGISTERED, HandlerSend(2, 0, f))
    ensures var s := Next(REGISTERED, HandlerSend(2, 0, f), spatial);
            && !s.crashed && RunIsIdle(s) && NoReaders(s) && 0 in s.members
            && 2 in s.threads && s.threads[2] == Thread(Handler, Offering({}, 0, f))
  {
  }

  lemma Extend(trace: seq<Step>, e: Step, spatial: Spatial, s: State) returns (s': State)
    requires Exec(trace, spatial) == Some(s) && Enabled(s, e)
    ensures s' == Next(s, e, spatial) && Exec(trace + [e], spatial) == Some(s')
  {
    assert (trace + [e])[..|trace + [e]| - 1] == trace;
    s' := Next(s, e, spatial);
  }
}
