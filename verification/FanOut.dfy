/** The fan-out server as a state machine over its atomic steps.

    One step is one critical section (`s.mu`, `pendingMu`), one channel operation, one atomic
    add or swap, or one write to a socket. Sections under the exclusive lock are single steps
    that need no reader inside; sections under the shared lock span many steps, because the
    writers, the message handlers and the feeders keep running meanwhile. A step carries what
    it observed, so a run is determined by its steps and its history can be read off them. */
module FanOut {
  import opened Wrappers
  import opened Geometry
  import opened ClientState
  import opened Batching
  import opened Selections

  type ClientId = nat
  type ThreadId = nat

  /** The goroutine of `Run`, the flush ticker, and everybody else. */
  const RUN: ThreadId := 0
  const FLUSH: ThreadId := 1

  const SEND_BUFFER := 256

  datatype Frame = Text(text: string) | BatchUpdate(layer: Layer, updates: seq<string>)

  /** A client's writer goroutine between two operations. */
  datatype Writer =
    | Idle
    | Taken(frame: Frame)                  // received, counter not yet swapped
    | Reporting(frame: Frame, drops: nat)  // swapped a non-zero counter
    | Writing(frame: Frame)
    | Stopped(unreported: nat)

  datatype Conn = Conn(buffer: seq<Frame>, closed: bool, dropped: nat, writer: Writer, view: View)

  /** Why a thread walks over the clients. */
  datatype Job =
    | Broadcast(frame: Frame)
    | Notify(frame: Frame)
    | LayerUpdate(layer: Layer, frame: Frame)
    | Flush(work: map<Layer, seq<Update>>, current: Layer, batch: seq<Update>)
    | Handler

  /** Where it is: picking the next client, about to send, or about to count a drop. */
  datatype Phase =
    | Choosing(todo: set<ClientId>)
    | Offering(todo: set<ClientId>, client: ClientId, frame: Frame)
    | Owing(todo: set<ClientId>, client: ClientId)

  datatype Thread = Thread(job: Job, phase: Phase)

  datatype State = State(
    pending: map<Layer, seq<Update>>,
    drained: Option<map<Layer, seq<Update>>>,
    arriving: Option<ClientId>,  // handed over to `Run`, which has yet to take the lock
    members: set<ClientId>,
    conns: map<ClientId, Conn>,
    threads: map<ThreadId, Thread>,
    running: bool,
    crashed: bool)

  const INIT := State(map[], None, None, {}, map[], map[], true, false)

  datatype Step =
    // Feeders and the flush ticker
    | QueueUpdate(layer: Layer, update: Update)
    | FlushSwap(work: map<Layer, seq<Update>>)
    | FlushLock(work: map<Layer, seq<Update>>, present: set<ClientId>)
    | FlushPick(layer: Layer)
    // Loops under the shared lock
    | BeginBroadcast(frame: Frame)
    | BeginNotify(frame: Frame)
    | BeginLayerUpdate(thread: ThreadId, layer: Layer, frame: Frame)
    | Turn(thread: ThreadId, client: ClientId, view: View, passes: bool)
    | End(thread: ThreadId)
    // Sends, with the outcome of the non-blocking channel operation
    | HandlerSend(thread: ThreadId, client: ClientId, frame: Frame)
    | Send(thread: ThreadId, client: ClientId, frame: Frame, accepted: bool)
    | CountDrop(thread: ThreadId, client: ClientId)
    | Pong(client: ClientId, frame: Frame, accepted: bool)
    // Client messages and the exclusive lock
    | SetView(client: ClientId, view: View)
    | Connect(client: ClientId)
    | Register(client: ClientId)
    | Unregister(client: ClientId)
    | Shutdown
    // Writers
    | Take(client: ClientId, frame: Frame)
    | Swap(client: ClientId, drops: nat)
    | WriteReport(client: ClientId, drops: nat, ok: bool)
    | WriteFrame(client: ClientId, frame: Frame, ok: bool)
    | WriterDone(client: ClientId)

  /** Which layers filter by viewport is fixed configuration. */
  type Spatial = set<Layer>

  predicate NoReaders(s: State) {
    forall t :: t in s.threads ==> s.threads[t].job.Handler?
  }

  /** `Run` waits for something to do. */
  predicate RunIsIdle(s: State) {
    s.running && RUN !in s.threads && s.arriving.None?
  }

  predicate Full(c: Conn) { |c.buffer| >= SEND_BUFFER }

  /** What a thread does with a client, given what it reads about it. */
  function Decide(job: Job, view: View, passes: bool, spatial: Spatial): Option<Frame> {
    match job
    case Broadcast(frame) => Some(frame)
    case Notify(frame) => if passes then Some(frame) else None
    case LayerUpdate(l, frame) => if view.IsSubscribed(l) then Some(frame) else None
    case Handler => None
    case Flush(_, l, batch) =>
      if !view.IsSubscribed(l) || view.IsFrozen(l) then None
      else
        var updates := Batch(FilterOf(view, l, l in spatial), batch);
        if updates == [] then None else Some(BatchUpdate(l, updates))
  }

  /** What a flush decides, in terms of what the client has asked for: nothing while it is not
      subscribed or looks at a frozen range; otherwise the updates at `picked`: up to where the
      batch is cut, exactly those inside its range, if it has one, and inside its box, if it has
      one, the layer is filtered by it and it has not asked for the whole world. */
  lemma FlushPositions(work: map<Layer, seq<Update>>, l: Layer, batch: seq<Update>, v: View, passes: bool, spatial: Spatial)
    returns (picked: seq<nat>)
    ensures Ascending(picked, |batch|)
    ensures l in spatial && l in v.viewports && l !in v.globalLayers ==>
      |picked| <= ViewportEntityLimit(Some(v.viewports[l]), |batch|)
    ensures Decide(Flush(work, l, batch), v, passes, spatial)
         == if picked == [] then None
            else Some(BatchUpdate(l, seq(|picked|, k requires 0 <= k < |picked| => batch[picked[k]].data)))
    ensures l !in v.subscriptions || (l in v.timeFrozen && v.timeFrozen[l]) ==> picked == []
    ensures l in v.subscriptions && !(l in v.timeFrozen && v.timeFrozen[l]) ==>
      forall i: nat :: (i < |batch| && ((picked != [] && i <= picked[|picked| - 1])
        || |batch| <= 500 || l !in spatial || l !in v.viewports || l in v.globalLayers
        || |picked| < ViewportEntityLimit(Some(v.viewports[l]), |batch|))) ==>
      (i in picked <==>
        && (l in v.timeFrom && batch[i].eventTime.Some? ==>
              v.timeFrom[l] <= batch[i].eventTime.value
              && batch[i].eventTime.value <= if l in v.timeTo then v.timeTo[l] else 0)
        && (l in spatial && l in v.viewports && l !in v.globalLayers && batch[i].position.Some? ==>
              var (box, (lat, lon)) := (v.viewports[l], batch[i].position.value);
              && box.south <= lat && lat <= box.north
              && if box.west <= box.east then box.west <= lon && lon <= box.east
                 else lon >= box.west || lon <= box.east))
  {
    picked := [];
    LimitBounds(FilterOf(v, l, l in spatial).viewport, |batch|);
    if v.IsSubscribed(l) && !v.IsFrozen(l) {
      picked := BatchPositions(FilterOf(v, l, l in spatial), batch);
    }
    hide Batch, ViewportEntityLimit;
  }

  predicate Enabled(s: State, e: Step) {
    !s.crashed &&
    match e
    case QueueUpdate(_, _) => true
    case FlushSwap(work) => work == s.pending && work != map[] && s.drained.None? && FLUSH !in s.threads
    case FlushLock(work, present) => s.drained == Some(work) && FLUSH !in s.threads && present == s.members
    case FlushPick(l) =>
      FLUSH in s.threads && s.threads[FLUSH].job.Flush? && s.threads[FLUSH].phase == Choosing({})
      && l in s.threads[FLUSH].job.work
    case BeginBroadcast(_) => RunIsIdle(s)
    case BeginNotify(_) => RunIsIdle(s)
    case BeginLayerUpdate(t, _, _) => t !in s.threads && t != RUN && t != FLUSH
    case Turn(t, c, view, _) =>
      t in s.threads && !s.threads[t].job.Handler? && s.threads[t].phase.Choosing? && c in s.threads[t].phase.todo
      && c in s.conns && view == s.conns[c].view
    case End(t) =>
      t in s.threads && s.threads[t].phase == Choosing({})
      && (s.threads[t].job.Flush? ==> s.threads[t].job.work == map[])
    case HandlerSend(t, c, _) => t !in s.threads && t != RUN && t != FLUSH && c in s.conns
    case Send(t, c, f, accepted) =>
      t in s.threads && s.threads[t].phase.Offering? && s.threads[t].phase.client == c
      && s.threads[t].phase.frame == f && c in s.conns
      && (accepted <==> !s.conns[c].closed && !Full(s.conns[c]))
    case CountDrop(t, c) =>
      t in s.threads && s.threads[t].phase.Owing? && s.threads[t].phase.client == c && c in s.conns
    case Pong(c, f, accepted) => c in s.conns && (accepted <==> !s.conns[c].closed && !Full(s.conns[c]))
    case SetView(c, _) => c in s.conns
    case Connect(c) => RunIsIdle(s) && c !in s.conns
    case Register(c) => s.arriving == Some(c) && NoReaders(s)
    case Unregister(c) => RunIsIdle(s) && NoReaders(s) && c in s.conns
    case Shutdown => RunIsIdle(s) && NoReaders(s)
    case Take(c, f) => c in s.conns && s.conns[c].writer.Idle? && s.conns[c].buffer != [] && f == s.conns[c].buffer[0]
    case Swap(c, n) => c in s.conns && s.conns[c].writer.Taken? && n == s.conns[c].dropped
    case WriteReport(c, n, _) => c in s.conns && s.conns[c].writer.Reporting? && n == s.conns[c].writer.drops
    case WriteFrame(c, f, _) => c in s.conns && s.conns[c].writer.Writing? && f == s.conns[c].writer.frame
    case WriterDone(c) => c in s.conns && s.conns[c].writer.Idle? && s.conns[c].closed && s.conns[c].buffer == []
  }

  // Each part of the state has its own transition function; only a client's own steps, its
  // membership and its own connection decide what becomes of that connection.

  const FRESH := Conn([], false, 0, Idle, NEW_CLIENT)

  function NextConn(conn: Conn, c: ClientId, member: bool, e: Step): Conn {
    match e
    case Send(_, d, f, accepted) => if d == c && accepted then conn.(buffer := conn.buffer + [f]) else conn
    case Pong(d, f, accepted) => if d == c && accepted then conn.(buffer := conn.buffer + [f]) else conn
    case CountDrop(_, d) => if d == c then conn.(dropped := conn.dropped + 1) else conn
    case SetView(d, v) => if d == c then conn.(view := v) else conn
    case Unregister(d) => if d == c && member then conn.(closed := true) else conn
    case Shutdown => if member then conn.(closed := true) else conn
    case Take(d, f) => if d == c && conn.buffer != [] then conn.(buffer := conn.buffer[1..], writer := Taken(f)) else conn
    case Swap(d, n) =>
      if d == c && conn.writer.Taken? then
        conn.(dropped := 0, writer := if n > 0 then Reporting(conn.writer.frame, n) else Writing(conn.writer.frame))
      else conn
    case WriteReport(d, n, ok) =>
      if d == c && conn.writer.Reporting? then
        conn.(writer := if ok then Writing(conn.writer.frame) else Stopped(n))
      else conn
    case WriteFrame(d, _, ok) => if d == c then conn.(writer := if ok then Idle else Stopped(0)) else conn
    case WriterDone(d) => if d == c then conn.(writer := Stopped(0)) else conn
    case _ => conn
  }

  function NextConns(s: State, e: Step): map<ClientId, Conn> {
    var moved := map c | c in s.conns :: NextConn(s.conns[c], c, c in s.members, e);
    if e.Connect? then moved[e.client := FRESH] else moved
  }

  function NextArriving(arriving: Option<ClientId>, e: Step): Option<ClientId> {
    match e
    case Connect(c) => Some(c)
    case Register(_) => None
    case _ => arriving
  }

  function NextMembers(members: set<ClientId>, e: Step): set<ClientId> {
    match e
    case Register(c) => members + {c}
    case Unregister(c) => members - {c}
    case Shutdown => {}
    case _ => members
  }

  /** Back to the remaining clients; a handler's send is a thread of its own and ends. */
  function Continue(threads: map<ThreadId, Thread>, t: ThreadId): map<ThreadId, Thread>
    requires t in threads
  {
    if threads[t].job.Handler? then threads - {t}
    else threads[t := threads[t].(phase := Choosing(threads[t].phase.todo))]
  }

  function AfterTurn(th: Thread, c: ClientId, view: View, passes: bool, spatial: Spatial): Thread {
    var frame := Decide(th.job, view, passes, spatial);
    var todo := th.phase.todo - {c};
    th.(phase := if frame.None? then Choosing(todo) else Offering(todo, c, frame.value))
  }

  function NextThreads(s: State, e: Step, spatial: Spatial): map<ThreadId, Thread>
    requires Enabled(s, e)
  {
    match e
    case FlushLock(work, _) => s.threads[FLUSH := Thread(Flush(work, "", []), Choosing({}))]
    case FlushPick(l) =>
      var work := s.threads[FLUSH].job.work;
      s.threads[FLUSH := Thread(Flush(work - {l}, l, work[l]), Choosing(if work[l] == [] then {} else s.members))]
    case BeginBroadcast(f) => s.threads[RUN := Thread(Broadcast(f), Choosing(s.members))]
    case BeginNotify(f) => s.threads[RUN := Thread(Notify(f), Choosing(s.members))]
    case BeginLayerUpdate(t, l, f) => s.threads[t := Thread(LayerUpdate(l, f), Choosing(s.members))]
    case Turn(t, c, view, passes) => s.threads[t := AfterTurn(s.threads[t], c, view, passes, spatial)]
    case End(t) => s.threads - {t}
    case HandlerSend(t, c, f) => s.threads[t := Thread(Handler, Offering({}, c, f))]
    case Send(t, c, _, accepted) =>
      if accepted then Continue(s.threads, t)
      else s.threads[t := s.threads[t].(phase := Owing(s.threads[t].phase.todo, c))]
    case CountDrop(t, _) => Continue(s.threads, t)
    case _ => s.threads
  }

  function NextPending(pending: map<Layer, seq<Update>>, e: Step): map<Layer, seq<Update>> {
    match e
    case QueueUpdate(l, u) => pending[l := (if l in pending then pending[l] else []) + [u]]
    case FlushSwap(_) => map[]
    case _ => pending
  }

  function NextDrained(drained: Option<map<Layer, seq<Update>>>, e: Step): Option<map<Layer, seq<Update>>> {
    match e
    case FlushSwap(work) => Some(work)
    case FlushLock(_, _) => None
    case _ => drained
  }

  predicate IsClosed(s: State, c: ClientId) { c in s.conns && s.conns[c].closed }

  /** Sending on a closed channel, or closing one again, brings the process down. */
  ghost predicate Crashes(s: State, e: Step) {
    match e
    case Send(_, c, _, _) => IsClosed(s, c)
    case Pong(c, _, _) => IsClosed(s, c)
    case Unregister(c) => c in s.members && IsClosed(s, c)
    case Shutdown => exists c :: c in s.members && IsClosed(s, c)
    case _ => false
  }

  ghost function Next(s: State, e: Step, spatial: Spatial): State
    requires Enabled(s, e)
  {
    if Crashes(s, e) then s.(crashed := true)
    else State(NextPending(s.pending, e), NextDrained(s.drained, e), NextArriving(s.arriving, e),
               NextMembers(s.members, e), NextConns(s, e), NextThreads(s, e, spatial), s.running && !e.Shutdown?, false)
  }

  /** The state a run of steps leads to, if each of its steps is possible. */
  ghost function Exec(trace: seq<Step>, spatial: Spatial): Option<State> {
    if trace == [] then Some(INIT)
    else
      var before := Exec(trace[..|trace| - 1], spatial);
      var e := trace[|trace| - 1];
      if before.None? || !Enabled(before.value, e) then None
      else Some(Next(before.value, e, spatial))
  }
}
