/** What a client's channel and writer do with frames, over all runs: nothing is lost without
    being counted, nothing is reordered, and counted losses are reported ahead of the next frame. */
module FanOutDelivery {
  import opened Wrappers
  import opened ClientState
  import opened FanOut
  import opened FanOutSafety

  /** What happened to one client, read off the steps of a run. */
  datatype Ledger = Ledger(
    offered: nat,          // sends tried at the sites that count their drops
    pongs: nat,            // pongs that fitted; a pong that does not is not counted
    accepted: seq<Frame>,  // frames that entered the channel
    taken: seq<Frame>,     // frames the writer received
    written: seq<Frame>,   // frames it wrote to the socket
    dropped: nat,          // drops counted
    reported: nat,         // drops written in backpressure frames
    dropsAtSwap: nat)      // drops counted before the writer's last swap

  const NOTHING := Ledger(0, 0, [], [], [], 0, 0, 0)

  function Record(h: Ledger, c: ClientId, e: Step): Ledger {
    match e
    case Send(_, d, f, ok) =>
      if d != c then h else h.(offered := h.offered + 1, accepted := h.accepted + if ok then [f] else [])
    case Pong(d, f, ok) => if d == c && ok then h.(pongs := h.pongs + 1, accepted := h.accepted + [f]) else h
    case CountDrop(_, d) => if d == c then h.(dropped := h.dropped + 1) else h
    case Take(d, f) => if d == c then h.(taken := h.taken + [f]) else h
    case Swap(d, _) => if d == c then h.(dropsAtSwap := h.dropped) else h
    case WriteReport(d, n, ok) => if d == c && ok then h.(reported := h.reported + n) else h
    case WriteFrame(d, f, ok) => if d == c && ok then h.(written := h.written + [f]) else h
    case _ => h
  }

  function LedgerOf(trace: seq<Step>, c: ClientId): Ledger {
    if trace == [] then NOTHING
    else Record(LedgerOf(trace[..|trace| - 1], c), c, trace[|trace| - 1])
  }

  function Unreported(w: Writer): nat {
    match w
    case Reporting(_, n) => n
    case Stopped(n) => n
    case _ => 0
  }

  /** The channel is first in, first out, and the writer writes what it takes, in order; a
      failed write costs it one frame and ends it. */
  ghost predicate InOrder(h: Ledger, conn: Conn) {
    && h.accepted == h.taken + conn.buffer
    && match conn.writer
       case Idle => h.taken == h.written
       case Stopped(_) => h.written <= h.taken && |h.taken| <= |h.written| + 1
       case _ => h.taken == h.written + [conn.writer.frame]
  }

  /** Every counted drop has been reported, is about to be, went down with a failed write, or
      is still on the counter. */
  ghost predicate DropsBalance(h: Ledger, conn: Conn) {
    h.dropped == h.reported + Unreported(conn.writer) + conn.dropped
  }

  /** Once the writer has swapped, the drops counted before the swap are reported first. */
  ghost predicate ReportsFirst(h: Ledger, conn: Conn) {
    match conn.writer
    case Reporting(_, n) => h.dropsAtSwap == h.reported + n
    case Writing(_) => h.dropsAtSwap == h.reported
    case _ => true
  }

  ghost predicate Laws(h: Ledger, conn: Conn) {
    InOrder(h, conn) && DropsBalance(h, conn) && ReportsFirst(h, conn)
  }

  /** What a step by a client's writer observes about the connection. */
  predicate Fits(conn: Conn, c: ClientId, e: Step) {
    match e
    case Take(d, f) => d == c ==> conn.writer.Idle? && conn.buffer != [] && f == conn.buffer[0]
    case Swap(d, n) => d == c ==> conn.writer.Taken? && n == conn.dropped
    case WriteReport(d, n, _) => d == c ==> conn.writer.Reporting? && n == conn.writer.drops
    case WriteFrame(d, f, _) => d == c ==> conn.writer.Writing? && f == conn.writer.frame
    case WriterDone(d) => d == c ==> conn.writer.Idle?
    case _ => true
  }

  lemma EnabledFits(s: State, e: Step, c: ClientId)
    requires Enabled(s, e)
    ensures c in s.conns ==> Fits(s.conns[c], c, e)
    ensures c !in s.conns ==> forall h :: Record(h, c, e) == h
  {
    hide NoReaders;
  }

  lemma OrderKept(h: Ledger, conn: Conn, c: ClientId, member: bool, e: Step)
    requires InOrder(h, conn) && Fits(conn, c, e)
    ensures InOrder(Record(h, c, e), NextConn(conn, c, member, e))
  {
  }

  lemma DropsKept(h: Ledger, conn: Conn, c: ClientId, member: bool, e: Step)
    requires DropsBalance(h, conn) && ReportsFirst(h, conn) && Fits(conn, c, e)
    ensures DropsBalance(Record(h, c, e), NextConn(conn, c, member, e))
    ensures ReportsFirst(Record(h, c, e), NextConn(conn, c, member, e))
  {
  }

  lemma LawsStep(s: State, e: Step, c: ClientId, h: Ledger, spatial: Spatial)
    requires Enabled(s, e)
    requires if c in s.conns then Laws(h, s.conns[c]) else h == NOTHING
    ensures var s', h' := Next(s, e, spatial), Record(h, c, e);
            if c in s'.conns then Laws(h', s'.conns[c]) else h' == NOTHING
  {
    EnabledFits(s, e, c);
    ConnAt(s, e, c);
    EnabledLifecycle(s, e);
    if Crashes(s, e) {
      if c in s.conns {
        CrashKeepsLaws(s, e, c, h);
      }
    } else if c in s.conns {
      OrderKept(h, s.conns[c], c, c in s.members, e);
      DropsKept(h, s.conns[c], c, c in s.members, e);
    }
    hide NextConns, NextConn, Enabled, NextThreads, Record, InOrder, DropsBalance, ReportsFirst, Crashes;
    if !Crashes(s, e) && c !in s.conns && e == Connect(c) {
      FreshLaws();
    }
  }

  lemma FreshLaws()
    ensures Laws(NOTHING, FRESH)
  {
  }

  lemma CrashKeepsLaws(s: State, e: Step, c: ClientId, h: Ledger)
    requires Enabled(s, e) && Crashes(s, e) && c in s.conns && Laws(h, s.conns[c])
    ensures Laws(Record(h, c, e), s.conns[c])
  {
    hide NoReaders;
  }

  lemma {:induction false} LawsAlways(trace: seq<Step>, c: ClientId, spatial: Spatial)
    requires Exec(trace, spatial).Some?
    ensures var s, h := Exec(trace, spatial).value, LedgerOf(trace, c);
            if c in s.conns then Laws(h, s.conns[c]) else h == NOTHING
  {
    hide Enabled, Next, Laws, Record;
    if trace != [] {
      var before := trace[..|trace| - 1];
      LawsAlways(before, c, spatial);
      LawsStep(Exec(before, spatial).value, trace[|trace| - 1], c, LedgerOf(before, c), spatial);
    }
  }

  /** Sends that found the buffer full and have yet to count it. */
  ghost function OwingTo(s: State, c: ClientId): set<ThreadId> {
    set t | t in s.threads && s.threads[t].phase.Owing? && s.threads[t].phase.client == c
  }

  lemma OwingUnchanged(s: State, e: Step, c: ClientId, spatial: Spatial)
    requires Enabled(s, e)
    requires !e.CountDrop? && (e.Send? ==> e.accepted)
    ensures !Crashes(s, e) ==> OwingTo(Next(s, e, spatial), c) == OwingTo(s, c)
  {
    hide NoReaders, Decide, NextConns, NextMembers, NextPending, NextDrained, Crashes;
  }

  lemma OwingMoves(s: State, e: Step, c: ClientId, spatial: Spatial)
    requires Enabled(s, e) && !Crashes(s, e)
    requires e.CountDrop? || (e.Send? && !e.accepted)
    ensures var owing, owing' := OwingTo(s, c), OwingTo(Next(s, e, spatial), c);
            if e.client != c then owing' == owing
            else if e.Send? then e.thread !in owing && owing' == owing + {e.thread}
            else e.thread in owing && owing' == owing - {e.thread}
  {
    hide NextConns, NextMembers, NextPending, NextDrained, Crashes;
  }

  ghost predicate OffersBalance(h: Ledger, owing: nat) {
    h.offered + h.pongs == |h.accepted| + h.dropped + owing
  }

  lemma OffersStep(s: State, e: Step, c: ClientId, h: Ledger, spatial: Spatial)
    requires Enabled(s, e) && !Crashes(s, e)
    requires OffersBalance(h, |OwingTo(s, c)|)
    ensures OffersBalance(Record(h, c, e), |OwingTo(Next(s, e, spatial), c)|)
  {
    if e.CountDrop? || (e.Send? && !e.accepted) {
      OwingMoves(s, e, c, spatial);
    } else {
      OwingUnchanged(s, e, c, spatial);
    }
    hide OwingTo, Next, Enabled;
  }

  lemma {:induction false} OffersAlways(trace: seq<Step>, c: ClientId, spatial: Spatial)
    requires Exec(trace, spatial).Some? && !Exec(trace, spatial).value.crashed
    ensures OffersBalance(LedgerOf(trace, c), |OwingTo(Exec(trace, spatial).value, c)|)
  {
    if trace == [] {
      assert OwingTo(INIT, c) == {};
    } else {
      var before, e := trace[..|trace| - 1], trace[|trace| - 1];
      var s := Exec(before, spatial).value;
      NotCrashedBefore(s, e, spatial);
      OffersAlways(before, c, spatial);
      OffersStep(s, e, c, LedgerOf(before, c), spatial);
      hide Enabled, Next, Record, OffersBalance, OwingTo;
    }
  }

  lemma NotCrashedBefore(s: State, e: Step, spatial: Spatial)
    requires Enabled(s, e)
    ensures !s.crashed
    ensures Next(s, e, spatial).crashed <==> Crashes(s, e)
  {
    hide NoReaders, NextConns, NextMembers, NextPending, NextDrained, NextThreads, Crashes;
  }

  /** Conservation, over every run: what was offered (and the pongs that fitted) has been taken
      by the writer, is buffered, was dropped and counted, or is about to be counted; and the
      counted drops add up to what was reported, what a failed write took down, what is about
      to be reported and what the counter holds. */
  lemma {:induction false} Conservation(trace: seq<Step>, c: ClientId, spatial: Spatial)
    requires var s := Exec(trace, spatial); s.Some? && !s.value.crashed && c in s.value.conns
    ensures var s, h := Exec(trace, spatial).value, LedgerOf(trace, c);
            var conn := s.conns[c];
            && h.offered + h.pongs == |h.taken| + |conn.buffer| + h.dropped + |OwingTo(s, c)|
            && h.dropped == h.reported + Unreported(conn.writer) + conn.dropped
            && |conn.buffer| <= SEND_BUFFER
  {
    OffersAlways(trace, c, spatial);
    LawsAlways(trace, c, spatial);
    Always(trace, spatial);
    hide Exec, LedgerOf, OwingTo, ThreadsOk;
  }

  /** Frames reach the socket in the order in which they entered the channel, none skipped and
      none repeated, whatever the interleaving; only a failed write loses the one in hand. */
  lemma {:induction false} FramesInOrder(trace: seq<Step>, c: ClientId, spatial: Spatial)
    requires Exec(trace, spatial).Some? && c in Exec(trace, spatial).value.conns
    ensures var conn, h := Exec(trace, spatial).value.conns[c], LedgerOf(trace, c);
            && h.written <= h.accepted
            && |h.accepted| - |h.written| <= |conn.buffer| + 1
            && (conn.writer.Idle? ==> h.accepted == h.written + conn.buffer)
  {
    LawsAlways(trace, c, spatial);
    hide Exec, LedgerOf;
    var conn, h := Exec(trace, spatial).value.conns[c], LedgerOf(trace, c);
    assert h.written <= h.taken;
  }

  /** When a frame is written, every drop counted before the swap that preceded it has already
      been written in a backpressure frame. */
  lemma ReportPrecedesFrame(trace: seq<Step>, c: ClientId, f: Frame, ok: bool, spatial: Spatial)
    requires var s := Exec(trace, spatial); s.Some? && Enabled(s.value, WriteFrame(c, f, ok))
    ensures LedgerOf(trace, c).reported == LedgerOf(trace, c).dropsAtSwap
  {
    LawsAlways(trace, c, spatial);
    hide Exec, LedgerOf;
  }
}
