/** The server and its clients as the objects the source keeps: methods that change fields in
    place, each specified by the functions of ClientState, Batching and FanOut. A method runs
    here without interference; FanOut covers the interleavings of the same operations. */
module Hub {
  import opened Wrappers
  import opened Geometry
  import CS = ClientState
  import opened Batching
  import opened FanOut
  import opened Selections

  type Layer = CS.Layer
  type View = CS.View

  /** A polling context; cancelling it stops its goroutine. */
  class Poll {
    const layer: Layer
    var cancelled: bool

    constructor (layer: Layer)
      ensures this.layer == layer && !cancelled
    {
      this.layer := layer;
      cancelled := false;
    }

    method Cancel()
      modifies this
      ensures cancelled
    {
      cancelled := true;
    }
  }

  /** The send side of a client: its buffered channel and its drop counter. */
  datatype Channel = Channel(buffer: seq<Frame>, dropped: nat)

  /** A non-blocking send that counts its drop. */
  function OfferTo(ch: Channel, f: Frame): Channel {
    if |ch.buffer| < SEND_BUFFER then ch.(buffer := ch.buffer + [f]) else ch.(dropped := ch.dropped + 1)
  }

  function OfferAll(ch: Channel, frames: seq<Frame>): Channel {
    if frames == [] then ch else OfferTo(OfferAll(ch, frames[..|frames| - 1]), frames[|frames| - 1])
  }

  /** Which notifications a client wants: from an attention level on, and of these types, if any. */
  datatype NotificationFilter = NotificationFilter(minAttention: string, insightTypes: set<string>)

  datatype NotificationMeta = NotificationMeta(insightType: string, attention: string)

  /** An unclassified notification passes any minimum; `rank` orders the attention levels. */
  predicate Wants(f: Option<NotificationFilter>, meta: NotificationMeta, rank: string -> int) {
    f.Some? ==>
      && (f.value.minAttention != "" && meta.attention != "" ==> rank(meta.attention) >= rank(f.value.minAttention))
      && (f.value.insightTypes != {} ==> meta.insightType in f.value.insightTypes)
  }

  /** What the writer puts on the socket. */
  datatype Message = Data(frame: Frame) | Backpressure(dropped: nat)

  class Client {
    var send: seq<Frame>
    var closed: bool
    var droppedCount: nat
    var subscriptions: set<Layer>
    var viewports: map<Layer, BBox>
    var timeFrom: map<Layer, CS.Time>
    var timeTo: map<Layer, CS.Time>
    var timeFrozen: map<Layer, bool>
    var lastTimeRange: map<Layer, CS.Time>
    var globalLayers: set<Layer>
    var notificationFilter: Option<NotificationFilter>
    var onDemandTickers: map<Layer, Poll>
    ghost var polls: set<Poll>  // every context ever created for this client

    function State(): View
      reads this`subscriptions, this`viewports, this`timeFrom, this`timeTo, this`timeFrozen,
            this`globalLayers, this`lastTimeRange
    {
      CS.View(subscriptions, viewports, timeFrom, timeTo, timeFrozen, globalLayers, lastTimeRange)
    }

    function Outbox(): Channel
      reads this`send, this`droppedCount
    {
      Channel(send, droppedCount)
    }

    /** The uncancelled contexts are exactly those of the map, one per layer. */
    ghost predicate Valid()
      reads this`onDemandTickers, this`polls, polls
    {
      && (forall l :: l in onDemandTickers ==> onDemandTickers[l] in polls && onDemandTickers[l].layer == l)
      && (forall p :: p in polls ==>
            (!p.cancelled <==> p.layer in onDemandTickers && onDemandTickers[p.layer] == p))
    }

    constructor ()
      ensures Valid() && polls == {} && onDemandTickers == map[]
      ensures State() == CS.NEW_CLIENT && Outbox() == Channel([], 0) && !closed
    {
      send, closed, droppedCount := [], false, 0;
      subscriptions, viewports, globalLayers, lastTimeRange := {}, map[], {}, map[];
      timeFrom, timeTo, timeFrozen := map[], map[], map[];
      notificationFilter := None;
      onDemandTickers, polls := map[], {};
    }

    // Per-layer state

    method SetViewport(l: Layer, b: BBox)
      modifies this`viewports
      ensures State() == old(State()).SetViewport(l, b)
    {
      viewports := viewports[l := b];
    }

    method SetGlobalMode(l: Layer, global: bool)
      modifies this`globalLayers
      ensures State() == old(State()).SetGlobalMode(l, global)
    {
      if global {
        globalLayers := globalLayers + {l};
      } else {
        globalLayers := globalLayers - {l};
      }
    }

    method Subscribe(l: Layer)
      modifies this`subscriptions, this`timeFrom, this`timeTo, this`timeFrozen
      ensures State() == old(State()).Subscribe(l)
    {
      subscriptions := subscriptions + {l};
      timeFrom := timeFrom - {l};
      timeTo := timeTo - {l};
      timeFrozen := timeFrozen - {l};
    }

    method EnableSubscription(l: Layer)
      modifies this`subscriptions
      ensures State() == old(State()).EnableSubscription(l)
    {
      subscriptions := subscriptions + {l};
    }

    method Unsubscribe(l: Layer)
      modifies this`subscriptions, this`timeFrom, this`timeTo, this`timeFrozen, this`globalLayers
      ensures State() == old(State()).Unsubscribe(l)
    {
      subscriptions := subscriptions - {l};
      timeFrom := timeFrom - {l};
      timeTo := timeTo - {l};
      timeFrozen := timeFrozen - {l};
      globalLayers := globalLayers - {l};
    }

    method SetTimeRange(l: Layer, from: CS.Time, to: CS.Time, frozen: bool)
      modifies this`timeFrom, this`timeTo, this`timeFrozen
      ensures State() == old(State()).SetTimeRange(l, from, to, frozen)
    {
      timeFrom := timeFrom[l := from];
      timeTo := timeTo[l := to];
      timeFrozen := timeFrozen[l := frozen];
    }

    method CanTimeRange(l: Layer, cooldown: CS.Time, now: CS.Time) returns (allowed: bool)
      modifies this`lastTimeRange
      ensures allowed == CS.CooledDown(old(State()), l, now, cooldown)
      ensures lastTimeRange == if allowed then old(lastTimeRange)[l := now] else old(lastTimeRange)
    {
      if l in lastTimeRange && now - lastTimeRange[l] < cooldown {
        return false;
      }
      lastTimeRange := lastTimeRange[l := now];
      return true;
    }

    /** The start of the window, clamped to the lookback limit and then to the span limit. */
    static method ClampStart(cfg: CS.TimeRangeConfig, r: CS.TimeRangeRequest, h: Option<CS.History>) returns (from: CS.Time)
      requires r.from.Some? && r.to.Some?
      ensures from == CS.Start(cfg, r, h)
    {
      from := r.from.value;
      var to := r.to.value;
      var maxLookback, maxSpan := cfg.maxLookback, cfg.maxSpan;
      if h.Some? {
        if h.value.lookbackHours > 0 { maxLookback := h.value.lookbackHours * CS.HOUR; }
        if h.value.spanHours > 0 { maxSpan := h.value.spanHours * CS.HOUR; }
      }
      if maxLookback > 0 {
        var maxFrom := r.now - maxLookback;
        if from < maxFrom { from := maxFrom; }
      }
      if maxSpan > 0 && to - from > maxSpan {
        from := to - maxSpan;
      }
    }

    /** Whether the request was accepted, with its stored window. */
    method HandleTimeRange(cfg: CS.TimeRangeConfig, l: Layer, r: CS.TimeRangeRequest, h: Option<CS.History>)
      returns (accepted: bool)
      modifies this`subscriptions, this`viewports, this`globalLayers, this`lastTimeRange,
               this`timeFrom, this`timeTo, this`timeFrozen
      ensures accepted <==>
        && l != "" && cfg.enabled && r.from.Some? && r.to.Some? && r.from.value < r.to.value
        && (r.global || cfg.cooldown <= 0 || l !in old(lastTimeRange) || r.now - old(lastTimeRange)[l] >= cfg.cooldown)
      ensures State() == CS.HandleTimeRange(old(State()), cfg, l, r, h)
    {
      accepted := false;
      if l == "" { return; }
      if !cfg.enabled { return; }
      SetGlobalMode(l, r.global);
      if !r.global {
        if cfg.cooldown > 0 {
          var allowed := CanTimeRange(l, cfg.cooldown, r.now);
          if !allowed { return; }
        }
      }
      if r.from.None? { return; }
      if r.to.None? { return; }
      var to := r.to.value;
      if r.from.value >= to { return; }
      hide CS.Start;
      var from := ClampStart(cfg, r, h);
      var frozen := r.now - to > CS.FROZEN_AFTER;
      SetTimeRange(l, from, to, frozen);
      if !frozen {
        EnableSubscription(l);
      }
      if r.viewport.Some? {
        SetViewport(l, r.viewport.value);
      }
      accepted := true;
    }

    method HandleSubscribe(l: Layer, viewport: Option<BBox>, global: bool) returns (subscribed: bool)
      modifies this`subscriptions, this`viewports, this`globalLayers, this`timeFrom, this`timeTo, this`timeFrozen
      ensures subscribed <==> l != "" && |old(subscriptions)| < 100
      ensures State() == CS.HandleSubscribe(old(State()), l, viewport, global)
    {
      if l == "" { return false; }
      if |subscriptions| >= CS.MAX_SUBSCRIPTIONS { return false; }
      Subscribe(l);
      if viewport.Some? {
        SetViewport(l, viewport.value);
      }
      SetGlobalMode(l, global);
      return true;
    }

    // On-demand tickers

    method StopOnDemandTicker(l: Layer)
      requires Valid()
      modifies this`onDemandTickers, polls
      ensures Valid() && polls == old(polls)
      ensures onDemandTickers == old(onDemandTickers) - {l}
      ensures forall p :: p in polls ==>
                (p.cancelled <==> old(p.cancelled) || (l in old(onDemandTickers) && old(onDemandTickers)[l] == p))
    {
      if l in onDemandTickers {
        onDemandTickers[l].Cancel();
        onDemandTickers := onDemandTickers - {l};
      }
    }

    method StopAllOnDemandTickers()
      requires Valid()
      modifies this`onDemandTickers, polls
      ensures Valid() && polls == old(polls)
      ensures onDemandTickers == map[]
      ensures forall p :: p in polls ==> p.cancelled
    {
      while onDemandTickers != map[]
        invariant Valid() && polls == old(polls)
        decreases |onDemandTickers|
      {
        var l :| l in onDemandTickers;
        ghost var before := onDemandTickers;
        StopOnDemandTicker(l);
        assert before.Keys == onDemandTickers.Keys + {l};
      }
    }

    method StartOnDemandTicker(l: Layer, interval: CS.Time)
      requires Valid()
      modifies this`onDemandTickers, this`polls, polls
      ensures Valid() && old(polls) <= polls && fresh(polls - old(polls))
      ensures l in onDemandTickers <==> interval > 0
      ensures interval > 0 ==> fresh(onDemandTickers[l])
      ensures onDemandTickers - {l} == old(onDemandTickers) - {l}
    {
      StopOnDemandTicker(l);
      if interval <= 0 { return; }
      var context := new Poll(l);
      polls := polls + {context};
      onDemandTickers := onDemandTickers[l := context];
    }

    method HandleUnsubscribe(l: Layer)
      requires Valid()
      modifies this`subscriptions, this`timeFrom, this`timeTo, this`timeFrozen, this`globalLayers,
               this`onDemandTickers, polls
      ensures Valid() && polls == old(polls)
      ensures State() == if l == "" then old(State()) else old(State()).Unsubscribe(l)
      ensures l != "" ==> onDemandTickers == old(onDemandTickers) - {l}
    {
      if l == "" { return; }
      StopOnDemandTicker(l);
      Unsubscribe(l);
    }

    /** The ticker part of a viewport update: a sparse viewport (re)starts polling, a populated
        one stops it; a time range, a non-spatial layer or an invalid box leaves it alone. */
    method HandleViewportUpdate(l: Layer, b: BBox, spatial: bool, found: nat, threshold: int, interval: CS.Time)
      requires Valid()
      modifies this`viewports, this`onDemandTickers, this`polls, polls
      ensures Valid()
      ensures State() == CS.Handle(old(State()), CS.TimeRangeConfig(false, 0, 0, 0), CS.ViewportUpdate(l, b))
      ensures viewports ==
        if l != "" && b.south >= -90.0 && b.north <= 90.0 && b.south <= b.north && b.west >= -180.0 && b.east <= 180.0
        then old(viewports)[l := b] else old(viewports)
      ensures var live := l !in timeFrom && spatial
                && l != "" && b.south >= -90.0 && b.north <= 90.0 && b.south <= b.north
                && b.west >= -180.0 && b.east <= 180.0;
              && (!live ==> onDemandTickers == old(onDemandTickers))
              && (live ==> (l in onDemandTickers <==> found < threshold && interval > 0))
              && onDemandTickers - {l} == old(onDemandTickers) - {l}
    {
      if l == "" { return; }
      if b.south < -90.0 || b.north > 90.0 || b.south > b.north || b.west < -180.0 || b.east > 180.0 {
        return;
      }
      SetViewport(l, b);
      if l in timeFrom { return; }
      if !spatial { return; }
      if found < threshold {
        StartOnDemandTicker(l, interval);
      } else {
        StopOnDemandTicker(l);
      }
    }

    // The channel

    method TrySend(f: Frame)
      requires !closed
      modifies this`send, this`droppedCount
      ensures Outbox() == OfferTo(old(Outbox()), f)
    {
      if |send| < SEND_BUFFER {
        send := send + [f];
      } else {
        droppedCount := droppedCount + 1;
      }
    }

    /** One round of the writer: take a frame, report the drops counted so far, write the frame.
        A failed write ends the writer. */
    method WriteNext(reportOk: bool, frameOk: bool) returns (wire: seq<Message>, alive: bool)
      requires send != []
      modifies this`send, this`droppedCount
      ensures send == old(send)[1..] && droppedCount == 0
      ensures alive <==> (old(droppedCount) > 0 ==> reportOk) && frameOk
      ensures alive ==> wire == (if old(droppedCount) > 0 then [Backpressure(old(droppedCount))] else [])
                                + [Data(old(send)[0])]
      ensures !alive ==> wire == if old(droppedCount) > 0 && reportOk then [Backpressure(old(droppedCount))] else []
    {
      var message := send[0];
      send := send[1..];
      var dropped := droppedCount;
      droppedCount := 0;
      wire := [];
      if dropped > 0 {
        if !reportOk { return wire, false; }
        wire := [Backpressure(dropped)];
      }
      if !frameOk { return wire, false; }
      return wire + [Data(message)], true;
    }
  }

  /** What a flush sends one client for one layer: one frame, or nothing. */
  function LayerFrames(v: View, l: Layer, updates: seq<Update>, spatial: Spatial): seq<Frame> {
    match Decide(Flush(map[], l, updates), v, true, spatial)
    case Some(f) => [f]
    case None => []
  }

  /** The same for all drained layers, in the order in which they are visited. */
  function FlushFrames(v: View, pending: map<Layer, seq<Update>>, order: seq<Layer>, spatial: Spatial): seq<Frame> {
    if order == [] then []
    else
      var l := order[|order| - 1];
      FlushFrames(v, pending, order[..|order| - 1], spatial)
      + if l in pending then LayerFrames(v, l, pending[l], spatial) else []
  }

  lemma FlushMore(ch: Channel, v: View, pending: map<Layer, seq<Update>>, order: seq<Layer>, l: Layer, spatial: Spatial)
    requires l in pending
    ensures OfferAll(ch, FlushFrames(v, pending, order + [l], spatial))
         == OfferAll(OfferAll(ch, FlushFrames(v, pending, order, spatial)), LayerFrames(v, l, pending[l], spatial))
  {
    assert (order + [l])[..|order + [l]| - 1] == order;
    OfferMore(ch, FlushFrames(v, pending, order, spatial), LayerFrames(v, l, pending[l], spatial));
    hide OfferAll, LayerFrames;
  }

  /** The frames of a flush are one each for the visited layers that have something for the
      client, in the order of the visits; what that is, is said at `FlushPositions`. */
  lemma {:induction false} FlushedLayers(v: View, pending: map<Layer, seq<Update>>, order: seq<Layer>, spatial: Spatial)
    returns (picked: seq<nat>)
    requires forall l :: l in order ==> l in pending
    ensures Ascending(picked, |order|) && |FlushFrames(v, pending, order, spatial)| == |picked|
    ensures forall k :: 0 <= k < |picked| ==>
      Some(FlushFrames(v, pending, order, spatial)[k])
      == Decide(Flush(map[], order[picked[k]], pending[order[picked[k]]]), v, true, spatial)
    ensures forall i: nat :: i < |order| ==>
      (i in picked <==> Decide(Flush(map[], order[i], pending[order[i]]), v, true, spatial).Some?)
  {
    picked := [];
    if order != [] {
      var n := |order| - 1;
      picked := FlushedLayers(v, pending, order[..n], spatial);
      PickMore(picked, n);
      hide Decide;
      forall i: nat | i < n ensures order[..n][i] == order[i] { }
      if Decide(Flush(map[], order[n], pending[order[n]]), v, true, spatial).Some? { picked := picked + [n]; }
    }
  }

  lemma {:induction false} OfferMore(ch: Channel, a: seq<Frame>, b: seq<Frame>)
    ensures OfferAll(ch, a + b) == OfferAll(OfferAll(ch, a), b)
  {
    if b == [] {
      assert a + b == a;
    } else {
      assert (a + b)[..|a + b| - 1] == a + b[..|b| - 1];
      OfferMore(ch, a, b[..|b| - 1]);
    }
  }

  /** Offering keeps what is queued, appends what fits, in order, and counts the rest. */
  lemma {:induction false} OfferAllMeaning(ch: Channel, frames: seq<Frame>)
    requires |ch.buffer| <= SEND_BUFFER
    ensures var ch' := OfferAll(ch, frames);
            var room := SEND_BUFFER - |ch.buffer|;
            var sent := if |frames| <= room then |frames| else room;
            && ch'.buffer == ch.buffer + frames[..sent]
            && ch'.dropped == ch.dropped + |frames| - sent
  {
    if frames != [] {
      OfferAllMeaning(ch, frames[..|frames| - 1]);
    }
  }

  function OutboxOf(conn: Conn): Channel { Channel(conn.buffer, conn.dropped) }

  /** A send with its drop count, done without interference, is the steps of FanOut in a row. */
  lemma OfferIsSteps(conn: Conn, c: ClientId, member: bool, t: ThreadId, f: Frame)
    ensures var sent := NextConn(conn, c, member, Send(t, c, f, !Full(conn)));
            var done := if Full(conn) then NextConn(sent, c, member, CountDrop(t, c)) else sent;
            OutboxOf(done) == OfferTo(OutboxOf(conn), f) && done.writer == conn.writer
  {
  }

  /** And so is a round of the writer: take, swap, report if anything was dropped, write. */
  lemma WriteIsSteps(conn: Conn, c: ClientId, member: bool)
    requires conn.writer.Idle? && conn.buffer != []
    ensures var f, n := conn.buffer[0], conn.dropped;
            var taken := NextConn(conn, c, member, Take(c, f));
            var swapped := NextConn(taken, c, member, Swap(c, n));
            var reported := if n > 0 then NextConn(swapped, c, member, WriteReport(c, n, true)) else swapped;
            && reported.writer == Writing(f)
            && NextConn(reported, c, member, WriteFrame(c, f, true))
            == conn.(buffer := conn.buffer[1..], dropped := 0)
  {
  }

  class Server {
    var clients: set<Client>
    var pendingUpdates: map<Layer, seq<Update>>

    /** A registered client's channel is open. */
    ghost predicate Valid()
      reads this`clients, clients`closed
    {
      forall c :: c in clients ==> !c.closed
    }

    constructor ()
      ensures Valid() && clients == {} && pendingUpdates == map[]
    {
      clients, pendingUpdates := {}, map[];
    }

    method Register(c: Client)
      requires Valid() && !c.closed
      modifies this`clients
      ensures Valid() && clients == old(clients) + {c}
    {
      clients := clients + {c};
    }

    /** Any number of unregisters of one client close its channel once. */
    method Unregister(c: Client)
      requires Valid() && c.Valid()
      modifies this`clients, c`closed, c`onDemandTickers, c.polls
      ensures Valid() && clients == old(clients) - {c}
      ensures c.closed == (old(c.closed) || c in old(clients))
      ensures c.Valid() && c.onDemandTickers == map[] && forall p :: p in c.polls ==> p.cancelled
    {
      c.StopAllOnDemandTickers();
      if c in clients {
        clients := clients - {c};
        assert !c.closed;  // closing a closed channel would panic
        c.closed := true;
      }
    }

    /** Shutdown: every polling context is cancelled and every channel closed, once. */
    method CloseAll()
      requires Valid() && forall c :: c in clients ==> c.Valid()
      requires forall c, d :: c in clients && d in clients && c != d ==> c.polls !! d.polls
      modifies this`clients, clients`closed, clients`onDemandTickers, set c, p | c in clients && p in c.polls :: p
      ensures clients == {}
      ensures forall c :: c in old(clients) ==> c.closed && c.onDemandTickers == map[]
      ensures forall c :: c in old(clients) ==> forall p :: p in c.polls ==> p.cancelled
    {
      while clients != {}
        invariant Valid() && clients <= old(clients)
        invariant forall c :: c in clients ==> c.Valid()
        invariant forall c :: c in old(clients) - clients ==> c.closed && c.onDemandTickers == map[]
        invariant forall c :: c in old(clients) - clients ==> forall p :: p in c.polls ==> p.cancelled
        decreases clients
      {
        var c :| c in clients;
        c.StopAllOnDemandTickers();
        assert !c.closed;
        c.closed := true;
        clients := clients - {c};
      }
    }

    method Broadcast(f: Frame)
      requires Valid()
      modifies clients`send, clients`droppedCount
      ensures forall c :: c in clients ==> c.Outbox() == OfferTo(old(c.Outbox()), f)
    {
      var todo := clients;
      while todo != {}
        invariant todo <= clients
        invariant forall c :: c in clients ==>
                    c.Outbox() == if c in todo then old(c.Outbox()) else OfferTo(old(c.Outbox()), f)
        decreases todo
      {
        var c :| c in todo;
        c.TrySend(f);
        todo := todo - {c};
      }
    }

    method BroadcastNotification(f: Frame, meta: NotificationMeta, rank: string -> int)
      requires Valid()
      modifies clients`send, clients`droppedCount
      ensures forall c :: c in clients ==>
        c.Outbox() == (match c.notificationFilter
                       case None => OfferTo(old(c.Outbox()), f)
                       case Some(NotificationFilter(least, types)) =>
                         if (least == "" || meta.attention == "" || rank(meta.attention) >= rank(least))
                            && (types == {} || meta.insightType in types)
                         then OfferTo(old(c.Outbox()), f) else old(c.Outbox()))
    {
      hide OfferTo;
      var todo := clients;
      while todo != {}
        invariant todo <= clients
        invariant forall c :: c in todo ==> c.Outbox() == old(c.Outbox())
        invariant forall c :: c in clients - todo ==>
          c.Outbox() == if Wants(c.notificationFilter, meta, rank) then OfferTo(old(c.Outbox()), f) else old(c.Outbox())
        decreases todo
      {
        var c :| c in todo;
        todo := todo - {c};
        if c.notificationFilter.Some? {
          var filter := c.notificationFilter.value;
          if filter.minAttention != "" && meta.attention != "" && rank(meta.attention) < rank(filter.minAttention) {
            continue;
          }
          if filter.insightTypes != {} && meta.insightType !in filter.insightTypes {
            continue;
          }
        }
        c.TrySend(f);
      }
    }

    /** Returns the subscribers whose buffer was full: they are to be unregistered. */
    method BroadcastLayerUpdate(l: Layer, f: Frame) returns (overflowed: set<Client>)
      requires Valid()
      modifies clients`send, clients`droppedCount
      ensures overflowed == set c | c in clients && l in c.subscriptions && old(|c.send|) >= SEND_BUFFER
      ensures forall c :: c in clients ==>
                c.Outbox() == if l in c.subscriptions then OfferTo(old(c.Outbox()), f) else old(c.Outbox())
    {
      var todo := clients;
      overflowed := {};
      while todo != {}
        invariant todo <= clients
        invariant overflowed == set c | c in clients - todo && l in c.subscriptions && old(|c.send|) >= SEND_BUFFER
        invariant forall c :: c in clients ==>
                    c.Outbox() == if c !in todo && l in c.subscriptions then OfferTo(old(c.Outbox()), f) else old(c.Outbox())
        decreases todo
      {
        var c :| c in todo;
        assert c.Outbox() == old(c.Outbox());
        if l in c.subscriptions {
          if |c.send| >= SEND_BUFFER {
            overflowed := overflowed + {c};
          }
          c.TrySend(f);
        }
        todo := todo - {c};
      }
    }

    method QueueUpdate(l: Layer, u: Update)
      modifies this`pendingUpdates
      ensures pendingUpdates.Keys == old(pendingUpdates).Keys + {l}
      ensures pendingUpdates[l] == (if l in old(pendingUpdates) then old(pendingUpdates)[l] else []) + [u]
      ensures forall k :: k in old(pendingUpdates) && k != l ==> pendingUpdates[k] == old(pendingUpdates)[k]
    {
      var queue := if l in pendingUpdates then pendingUpdates[l] else [];
      pendingUpdates := pendingUpdates[l := queue + [u]];
    }

    /** One client's turn for one layer's batch. `picked` are the positions of what it is offered:
        nothing while it is not subscribed or looks at a frozen range; otherwise, up to where the
        batch is cut, exactly the updates inside its range, if it has one, and inside its box, if
        it has one, the layer is filtered by it and it has not asked for the whole world. */
    method FlushTo(c: Client, l: Layer, updates: seq<Update>, spatial: Spatial) returns (ghost picked: seq<nat>)
      requires !c.closed && updates != []
      modifies c`send, c`droppedCount
      ensures c.Outbox() == OfferAll(old(c.Outbox()), LayerFrames(c.State(), l, updates, spatial))
      ensures Ascending(picked, |updates|)
      ensures l in spatial && l in c.viewports && l !in c.globalLayers ==>
        |picked| <= ViewportEntityLimit(Some(c.viewports[l]), |updates|)
      ensures c.Outbox() == if picked == [] then old(c.Outbox()) else OfferTo(old(c.Outbox()),
        BatchUpdate(l, seq(|picked|, k requires 0 <= k < |picked| => updates[picked[k]].data)))
      ensures l !in c.subscriptions || (l in c.timeFrozen && c.timeFrozen[l]) ==> picked == []
      ensures l in c.subscriptions && !(l in c.timeFrozen && c.timeFrozen[l]) ==>
        forall i: nat :: (i < |updates| && ((picked != [] && i <= picked[|picked| - 1])
          || |updates| <= 500 || l !in spatial || l !in c.viewports || l in c.globalLayers
          || |picked| < ViewportEntityLimit(Some(c.viewports[l]), |updates|))) ==>
        (i in picked <==>
          && (l in c.timeFrom && updates[i].eventTime.Some? ==>
                c.timeFrom[l] <= updates[i].eventTime.value
                && updates[i].eventTime.value <= if l in c.timeTo then c.timeTo[l] else 0)
          && (l in spatial && l in c.viewports && l !in c.globalLayers && updates[i].position.Some? ==>
                var (box, (lat, lon)) := (c.viewports[l], updates[i].position.value);
                && box.south <= lat && lat <= box.north
                && if box.west <= box.east then box.west <= lon && lon <= box.east
                   else lon >= box.west || lon <= box.east))
    {
      hide Batch, OfferTo, Ascending, Passes, ViewportEntityLimit;
      picked := FlushPositions(map[], l, updates, c.State(), true, spatial);
      if l !in c.subscriptions { return; }
      if l in c.timeFrozen && c.timeFrozen[l] { return; }
      var range: Option<(CS.Time, CS.Time)> := None;
      if l in c.timeFrom {
        range := Some((c.timeFrom[l], if l in c.timeTo then c.timeTo[l] else 0));
      }
      var viewport := if l in c.viewports then Some(c.viewports[l]) else None;
      var filter := Filter(l in spatial, l in c.globalLayers, viewport, range);
      assert filter == FilterOf(c.State(), l, l in spatial);
      var filtered, _ := FilterUpdates(filter, updates);
      if |filtered| == 0 { return; }
      c.TrySend(BatchUpdate(l, filtered));
    }

    method FlushLayer(l: Layer, updates: seq<Update>, spatial: Spatial)
      requires Valid()
      modifies clients`send, clients`droppedCount
      ensures forall c :: c in clients ==>
                c.Outbox() == OfferAll(old(c.Outbox()), LayerFrames(c.State(), l, updates, spatial))
    {
      hide OfferAll;
      if |updates| == 0 {
        forall c | c in clients
          ensures OfferAll(c.Outbox(), LayerFrames(c.State(), l, updates, spatial)) == c.Outbox()
        {
          NothingToOffer(c.Outbox(), c.State(), l, spatial);
        }
        return;
      }
      hide LayerFrames;
      var todo := clients;
      while todo != {}
        invariant todo <= clients
        invariant forall c :: c in todo ==> c.Outbox() == old(c.Outbox())
        invariant forall c :: c in clients - todo ==>
                    c.Outbox() == OfferAll(old(c.Outbox()), LayerFrames(c.State(), l, updates, spatial))
        decreases todo
      {
        var c :| c in todo;
        var _ := FlushTo(c, l, updates, spatial);
        todo := todo - {c};
      }
    }

    /** One flush: swap out what is pending, and visit the layers in the order the map gives. */
    method FlushBatchedUpdates(spatial: Spatial) returns (ghost order: seq<Layer>)
      requires Valid()
      modifies this`pendingUpdates, clients`send, clients`droppedCount
      ensures pendingUpdates == map[]
      ensures |order| == |old(pendingUpdates)| && forall l :: l in order <==> l in old(pendingUpdates)
      ensures forall c :: c in clients ==>
                c.Outbox() == OfferAll(old(c.Outbox()), FlushFrames(c.State(), old(pendingUpdates), order, spatial))
    {
      var pending := pendingUpdates;
      pendingUpdates := map[];
      order := [];
      var todo := pending.Keys;
      hide OfferAll, LayerFrames, FlushFrames;
      forall c | c in clients
        ensures OfferAll(c.Outbox(), FlushFrames(c.State(), pending, order, spatial)) == c.Outbox()
      {
        OfferNothing(c.Outbox(), c.State(), pending, spatial);
      }
      while todo != {}
        invariant pendingUpdates == map[]
        invariant todo <= pending.Keys && |order| + |todo| == |pending|
        invariant forall l :: l in order <==> l in pending && l !in todo
        invariant forall c :: c in clients ==>
                    c.Outbox() == OfferAll(old(c.Outbox()), FlushFrames(c.State(), pending, order, spatial))
        decreases todo
      {
        var l :| l in todo;
        FlushLayer(l, pending[l], spatial);
        forall c | c in clients
          ensures c.Outbox() == OfferAll(old(c.Outbox()), FlushFrames(c.State(), pending, order + [l], spatial))
        {
          FlushMore(old(c.Outbox()), c.State(), pending, order, l, spatial);
        }
        todo := todo - {l};
        order := order + [l];
      }
    }
  }

  lemma OfferNothing(ch: Channel, v: View, pending: map<Layer, seq<Update>>, spatial: Spatial)
    ensures OfferAll(ch, FlushFrames(v, pending, [], spatial)) == ch
  {
  }

  lemma NothingToOffer(ch: Channel, v: View, l: Layer, spatial: Spatial)
    ensures OfferAll(ch, LayerFrames(v, l, [], spatial)) == ch
  {
    Batching.PayloadsBound(FilterOf(v, l, l in spatial), []);
  }
}
