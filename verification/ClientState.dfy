/** What one client has asked for, layer by layer, and how its messages change it. The
    functions here are the specification of the Client class. */
module ClientState {
  import opened Wrappers
  import opened Geometry

  type Layer = string
  /** Instants and durations, in nanoseconds. */
  type Time = int

  const MAX_SUBSCRIPTIONS := 100
  const HOUR: Time := 3_600_000_000_000
  const FROZEN_AFTER: Time := 600_000_000_000

  datatype View = View(
    subscriptions: set<Layer>,
    viewports: map<Layer, BBox>,
    timeFrom: map<Layer, Time>,
    timeTo: map<Layer, Time>,
    timeFrozen: map<Layer, bool>,
    globalLayers: set<Layer>,
    lastTimeRange: map<Layer, Time>)
  {
    predicate IsSubscribed(l: Layer) { l in subscriptions }

    predicate IsFrozen(l: Layer) { l in timeFrozen && timeFrozen[l] }

    predicate IsGlobalMode(l: Layer) { l in globalLayers }

    function GetViewport(l: Layer): Option<BBox> {
      if l in viewports then Some(viewports[l]) else None
    }

    function GetTimeRange(l: Layer): Option<(Time, Time)> {
      if l in timeFrom then Some((timeFrom[l], if l in timeTo then timeTo[l] else 0)) else None
    }

    function SetViewport(l: Layer, b: BBox): View { this.(viewports := viewports[l := b]) }

    function SetGlobalMode(l: Layer, global: bool): View {
      this.(globalLayers := if global then globalLayers + {l} else globalLayers - {l})
    }

    function ClearTimeRange(l: Layer): View {
      this.(timeFrom := timeFrom - {l}, timeTo := timeTo - {l}, timeFrozen := timeFrozen - {l})
    }

    function Subscribe(l: Layer): View { EnableSubscription(l).ClearTimeRange(l) }

    function EnableSubscription(l: Layer): View { this.(subscriptions := subscriptions + {l}) }

    function Unsubscribe(l: Layer): View {
      this.(subscriptions := subscriptions - {l}, globalLayers := globalLayers - {l}).ClearTimeRange(l)
    }

    function SetTimeRange(l: Layer, from: Time, to: Time, frozen: bool): View {
      this.(timeFrom := timeFrom[l := from], timeTo := timeTo[l := to], timeFrozen := timeFrozen[l := frozen])
    }

    /** The three time maps describe the same layers, and a live range comes with a subscription. */
    ghost predicate Coherent() {
      && timeFrom.Keys == timeTo.Keys == timeFrozen.Keys
      && forall l :: l in timeFrozen && !timeFrozen[l] ==> l in subscriptions
    }
  }

  const NEW_CLIENT := View({}, map[], map[], map[], map[], {}, map[])

  /** Limits of a time_range request; zero means unlimited. */
  datatype TimeRangeConfig = TimeRangeConfig(enabled: bool, maxLookback: Time, maxSpan: Time, cooldown: Time)

  /** Per-layer override, in hours. */
  datatype History = History(lookbackHours: int, spanHours: int)

  function Lookback(cfg: TimeRangeConfig, history: Option<History>): Time {
    if history.Some? && history.value.lookbackHours > 0 then history.value.lookbackHours * HOUR else cfg.maxLookback
  }

  function Span(cfg: TimeRangeConfig, history: Option<History>): Time {
    if history.Some? && history.value.spanHours > 0 then history.value.spanHours * HOUR else cfg.maxSpan
  }

  /** The start of the window after both clamps, in the order the source applies them. */
  function ClampFrom(from: Time, to: Time, now: Time, lookback: Time, span: Time): Time {
    var recent := if lookback > 0 && from < now - lookback then now - lookback else from;
    if span > 0 && to - recent > span then to - span else recent
  }

  /** A parsed time_range request; a timestamp that does not parse is None. */
  datatype TimeRangeRequest = TimeRangeRequest(
    from: Option<Time>, to: Option<Time>, viewport: Option<BBox>, global: bool, now: Time)

  datatype Message =
    | Subscribe(layer: Layer, viewport: Option<BBox>, global: bool)
    | Unsubscribe(layer: Layer)
    | ViewportUpdate(layer: Layer, bbox: BBox)
    | TimeRange(layer: Layer, request: TimeRangeRequest, history: Option<History>)
    | Other

  predicate CooledDown(v: View, l: Layer, now: Time, cooldown: Time) {
    l !in v.lastTimeRange || now - v.lastTimeRange[l] >= cooldown
  }

  predicate GateOpen(v: View, cfg: TimeRangeConfig, l: Layer, r: TimeRangeRequest) {
    r.global || cfg.cooldown <= 0 || CooledDown(v, l, r.now, cfg.cooldown)
  }

  /** The state after the mode and the cooldown stamp, which even a rejected request leaves. */
  function Stamped(v: View, cfg: TimeRangeConfig, l: Layer, r: TimeRangeRequest): View {
    var v' := v.SetGlobalMode(l, r.global);
    if !r.global && cfg.cooldown > 0 && CooledDown(v, l, r.now, cfg.cooldown)
    then v'.(lastTimeRange := v'.lastTimeRange[l := r.now])
    else v'
  }

  predicate Accepted(v: View, cfg: TimeRangeConfig, l: Layer, r: TimeRangeRequest) {
    l != "" && cfg.enabled && GateOpen(v, cfg, l, r) && r.from.Some? && r.to.Some? && r.from.value < r.to.value
  }

  predicate FrozenAt(to: Time, now: Time) { now - to > FROZEN_AFTER }

  function HandleTimeRange(v: View, cfg: TimeRangeConfig, l: Layer, r: TimeRangeRequest, h: Option<History>): View {
    if l == "" || !cfg.enabled then v
    else if !Accepted(v, cfg, l, r) then Stamped(v, cfg, l, r)
    else
      var v1 := StoreRange(Stamped(v, cfg, l, r), l, Start(cfg, r, h), r.to.value, FrozenAt(r.to.value, r.now));
      if r.viewport.Some? then v1.SetViewport(l, r.viewport.value) else v1
  }

  /** The stored start of an accepted request. */
  function Start(cfg: TimeRangeConfig, r: TimeRangeRequest, h: Option<History>): Time
    requires r.from.Some? && r.to.Some?
  {
    ClampFrom(r.from.value, r.to.value, r.now, Lookback(cfg, h), Span(cfg, h))
  }

  /** A live range also enables the subscription; a frozen one does not. */
  function StoreRange(v: View, l: Layer, from: Time, to: Time, frozen: bool): View {
    var v1 := v.SetTimeRange(l, from, to, frozen);
    if frozen then v1 else v1.EnableSubscription(l)
  }

  function HandleSubscribe(v: View, l: Layer, viewport: Option<BBox>, global: bool): View {
    if l == "" || |v.subscriptions| >= MAX_SUBSCRIPTIONS then v
    else
      var v1 := v.Subscribe(l);
      (if viewport.Some? then v1.SetViewport(l, viewport.value) else v1).SetGlobalMode(l, global)
  }

  predicate ValidViewport(b: BBox) {
    b.south >= -90.0 && b.north <= 90.0 && b.south <= b.north && b.west >= -180.0 && b.east <= 180.0
  }

  function Handle(v: View, cfg: TimeRangeConfig, m: Message): View {
    match m
    case Subscribe(l, viewport, global) => HandleSubscribe(v, l, viewport, global)
    case Unsubscribe(l) => if l == "" then v else v.Unsubscribe(l)
    case ViewportUpdate(l, b) => if l == "" || !ValidViewport(b) then v else v.SetViewport(l, b)
    case TimeRange(l, r, h) => HandleTimeRange(v, cfg, l, r, h)
    case Other => v
  }

  function Run(cfg: TimeRangeConfig, messages: seq<Message>): View {
    if messages == [] then NEW_CLIENT
    else Handle(Run(cfg, messages[..|messages| - 1]), cfg, messages[|messages| - 1])
  }

  lemma StampedState(v: View, cfg: TimeRangeConfig, l: Layer, r: TimeRangeRequest)
    ensures var s := Stamped(v, cfg, l, r);
            && s == v.(globalLayers := s.globalLayers, lastTimeRange := s.lastTimeRange)
            && s.globalLayers == (if r.global then v.globalLayers + {l} else v.globalLayers - {l})
            && (s.IsGlobalMode(l) <==> r.global)
  {
  }

  lemma Stored(v: View, l: Layer, from: Time, to: Time, frozen: bool)
    ensures var v' := StoreRange(v, l, from, to, frozen);
            && v'.timeFrom == v.timeFrom[l := from] && v'.timeTo == v.timeTo[l := to]
            && v'.timeFrozen == v.timeFrozen[l := frozen] && v'.globalLayers == v.globalLayers
            && v'.viewports == v.viewports
            && v'.subscriptions == if frozen then v.subscriptions else v.subscriptions + {l}
  {
  }

  lemma AcceptedState(v: View, cfg: TimeRangeConfig, l: Layer, r: TimeRangeRequest, h: Option<History>)
    requires Accepted(v, cfg, l, r)
    ensures var v' := HandleTimeRange(v, cfg, l, r, h);
            && v'.timeFrom == v.timeFrom[l := Start(cfg, r, h)]
            && v'.timeTo == v.timeTo[l := r.to.value]
            && v'.timeFrozen == v.timeFrozen[l := FrozenAt(r.to.value, r.now)]
            && v'.viewports == (if r.viewport.Some? then v.viewports[l := r.viewport.value] else v.viewports)
            && v'.subscriptions == if FrozenAt(r.to.value, r.now) then v.subscriptions else v.subscriptions + {l}
  {
    hide Start, Stamped, FrozenAt, GateOpen;
    StampedState(v, cfg, l, r);
    var (to, frozen) := (r.to.value, FrozenAt(r.to.value, r.now));
    Stored(Stamped(v, cfg, l, r), l, Start(cfg, r, h), to, frozen);
    hide StoreRange;
  }

  lemma HandleCoherent(v: View, cfg: TimeRangeConfig, m: Message)
    requires v.Coherent()
    ensures Handle(v, cfg, m).Coherent()
  {
    hide HandleTimeRange, Accepted, FrozenAt, Start;
    if m.TimeRange? {
      var (l, r, h) := (m.layer, m.request, m.history);
      if Accepted(v, cfg, l, r) {
        AcceptedState(v, cfg, l, r, h);
      } else {
        RejectedRequest(v, cfg, l, r, h);
      }
    }
  }

  /** At every message boundary of every run the time-range state is coherent. */
  lemma {:induction false} AlwaysCoherent(cfg: TimeRangeConfig, messages: seq<Message>)
    ensures Run(cfg, messages).Coherent()
  {
    if messages != [] {
      hide Handle;
      AlwaysCoherent(cfg, messages[..|messages| - 1]);
      HandleCoherent(Run(cfg, messages[..|messages| - 1]), cfg, messages[|messages| - 1]);
    }
  }

  function Max(a: Time, b: Time): Time { if a >= b then a else b }

  /** The two clamps together are one maximum over the limits that are set. */
  lemma ClampIsMax(from: Time, to: Time, now: Time, lookback: Time, span: Time)
    ensures ClampFrom(from, to, now, lookback, span)
         == Max(from, Max(if lookback > 0 then now - lookback else from, if span > 0 then to - span else from))
  {
  }

  lemma ClampBounds(from: Time, to: Time, now: Time, lookback: Time, span: Time)
    requires from < to
    ensures var f := ClampFrom(from, to, now, lookback, span);
            && from <= f
            && (f < to <==> lookback <= 0 || to > now - lookback)
            && (span > 0 ==> to - f <= span)
            && (lookback > 0 ==> f >= now - lookback)
  {
  }

  /** A request is accepted when it names a layer, the feature is on, the cooldown lets it through
      or does not apply, and both its timestamps parse, in order. */
  lemma AcceptedIff(v: View, cfg: TimeRangeConfig, l: Layer, r: TimeRangeRequest)
    ensures Accepted(v, cfg, l, r) <==>
      && l != "" && cfg.enabled && r.from.Some? && r.to.Some? && r.from.value < r.to.value
      && (r.global || cfg.cooldown <= 0 || l !in v.lastTimeRange || r.now - v.lastTimeRange[l] >= cfg.cooldown)
  {
  }

  /** An accepted request stores its end unchanged, and as its start the latest of the requested
      one and those the limits allow. The stored window is non-empty exactly when the request
      ends after the lookback limit, if any. */
  lemma AcceptedWindow(v: View, cfg: TimeRangeConfig, l: Layer, r: TimeRangeRequest, h: Option<History>)
    requires Accepted(v, cfg, l, r)
    ensures (
      var v' := HandleTimeRange(v, cfg, l, r, h);
      var lookback := if h.Some? && h.value.lookbackHours > 0
                      then h.value.lookbackHours * 3_600_000_000_000 else cfg.maxLookback;
      var span := if h.Some? && h.value.spanHours > 0 then h.value.spanHours * 3_600_000_000_000 else cfg.maxSpan;
      && l in v'.timeFrom && l in v'.timeTo && l in v'.timeFrozen
      && var (from, to) := (v'.timeFrom[l], v'.timeTo[l]);
      && to == r.to.value && from >= r.from.value
      && (lookback > 0 ==> from >= r.now - lookback)
      && (span > 0 ==> to - from <= span)
      && (from == r.from.value || (lookback > 0 && from == r.now - lookback) || (span > 0 && from == to - span))
      && (from < to <==> lookback <= 0 || to > r.now - lookback)
      && (v'.timeFrozen[l] <==> r.now - to > 600_000_000_000)
      && forall k :: k != l ==> v'.GetTimeRange(k) == v.GetTimeRange(k))
  {
    AcceptedState(v, cfg, l, r, h);
    ClampBounds(r.from.value, r.to.value, r.now, Lookback(cfg, h), Span(cfg, h));
    ClampIsMax(r.from.value, r.to.value, r.now, Lookback(cfg, h), Span(cfg, h));
    hide ClampFrom, HandleTimeRange, GateOpen;
  }

  /** A rejected request leaves every time range and subscription alone. Yet for a named layer,
      with the feature enabled, it sets the mode, and it takes up the cooldown whenever it is
      not global and gets through the gate. */
  lemma RejectedRequest(v: View, cfg: TimeRangeConfig, l: Layer, r: TimeRangeRequest, h: Option<History>)
    requires !Accepted(v, cfg, l, r)
    ensures var handled := l != "" && cfg.enabled;
            var stamped := handled && !r.global && cfg.cooldown > 0 && CooledDown(v, l, r.now, cfg.cooldown);
            HandleTimeRange(v, cfg, l, r, h) == v.(
              globalLayers := if !handled then v.globalLayers
                              else if r.global then v.globalLayers + {l} else v.globalLayers - {l},
              lastTimeRange := if stamped then v.lastTimeRange[l := r.now] else v.lastTimeRange)
  {
  }

  predicate PassesCooldown(v: View, cfg: TimeRangeConfig, m: Message, l: Layer) {
    m.TimeRange? && m.layer == l && l != "" && cfg.enabled && !m.request.global && GateOpen(v, cfg, l, m.request)
  }

  /** When, during a run, rate-limited requests for a layer got through the gate. */
  function Stamps(cfg: TimeRangeConfig, messages: seq<Message>, l: Layer): seq<Time> {
    if messages == [] then []
    else
      var before, m := messages[..|messages| - 1], messages[|messages| - 1];
      Stamps(cfg, before, l)
      + if PassesCooldown(Run(cfg, before), cfg, m, l) then [m.request.now] else []
  }

  lemma StampAfter(v: View, cfg: TimeRangeConfig, m: Message)
    requires cfg.cooldown > 0
    ensures Handle(v, cfg, m).lastTimeRange
         == if m.TimeRange? && PassesCooldown(v, cfg, m, m.layer)
            then v.lastTimeRange[m.layer := m.request.now] else v.lastTimeRange
  {
    hide HandleTimeRange;
    if m.TimeRange? {
      RangeStamp(v, cfg, m.layer, m.request, m.history);
    }
  }

  lemma RangeStamp(v: View, cfg: TimeRangeConfig, l: Layer, r: TimeRangeRequest, h: Option<History>)
    requires cfg.cooldown > 0
    ensures HandleTimeRange(v, cfg, l, r, h).lastTimeRange
         == if l != "" && cfg.enabled && !r.global && GateOpen(v, cfg, l, r)
            then v.lastTimeRange[l := r.now] else v.lastTimeRange
  {
    hide Start, ClampFrom, Lookback, Span, FrozenAt;
    StampIs(v, cfg, l, r);
    hide Stamped, GateOpen;
  }

  lemma StampIs(v: View, cfg: TimeRangeConfig, l: Layer, r: TimeRangeRequest)
    requires cfg.cooldown > 0
    ensures Stamped(v, cfg, l, r).lastTimeRange
         == if !r.global && GateOpen(v, cfg, l, r) then v.lastTimeRange[l := r.now] else v.lastTimeRange
  {
  }

  ghost predicate Spaced(times: seq<Time>, gap: Time) {
    forall i, j :: 0 <= i < j < |times| ==> times[j] - times[i] >= gap
  }

  lemma SpacedAppend(times: seq<Time>, gap: Time, t: Time)
    requires gap > 0 && Spaced(times, gap)
    requires times != [] ==> t - times[|times| - 1] >= gap
    ensures Spaced(times + [t], gap)
  {
  }

  /** In every run, any two requests that got through for one layer are a cooldown apart. */
  lemma {:induction false} CooldownHolds(cfg: TimeRangeConfig, messages: seq<Message>, l: Layer)
    requires cfg.cooldown > 0
    ensures var times, v := Stamps(cfg, messages, l), Run(cfg, messages);
            && Spaced(times, cfg.cooldown)
            && (times == [] <==> l !in v.lastTimeRange)
            && (times != [] ==> v.lastTimeRange[l] == times[|times| - 1])
  {
    if messages != [] {
      hide Handle, PassesCooldown, Spaced;
      var before, m := messages[..|messages| - 1], messages[|messages| - 1];
      CooldownHolds(cfg, before, l);
      StampAfter(Run(cfg, before), cfg, m);
      if PassesCooldown(Run(cfg, before), cfg, m, l) {
        GateMeaning(Run(cfg, before), cfg, m, l);
        SpacedAppend(Stamps(cfg, before, l), cfg.cooldown, m.request.now);
      } else if m.TimeRange? && PassesCooldown(Run(cfg, before), cfg, m, m.layer) {
        assert m.layer != l;
      }
    } else {
      hide Handle;
    }
  }

  lemma GateMeaning(v: View, cfg: TimeRangeConfig, m: Message, l: Layer)
    requires cfg.cooldown > 0 && PassesCooldown(v, cfg, m, l)
    ensures m.TimeRange? && m.layer == l
    ensures l in v.lastTimeRange ==> m.request.now - v.lastTimeRange[l] >= cfg.cooldown
  {
  }

  /** What a client asks for in one layer. */
  datatype LayerView = LayerView(
    subscribed: bool, global: bool, range: Option<(Time, Time)>, frozen: bool, viewport: Option<BBox>)

  function ViewOf(v: View, l: Layer): LayerView {
    LayerView(v.IsSubscribed(l), v.IsGlobalMode(l), v.GetTimeRange(l), v.IsFrozen(l), v.GetViewport(l))
  }

  /** What a message for a layer does to it, of all the client has asked for depending only on how
      many layers it is subscribed to and when it last got a request for this one through. A
      subscribe, when there is room, and an unsubscribe both forget the range; a request sets the
      mode even if rejected, and if accepted the range, and subscribes if the range is live. The
      box is that of a viewport update with its numbers in range, or one that a subscribe with
      room or an accepted request carried; nothing ever forgets it. */
  function LayerAfter(x: LayerView, subscriptions: nat, last: Option<Time>, cfg: TimeRangeConfig, m: Message): LayerView {
    match m
    case TimeRange(l, r, h) =>
      if l == "" || !cfg.enabled then x
      else if r.from.None? || r.to.None? || r.from.value >= r.to.value
        || (!r.global && cfg.cooldown > 0 && last.Some? && r.now - last.value < cfg.cooldown)
      then x.(global := r.global)
      else
        var (from, to) := (r.from.value, r.to.value);
        var lookback := if h.Some? && h.value.lookbackHours > 0
                        then h.value.lookbackHours * 3_600_000_000_000 else cfg.maxLookback;
        var span := if h.Some? && h.value.spanHours > 0 then h.value.spanHours * 3_600_000_000_000 else cfg.maxSpan;
        var recent := if lookback > 0 && from < r.now - lookback then r.now - lookback else from;
        var start := if span > 0 && recent < to - span then to - span else recent;
        var frozen := r.now - to > 600_000_000_000;
        LayerView(x.subscribed || !frozen, r.global, Some((start, to)), frozen,
                  if r.viewport.Some? then r.viewport else x.viewport)
    case Subscribe(l, viewport, global) =>
      if l == "" || subscriptions >= 100 then x
      else LayerView(true, global, None, false, if viewport.Some? then viewport else x.viewport)
    case Unsubscribe(l) => if l == "" then x else LayerView(false, false, None, false, x.viewport)
    case ViewportUpdate(l, b) =>
      if l != "" && b.south >= -90.0 && b.north <= 90.0 && b.south <= b.north && b.west >= -180.0 && b.east <= 180.0
      then x.(viewport := Some(b)) else x
    case Other => x
  }

  function LastRange(v: View, l: Layer): Option<Time> {
    if l in v.lastTimeRange then Some(v.lastTimeRange[l]) else None
  }

  /** A layer's part of a run: the messages that name it, one after the other. */
  function LayerRun(cfg: TimeRangeConfig, messages: seq<Message>, l: Layer): LayerView {
    if messages == [] then LayerView(false, false, None, false, None)
    else
      var before, m := messages[..|messages| - 1], messages[|messages| - 1];
      var x, v := LayerRun(cfg, before, l), Run(cfg, before);
      if m.Other? || m.layer != l then x else LayerAfter(x, |v.subscriptions|, LastRange(v, l), cfg, m)
  }

  ghost predicate Separate(v: View, cfg: TimeRangeConfig, m: Message, l: Layer) {
    ViewOf(Handle(v, cfg, m), l)
    == if m.Other? || m.layer != l then ViewOf(v, l)
       else LayerAfter(ViewOf(v, l), |v.subscriptions|, LastRange(v, l), cfg, m)
  }

  lemma LayerStep(v: View, cfg: TimeRangeConfig, m: Message, l: Layer)
    requires v.Coherent()
    ensures Separate(v, cfg, m, l)
  {
    hide *;
    match m
    case TimeRange(k, r, h) => RangeStep(v, cfg, k, r, h, l);
    case Subscribe(k, b, global) => SubscribeStep(v, cfg, k, b, global, l);
    case _ => PlainStep(v, cfg, m, l);
  }

  lemma SubscribeStep(v: View, cfg: TimeRangeConfig, k: Layer, b: Option<BBox>, global: bool, l: Layer)
    ensures Separate(v, cfg, Message.Subscribe(k, b, global), l)
  {
    hide HandleTimeRange;
    var v' := HandleSubscribe(v, k, b, global);
    if k == "" || |v.subscriptions| >= MAX_SUBSCRIPTIONS {
      assert v' == v;
    } else {
      assert v'.timeFrom == v.timeFrom - {k} && v'.timeTo == v.timeTo - {k} && v'.timeFrozen == v.timeFrozen - {k};
      assert v'.subscriptions == v.subscriptions + {k};
      assert v'.viewports == if b.Some? then v.viewports[k := b.value] else v.viewports;
      assert v'.globalLayers == if global then v.globalLayers + {k} else v.globalLayers - {k};
    }
    hide HandleSubscribe;
  }

  lemma PlainStep(v: View, cfg: TimeRangeConfig, m: Message, l: Layer)
    requires !m.TimeRange? && !m.Subscribe?
    ensures Separate(v, cfg, m, l)
  {
    hide HandleTimeRange, HandleSubscribe;
  }

  lemma RangeStep(v: View, cfg: TimeRangeConfig, k: Layer, r: TimeRangeRequest, h: Option<History>, l: Layer)
    ensures Separate(v, cfg, TimeRange(k, r, h), l)
  {
    hide FrozenAt, Start, GateOpen;
    if Accepted(v, cfg, k, r) {
      AcceptedStep(v, cfg, k, r, h, l);
    } else {
      RejectedStep(v, cfg, k, r, h, l);
    }
  }

  lemma RejectedStep(v: View, cfg: TimeRangeConfig, k: Layer, r: TimeRangeRequest, h: Option<History>, l: Layer)
    requires !Accepted(v, cfg, k, r)
    ensures Separate(v, cfg, TimeRange(k, r, h), l)
  {
    RejectedRequest(v, cfg, k, r, h);
    AcceptedIff(v, cfg, k, r);
    hide HandleTimeRange, Accepted;
  }

  lemma AcceptedStep(v: View, cfg: TimeRangeConfig, k: Layer, r: TimeRangeRequest, h: Option<History>, l: Layer)
    requires Accepted(v, cfg, k, r)
    ensures Separate(v, cfg, TimeRange(k, r, h), l)
  {
    hide LayerAfter, HandleTimeRange, HandleSubscribe, Accepted, Start, FrozenAt, ViewOf, LastRange;
    AcceptedIff(v, cfg, k, r);
    AcceptedAfter(ViewOf(v, l), v, cfg, k, r, h);
    AcceptedState(v, cfg, k, r, h);
    AcceptedMode(v, cfg, k, r, h);
    RangeView(v, HandleTimeRange(v, cfg, k, r, h), k, Start(cfg, r, h), r.to.value, FrozenAt(r.to.value, r.now), r.global,
              r.viewport, l);
  }

  lemma RangeView(v: View, v': View, k: Layer, from: Time, to: Time, frozen: bool, global: bool,
                  viewport: Option<BBox>, l: Layer)
    requires v'.timeFrom == v.timeFrom[k := from] && v'.timeTo == v.timeTo[k := to]
    requires v'.timeFrozen == v.timeFrozen[k := frozen]
    requires v'.subscriptions == if frozen then v.subscriptions else v.subscriptions + {k}
    requires v'.globalLayers == if global then v.globalLayers + {k} else v.globalLayers - {k}
    requires v'.viewports == if viewport.Some? then v.viewports[k := viewport.value] else v.viewports
    ensures ViewOf(v', l)
         == if k != l then ViewOf(v, l)
            else LayerView(ViewOf(v, l).subscribed || !frozen, global, Some((from, to)), frozen,
                           if viewport.Some? then viewport else ViewOf(v, l).viewport)
  {
  }

  lemma AcceptedAfter(x: LayerView, v: View, cfg: TimeRangeConfig, l: Layer, r: TimeRangeRequest, h: Option<History>)
    requires Accepted(v, cfg, l, r)
    ensures LayerAfter(x, |v.subscriptions|, LastRange(v, l), cfg, TimeRange(l, r, h))
         == LayerView(x.subscribed || !FrozenAt(r.to.value, r.now), r.global, Some((Start(cfg, r, h), r.to.value)),
                      FrozenAt(r.to.value, r.now), if r.viewport.Some? then r.viewport else x.viewport)
  {
    AcceptedIff(v, cfg, l, r);
    hide Accepted;
  }

  lemma AcceptedMode(v: View, cfg: TimeRangeConfig, k: Layer, r: TimeRangeRequest, h: Option<History>)
    requires Accepted(v, cfg, k, r)
    ensures HandleTimeRange(v, cfg, k, r, h).globalLayers == if r.global then v.globalLayers + {k} else v.globalLayers - {k}
  {
    hide FrozenAt, Start, Stamped, GateOpen;
    StampedState(v, cfg, k, r);
    Stored(Stamped(v, cfg, k, r), k, Start(cfg, r, h), r.to.value, FrozenAt(r.to.value, r.now));
    hide StoreRange;
  }

  /** On every run what a client asks for in a layer is decided by the messages that name the
      layer: no message for another one touches it. */
  lemma {:induction false} LayersAreSeparate(cfg: TimeRangeConfig, messages: seq<Message>, l: Layer)
    ensures ViewOf(Run(cfg, messages), l) == LayerRun(cfg, messages, l)
  {
    if messages != [] {
      hide Handle, LayerAfter, ViewOf, LastRange;
      var before := messages[..|messages| - 1];
      LayersAreSeparate(cfg, before, l);
      AlwaysCoherent(cfg, before);
      LayerStep(Run(cfg, before), cfg, messages[|messages| - 1], l);
    } else {
      hide Handle;
    }
  }

  /** The subscription limit is not an invariant: a step passes it exactly when a live
      time_range request for a layer not yet subscribed is accepted at or above the limit. */
  lemma LimitPassedIff(v: View, cfg: TimeRangeConfig, m: Message)
    ensures |Handle(v, cfg, m).subscriptions| > Max(|v.subscriptions|, MAX_SUBSCRIPTIONS) <==> Overruns(v, cfg, m)
  {
    hide Handle, Accepted, FrozenAt;
    SubscriptionsAfter(v, cfg, m);
    match m
    case Unsubscribe(l) => CardinalityOfRemoval(v.subscriptions, l);
    case _ =>
  }

  /** A live range is accepted for a layer that is not subscribed, at or above the limit. */
  predicate Overruns(v: View, cfg: TimeRangeConfig, m: Message) {
    |v.subscriptions| >= MAX_SUBSCRIPTIONS && EnablesLive(v, cfg, m) && m.layer !in v.subscriptions
  }

  ghost predicate AlwaysWithin(cfg: TimeRangeConfig, messages: seq<Message>) {
    forall k: nat :: k <= |messages| ==> |Run(cfg, messages[..k]).subscriptions| <= MAX_SUBSCRIPTIONS
  }

  ghost predicate NeverOverruns(cfg: TimeRangeConfig, messages: seq<Message>) {
    forall k: nat :: k < |messages| ==> !Overruns(Run(cfg, messages[..k]), cfg, messages[k])
  }

  /** A run stays within the limit at every point exactly when none of its messages overruns it. */
  lemma {:induction false} LimitHoldsIff(cfg: TimeRangeConfig, messages: seq<Message>)
    ensures AlwaysWithin(cfg, messages) <==> NeverOverruns(cfg, messages)
  {
    if messages == [] {
      assert forall k: nat :: k <= |messages| ==> messages[..k] == [];
    } else {
      LimitHoldsIff(cfg, messages[..|messages| - 1]);
      OneMore(cfg, messages);
      RunStep(cfg, messages);
      hide AlwaysWithin, NeverOverruns, Run, Overruns;
    }
  }

  lemma OneMore(cfg: TimeRangeConfig, messages: seq<Message>)
    requires messages != []
    ensures (
      var n := |messages| - 1;
      var before := messages[..n];
      && (AlwaysWithin(cfg, messages) <==>
            AlwaysWithin(cfg, before) && |Run(cfg, messages).subscriptions| <= MAX_SUBSCRIPTIONS)
      && (AlwaysWithin(cfg, before) ==> |Run(cfg, before).subscriptions| <= MAX_SUBSCRIPTIONS)
      && (NeverOverruns(cfg, messages) <==>
            NeverOverruns(cfg, before) && !Overruns(Run(cfg, before), cfg, messages[n])))
  {
    hide Run, Overruns;
    var n := |messages| - 1;
    var before := messages[..n];
    assert messages[..n + 1] == messages && before[..n] == before;
    forall k: nat | k <= n ensures before[..k] == messages[..k] { }
  }

  lemma RunStep(cfg: TimeRangeConfig, messages: seq<Message>)
    requires messages != []
    ensures (
      var n := |messages| - 1;
      var (v, v') := (Run(cfg, messages[..n]), Run(cfg, messages));
      |v.subscriptions| <= MAX_SUBSCRIPTIONS ==>
        (|v'.subscriptions| > MAX_SUBSCRIPTIONS <==> Overruns(v, cfg, messages[n])))
  {
    LimitPassedIff(Run(cfg, messages[..|messages| - 1]), cfg, messages[|messages| - 1]);
    hide Handle, EnablesLive;
  }

  /** Layers told apart by the length of their names. */
  function Name(i: nat): Layer { seq(i + 1, _ => 'a') }

  function Subscribes(n: nat): seq<Message> {
    if n == 0 then [] else Subscribes(n - 1) + [Message.Subscribe(Name(n - 1), None, false)]
  }

  lemma {:induction false} SubscribedTo(cfg: TimeRangeConfig, n: nat)
    requires n <= MAX_SUBSCRIPTIONS
    ensures (
      var v := Run(cfg, Subscribes(n));
      && |v.subscriptions| == n
      && forall i: nat :: Name(i) in v.subscriptions <==> i < n)
  {
    if n > 0 {
      hide Handle;
      SubscribedTo(cfg, n - 1);
      var m := Message.Subscribe(Name(n - 1), None, false);
      SubscriptionsAfter(Run(cfg, Subscribes(n - 1)), cfg, m);
      assert (Subscribes(n - 1) + [m])[..|Subscribes(n - 1)|] == Subscribes(n - 1);
      forall i: nat ensures Name(i) == Name(n - 1) <==> i == n - 1 {
        assert |Name(i)| == i + 1 && |Name(n - 1)| == n;
      }
      hide Subscribes, Name;
    }
  }

  /** And a run that overruns it exists, under any limits: a hundred subscribes, then a live
      global range of the last hour for one more layer. */
  lemma LimitIsPassed(cfg: TimeRangeConfig)
    requires cfg.enabled
    ensures (
      var r := TimeRangeRequest(Some(-HOUR), Some(0), None, true, 0);
      |Run(cfg, Subscribes(100) + [TimeRange(Name(100), r, None)]).subscriptions| == 101)
  {
    var r := TimeRangeRequest(Some(-HOUR), Some(0), None, true, 0);
    var m := TimeRange(Name(100), r, None);
    var v := Run(cfg, Subscribes(100));
    SubscribedTo(cfg, 100);
    assert (Subscribes(100) + [m])[..|Subscribes(100)|] == Subscribes(100);
    assert Name(100) != "";
    hide Subscribes, Name, Run, Handle;
    assert EnablesLive(v, cfg, m);
    SubscriptionsAfter(v, cfg, m);
  }

  predicate EnablesLive(v: View, cfg: TimeRangeConfig, m: Message) {
    m.TimeRange? && Accepted(v, cfg, m.layer, m.request) && !FrozenAt(m.request.to.value, m.request.now)
  }

  lemma SubscriptionsAfter(v: View, cfg: TimeRangeConfig, m: Message)
    ensures Handle(v, cfg, m).subscriptions ==
            match m
            case Subscribe(l, _, _) =>
              if l == "" || |v.subscriptions| >= MAX_SUBSCRIPTIONS then v.subscriptions else v.subscriptions + {l}
            case Unsubscribe(l) => if l == "" then v.subscriptions else v.subscriptions - {l}
            case TimeRange(l, _, _) => if EnablesLive(v, cfg, m) then v.subscriptions + {l} else v.subscriptions
            case _ => v.subscriptions
  {
    hide HandleTimeRange, Accepted, FrozenAt;
    if m.TimeRange? {
      var (l, r, h) := (m.layer, m.request, m.history);
      if Accepted(v, cfg, l, r) {
        AcceptedState(v, cfg, l, r, h);
      } else {
        RejectedRequest(v, cfg, l, r, h);
      }
    }
  }

  lemma CardinalityOfRemoval(s: set<Layer>, l: Layer)
    ensures |s - {l}| <= |s|
  {
    if l !in s {
      assert s - {l} == s;
    }
  }
}
