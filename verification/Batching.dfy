/** Which of a layer's pending updates one client gets in one flush. */
module Batching {
  import opened Wrappers
  import opened Geometry
  import opened ClientState
  import opened Selections

  /** A queued update: its payload, and the position and time it carries, if any. */
  datatype Update = Update(data: string, position: Option<(real, real)>, eventTime: Option<Time>)

  /** What the flush loop reads about a client and layer before it looks at the updates. */
  datatype Filter = Filter(spatial: bool, global: bool, viewport: Option<BBox>, range: Option<(Time, Time)>) {
    predicate UsesViewport() { spatial && viewport.Some? && !global }
  }

  function FilterOf(v: View, l: Layer, spatial: bool): Filter {
    Filter(spatial, v.IsGlobalMode(l), v.GetViewport(l), v.GetTimeRange(l))
  }

  predicate Passes(f: Filter, u: Update) {
    && (f.range.Some? && u.eventTime.Some? ==> f.range.value.0 <= u.eventTime.value <= f.range.value.1)
    && (f.UsesViewport() && u.position.Some? ==>
          f.viewport.value.Contains(u.position.value.0, u.position.value.1))
  }

  /** The payloads of the updates that pass, in order. */
  function Payloads(f: Filter, updates: seq<Update>): seq<string> {
    if updates == [] then []
    else
      var last := updates[|updates| - 1];
      Payloads(f, updates[..|updates| - 1]) + if Passes(f, last) then [last.data] else []
  }

  function MaxBatch(f: Filter, size: int): int {
    if f.UsesViewport() then ViewportEntityLimit(f.viewport, size) else size
  }

  function FirstN<T>(s: seq<T>, n: nat): seq<T> {
    if n < |s| then s[..n] else s
  }

  /** What the flush loop sends: the first `MaxBatch` payloads that pass. */
  function Batch(f: Filter, updates: seq<Update>): seq<string> {
    LimitBounds(f.viewport, |updates|);
    FirstN(Payloads(f, updates), MaxBatch(f, |updates|))
  }

  lemma {:induction false} PayloadsBound(f: Filter, updates: seq<Update>)
    ensures |Payloads(f, updates)| <= |updates|
  {
    if updates != [] {
      PayloadsBound(f, updates[..|updates| - 1]);
    }
  }

  lemma {:induction false} PayloadsConcat(f: Filter, a: seq<Update>, b: seq<Update>)
    ensures Payloads(f, a + b) == Payloads(f, a) + Payloads(f, b)
  {
    if b == [] {
      assert a + b == a;
    } else {
      var n := |b| - 1;
      assert (a + b)[..|a + b| - 1] == a + b[..n];
      PayloadsConcat(f, a, b[..n]);
    }
  }

  lemma PayloadsPrefix(f: Filter, updates: seq<Update>, i: nat)
    requires i <= |updates|
    ensures Payloads(f, updates[..i]) <= Payloads(f, updates)
  {
    assert updates == updates[..i] + updates[i..];
    PayloadsConcat(f, updates[..i], updates[i..]);
  }

  lemma PayloadsStep(f: Filter, updates: seq<Update>, i: nat)
    requires i < |updates|
    ensures Payloads(f, updates[..i + 1])
         == Payloads(f, updates[..i]) + if Passes(f, updates[i]) then [updates[i].data] else []
  {
    assert updates[..i + 1][..i] == updates[..i];
  }

  /** Scanning may stop at `i` once the batch is full, or at the end. */
  lemma BatchFound(f: Filter, updates: seq<Update>, i: nat)
    requires i <= |updates|
    requires var n := |Payloads(f, updates[..i])|;
             n == MaxBatch(f, |updates|) || (i == |updates| && n < MaxBatch(f, |updates|))
    ensures Payloads(f, updates[..i]) == Batch(f, updates)
  {
    PayloadsPrefix(f, updates, i);
    assert updates[..|updates|] == updates;
  }

  /** The filter loop, with its early exit once the batch is full. `picked` are the positions of
      what it returns, as described at `BatchPositions`. */
  method FilterUpdates(f: Filter, updates: seq<Update>) returns (filtered: seq<string>, ghost picked: seq<nat>)
    requires updates != []
    ensures filtered == Batch(f, updates)
    ensures Ascending(picked, |updates|)
    ensures f.spatial && f.viewport.Some? && !f.global ==> |picked| <= ViewportEntityLimit(f.viewport, |updates|)
    ensures filtered == seq(|picked|, k requires 0 <= k < |picked| => updates[picked[k]].data)
    ensures forall i: nat :: (i < |updates| && ((picked != [] && i <= picked[|picked| - 1])
        || |updates| <= 500 || |picked| < ViewportEntityLimit(f.viewport, |updates|)
        || !f.spatial || f.viewport.None? || f.global)) ==>
      (i in picked <==>
        && (f.range.Some? && updates[i].eventTime.Some? ==>
              f.range.value.0 <= updates[i].eventTime.value && updates[i].eventTime.value <= f.range.value.1)
        && (f.spatial && f.viewport.Some? && !f.global && updates[i].position.Some? ==>
              var (box, (lat, lon)) := (f.viewport.value, updates[i].position.value);
              && box.south <= lat && lat <= box.north
              && if box.west <= box.east then box.west <= lon && lon <= box.east
                 else lon >= box.west || lon <= box.east))
  {
    picked := BatchPositions(f, updates);
    LimitBounds(f.viewport, |updates|);
    hide Payloads, Batch, ViewportEntityLimit;
    var maxBatch := |updates|;
    if f.spatial && f.viewport.Some? && !f.global {
      maxBatch := ViewportEntityLimit(f.viewport, |updates|);
    }
    filtered := [];
    EmptyPayloads(f);
    assert updates[..0] == [];
    for i := 0 to |updates|
      invariant filtered == Payloads(f, updates[..i])
      invariant |filtered| < maxBatch == MaxBatch(f, |updates|)
    {
      PayloadsStep(f, updates, i);
      var u := updates[i];
      if f.range.Some? && u.eventTime.Some? {
        if u.eventTime.value < f.range.value.0 || u.eventTime.value > f.range.value.1 {
          continue;
        }
      }
      if f.spatial && u.position.Some? && f.viewport.Some? && !f.global {
        if !f.viewport.value.Contains(u.position.value.0, u.position.value.1) {
          continue;
        }
      }
      filtered := filtered + [u.data];
      if |filtered| >= maxBatch {
        BatchFound(f, updates, i + 1);
        return;
      }
    }
    BatchFound(f, updates, |updates|);
  }

  lemma EmptyPayloads(f: Filter)
    ensures Payloads(f, []) == []
  {
  }

  /** A batch of at most 500 updates is never cut short, nor is one without a viewport. */
  lemma SmallBatchIsWhole(f: Filter, updates: seq<Update>)
    requires |updates| <= 500 || !f.UsesViewport()
    ensures Batch(f, updates) == Payloads(f, updates)
  {
    PayloadsBound(f, updates);
    LimitBounds(f.viewport, |updates|);
  }

  /** A longer one keeps at least a fifth and at least 500, if that many pass. */
  lemma LargeBatchKeeps(f: Filter, updates: seq<Update>)
    requires |updates| > 500
    ensures var all, sent := Payloads(f, updates), Batch(f, updates);
            sent <= all && (sent == all || (|sent| >= 500 && |sent| >= |updates| / 5))
  {
    LimitBounds(f.viewport, |updates|);
  }

  lemma {:induction false} PayloadPositions(f: Filter, updates: seq<Update>) returns (picked: seq<nat>)
    ensures Ascending(picked, |updates|) && |picked| == |Payloads(f, updates)|
    ensures forall k :: 0 <= k < |picked| ==> Payloads(f, updates)[k] == updates[picked[k]].data
    ensures forall i: nat :: i < |updates| ==> (i in picked <==> Passes(f, updates[i]))
  {
    picked := [];
    if updates != [] {
      var n := |updates| - 1;
      picked := PayloadPositions(f, updates[..n]);
      PickMore(picked, n);
      hide Passes;
      forall i: nat | i < n ensures updates[..n][i] == updates[i] { }
      if Passes(f, updates[n]) { picked := picked + [n]; }
    }
  }

  /** What a batch holds, in terms of the numbers: up to where it is cut, if it is, exactly the
      updates whose time, if they have one, lies in the range, if there is one, and whose position,
      if they have one and the filter uses a viewport, lies in the box, which may wrap around. */
  lemma BatchPositions(f: Filter, updates: seq<Update>) returns (picked: seq<nat>)
    ensures Ascending(picked, |updates|)
    ensures f.spatial && f.viewport.Some? && !f.global ==> |picked| <= ViewportEntityLimit(f.viewport, |updates|)
    ensures Batch(f, updates) == seq(|picked|, k requires 0 <= k < |picked| => updates[picked[k]].data)
    ensures forall i: nat :: (i < |updates| && ((picked != [] && i <= picked[|picked| - 1])
        || |updates| <= 500 || |picked| < ViewportEntityLimit(f.viewport, |updates|)
        || !f.spatial || f.viewport.None? || f.global)) ==>
      (i in picked <==>
        && (f.range.Some? && updates[i].eventTime.Some? ==>
              f.range.value.0 <= updates[i].eventTime.value && updates[i].eventTime.value <= f.range.value.1)
        && (f.spatial && f.viewport.Some? && !f.global && updates[i].position.Some? ==>
              var (box, (lat, lon)) := (f.viewport.value, updates[i].position.value);
              && box.south <= lat && lat <= box.north
              && if box.west <= box.east then box.west <= lon && lon <= box.east
                 else lon >= box.west || lon <= box.east))
  {
    picked := BatchPicks(f, updates);
    hide Batch;
  }

  lemma BatchPicks(f: Filter, updates: seq<Update>) returns (picked: seq<nat>)
    ensures Ascending(picked, |updates|) && |picked| <= MaxBatch(f, |updates|)
    ensures Batch(f, updates) == seq(|picked|, k requires 0 <= k < |picked| => updates[picked[k]].data)
    ensures forall i: nat :: (i < |updates| && ((picked != [] && i <= picked[|picked| - 1])
        || |updates| <= 500 || |picked| < MaxBatch(f, |updates|) || !f.UsesViewport())) ==>
      (i in picked <==> Passes(f, updates[i]))
  {
    var all := PayloadPositions(f, updates);
    hide Passes, Payloads, ViewportEntityLimit;
    LimitBounds(f.viewport, |updates|);
    PayloadsBound(f, updates);
    picked := FirstN(all, MaxBatch(f, |updates|));
    FirstPicks(all, |updates|, MaxBatch(f, |updates|));
  }

  lemma FirstPicks(all: seq<nat>, size: nat, most: nat)
    requires Ascending(all, size)
    ensures Ascending(FirstN(all, most), size)
    ensures var picked := FirstN(all, most);
      forall i: nat :: (|all| <= most || (picked != [] && i <= picked[|picked| - 1])) ==> (i in picked <==> i in all)
  {
    var picked := FirstN(all, most);
    forall i: nat | i in all && |all| > most && picked != [] && i <= picked[|picked| - 1] ensures i in picked {
      var k :| 0 <= k < |all| && all[k] == i;
      assert picked[|picked| - 1] == all[|picked| - 1];
    }
  }
}
