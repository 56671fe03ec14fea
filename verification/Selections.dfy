/** Which elements of a sequence a loop takes, by their positions. */
module Selections {
  /** Positions below `n`, in order, each once. */
  ghost predicate Ascending(picked: seq<nat>, n: nat) {
    && (forall k :: 0 <= k < |picked| ==> picked[k] < n)
    && forall j, k :: 0 <= j < k < |picked| ==> picked[j] < picked[k]
  }

  /** What stands at some positions. */
  ghost function At<T>(s: seq<T>, picked: seq<nat>): (r: seq<T>)
    requires Ascending(picked, |s|)
    ensures |r| == |picked| && forall k :: 0 <= k < |r| ==> r[k] == s[picked[k]]
  {
    seq(|picked|, k requires 0 <= k < |picked| => s[picked[k]])
  }

  lemma PickMore(picked: seq<nat>, n: nat)
    requires Ascending(picked, n)
    ensures Ascending(picked, n + 1) && Ascending(picked + [n], n + 1)
    ensures n !in picked && forall i :: i in picked + [n] <==> i in picked || i == n
  {
  }

  lemma Bounded(picked: seq<nat>, n: nat)
    requires Ascending(picked, n)
    ensures picked != [] ==> picked[|picked| - 1] < n
  {
  }

  lemma Once(picked: seq<nat>, n: nat, a: nat)
    requires Ascending(picked, n) && a in picked && forall i :: i in picked ==> i == a
    ensures picked == [a]
  {
    Rises(picked, n);
    forall k | 0 <= k < |picked| ensures picked[k] == a {
      assert picked[k] in picked;
    }
  }

  lemma Rises(picked: seq<nat>, n: nat)
    requires Ascending(picked, n)
    ensures |picked| > 1 ==> picked[0] < picked[1]
  {
  }

  /** Taking everything is taking it as it stands. */
  lemma {:induction false} AllPicked(picked: seq<nat>, n: nat)
    requires Ascending(picked, n) && forall i: nat :: i < n ==> i in picked
    ensures |picked| == n && forall k :: 0 <= k < n ==> picked[k] == k
  {
    Bounded(picked, n);
    if n > 0 {
      assert n - 1 in picked;
      var last := |picked| - 1;
      var k :| 0 <= k <= last && picked[k] == n - 1;
      forall i: nat | i < n - 1 ensures i in picked[..last] {
        assert i in picked;
      }
      AllPicked(picked[..last], n - 1);
    }
  }

  /** Taking from what was taken. */
  ghost function Within(outer: seq<nat>, inner: seq<nat>): (r: seq<nat>)
    requires forall k :: 0 <= k < |inner| ==> inner[k] < |outer|
    ensures |r| == |inner| && forall k :: 0 <= k < |r| ==> r[k] == outer[inner[k]]
  {
    seq(|inner|, k requires 0 <= k < |inner| => outer[inner[k]])
  }

  lemma WithinPicked(outer: seq<nat>, inner: seq<nat>, n: nat)
    requires Ascending(outer, n) && Ascending(inner, |outer|)
    ensures Ascending(Within(outer, inner), n)
    ensures forall i :: i in Within(outer, inner) ==> i in outer
    ensures forall j: nat :: j < |outer| ==> (outer[j] in Within(outer, inner) <==> j in inner)
  {
    forall j: nat | j < |outer| ensures outer[j] in Within(outer, inner) <==> j in inner {
      if j in inner {
        var k :| 0 <= k < |inner| && inner[k] == j;
        assert Within(outer, inner)[k] == outer[j];
      }
      if outer[j] in Within(outer, inner) {
        var k :| 0 <= k < |inner| && Within(outer, inner)[k] == outer[j];
        assert inner[k] == j;
      }
    }
  }
}
