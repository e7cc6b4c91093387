/** Energy-preserving sparsification of a task vector, in exact reals. */
module Sparsity {
  import opened Prelude

  function Abs(x: real): (a: real)
    ensures a >= x && a >= -x && (a == x || a == -x)
  {
    if x >= 0.0 then x else -x
  }

  function Square(x: real): real {
    x * x
  }

  function Energy(tau: seq<real>): (e: seq<real>)
    ensures |e| == |tau|
    ensures forall i :: 0 <= i < |e| ==> e[i] == Square(Abs(tau[i]))
  {
    seq(|tau|, i requires 0 <= i < |tau| => Square(Abs(tau[i])))
  }

  function Sum(s: seq<real>): real {
    if s == [] then 0.0 else Sum(s[..|s| - 1]) + s[|s| - 1]
  }

  function Total(tau: seq<real>): real {
    Sum(Energy(tau))
  }

  function Share(total: real, p: real): real {
    total * p
  }

  // ----- What the sort may return -----

  // Every index once.
  ghost predicate Permutation(order: seq<nat>, n: nat) {
    && |order| == n
    && (forall k :: 0 <= k < n ==> order[k] < n)
    && (forall i: nat :: i < n ==> i in order)
    && (forall j, k :: 0 <= j < k < n ==> order[j] != order[k])
  }

  // A descending sort; equal energies come in any order.
  ghost predicate IsSort(e: seq<real>, order: seq<nat>) {
    Permutation(order, |e|) && forall j, k :: 0 <= j <= k < |e| ==> e[order[j]] >= e[order[k]]
  }

  function Gather(e: seq<real>, order: seq<nat>): (r: seq<real>)
    requires forall k :: 0 <= k < |order| ==> order[k] < |e|
    ensures |r| == |order|
    ensures forall k :: 0 <= k < |order| ==> r[k] == e[order[k]]
  {
    seq(|order|, k requires 0 <= k < |order| => e[order[k]])
  }

  function CumSum(s: seq<real>): (c: seq<real>)
    ensures |c| == |s|
    ensures forall k :: 0 <= k < |s| ==> c[k] == Sum(s[..k + 1])
  {
    seq(|s|, k requires 0 <= k < |s| => Sum(s[..k + 1]))
  }

  // The first position whose value reaches v, or the length.
  function SearchSorted(c: seq<real>, v: real): (i: nat)
    ensures i <= |c| && (i < |c| ==> c[i] >= v)
    ensures forall k :: 0 <= k < i ==> c[k] < v
  {
    if c == [] || c[0] >= v then 0 else 1 + SearchSorted(c[1..], v)
  }

  function Position(e: seq<real>, order: seq<nat>, v: real): nat
    requires |order| == |e| && forall k :: 0 <= k < |order| ==> order[k] < |e|
  {
    SearchSorted(CumSum(Gather(e, order)), v)
  }

  // The magnitude at which the energy of the sorted entries reaches v.
  function Threshold(tau: seq<real>, order: seq<nat>, v: real): real
    requires tau != [] && |order| == |tau| && forall k :: 0 <= k < |order| ==> order[k] < |tau|
  {
    var i := Position(Energy(tau), order, v);
    Abs(tau[order[if i >= |tau| then |tau| - 1 else i]])
  }

  function Mask(tau: seq<real>, t: real): (r: seq<real>)
    ensures |r| == |tau|
    ensures forall i :: 0 <= i < |tau| ==> r[i] == if Abs(tau[i]) >= t then tau[i] else 0.0
  {
    seq(|tau|, i requires 0 <= i < |tau| => if Abs(tau[i]) >= t then tau[i] else 0.0)
  }

  function Minus(a: seq<real>, b: seq<real>): (r: seq<real>)
    requires |a| == |b|
    ensures |r| == |a|
    ensures forall i :: 0 <= i < |a| ==> r[i] == a[i] - b[i]
  {
    seq(|a|, i requires 0 <= i < |a| => a[i] - b[i])
  }

  datatype Error = EmptyIndex

  // `order` is what the sort returned; an empty delta has no element to take the
  // threshold from.
  function Sparsify(tuned: seq<real>, base: seq<real>, order: seq<nat>, p: real): Result<seq<real>, Error>
    requires |tuned| == |base| && IsSort(Energy(Minus(tuned, base)), order)
  {
    var tau := Minus(tuned, base);
    if tau == [] then Err(EmptyIndex) else Ok(Mask(tau, Threshold(tau, order, Share(Total(tau), p))))
  }

  // ----- Sums -----

  ghost predicate NonNegative(s: seq<real>) {
    forall i :: 0 <= i < |s| ==> s[i] >= 0.0
  }

  lemma {:induction false} SumUpdate(s: seq<real>, m: nat, x: real)
    requires m < |s|
    ensures Sum(s[m := x]) == Sum(s) - s[m] + x
    decreases |s|
  {
    var n := |s| - 1;
    if m < n {
      SumUpdate(s[..n], m, x);
      assert s[m := x][..n] == s[..n][m := x];
    } else {
      assert s[m := x][..n] == s[..n];
    }
  }

  lemma {:induction false} SumPrefix(s: seq<real>, k: nat)
    requires k < |s|
    ensures Sum(s[..k + 1]) == Sum(s[..k]) + s[k]
  {
    assert s[..k + 1][..k] == s[..k];
  }

  // The elements of g that the first k places of the order name, zero elsewhere.
  function Picked(g: seq<real>, order: seq<nat>, k: nat): (r: seq<real>)
    requires k <= |order|
    ensures |r| == |g|
    ensures forall i :: 0 <= i < |g| ==> r[i] == if i in order[..k] then g[i] else 0.0
  {
    seq(|g|, i requires 0 <= i < |g| => if i in order[..k] then g[i] else 0.0)
  }

  lemma {:induction false} SumZero(s: seq<real>)
    requires forall i :: 0 <= i < |s| ==> s[i] == 0.0
    ensures Sum(s) == 0.0
    decreases |s|
  {
    if s != [] {
      SumZero(s[..|s| - 1]);
    }
  }

  lemma PickOne(g: seq<real>, order: seq<nat>, k: nat)
    requires Permutation(order, |g|) && k < |g|
    ensures Picked(g, order, k + 1) == Picked(g, order, k)[order[k] := g[order[k]]]
    ensures Picked(g, order, k)[order[k]] == 0.0
  {
    assert order[..k + 1] == order[..k] + [order[k]];
  }

  lemma {:induction false} SumPicked(g: seq<real>, order: seq<nat>, k: nat)
    requires Permutation(order, |g|) && k <= |g|
    ensures Sum(Gather(g, order)[..k]) == Sum(Picked(g, order, k))
    decreases k
  {
    if k == 0 {
      SumZero(Picked(g, order, 0));
    } else {
      SumPicked(g, order, k - 1);
      SumPrefix(Gather(g, order), k - 1);
      PickOne(g, order, k - 1);
      SumUpdate(Picked(g, order, k - 1), order[k - 1], g[order[k - 1]]);
    }
  }

  lemma PickAll(g: seq<real>, order: seq<nat>)
    requires Permutation(order, |g|)
    ensures Picked(g, order, |g|) == g
  {
    assert order[..|g|] == order;
    forall i: nat | i < |g| ensures Picked(g, order, |g|)[i] == g[i] {
      assert i in order;
    }
  }

  // A sum does not depend on the order of its terms.
  lemma SumPermuted(g: seq<real>, order: seq<nat>)
    requires Permutation(order, |g|)
    ensures Sum(Gather(g, order)) == Sum(g)
  {
    SumPicked(g, order, |g|);
    PickAll(g, order);
    Whole(Gather(g, order), |g|);
  }

  lemma Whole(s: seq<real>, n: nat)
    requires n == |s|
    ensures s[..n] == s
  {
  }

  // a agrees with b on the first k places and is nowhere negative.
  lemma {:induction false} SumAtLeastPrefix(a: seq<real>, b: seq<real>, k: nat)
    requires |a| == |b| && k <= |a| && NonNegative(a) && a[..k] == b[..k]
    ensures Sum(a) >= Sum(b[..k])
    decreases |a|
  {
    var n := |a| - 1;
    if k == |a| {
      assert a[..k] == a;
    } else {
      assert a[..n][..k] == b[..n][..k] by {
        assert a[..n][..k] == a[..k] && b[..n][..k] == b[..k];
      }
      SumAtLeastPrefix(a[..n], b[..n], k);
      assert b[..n][..k] == b[..k];
    }
  }

  // a is below b on the first k places and zero from there on.
  lemma {:induction false} SumAtMostPrefix(a: seq<real>, b: seq<real>, k: nat)
    requires |a| == |b| && k <= |a|
    requires forall i :: 0 <= i < k ==> a[i] <= b[i]
    requires forall i :: k <= i < |a| ==> a[i] == 0.0
    ensures Sum(a) <= Sum(b[..k])
    decreases |a|
  {
    var n := |a| - 1;
    if a == [] {
    } else if k == |a| {
      SumAtMostPrefix(a[..n], b[..n], n);
      assert b[..n][..n] == b[..n];
      assert b[..k] == b;
    } else {
      SumAtMostPrefix(a[..n], b[..n], k);
      assert b[..n][..k] == b[..k];
    }
  }

  lemma PositiveProduct(a: real, b: real)
    requires a > 0.0 && b > 0.0
    ensures a * b > 0.0
  {
  }

  lemma SquareOrder(a: real, b: real)
    requires a >= 0.0 && b >= 0.0
    ensures a >= b <==> Square(a) >= Square(b)
  {
    if a >= b {
      assert a * a >= b * a >= b * b;
    } else {
      PositiveProduct(b - a, b + a);
      assert (b - a) * (b + a) == b * b - a * a;
    }
  }

  // ----- The energy kept -----

  // The energy of the entries of magnitude at least t, and of those above t.
  function EnergyAtLeast(tau: seq<real>, t: real): real {
    Total(Mask(tau, t))
  }

  function Above(tau: seq<real>, t: real): (r: seq<real>)
    ensures |r| == |tau|
    ensures forall i :: 0 <= i < |tau| ==> r[i] == if Abs(tau[i]) > t then tau[i] else 0.0
  {
    seq(|tau|, i requires 0 <= i < |tau| => if Abs(tau[i]) > t then tau[i] else 0.0)
  }

  function EnergyAbove(tau: seq<real>, t: real): real {
    Total(Above(tau, t))
  }

  lemma SquareNonNegative(x: real)
    ensures Square(x) >= 0.0
  {
  }

  lemma EnergyNonNegative(tau: seq<real>)
    ensures NonNegative(Energy(tau))
    ensures Total(tau) >= 0.0
  {
    forall i | 0 <= i < |tau| ensures Energy(tau)[i] >= 0.0 {
      SquareNonNegative(Abs(tau[i]));
    }
    SumAtLeastPrefix(Energy(tau), Energy(tau), 0);
  }

  // In sorted order, the entries up to position k are those at least as large as the k-th.
  lemma PrefixIsKept(tau: seq<real>, order: seq<nat>, k: nat)
    requires IsSort(Energy(tau), order) && k < |tau|
    ensures EnergyAtLeast(tau, Abs(tau[order[k]])) >= Sum(Gather(Energy(tau), order)[..k + 1])
  {
    var t, e := Abs(tau[order[k]]), Energy(tau);
    var h := Energy(Mask(tau, t));
    EnergyNonNegative(Mask(tau, t));
    SumPermuted(h, order);
    forall j | 0 <= j < k + 1 ensures Gather(h, order)[j] == Gather(e, order)[j] {
      assert e[order[j]] >= e[order[k]];
      SquareOrder(Abs(tau[order[j]]), t);
    }
    SumAtLeastPrefix(Gather(h, order), Gather(e, order), k + 1);
  }

  lemma AboveIsEarlier(tau: seq<real>, order: seq<nat>, k: nat)
    requires IsSort(Energy(tau), order) && k < |tau|
    ensures EnergyAbove(tau, Abs(tau[order[k]])) <= Sum(Gather(Energy(tau), order)[..k])
  {
    var t, e := Abs(tau[order[k]]), Energy(tau);
    var h := Energy(Above(tau, t));
    SumPermuted(h, order);
    EnergyNonNegative(tau);
    forall j | 0 <= j < |tau|
      ensures j < k ==> Gather(h, order)[j] <= Gather(e, order)[j]
      ensures j >= k ==> Gather(h, order)[j] == 0.0
    {
      if j >= k {
        assert e[order[k]] >= e[order[j]];
        SquareOrder(t, Abs(tau[order[j]]));
      }
      assert Gather(e, order)[j] == e[order[j]] >= 0.0;
    }
    SumAtMostPrefix(Gather(h, order), Gather(e, order), k);
  }

  // searchsorted's input is nondecreasing.
  lemma {:induction false} CumSumSorted(s: seq<real>, j: nat, k: nat)
    requires NonNegative(s) && j <= k < |s|
    ensures CumSum(s)[j] <= CumSum(s)[k]
    decreases k
  {
    if j < k {
      CumSumSorted(s, j, k - 1);
      SumPrefix(s, k);
    }
  }

  lemma Shares(total: real, p: real)
    requires total >= 0.0
    ensures p <= 1.0 ==> Share(total, p) <= total
    ensures Share(total, 1.0 - p) == total - Share(total, p)
  {
  }

  lemma CumSumEnds(tau: seq<real>, order: seq<nat>)
    requires IsSort(Energy(tau), order) && tau != []
    ensures var c := CumSum(Gather(Energy(tau), order));
      c[|tau| - 1] == Total(tau) && c[0] >= 0.0 && forall k :: 0 <= k < |tau| ==> c[k] <= Total(tau)
  {
    var s := Gather(Energy(tau), order);
    SumPermuted(Energy(tau), order);
    EnergyNonNegative(tau);
    assert s[..|tau|] == s;
    forall k | 0 <= k < |tau| ensures CumSum(s)[k] <= Total(tau) {
      CumSumSorted(s, k, |tau| - 1);
    }
    SumPrefix(s, 0);
  }

  // The clamp of the searched position acts exactly when more than the total is asked for.
  lemma ClampIff(tau: seq<real>, order: seq<nat>, v: real)
    requires IsSort(Energy(tau), order) && tau != []
    ensures Position(Energy(tau), order, v) == |tau| <==> v > Total(tau)
  {
    EnergyNonNegative(tau);
    CumSumEnds(tau, order);
  }

  // The energies up to the position that gives the threshold.
  lemma PositionReaches(tau: seq<real>, order: seq<nat>, v: real) returns (k: nat)
    requires IsSort(Energy(tau), order) && tau != []
    ensures k < |tau| && Threshold(tau, order, v) == Abs(tau[order[k]])
    ensures Sum(Gather(Energy(tau), order)[..k + 1]) >= if v <= Total(tau) then v else Total(tau)
  {
    var c, i := CumSum(Gather(Energy(tau), order)), Position(Energy(tau), order, v);
    k := if i >= |tau| then |tau| - 1 else i;
    CumSumEnds(tau, order);
    assert c[k] == Sum(Gather(Energy(tau), order)[..k + 1]);
  }

  // The thresholded vector keeps at least the energy asked for, or all there is.
  lemma KeepsEnough(tau: seq<real>, order: seq<nat>, v: real)
    requires IsSort(Energy(tau), order) && tau != []
    ensures EnergyAtLeast(tau, Threshold(tau, order, v)) >= if v <= Total(tau) then v else Total(tau)
  {
    var k := PositionReaches(tau, order, v);
    PrefixIsKept(tau, order, k);
  }

  // Going past the threshold's tie class falls below the energy asked for, exactly
  // when that is positive.
  lemma NothingToSpare(tau: seq<real>, order: seq<nat>, v: real)
    requires IsSort(Energy(tau), order) && tau != []
    ensures EnergyAbove(tau, Threshold(tau, order, v)) < v <==> v > 0.0
  {
    var i := Position(Energy(tau), order, v);
    var k := if i == |tau| then |tau| - 1 else i;
    AboveIsEarlier(tau, order, k);
    EnergyNonNegative(Above(tau, Threshold(tau, order, v)));
    if k > 0 {
      assert CumSum(Gather(Energy(tau), order))[k - 1] < v;
    }
  }

  // ----- The threshold without the sort -----

  // t is the greatest magnitude in tau such that the entries that large hold energy v.
  ghost predicate IsGreatest(tau: seq<real>, v: real, t: real) {
    && (exists i :: 0 <= i < |tau| && Abs(tau[i]) == t)
    && EnergyAtLeast(tau, t) >= v
    && (forall i :: 0 <= i < |tau| && EnergyAtLeast(tau, Abs(tau[i])) >= v ==> Abs(tau[i]) <= t)
  }

  lemma {:induction false} SumMonotone(a: seq<real>, b: seq<real>)
    requires |a| == |b| && forall i :: 0 <= i < |a| ==> a[i] <= b[i]
    ensures Sum(a) <= Sum(b)
  {
    SumAtMostPrefix(a, b, |a|);
    assert b[..|a|] == b;
  }

  lemma LargerIsAbove(tau: seq<real>, m: real, t: real)
    requires m > t
    ensures EnergyAtLeast(tau, m) <= EnergyAbove(tau, t)
  {
    EnergyNonNegative(Above(tau, t));
    assert Square(0.0) == 0.0;
    SumMonotone(Energy(Mask(tau, m)), Energy(Above(tau, t)));
  }

  lemma FirstIsLargest(tau: seq<real>, order: seq<nat>, i: nat)
    requires IsSort(Energy(tau), order) && i < |tau|
    ensures Abs(tau[order[|tau| - 1]]) <= Abs(tau[i]) <= Abs(tau[order[0]])
  {
    assert i in order;
    var k :| 0 <= k < |order| && order[k] == i;
    assert Energy(tau)[order[0]] >= Energy(tau)[order[k]] >= Energy(tau)[order[|tau| - 1]];
    SquareOrder(Abs(tau[order[0]]), Abs(tau[i]));
    SquareOrder(Abs(tau[i]), Abs(tau[order[|tau| - 1]]));
  }

  lemma ThresholdIsGreatest(tau: seq<real>, order: seq<nat>, v: real)
    requires IsSort(Energy(tau), order) && tau != [] && v <= Total(tau)
    ensures IsGreatest(tau, v, Threshold(tau, order, v))
  {
    var t := Threshold(tau, order, v);
    KeepsEnough(tau, order, v);
    ClampIff(tau, order, v);
    NothingToSpare(tau, order, v);
    forall i | 0 <= i < |tau| && EnergyAtLeast(tau, Abs(tau[i])) >= v ensures Abs(tau[i]) <= t {
      if v <= 0.0 {
        CumSumEnds(tau, order);
        assert Position(Energy(tau), order, v) == 0;
        FirstIsLargest(tau, order, i);
      } else if Abs(tau[i]) > t {
        LargerIsAbove(tau, Abs(tau[i]), t);
        assert false;
      }
    }
  }

  // Asked for more than there is, the threshold is the least magnitude.
  lemma ThresholdIsLeast(tau: seq<real>, order: seq<nat>, v: real)
    requires IsSort(Energy(tau), order) && tau != [] && v > Total(tau)
    ensures exists i :: 0 <= i < |tau| && Abs(tau[i]) == Threshold(tau, order, v)
    ensures forall i :: 0 <= i < |tau| ==> Threshold(tau, order, v) <= Abs(tau[i])
  {
    ClampIff(tau, order, v);
    forall i | 0 <= i < |tau| ensures Threshold(tau, order, v) <= Abs(tau[i]) {
      FirstIsLargest(tau, order, i);
    }
  }

  // However the sort breaks ties, the threshold is the same.
  lemma TiesDoNotMatter(tau: seq<real>, order: seq<nat>, order': seq<nat>, v: real)
    requires IsSort(Energy(tau), order) && IsSort(Energy(tau), order') && tau != []
    ensures Threshold(tau, order, v) == Threshold(tau, order', v)
  {
    if v <= Total(tau) {
      ThresholdIsGreatest(tau, order, v);
      ThresholdIsGreatest(tau, order', v);
    } else {
      ThresholdIsLeast(tau, order, v);
      ThresholdIsLeast(tau, order', v);
    }
  }

  // ----- The result -----

  lemma {:induction false} SumAdds(a: seq<real>, b: seq<real>, c: seq<real>)
    requires |a| == |b| == |c| && forall i :: 0 <= i < |a| ==> a[i] + b[i] == c[i]
    ensures Sum(a) + Sum(b) == Sum(c)
    decreases |a|
  {
    var n := |a| - 1;
    if a != [] {
      SumAdds(a[..n], b[..n], c[..n]);
    }
  }

  // What is kept and what is dropped add up to the whole energy.
  lemma KeptPlusDropped(tau: seq<real>, t: real)
    ensures Total(Mask(tau, t)) + Total(Minus(tau, Mask(tau, t))) == Total(tau)
  {
    assert Square(0.0) == 0.0;
    SumAdds(Energy(Mask(tau, t)), Energy(Minus(tau, Mask(tau, t))), Energy(tau));
  }

  lemma MaskIsThresholded(tau: seq<real>, t: real)
    ensures Thresholded(tau, Mask(tau, t))
  {
  }

  // Every entry is kept as it is or dropped, the dropped ones being smaller than every kept
  // one; at most the share 1 - p of the energy is lost.
  lemma SparsifyLosesLittle(tuned: seq<real>, base: seq<real>, order: seq<nat>, p: real)
    requires |tuned| == |base| && IsSort(Energy(Minus(tuned, base)), order) && p <= 1.0
    ensures var tau, r := Minus(tuned, base), Sparsify(tuned, base, order, p);
      && (r.Err? <==> tau == [])
      && (r.Ok? ==>
        && Thresholded(tau, r.value)
        && Total(r.value) >= Share(Total(tau), p)
        && Total(Minus(tau, r.value)) <= Share(Total(tau), 1.0 - p))
  {
    var tau := Minus(tuned, base);
    if tau != [] {
      var v := Share(Total(tau), p);
      EnergyNonNegative(tau);
      Shares(Total(tau), p);
      KeepsEnough(tau, order, v);
      KeptPlusDropped(tau, Threshold(tau, order, v));
      MaskIsThresholded(tau, Threshold(tau, order, v));
    }
  }

  ghost predicate Thresholded(tau: seq<real>, r: seq<real>) {
    && |r| == |tau|
    && (forall i :: 0 <= i < |tau| ==> r[i] == tau[i] || r[i] == 0.0)
    && (forall i, j :: 0 <= i < |tau| && 0 <= j < |tau| && r[i] != tau[i] && r[j] != 0.0 ==> Abs(tau[i]) < Abs(tau[j]))
  }

  // ----- The result without the sort -----

  lemma EnergyIsSquare(tau: seq<real>, i: nat)
    requires i < |tau|
    ensures Energy(tau)[i] == tau[i] * tau[i]
  {
    assert Square(Abs(tau[i])) == Abs(tau[i]) * Abs(tau[i]);
  }

  lemma {:induction false} SumIsAdditive(a: seq<real>, b: seq<real>)
    ensures Sum(a + b) == Sum(a) + Sum(b)
    ensures forall x: real :: Sum([x]) == x
    decreases |b|
  {
    forall x: real ensures Sum([x]) == x {
      assert [x][..0] == [];
    }
    if b == [] {
      assert a + b == a;
    } else {
      SumIsAdditive(a, b[..|b| - 1]);
      assert (a + b)[..|a + b| - 1] == a + b[..|b| - 1];
    }
  }

  lemma AboveIsMonotone(tau: seq<real>, s: real, t: real)
    requires s <= t
    ensures EnergyAbove(tau, t) <= EnergyAbove(tau, s)
  {
    EnergyNonNegative(Above(tau, s));
    assert Square(0.0) == 0.0;
    SumMonotone(Energy(Above(tau, t)), Energy(Above(tau, s)));
  }

  // For a positive v, an entry reaches the threshold exactly when what lies above it
  // holds less than v.
  lemma ReachesIff(tau: seq<real>, order: seq<nat>, v: real, i: nat)
    requires IsSort(Energy(tau), order) && i < |tau| && v > 0.0
    ensures Abs(tau[i]) >= Threshold(tau, order, v) <==> EnergyAbove(tau, Abs(tau[i])) < v
  {
    var t := Threshold(tau, order, v);
    NothingToSpare(tau, order, v);
    KeepsEnough(tau, order, v);
    if Abs(tau[i]) >= t {
      AboveIsMonotone(tau, t, Abs(tau[i]));
    } else if v <= Total(tau) {
      LargerIsAbove(tau, t, Abs(tau[i]));
    } else {
      ThresholdIsLeast(tau, order, v);
    }
  }

  // Nothing asked for: only the largest entries reach the threshold.
  lemma ReachesIfLargest(tau: seq<real>, order: seq<nat>, v: real, i: nat)
    requires IsSort(Energy(tau), order) && i < |tau| && v <= 0.0
    ensures Abs(tau[i]) >= Threshold(tau, order, v) <==> forall j :: 0 <= j < |tau| ==> Abs(tau[j]) <= Abs(tau[i])
  {
    CumSumEnds(tau, order);
    assert Position(Energy(tau), order, v) == 0;
    forall j | 0 <= j < |tau| ensures Abs(tau[j]) <= Abs(tau[order[0]]) {
      FirstIsLargest(tau, order, j);
    }
  }

  // The entry is kept: what is larger holds less than v, or nothing is larger.
  ghost predicate Kept(tau: seq<real>, v: real, i: nat)
    requires i < |tau|
  {
    if v > 0.0 then EnergyAbove(tau, Abs(tau[i])) < v else forall j :: 0 <= j < |tau| ==> Abs(tau[j]) <= Abs(tau[i])
  }

  lemma KeptIffReaches(tau: seq<real>, order: seq<nat>, v: real, i: nat)
    requires IsSort(Energy(tau), order) && i < |tau|
    ensures Kept(tau, v, i) <==> Abs(tau[i]) >= Threshold(tau, order, v)
  {
    if v > 0.0 {
      ReachesIff(tau, order, v, i);
    } else {
      ReachesIfLargest(tau, order, v, i);
    }
  }

  lemma ThresholdIsEntry(tau: seq<real>, order: seq<nat>, v: real) returns (j: nat)
    requires IsSort(Energy(tau), order) && tau != []
    ensures j < |tau| && Abs(tau[j]) == Threshold(tau, order, v)
  {
    var i := Position(Energy(tau), order, v);
    j := order[if i >= |tau| then |tau| - 1 else i];
  }

  // As large as entry j, the smallest kept.
  ghost predicate KeptFrom(tau: seq<real>, v: real, j: nat)
    requires j < |tau|
  {
    forall i :: 0 <= i < |tau| ==> (Kept(tau, v, i) <==> Abs(tau[i]) >= Abs(tau[j]))
  }

  lemma MaskExact(tau: seq<real>, order: seq<nat>, v: real) returns (j: nat)
    requires IsSort(Energy(tau), order) && tau != []
    ensures var r := Mask(tau, Threshold(tau, order, v));
      forall i :: 0 <= i < |tau| ==> r[i] == if Kept(tau, v, i) then tau[i] else 0.0
    ensures j < |tau| && KeptFrom(tau, v, j)
  {
    j := ThresholdIsEntry(tau, order, v);
    forall i | 0 <= i < |tau| ensures Kept(tau, v, i) <==> Abs(tau[i]) >= Threshold(tau, order, v) {
      KeptIffReaches(tau, order, v, i);
    }
  }

  lemma MasksAt(tuned: seq<real>, base: seq<real>, order: seq<nat>, p: real)
    requires |tuned| == |base| && IsSort(Energy(Minus(tuned, base)), order) && tuned != []
    ensures var tau := Minus(tuned, base);
      Sparsify(tuned, base, order, p) == Ok(Mask(tau, Threshold(tau, order, Share(Total(tau), p))))
  {
  }

  lemma ShareIs(total: real, p: real)
    ensures Share(total, p) == total * p
  {
  }

  // The result, for every share p and every sort: entry i stays exactly when the entries of
  // larger magnitude hold less than the energy asked for (when none is, exactly when no
  // entry is larger), and that is when it is as large as some entry j, the smallest kept.
  lemma SparsifyExact(tuned: seq<real>, base: seq<real>, order: seq<nat>, p: real, v: real) returns (j: nat)
    requires |tuned| == |base| && IsSort(Energy(Minus(tuned, base)), order) && tuned != []
    requires v == Total(Minus(tuned, base)) * p
    ensures var tau, r := Minus(tuned, base), Sparsify(tuned, base, order, p);
      && r.Ok? && |r.value| == |tau| == |tuned| && (forall i :: 0 <= i < |tau| ==> tau[i] == tuned[i] - base[i])
      && (forall i :: 0 <= i < |tau| ==> r.value[i] == if Kept(tau, v, i) then tau[i] else 0.0)
      && j < |tau| && KeptFrom(tau, v, j)
  {
    MasksAt(tuned, base, order, p);
    ShareIs(Total(Minus(tuned, base)), p);
    j := MaskExact(Minus(tuned, base), order, v);
  }

  // ----- A sort exists -----

  // The first place in the order whose energy is below x.
  function Place(e: seq<real>, order: seq<nat>, x: real): (k: nat)
    requires forall j :: 0 <= j < |order| ==> order[j] < |e|
    ensures k <= |order| && (k < |order| ==> e[order[k]] < x)
    ensures forall j :: 0 <= j < k ==> e[order[j]] >= x
  {
    if order == [] || e[order[0]] < x then 0 else 1 + Place(e, order[1..], x)
  }

  // Putting a further element at its place keeps the order a permutation, and sorted.
  function Inserted(rest: seq<nat>, k: nat, n: nat): (order: seq<nat>)
    requires k <= |rest|
    ensures |order| == |rest| + 1
    ensures forall j :: 0 <= j < |order| ==> order[j] == if j < k then rest[j] else if j == k then n else rest[j - 1]
  {
    rest[..k] + [n] + rest[k..]
  }

  lemma InsertedPermutes(rest: seq<nat>, k: nat, n: nat)
    requires Permutation(rest, n) && k <= n
    ensures Permutation(Inserted(rest, k, n), n + 1)
  {
    forall i: nat | i < n + 1 ensures i in Inserted(rest, k, n) {
      InsertedHas(rest, k, n, i);
    }
  }

  lemma InsertedHas(rest: seq<nat>, k: nat, n: nat, i: nat)
    requires k <= |rest| && (i in rest || i == n)
    ensures i in Inserted(rest, k, n)
  {
    var order := Inserted(rest, k, n);
    if i == n {
      assert order[k] == n;
    } else {
      var j :| 0 <= j < |rest| && rest[j] == i;
      assert order[if j < k then j else j + 1] == i;
    }
  }

  lemma InsertedSorted(e: seq<real>, rest: seq<nat>, k: nat)
    requires e != [] && IsSort(e[..|e| - 1], rest) && k == Place(e, rest, e[|e| - 1])
    ensures IsSort(e, Inserted(rest, k, |e| - 1))
  {
    var n := |e| - 1;
    var order := Inserted(rest, k, n);
    InsertedPermutes(rest, k, n);
    forall j, l | 0 <= j <= l < |rest| ensures e[rest[j]] >= e[rest[l]] {
      assert e[..n][rest[j]] >= e[..n][rest[l]];
    }
    forall j, l | 0 <= j <= l < |e| ensures e[order[j]] >= e[order[l]] {
    }
  }

  lemma {:induction false} SortExists(e: seq<real>) returns (order: seq<nat>)
    ensures IsSort(e, order)
    decreases |e|
  {
    if e == [] {
      order := [];
    } else {
      var n := |e| - 1;
      var rest := SortExists(e[..n]);
      var k := Place(e, rest, e[n]);
      InsertedSorted(e, rest, k);
      order := Inserted(rest, k, n);
    }
  }
}
