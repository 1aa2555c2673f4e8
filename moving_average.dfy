/** Trailing simple moving averages over a column of closing prices, as the
    rolling-window mean of a data frame computes them: the value at bar t is
    the unweighted mean of the w bars ending at t, and is undefined while
    fewer than w bars have elapsed. */
module MovingAverage {
  import opened Wrappers

  /** Sum of a window of values, accumulated from the left. */
  function Sum(s: seq<real>): real
  {
    if s == [] then 0.0 else Sum(s[..|s| - 1]) + s[|s| - 1]
  }

  /** Unweighted mean of a non-empty window. */
  function Mean(s: seq<real>): real
    requires |s| > 0
  {
    Sum(s) / (|s| as real)
  }

  /** The rolling mean of window `w` at bar `t`: defined exactly when at
      least `w` bars (and at least one) end at `t`. */
  function RollingMeanAt(xs: seq<real>, w: nat, t: nat): (m: Option<real>)
    requires t < |xs|
    ensures m.Some? <==> 0 < w <= t + 1
    ensures m.Some? ==> m.value == Mean(xs[t + 1 - w..t + 1])
  {
    if 0 < w <= t + 1 then Some(Mean(xs[t + 1 - w..t + 1])) else None
  }

  /** The whole rolling-mean column, one entry per bar. */
  function RollingColumn(xs: seq<real>, w: nat): (col: seq<Option<real>>)
    ensures |col| == |xs|
    ensures forall t :: 0 <= t < |xs| ==> col[t] == RollingMeanAt(xs, w, t)
  {
    seq(|xs|, t requires 0 <= t < |xs| => RollingMeanAt(xs, w, t))
  }

  /** Summing a concatenation adds the sums of its parts. */
  lemma {:induction false} SumAppend(s: seq<real>, u: seq<real>)
    ensures Sum(s + u) == Sum(s) + Sum(u)
  {
    if u == [] {
      assert s + u == s;
    } else {
      var u' := u[..|u| - 1];
      assert (s + u)[..|s + u| - 1] == s + u';
      SumAppend(s, u');
    }
  }

  /** A window's sum splits at any interior bar. */
  lemma SumSplit(xs: seq<real>, i: nat, j: nat, k: nat)
    requires i <= j <= k <= |xs|
    ensures Sum(xs[i..k]) == Sum(xs[i..j]) + Sum(xs[j..k])
  {
    assert xs[i..k] == xs[i..j] + xs[j..k];
    SumAppend(xs[i..j], xs[j..k]);
  }

  /** The sum of a window whose every bar is `c`. */
  lemma {:induction false} SumOfConstant(s: seq<real>, c: real)
    requires forall i :: 0 <= i < |s| ==> s[i] == c
    ensures Sum(s) == c * (|s| as real)
  {
    if s != [] {
      SumOfConstant(s[..|s| - 1], c);
    }
  }

  /** A trailing mean over a window of one constant price is that price. */
  lemma MeanOfConstant(s: seq<real>, c: real)
    requires |s| > 0
    requires forall i :: 0 <= i < |s| ==> s[i] == c
    ensures Mean(s) == c
  {
    SumOfConstant(s, c);
  }

  /** First bar of the trailing window of width `w` that ends just before bar `t`. */
  function WindowStart(t: nat, w: nat): (lo: nat)
    ensures lo <= t
  {
    if t >= w then t - w else 0
  }

  /** Moving the window one bar on adds the new bar and drops the oldest
      one once the window is full. */
  lemma WindowStep(xs: seq<real>, w: nat, t: nat)
    requires t < |xs|
    ensures Sum(xs[WindowStart(t + 1, w)..t + 1])
         == Sum(xs[WindowStart(t, w)..t]) + xs[t] - (if t >= w then xs[t - w] else 0.0)
  {
    var lo := WindowStart(t, w);
    SumSplit(xs, lo, t, t + 1);
    assert xs[t..t + 1] == [xs[t]];
    if t >= w {
      SumSplit(xs, t - w, t - w + 1, t + 1);
      assert xs[t - w..t - w + 1] == [xs[t - w]];
    }
  }

  /** The running sum of the window ending at bar `t` gives the column's
      entry at `t`. */
  lemma EntryFromSum(xs: seq<real>, w: nat, t: nat, sum: real)
    requires t < |xs|
    requires sum == Sum(xs[WindowStart(t + 1, w)..t + 1])
    ensures RollingMeanAt(xs, w, t) == if 0 < w <= t + 1 then Some(sum / (w as real)) else None
  {
    if 0 < w <= t + 1 {
      assert WindowStart(t + 1, w) == t + 1 - w;
    }
  }

  /** Computes the rolling-mean column of window `w` in one pass, keeping a
      running sum of the current window: each bar enters the window once and
      leaves it `w` bars later. */
  method RollingMean(xs: seq<real>, w: nat) returns (col: seq<Option<real>>)
    ensures |col| == |xs|
    ensures forall t :: 0 <= t < |xs| ==> col[t] == RollingMeanAt(xs, w, t)
  {
    col := [];
    var sum := 0.0;
    var t := 0;
    while t < |xs|
      invariant 0 <= t <= |xs|
      invariant |col| == t
      invariant forall k :: 0 <= k < t ==> col[k] == RollingMeanAt(xs, w, k)
      invariant sum == Sum(xs[WindowStart(t, w)..t])
    {
      WindowStep(xs, w, t);
      var leaving := if t >= w then xs[t - w] else 0.0;
      sum := sum + xs[t] - leaving;
      EntryFromSum(xs, w, t, sum);
      var entry := if 0 < w <= t + 1 then Some(sum / (w as real)) else None;
      assert entry == RollingMeanAt(xs, w, t);
      col := col + [entry];
      t := t + 1;
    }
  }
}
