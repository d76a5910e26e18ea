/** The pandas Series operations the indicator engine is built from:
    `rolling(window, min_periods).mean()`, `diff()`, `clip(lower=…)`,
    `clip(upper=…)` and negation. A series is a sequence indexed by position;
    `None` is NaN. */
module Series {
  import opened Floats

  /** Sum of a sequence of reals, adding from the left. */
  function Sum(s: seq<real>): real
  {
    if s == [] then 0.0 else Sum(s[..|s| - 1]) + s[|s| - 1]
  }

  /** The observations of a series: its non-NaN values, in order. */
  function Present(s: seq<Option<real>>): seq<real>
  {
    if s == [] then []
    else Present(s[..|s| - 1]) + (if s[|s| - 1].Some? then [s[|s| - 1].value] else [])
  }

  predicate AllPresent(s: seq<Option<real>>)
  {
    forall k :: 0 <= k < |s| ==> s[k].Some?
  }

  /** A sequence of reals as a series with no NaN in it. */
  function Observed(c: seq<real>): (xs: seq<Option<real>>)
    ensures |xs| == |c|
    ensures AllPresent(xs)
    ensures forall k :: 0 <= k < |c| ==> xs[k] == Some(c[k])
  {
    seq(|c|, k requires 0 <= k < |c| => Some(c[k]))
  }

  /** First index of the trailing window of `window` positions that ends at i,
      cut off at the start of the series. */
  function WindowStart(i: nat, window: nat): nat
  {
    if i + 1 >= window then i + 1 - window else 0
  }

  /** The mean of one window: NaN unless it holds at least `minPeriods`
      observations (and at least one), else the mean of its observations. */
  function WindowMean(win: seq<Option<real>>, minPeriods: nat): Option<real>
  {
    var obs := Present(win);
    if |obs| >= minPeriods && |obs| > 0 then Some(Sum(obs) / |obs| as real) else None
  }

  /** `xs.rolling(window=window, min_periods=minPeriods).mean()`.
      pandas refuses a min_periods larger than the window. */
  function RollingMean(xs: seq<Option<real>>, window: nat, minPeriods: nat): (r: seq<Option<real>>)
    requires minPeriods <= window
    ensures |r| == |xs|
  {
    seq(|xs|, i requires 0 <= i < |xs| => WindowMean(xs[WindowStart(i, window)..i + 1], minPeriods))
  }

  /** `c.diff()`: NaN at index 0, then the change from the previous value. */
  function Diff(c: seq<real>): (d: seq<Option<real>>)
    ensures |d| == |c|
  {
    seq(|c|, i requires 0 <= i < |c| => if i == 0 then None else Some(c[i] - c[i - 1]))
  }

  function Max(x: real, y: real): real { if x >= y then x else y }

  function Min(x: real, y: real): real { if x <= y then x else y }

  /** `xs.clip(lower=lo)`: NaN stays NaN. */
  function ClipLower(xs: seq<Option<real>>, lo: real): (r: seq<Option<real>>)
    ensures |r| == |xs|
    ensures forall i :: 0 <= i < |xs| ==> (r[i].Some? <==> xs[i].Some?)
    ensures forall i :: 0 <= i < |xs| && r[i].Some? ==> r[i].value >= lo
    ensures forall i :: 0 <= i < |xs| && xs[i].Some? ==>
      && (xs[i].value >= lo ==> r[i].value == xs[i].value)
      && (xs[i].value < lo ==> r[i].value == lo)
  {
    seq(|xs|, i requires 0 <= i < |xs| =>
      match xs[i]
      case None => None
      case Some(x) => Some(Max(x, lo)))
  }

  /** `xs.clip(upper=hi)`: NaN stays NaN. */
  function ClipUpper(xs: seq<Option<real>>, hi: real): (r: seq<Option<real>>)
    ensures |r| == |xs|
    ensures forall i :: 0 <= i < |xs| ==> (r[i].Some? <==> xs[i].Some?)
    ensures forall i :: 0 <= i < |xs| && r[i].Some? ==> r[i].value <= hi
    ensures forall i :: 0 <= i < |xs| && xs[i].Some? ==>
      && (xs[i].value <= hi ==> r[i].value == xs[i].value)
      && (xs[i].value > hi ==> r[i].value == hi)
  {
    seq(|xs|, i requires 0 <= i < |xs| =>
      match xs[i]
      case None => None
      case Some(x) => Some(Min(x, hi)))
  }

  /** `-xs`: NaN stays NaN. */
  function Negate(xs: seq<Option<real>>): (r: seq<Option<real>>)
    ensures |r| == |xs|
    ensures forall i :: 0 <= i < |xs| ==> (r[i].Some? <==> xs[i].Some?)
    ensures forall i :: 0 <= i < |xs| && r[i].Some? ==> r[i].value == -xs[i].value
  {
    seq(|xs|, i requires 0 <= i < |xs| =>
      match xs[i]
      case None => None
      case Some(x) => Some(-x))
  }

  // ---------------------------------------------------------------------
  // Observations and sums

  /** A window has as many observations as positions exactly when it holds
      no NaN; otherwise it has fewer. */
  lemma {:induction false} PresentCount(s: seq<Option<real>>)
    ensures |Present(s)| <= |s|
    ensures |Present(s)| == |s| <==> AllPresent(s)
  {
    if s != [] {
      var init := s[..|s| - 1];
      PresentCount(init);
      if AllPresent(s) {
        assert AllPresent(init);
      } else if AllPresent(init) {
        assert !s[|s| - 1].Some?;
      }
    }
  }

  /** Without NaN, the observations are the values themselves. */
  lemma {:induction false} PresentOfAllPresent(s: seq<Option<real>>)
    requires AllPresent(s)
    ensures |Present(s)| == |s|
    ensures forall k :: 0 <= k < |s| ==> Present(s)[k] == s[k].value
  {
    if s != [] {
      var init := s[..|s| - 1];
      assert AllPresent(init);
      PresentOfAllPresent(init);
    }
  }

  lemma {:induction false} PresentOfObserved(c: seq<real>)
    ensures Present(Observed(c)) == c
  {
    var xs := Observed(c);
    PresentOfAllPresent(xs);
  }

  lemma {:induction false} SumNonNegative(s: seq<real>)
    requires forall k :: 0 <= k < |s| ==> s[k] >= 0.0
    ensures Sum(s) >= 0.0
  {
    if s != [] {
      SumNonNegative(s[..|s| - 1]);
    }
  }

  lemma {:induction false} SumPositive(s: seq<real>, j: nat)
    requires forall k :: 0 <= k < |s| ==> s[k] >= 0.0
    requires j < |s| && s[j] > 0.0
    ensures Sum(s) > 0.0
  {
    var init := s[..|s| - 1];
    if j == |s| - 1 {
      SumNonNegative(init);
    } else {
      SumPositive(init, j);
    }
  }

  lemma {:induction false} SumZero(s: seq<real>)
    requires forall k :: 0 <= k < |s| ==> s[k] == 0.0
    ensures Sum(s) == 0.0
  {
    if s != [] {
      SumZero(s[..|s| - 1]);
    }
  }

  // ---------------------------------------------------------------------
  // Rolling mean with min_periods equal to the window

  /** With `min_periods` equal to the window, the rolling mean at i exists
      exactly when a full window ends at i and holds no NaN, and it is then
      the plain mean of that window. */
  lemma RollingMeanFull(xs: seq<Option<real>>, window: nat, i: nat)
    requires 0 < window && i < |xs|
    ensures RollingMean(xs, window, window)[i].Some? <==>
            i + 1 >= window && AllPresent(xs[i + 1 - window..i + 1])
    ensures RollingMean(xs, window, window)[i].Some? ==>
            RollingMean(xs, window, window)[i].value ==
            Sum(Present(xs[i + 1 - window..i + 1])) / window as real
  {
    var win := xs[WindowStart(i, window)..i + 1];
    PresentCount(win);
  }
}
