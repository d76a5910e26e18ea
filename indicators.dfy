/** The indicator engine, `compute_indicators` in test.py: from a series of
    daily closing prices, a frame of three aligned columns — the close, its
    20-day simple moving average and a 14-day relative-strength index whose
    gain and loss averages are plain rolling means. */
module Indicators {
  import opened Floats
  import opened Series

  const SmaWindow: nat := 20
  const RsiWindow: nat := 14

  /** The result frame: one entry per input close in every column. */
  datatype Frame = Frame(close: seq<real>, sma20: seq<Option<real>>, rsi14: seq<Float>)
  {
    predicate Aligned() {
      |sma20| == |close| && |rsi14| == |close|
    }
  }

  /** 20-day simple moving average, `close.rolling(window=20, min_periods=20).mean()`. */
  function Sma20(close: seq<real>): (r: seq<Option<real>>)
    ensures |r| == |close|
  {
    RollingMean(Observed(close), SmaWindow, SmaWindow)
  }

  /** `delta.clip(lower=0)` */
  function Gain(close: seq<real>): (r: seq<Option<real>>)
    ensures |r| == |close|
  {
    ClipLower(Diff(close), 0.0)
  }

  /** `-delta.clip(upper=0)` */
  function Loss(close: seq<real>): (r: seq<Option<real>>)
    ensures |r| == |close|
  {
    Negate(ClipUpper(Diff(close), 0.0))
  }

  function AvgGain(close: seq<real>): (r: seq<Option<real>>)
    ensures |r| == |close|
  {
    RollingMean(Gain(close), RsiWindow, RsiWindow)
  }

  function AvgLoss(close: seq<real>): (r: seq<Option<real>>)
    ensures |r| == |close|
  {
    RollingMean(Loss(close), RsiWindow, RsiWindow)
  }

  /** `avg_gain / avg_loss`, element by element, with IEEE division. */
  function Rs(close: seq<real>): (r: seq<Float>)
    ensures |r| == |close|
  {
    var g, l := AvgGain(close), AvgLoss(close);
    seq(|close|, i requires 0 <= i < |close| => Div(FromOption(g[i]), FromOption(l[i])))
  }

  /** `100 - (100 / (1 + rs))` for one value of the ratio. */
  function RsiOfRatio(rs: Float): (r: Float)
    ensures rs.NaN? ==> r.NaN?
    ensures rs == PosInf ==> r == Finite(100.0)
  {
    Sub(Finite(100.0), Div(Finite(100.0), Add(Finite(1.0), rs)))
  }

  function Rsi14(close: seq<real>): (r: seq<Float>)
    ensures |r| == |close|
  {
    var rs := Rs(close);
    seq(|close|, i requires 0 <= i < |close| => RsiOfRatio(rs[i]))
  }

  /** `compute_indicators`: the frame keeps the input's positions and order,
      and its Close column is the input unchanged. */
  function ComputeIndicators(close: seq<real>): (f: Frame)
    ensures f.Aligned()
    ensures f.close == close
  {
    Frame(close, Sma20(close), Rsi14(close))
  }

  /** The usual closed form of the RSI from the two averages:
      100·G / (G + L), undefined when both averages are zero. */
  function RsiReference(g: real, l: real): Float
  {
    if g + l == 0.0 then NaN else Finite(100.0 * g / (g + l))
  }

  // ---------------------------------------------------------------------
  // SMA20

  /** SMA20 at i is "no value" before a full 20-close window exists, and the
      mean of the 20 closes ending at i from then on. */
  lemma SmaAt(close: seq<real>, i: nat)
    requires i < |close|
    ensures i < 19 ==> Sma20(close)[i] == None
    ensures i >= 19 ==> Sma20(close)[i] == Some(Sum(close[i - 19..i + 1]) / 20.0)
  {
    var xs := Observed(close);
    RollingMeanFull(xs, SmaWindow, i);
    if i >= 19 {
      assert xs[i - 19..i + 1] == Observed(close[i - 19..i + 1]);
      PresentOfObserved(close[i - 19..i + 1]);
    }
  }

  /** Fewer than 20 closes: SMA20 is "no value" everywhere. */
  lemma SmaUndefinedWhenShort(close: seq<real>)
    requires |close| < 20
    ensures forall i :: 0 <= i < |close| ==> Sma20(close)[i] == None
  {
    forall i | 0 <= i < |close| {
      SmaAt(close, i);
    }
  }

  // ---------------------------------------------------------------------
  // delta, gain, loss

  /** From index 1 on, the gain is the rise and the loss the fall of the
      close, each at least 0. */
  lemma ChangeAt(close: seq<real>, d: nat)
    requires 1 <= d < |close|
    ensures Gain(close)[d] == Some(Max(close[d] - close[d - 1], 0.0))
    ensures Loss(close)[d] == Some(Max(close[d - 1] - close[d], 0.0))
  {
  }

  /** The change is undefined at index 0; from index 1 on, gain and loss are
      non-negative, their difference is the change, and at most one of them
      is non-zero. */
  lemma GainLossAt(close: seq<real>, i: nat)
    requires i < |close|
    ensures i == 0 ==> Diff(close)[i] == None && Gain(close)[i] == None && Loss(close)[i] == None
    ensures i >= 1 ==>
      && Diff(close)[i] == Some(close[i] - close[i - 1])
      && Gain(close)[i].Some? && Loss(close)[i].Some?
      && Gain(close)[i].value >= 0.0 && Loss(close)[i].value >= 0.0
      && Gain(close)[i].value - Loss(close)[i].value == close[i] - close[i - 1]
      && (Gain(close)[i].value == 0.0 || Loss(close)[i].value == 0.0)
  {
  }

  // ---------------------------------------------------------------------
  // Averages

  /** Each gain average exists exactly from index 14 on (the change at
      index 0 is missing, so the window ending at 13 is one short), and is
      then the mean of the 14 gains ending at i. */
  lemma AvgGainAt(close: seq<real>, i: nat)
    requires i < |close|
    ensures AvgGain(close)[i].Some? <==> i >= 14
    ensures i >= 14 ==> (AllPresent(Gain(close)[i - 13..i + 1]) &&
            AvgGain(close)[i].value == Sum(Present(Gain(close)[i - 13..i + 1])) / 14.0)
  {
    var xs := Gain(close);
    RollingMeanFull(xs, RsiWindow, i);
    if i == 13 {
      assert xs[i + 1 - RsiWindow..i + 1][0] == xs[0] == None;
    }
  }

  /** As AvgGainAt, for losses. */
  lemma AvgLossAt(close: seq<real>, i: nat)
    requires i < |close|
    ensures AvgLoss(close)[i].Some? <==> i >= 14
    ensures i >= 14 ==> (AllPresent(Loss(close)[i - 13..i + 1]) &&
            AvgLoss(close)[i].value == Sum(Present(Loss(close)[i - 13..i + 1])) / 14.0)
  {
    var xs := Loss(close);
    RollingMeanFull(xs, RsiWindow, i);
    if i == 13 {
      assert xs[i + 1 - RsiWindow..i + 1][0] == xs[0] == None;
    }
  }

  /** The 14 gains ending at i, as reals (i >= 14). */
  function GainWindow(close: seq<real>, i: nat): seq<real>
    requires 14 <= i < |close|
  {
    Present(Gain(close)[i - 13..i + 1])
  }

  /** The 14 losses ending at i, as reals (i >= 14). */
  function LossWindow(close: seq<real>, i: nat): seq<real>
    requires 14 <= i < |close|
  {
    Present(Loss(close)[i - 13..i + 1])
  }

  /** The k-th entry of the windows ending at i is the gain and the loss of
      the change at i - 13 + k. */
  lemma WindowsAt(close: seq<real>, i: nat)
    requires 14 <= i < |close|
    ensures |GainWindow(close, i)| == 14 && |LossWindow(close, i)| == 14
    ensures forall k :: 0 <= k < 14 ==>
      && GainWindow(close, i)[k] == Gain(close)[i - 13 + k].value
      && LossWindow(close, i)[k] == Loss(close)[i - 13 + k].value
  {
    AvgGainAt(close, i);
    AvgLossAt(close, i);
    PresentOfAllPresent(Gain(close)[i - 13..i + 1]);
    PresentOfAllPresent(Loss(close)[i - 13..i + 1]);
  }

  /** Both averages are non-negative wherever they exist. */
  lemma AveragesNonNegative(close: seq<real>, i: nat)
    requires 14 <= i < |close|
    ensures AvgGain(close)[i].Some? && AvgGain(close)[i].value >= 0.0
    ensures AvgLoss(close)[i].Some? && AvgLoss(close)[i].value >= 0.0
  {
    AvgGainAt(close, i);
    AvgLossAt(close, i);
    WindowsAt(close, i);
    var gains, losses := GainWindow(close, i), LossWindow(close, i);
    forall k | 0 <= k < 14 ensures gains[k] >= 0.0 && losses[k] >= 0.0 {
      GainLossAt(close, i - 13 + k);
    }
    SumNonNegative(gains);
    SumNonNegative(losses);
  }

  // ---------------------------------------------------------------------
  // RSI

  /** The arithmetic behind the closed form: for a positive loss average,
      100 - 100 / (1 + g / l) = 100·g / (g + l), and that lies in [0, 100). */
  lemma RatioChainAlgebra(g: real, l: real)
    requires g >= 0.0 && l > 0.0
    ensures 1.0 + g / l > 0.0
    ensures 100.0 - 100.0 / (1.0 + g / l) == 100.0 * g / (g + l)
    ensures 0.0 <= 100.0 * g / (g + l) < 100.0
  {
    var s := g + l;
    var x := g / l;
    assert x * l == g;
    assert x >= 0.0;
    var y := 1.0 + x;
    assert y * l == s;
    var z := 100.0 / y;
    assert z * y == 100.0;
    assert z * s == 100.0 * l by {
      calc {
        z * s;
        z * (y * l);
        (z * y) * l;
        100.0 * l;
      }
    }
    var r := 100.0 - z;
    assert r * s == 100.0 * g;
    assert r == 100.0 * g / s;
    assert z > 0.0;
  }

  /** A finite ratio (positive loss average): the chain computes on reals
      throughout and gives the closed form. */
  lemma RsiOfFiniteRatio(g: real, l: real)
    requires g >= 0.0 && l > 0.0
    ensures RsiOfRatio(Div(Finite(g), Finite(l))) == RsiReference(g, l)
    ensures RsiReference(g, l) == Finite(100.0 * g / (g + l))
  {
    RatioChainAlgebra(g, l);
    var rs := g / l;
    var y := 1.0 + rs;
    assert y > 0.0;
    var q := 100.0 / y;
    assert Div(Finite(g), Finite(l)) == Finite(rs);
    assert Add(Finite(1.0), Finite(rs)) == Finite(y);
    assert Div(Finite(100.0), Finite(y)) == Finite(q);
    assert Sub(Finite(100.0), Finite(q)) == Finite(100.0 - q);
  }

  /** An infinite ratio (zero loss average, positive gain average):
      g / 0 = inf, 1 + inf = inf, 100 / inf = 0, 100 - 0 = 100, as the
      closed form says. */
  lemma RsiOfInfiniteRatio(g: real, l: real)
    requires g > 0.0 && l == 0.0
    ensures RsiOfRatio(Div(Finite(g), Finite(l))) == RsiReference(g, l)
    ensures RsiReference(g, l) == Finite(100.0)
  {
    assert Div(Finite(g), Finite(l)) == PosInf;
    assert Add(Finite(1.0), PosInf) == PosInf;
    assert Div(Finite(100.0), PosInf) == Finite(0.0);
    assert g + l == g;
    assert 100.0 * g / g == 100.0;
  }

  /** Both averages zero: 0 / 0 is NaN and stays NaN through the chain, as
      the closed form says. */
  lemma RsiOfZeroOverZero(g: real, l: real)
    requires g == 0.0 && l == 0.0
    ensures RsiOfRatio(Div(Finite(g), Finite(l))) == RsiReference(g, l)
    ensures RsiReference(g, l) == NaN
  {
    assert Div(Finite(g), Finite(l)) == NaN;
  }

  /** For non-negative averages the chain `100 - 100 / (1 + g / l)`, with
      IEEE division, is the closed form 100·g / (g + l): an infinite ratio
      (l = 0 < g) gives 100, 0/0 gives "no value", and nothing fails. */
  lemma RsiFromAverages(g: real, l: real)
    requires g >= 0.0 && l >= 0.0
    ensures RsiOfRatio(Div(Finite(g), Finite(l))) == RsiReference(g, l)
  {
    if l > 0.0 {
      RsiOfFiniteRatio(g, l);
    } else if g > 0.0 {
      RsiOfInfiniteRatio(g, l);
    } else {
      RsiOfZeroOverZero(g, l);
    }
  }

  /** The closed form is never infinite and lies in [0, 100]; it is "no value"
      exactly when both averages are 0, 0 exactly when g = 0 < l, and 100
      exactly when l = 0 < g. */
  lemma RsiReferenceRange(g: real, l: real)
    requires g >= 0.0 && l >= 0.0
    ensures RsiReference(g, l).Finite? || RsiReference(g, l).NaN?
    ensures RsiReference(g, l).NaN? <==> g == 0.0 && l == 0.0
    ensures RsiReference(g, l).Finite? ==> 0.0 <= RsiReference(g, l).v <= 100.0
    ensures RsiReference(g, l) == Finite(0.0) <==> g == 0.0 && l > 0.0
    ensures RsiReference(g, l) == Finite(100.0) <==> l == 0.0 && g > 0.0
  {
    if l > 0.0 {
      RatioChainAlgebra(g, l);
      if g > 0.0 {
        assert 100.0 * g / (g + l) > 0.0;
      }
    } else if g > 0.0 {
      RsiOfInfiniteRatio(g, l);
    }
  }

  /** RSI14 is "no value" before index 14; from there on it is the closed
      form applied to the two averages, both of which exist. */
  lemma RsiAt(close: seq<real>, i: nat)
    requires i < |close|
    ensures i < 14 ==> Rsi14(close)[i] == NaN
    ensures i >= 14 ==>
      && AvgGain(close)[i].Some? && AvgLoss(close)[i].Some?
      && Rsi14(close)[i] == RsiReference(AvgGain(close)[i].value, AvgLoss(close)[i].value)
  {
    AvgGainAt(close, i);
    AvgLossAt(close, i);
    if i >= 14 {
      AveragesNonNegative(close, i);
      RsiFromAverages(AvgGain(close)[i].value, AvgLoss(close)[i].value);
    }
  }

  /** Wherever RSI14 is defined it is a finite value in [0, 100]. From
      index 14 on, it is 0 exactly when the gain average is 0 and the loss
      average is positive, 100 exactly when the loss average is 0 and the
      gain average positive, and "no value" exactly when both are 0. */
  lemma RsiRange(close: seq<real>, i: nat)
    requires i < |close|
    ensures Rsi14(close)[i].Finite? || Rsi14(close)[i].NaN?
    ensures Rsi14(close)[i].Finite? ==> 0.0 <= Rsi14(close)[i].v <= 100.0
    ensures i >= 14 ==> AvgGain(close)[i].Some? && AvgLoss(close)[i].Some?
    ensures i >= 14 ==>
      var g, l := AvgGain(close)[i].value, AvgLoss(close)[i].value;
      && (Rsi14(close)[i] == Finite(0.0) <==> g == 0.0 && l > 0.0)
      && (Rsi14(close)[i] == Finite(100.0) <==> l == 0.0 && g > 0.0)
      && (Rsi14(close)[i] == NaN <==> g == 0.0 && l == 0.0)
  {
    RsiAt(close, i);
    if i >= 14 {
      AveragesNonNegative(close, i);
      RsiReferenceRange(AvgGain(close)[i].value, AvgLoss(close)[i].value);
    }
  }

  /** No fall among the 14 changes ending at i: the loss average is 0. */
  lemma NoFallNoLoss(close: seq<real>, i: nat)
    requires 14 <= i < |close|
    requires forall k :: i - 13 <= k <= i ==> close[k] >= close[k - 1]
    ensures AvgLoss(close)[i] == Some(0.0)
  {
    AvgLossAt(close, i);
    WindowsAt(close, i);
    var losses := LossWindow(close, i);
    forall k | 0 <= k < 14 ensures losses[k] == 0.0 {
      var d := i - 13 + k;
      assert close[d] >= close[d - 1];
      ChangeAt(close, d);
    }
    SumZero(losses);
  }

  /** No rise among the 14 changes ending at i: the gain average is 0. */
  lemma NoRiseNoGain(close: seq<real>, i: nat)
    requires 14 <= i < |close|
    requires forall k :: i - 13 <= k <= i ==> close[k] <= close[k - 1]
    ensures AvgGain(close)[i] == Some(0.0)
  {
    AvgGainAt(close, i);
    WindowsAt(close, i);
    var gains := GainWindow(close, i);
    forall k | 0 <= k < 14 ensures gains[k] == 0.0 {
      var d := i - 13 + k;
      assert close[d] <= close[d - 1];
      ChangeAt(close, d);
    }
    SumZero(gains);
  }

  /** A rise at j among the 14 changes ending at i: the gain average is
      positive. */
  lemma RiseGivesGain(close: seq<real>, i: nat, j: nat)
    requires 14 <= i < |close|
    requires i - 13 <= j <= i && close[j] > close[j - 1]
    ensures AvgGain(close)[i].Some? && AvgGain(close)[i].value > 0.0
  {
    AvgGainAt(close, i);
    WindowsAt(close, i);
    var gains := GainWindow(close, i);
    forall k | 0 <= k < 14 ensures gains[k] >= 0.0 {
      GainLossAt(close, i - 13 + k);
    }
    GainLossAt(close, j);
    var m := j - (i - 13);
    assert gains[m] == Gain(close)[j].value > 0.0;
    SumPositive(gains, m);
  }

  /** If none of the 14 changes ending at i is a fall and at least one is a
      rise, RSI14 at i is 100 (zero loss average, infinite ratio). */
  lemma RsiAllGains(close: seq<real>, i: nat, j: nat)
    requires 14 <= i < |close|
    requires forall k :: i - 13 <= k <= i ==> close[k] >= close[k - 1]
    requires i - 13 <= j <= i && close[j] > close[j - 1]
    ensures Rsi14(close)[i] == Finite(100.0)
  {
    NoFallNoLoss(close, i);
    RiseGivesGain(close, i, j);
    RsiRange(close, i);
  }

  /** If none of the 14 changes ending at i moves the price, RSI14 at i is
      "no value" (0/0), not an error. */
  lemma RsiFlat(close: seq<real>, i: nat)
    requires 14 <= i < |close|
    requires forall k :: i - 13 <= k <= i ==> close[k] == close[k - 1]
    ensures Rsi14(close)[i] == NaN
  {
    NoFallNoLoss(close, i);
    NoRiseNoGain(close, i);
    RsiRange(close, i);
  }
}
