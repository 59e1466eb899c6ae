/**
 * The threshold-driven suggestion text of `create_report`. Each rule picks one
 * of two mutually exclusive messages. Python's comparisons with NaN are False,
 * so an undefined statistic always selects the rule's second message.
 */
module Narrative {
  import opened Wrappers
  import opened Series

  /** The suggestion sentences the reports can emit. */
  datatype Message =
    | FanHighStaticPoor          // fault condition 1: flag often True, fan fast but duct static poor
    | FanStaticGood              // fault condition 1: flag seldom True, duct static good
    | NoSetpointReset            // fault condition 1: constant duct pressure setpoint (BAD)
    | SetpointReset              // fault condition 1: duct pressure reset detected (Good)
    | SensorsOutOfCalibration    // fault condition 2: temperature sensors out of calibration
    | SensorsWithinCalibration   // fault condition 2: temperature sensors within calibration

  datatype Comparison = Above | Below

  /** `if percent_true <cmp> threshold: whenMet else: otherwise`. */
  datatype PercentRule = PercentRule(cmp: Comparison, threshold: real, whenMet: Message, otherwise: Message)

  /** A float comparison as Python evaluates it: False whenever the left side is NaN. */
  predicate Holds(cmp: Comparison, x: Option<real>, threshold: real)
  {
    x.Some? && match cmp
               case Above => x.value > threshold
               case Below => x.value < threshold
  }

  function PercentMessage(rule: PercentRule, percentTrue: Option<real>): Message
  {
    if Holds(rule.cmp, percentTrue, rule.threshold) then rule.whenMet else rule.otherwise
  }

  /** Fault condition 1: more than 5 % flagged is poor fan performance. */
  const FaultOneRule := PercentRule(Above, 5.0, FanHighStaticPoor, FanStaticGood)

  /** Fault condition 2: LESS than 5 % flagged reads "out of calibration", the polarity as written. */
  const FaultTwoRule := PercentRule(Below, 5.0, SensorsOutOfCalibration, SensorsWithinCalibration)

  function Id(d: real): real { d }

  /** The square of a deviation, as the product of two factors of equal sign (see SquareSign). */
  function Square(d: real): real
  {
    d * Id(d)
  }

  /** Sum of squared deviations from `m`. */
  function SumSquares(xs: seq<real>, m: real): real
  {
    if xs == [] then 0.0
    else SumSquares(xs[..|xs| - 1], m) + Square(xs[|xs| - 1] - m)
  }

  /** `Series.var()` with ddof = 1: NaN for fewer than two readings. */
  function SampleVariance(xs: seq<real>): Option<real>
  {
    if |xs| < 2 then None
    else
      var m := Sum(xs) / |xs| as real;
      Some(SumSquares(xs, m) / (|xs| - 1) as real)
  }

  /**
   * `if setpoint.std() == 0`. The standard deviation is the square root of the
   * variance, so it is 0 exactly when the variance is; NaN == 0 is False.
   */
  function SetpointMessage(setpoint: seq<real>): Message
  {
    if SampleVariance(setpoint) == Some(0.0) then NoSetpointReset else SetpointReset
  }

  predicate Constant(xs: seq<real>)
  {
    forall i :: 0 <= i < |xs| ==> xs[i] == xs[0]
  }

  // ---------------------------------------------------------------- lemmas

  /** Fault condition 1's percent rule, including the NaN case of an empty frame. */
  lemma FaultOnePercentRule(percentTrue: Option<real>)
    ensures PercentMessage(FaultOneRule, percentTrue) == FanHighStaticPoor
            <==> percentTrue.Some? && percentTrue.value > 5.0
    ensures PercentMessage(FaultOneRule, percentTrue) != FanHighStaticPoor
            ==> PercentMessage(FaultOneRule, percentTrue) == FanStaticGood
    ensures percentTrue.None? ==> PercentMessage(FaultOneRule, percentTrue) == FanStaticGood
  {
  }

  /** Fault condition 2's percent rule, "out of calibration" below 5 %, and "within" for NaN. */
  lemma FaultTwoPercentRule(percentTrue: Option<real>)
    ensures PercentMessage(FaultTwoRule, percentTrue) == SensorsOutOfCalibration
            <==> percentTrue.Some? && percentTrue.value < 5.0
    ensures PercentMessage(FaultTwoRule, percentTrue) != SensorsOutOfCalibration
            ==> PercentMessage(FaultTwoRule, percentTrue) == SensorsWithinCalibration
    ensures percentTrue.None? ==> PercentMessage(FaultTwoRule, percentTrue) == SensorsWithinCalibration
  {
  }

  lemma {:induction false} SumConstant(xs: seq<real>, c: real)
    requires forall i :: 0 <= i < |xs| ==> xs[i] == c
    ensures Sum(xs) == |xs| as real * c
  {
    if xs != [] {
      SumConstant(xs[..|xs| - 1], c);
    }
  }

  lemma MulPositive(a: real, b: real)
    requires a > 0.0 && b > 0.0
    ensures a * b > 0.0
  {
  }

  lemma SquareSign(d: real)
    ensures Square(d) >= 0.0
    ensures d != 0.0 ==> Square(d) > 0.0
  {
    if d > 0.0 {
      MulPositive(d, Id(d));
    } else if d < 0.0 {
      MulPositive(-d, -Id(d));
    }
  }

  /** The squared deviations vanish exactly when every reading equals `m`. */
  lemma {:induction false} SumSquaresZero(xs: seq<real>, m: real)
    ensures SumSquares(xs, m) >= 0.0
    ensures SumSquares(xs, m) == 0.0 <==> forall i :: 0 <= i < |xs| ==> xs[i] == m
  {
    if xs != [] {
      var n := |xs|;
      SumSquaresZero(xs[..n - 1], m);
      SquareSign(xs[n - 1] - m);
      if SumSquares(xs, m) == 0.0 {
        forall i | 0 <= i < n ensures xs[i] == m {
          if i < n - 1 { assert xs[i] == xs[..n - 1][i]; }
        }
      }
    }
  }

  /** "No setpoint reset" is reported exactly for a constant setpoint of at least two readings. */
  lemma SetpointRule(setpoint: seq<real>)
    ensures SetpointMessage(setpoint) == NoSetpointReset <==> |setpoint| >= 2 && Constant(setpoint)
    ensures SetpointMessage(setpoint) != NoSetpointReset ==> SetpointMessage(setpoint) == SetpointReset
  {
    var xs := setpoint;
    if |xs| >= 2 {
      var n := |xs| as real;
      var m := Sum(xs) / n;
      SumSquaresZero(xs, m);
      var ss := SumSquares(xs, m);
      assert ss / (n - 1.0) == 0.0 <==> ss == 0.0;
      if Constant(xs) {
        SumConstant(xs, xs[0]);
        assert m == xs[0];
      }
    }
  }
}
