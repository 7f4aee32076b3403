/** The radial-scale zoom cycle driven by the transform button (main.js:47-95):
    the module-level exponent `exp` and the label-hiding flag derived on each click. */
module Zoom {

  /** The exponent of the radial power scale when the page loads (main.js:7). */
  const InitialExp: real := 1.0

  /** The exponent at which the labels are hidden. */
  const DeepestExp: real := 0.3

  /** The zoom levels in the order the button visits them. */
  const Levels: seq<real> := [1.0, 0.5, 0.3]

  /** What one click decides before anything is redrawn: the new exponent and
      the local `hideLabels` flag. */
  datatype ZoomStep = ZoomStep(exp: real, hideLabels: bool)

  /** One click of the transform button (main.js:52-62). The comparisons are
      exact, as `===` on the three literals is; any other exponent is kept. */
  function Step(e: real): (s: ZoomStep)
    ensures s.hideLabels <==> s.exp == DeepestExp
    ensures e in Levels ==> s.exp in Levels && s.exp != e
    ensures e !in Levels ==> s == ZoomStep(e, false)
  {
    if e == 1.0 then ZoomStep(0.5, false)
    else if e == 0.5 then ZoomStep(0.3, true)
    else if e == 0.3 then ZoomStep(1.0, false)
    else ZoomStep(e, false)
  }

  /** The opacity every label is sent to at the end of a click (main.js:94):
      0 when hidden, otherwise 100 (not 1; CSS clamps it when rendering). */
  function LabelOpacity(hidden: bool): (o: int)
    ensures o == 0 <==> hidden
    ensures o == 0 || o == 100
  {
    if hidden then 0 else 100
  }

  /** The button's order: 1 -> 0.5 -> 0.3 -> 1. */
  lemma StepCycle()
    ensures Step(1.0) == ZoomStep(0.5, false)
    ensures Step(0.5) == ZoomStep(0.3, true)
    ensures Step(0.3) == ZoomStep(1.0, false)
  {
  }

  /** The exponent after `n` clicks starting from `e`. */
  function Iterate(e: real, n: nat): real
  {
    if n == 0 then e else Step(Iterate(e, n - 1)).exp
  }

  /** Three clicks return every exponent to itself: the three levels go round
      the cycle once and any other value is never moved. */
  lemma ThreeStepsRestore(e: real)
    ensures Step(Step(Step(e).exp).exp).exp == e
  {
  }

  /** The cycle has period three from every starting exponent. */
  lemma {:induction false} PeriodThree(e: real, n: nat)
    ensures Iterate(e, n + 3) == Iterate(e, n)
  {
    if n == 0 {
      assert Iterate(e, 1) == Step(e).exp;
      assert Iterate(e, 2) == Step(Step(e).exp).exp;
      assert Iterate(e, 3) == Step(Step(Step(e).exp).exp).exp;
      ThreeStepsRestore(e);
    } else {
      PeriodThree(e, n - 1);
    }
  }

  /** The label flag of click number `n + 3` equals that of click number `n`,
      so the label opacity target repeats with period three as well. */
  lemma {:induction false} HidePeriodThree(e: real, n: nat)
    ensures Step(Iterate(e, n + 3)).hideLabels == Step(Iterate(e, n)).hideLabels
    ensures LabelOpacity(Step(Iterate(e, n + 3)).hideLabels) == LabelOpacity(Step(Iterate(e, n)).hideLabels)
  {
    PeriodThree(e, n);
  }

  /** From the page's initial exponent, click `n` leaves the exponent at the
      level `n mod 3` of the cycle; in particular it never leaves the cycle. */
  lemma {:induction false} LevelAfter(n: nat)
    ensures Iterate(InitialExp, n) == Levels[n % 3]
    ensures Iterate(InitialExp, n) in Levels
  {
    if n > 0 {
      LevelAfter(n - 1);
    }
  }

  /** After a click the labels are hidden exactly when the new exponent is the
      deepest level, and then only; from the initial exponent this is every
      third click. */
  lemma {:induction false} HiddenEveryThirdClick(n: nat)
    requires n > 0
    ensures Step(Iterate(InitialExp, n - 1)).hideLabels <==> n % 3 == 2
  {
    LevelAfter(n);
  }
}
