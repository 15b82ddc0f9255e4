/**
 * The result screen's arithmetic: the rounded percentage of a finished quiz,
 * the pass rule, the feedback message tier with its style class, and the
 * colour of the percentage badge.
 *
 * `Math.round(x / y * 100)` is modelled on integers: for y > 0 it is the
 * integer nearest to 100 * x / y, halves rounded up, which is
 * (200 * x + y) / (2 * y). A division by zero gives `NaN` in JavaScript;
 * every comparison with `NaN` is false.
 */
module Scoring {

  /** A percentage as the page computes it: a number, or NaN for an empty quiz. */
  datatype Percentage = NotANumber | Percent(value: nat)

  /** A quiz passes at this percentage or above. */
  const PassMark: nat := 70

  /** `Math.round(part / whole * 100)` for a positive `whole`. */
  function RoundedPercent(part: nat, whole: nat): (r: nat)
    requires whole > 0
    // r is the nearest integer to 100 * part / whole, a half rounded up:
    // r - 1/2 <= 100 * part / whole < r + 1/2
    ensures (2 * r - 1) * whole <= 200 * part < (2 * r + 1) * whole
    ensures part <= whole ==> r <= 100
    ensures part == whole ==> r == 100
  {
    RoundingBounds(part, whole);
    (200 * part + whole) / (2 * whole)
  }

  lemma RoundingBounds(part: nat, whole: nat)
    requires whole > 0
    ensures var r := (200 * part + whole) / (2 * whole);
      && 2 * whole * r <= 200 * part + whole < 2 * whole * r + 2 * whole
      && (part <= whole ==> r <= 100)
      && (part == whole ==> r == 100)
  {
    var r := (200 * part + whole) / (2 * whole);
    assert 2 * whole * r <= 200 * part + whole < 2 * whole * r + 2 * whole;
    if part <= whole && r > 100 {
      MulMonotone(101, r, 2 * whole);
    }
    if part == whole && r < 100 {
      MulMonotone(r + 1, 100, 2 * whole);
    }
  }

  lemma MulMonotone(a: int, b: int, c: nat)
    requires a <= b
    ensures a * c <= b * c
  {
  }

  /** The percentage shown for `score` correct answers out of `total` questions. */
  function PercentageOf(score: nat, total: nat): (p: Percentage)
    ensures p.NotANumber? <==> total == 0
    ensures p.Percent? && score <= total ==> p.value <= 100
    ensures p.Percent? && score == total ==> p.value == 100
    ensures score == 0 && total > 0 ==> p == Percent(0)
  {
    if total == 0 then NotANumber else Percent(RoundedPercent(score, total))
  }

  /** `percentage >= 70`: false for NaN. */
  predicate IsPass(p: Percentage) {
    p.Percent? && p.value >= PassMark
  }

  /**
   * A quiz passes exactly when at least 69.5% of its answers are correct,
   * that is 200 * score >= 139 * total (35 of 50, 7 of 10).
   */
  lemma PassIffRatio(score: nat, total: nat)
    ensures IsPass(PercentageOf(score, total)) <==> total > 0 && 200 * score >= 139 * total
  {
    if total > 0 {
      var r := RoundedPercent(score, total);
      if r >= PassMark {
        MulMonotone(139, 2 * r - 1, total);
      } else {
        MulMonotone(2 * r + 1, 139, total);
      }
    }
  }

  /** The five feedback messages of the result screen, best first. */
  datatype Feedback = Excellent | WellDone | Good | Fair | TryAgain

  /** The style class that goes with a feedback message. */
  datatype Tone = Success | Warning | Danger

  /** The background colour of the percentage badge. */
  datatype Colour = Green | Orange | Red

  /** The feedback message: thresholds 90, 80, 70 and 60, checked in that order. */
  function FeedbackFor(p: Percentage): (f: Feedback)
    ensures f == Excellent <==> p.Percent? && p.value >= 90
    ensures f == WellDone <==> p.Percent? && 80 <= p.value < 90
    ensures f == Good <==> p.Percent? && 70 <= p.value < 80
    ensures f == Fair <==> p.Percent? && 60 <= p.value < 70
    ensures f == TryAgain <==> p.NotANumber? || p.value < 60
    ensures IsPass(p) <==> f in {Excellent, WellDone, Good}
  {
    if p.Percent? && p.value >= 90 then Excellent
    else if p.Percent? && p.value >= 80 then WellDone
    else if p.Percent? && p.value >= 70 then Good
    else if p.Percent? && p.value >= 60 then Fair
    else TryAgain
  }

  /** The style class set together with each message. */
  function ToneOf(f: Feedback): Tone {
    match f
    case Excellent | WellDone => Success
    case Good | Fair => Warning
    case TryAgain => Danger
  }

  /** The badge colour: thresholds 80 and 60. */
  function ColourFor(p: Percentage): (c: Colour)
    ensures c == Green <==> p.Percent? && p.value >= 80
    ensures c == Orange <==> p.Percent? && 60 <= p.value < 80
    ensures c == Red <==> p.NotANumber? || p.value < 60
  {
    if p.Percent? && p.value >= 80 then Green
    else if p.Percent? && p.value >= 60 then Orange
    else Red
  }

  /** The badge colour always agrees with the message's style class. */
  lemma ColourMatchesTone(p: Percentage)
    ensures ColourFor(p) == Green <==> ToneOf(FeedbackFor(p)) == Success
    ensures ColourFor(p) == Orange <==> ToneOf(FeedbackFor(p)) == Warning
    ensures ColourFor(p) == Red <==> ToneOf(FeedbackFor(p)) == Danger
  {
  }

  /** Rank of a message, 0 for the best. */
  function Rank(f: Feedback): nat {
    match f
    case Excellent => 0
    case WellDone => 1
    case Good => 2
    case Fair => 3
    case TryAgain => 4
  }

  /** More correct answers out of the same total never earn a worse message. */
  lemma FeedbackMonotone(lo: nat, hi: nat, total: nat)
    requires lo <= hi
    ensures Rank(FeedbackFor(PercentageOf(hi, total))) <= Rank(FeedbackFor(PercentageOf(lo, total)))
  {
    if total > 0 {
      var a, b := RoundedPercent(lo, total), RoundedPercent(hi, total);
      if b < a {
        MulMonotone(2 * b + 1, 2 * a - 1, total);
        assert false;
      }
    }
  }
}
