/**
 The gravity calculators, over exact reals: alcohol by volume, predicted final gravity and pitch rate.
 Not-a-number and infinities have no counterpart here.
 */
module Calc {
  import opened Wrappers

  datatype Error = BadGravity | NotFermented | UnknownFormula | BadAttenuation | BadVolume

  datatype Formula = Default | Alternative | Simple | Other(name: string)

  predicate ValidGravity(g: real) {
    0.990 <= g <= 1.200
  }

  function AlternativeABV(og: real, fg: real): real
    requires ValidGravity(og)
  {
    76.08 * (og - fg) / (1.775 - og) * (fg / 0.794)
  }

  function SimpleABV(og: real, fg: real): real {
    (og - fg) * 131.25
  }

  function ABV(og: real, fg: real, formula: Formula): (r: Result<real, Error>)
    ensures r.Ok? <==> ValidGravity(og) && ValidGravity(fg) && fg < og && !formula.Other?
  {
    if !ValidGravity(og) || !ValidGravity(fg) then Err(BadGravity)
    else if fg >= og then Err(NotFermented)
    else
      match formula
      case Default => Ok(AlternativeABV(og, fg))
      case Alternative => Ok(AlternativeABV(og, fg))
      case Simple => Ok(SimpleABV(og, fg))
      case Other(_) => Err(UnknownFormula)
  }

  /** The final gravity at an attenuation, and the simple-formula ABV that goes with it. */
  datatype Prediction = Prediction(fg: real, abv: real)

  function Times(x: real, y: real): real {
    x * y
  }

  /** Gravity lost at an attenuation. */
  function Drop(og: real, attenuation: real): real {
    Times(og - 1.0, attenuation / 100.0)
  }

  function PredictedFG(og: real, attenuation: real): Result<Prediction, Error> {
    if !ValidGravity(og) then Err(BadGravity)
    else if attenuation < 0.0 || attenuation > 100.0 then Err(BadAttenuation)
    else
      var fg := og - Drop(og, attenuation);
      Ok(Prediction(fg, SimpleABV(og, fg)))
  }

  function PlatoFromSG(sg: real): real {
    -668.962 + 1262.45 * sg - 776.43 * (sg * sg) + 182.94 * (sg * sg * sg)
  }

  datatype Pitch = Pitch(cellsBillion: real, dryYeastG: real, liquidPacks: real)

  const PITCH_FACTOR_DEFAULT := 0.75

  function PitchRate(og: real, volumeL: real, factor: real): Result<Pitch, Error> {
    if !ValidGravity(og) then Err(BadGravity)
    else if volumeL <= 0.0 then Err(BadVolume)
    else
      var f := if factor <= 0.0 then PITCH_FACTOR_DEFAULT else factor;
      var cells := f * (volumeL * 1000.0) * PlatoFromSG(og) / 1000.0;
      Ok(Pitch(cells, cells / 10.0, cells / 100.0))
  }

  // --- What the formulas say ------------------------------------------------------------------------------

  /** Without a division: an ABV of the alternative formula, times its divisors, is 76.08 (OG - FG) FG. */
  lemma ABVIs(og: real, fg: real, formula: Formula)
    ensures var r := ABV(og, fg, formula);
            && (!(0.990 <= og <= 1.200) || !(0.990 <= fg <= 1.200) ==> r == Err(BadGravity))
            && (0.990 <= og <= fg <= 1.200 ==> r == Err(NotFermented))
            && (0.990 <= fg < og <= 1.200 ==>
                  match formula
                  case Simple => r == Ok(131.25 * (og - fg))
                  case Other(_) => r == Err(UnknownFormula)
                  case _ => r.Ok? && r.value * ((1.775 - og) * 0.794) == 76.08 * ((og - fg) * fg))
  {
    if 0.990 <= fg < og <= 1.200 {
      AlternativeTimesDivisors(og, fg);
    }
  }

  lemma AlternativeTimesDivisors(og: real, fg: real)
    requires ValidGravity(og)
    ensures AlternativeABV(og, fg) * ((1.775 - og) * 0.794) == 76.08 * ((og - fg) * fg)
  {
    var d, n := 1.775 - og, 76.08 * (og - fg);
    var q, s := n / d, fg / 0.794;
    assert q * d == n && s * 0.794 == fg;
    assert (q * s) * (d * 0.794) == (q * d) * (s * 0.794) by {
      Regroup(q, s, d, 0.794);
    }
    assert n * fg == 76.08 * ((og - fg) * fg);
  }

  lemma Regroup(a: real, b: real, c: real, d: real)
    ensures (a * b) * (c * d) == (a * c) * (b * d)
  {
    assert (a * b) * (c * d) == a * (b * (c * d));
    assert b * (c * d) == c * (b * d);
    assert a * (c * (b * d)) == (a * c) * (b * d);
  }

  /** The fraction of the points above water that ferments is the attenuation. */
  lemma PredictedFGIs(og: real, attenuation: real)
    ensures var r := PredictedFG(og, attenuation);
            && (!(0.990 <= og <= 1.200) ==> r == Err(BadGravity))
            && (0.990 <= og <= 1.200 && !(0.0 <= attenuation <= 100.0) ==> r == Err(BadAttenuation))
            && (0.990 <= og <= 1.200 && 0.0 <= attenuation <= 100.0 ==>
                  && r.Ok?
                  && 100.0 * (og - r.value.fg) == (og - 1.0) * attenuation
                  && r.value.abv == 131.25 * (og - r.value.fg))
  {
    if 0.990 <= og <= 1.200 && 0.0 <= attenuation <= 100.0 {
      var share := attenuation / 100.0;
      assert 100.0 * ((og - 1.0) * share) == (og - 1.0) * (100.0 * share);
    }
  }

  /** Four points, which fix a cubic: water, and worts of about 10, 19.3 and 28.1 degrees. */
  lemma PlatoPoints()
    ensures PlatoFromSG(1.000) == -0.002
    ensures PlatoFromSG(1.040) == 9.98193216
    ensures PlatoFromSG(1.080) == 19.30776128
    ensures PlatoFromSG(1.120) == 28.04573632
  {
  }

  /** A billion cells for each litre and degree per million in the factor; a gram of dry yeast holds ten billion. */
  lemma PitchRateIs(og: real, volumeL: real, factor: real)
    ensures var r := PitchRate(og, volumeL, factor);
            && (!(0.990 <= og <= 1.200) ==> r == Err(BadGravity))
            && (0.990 <= og <= 1.200 && volumeL <= 0.0 ==> r == Err(BadVolume))
            && (0.990 <= og <= 1.200 && volumeL > 0.0 ==>
                  && r.Ok?
                  && r.value.cellsBillion == Times(if factor > 0.0 then factor else 0.75, volumeL) * PlatoFromSG(og)
                  && r.value.cellsBillion == 10.0 * r.value.dryYeastG
                  && r.value.cellsBillion == 100.0 * r.value.liquidPacks)
  {
    var f := if factor <= 0.0 then PITCH_FACTOR_DEFAULT else factor;
    assert f * (volumeL * 1000.0) == Times(f, volumeL) * 1000.0;
    ThousandOut(Times(f, volumeL), PlatoFromSG(og));
  }

  lemma ThousandOut(x: real, y: real)
    ensures x * 1000.0 * y / 1000.0 == x * y
  {
    assert x * 1000.0 * y == (x * y) * 1000.0;
  }

  // --- Plato ------------------------------------------------------------------------------------------

  lemma Square(x: real)
    ensures x * x >= 0.0
  {
  }

  /** The slope of the chord between two gravities. */
  function Slope(a: real, b: real): real {
    1262.45 - 776.43 * (a + b) + 182.94 * (a * a + a * b + b * b)
  }

  lemma SlopeIsPositive(a: real, b: real)
    ensures Slope(a, b) > 0.0
  {
    var s := a + b;
    Square(a - b);
    Square(s - 2.83);
    assert a * a + a * b + b * b == 0.75 * (s * s) + 0.25 * ((a - b) * (a - b));
    assert (s - 2.83) * (s - 2.83) == s * s - 5.66 * s + 8.0089;
  }

  lemma Chord(a: real, b: real)
    ensures PlatoFromSG(b) - PlatoFromSG(a) == (b - a) * Slope(a, b)
  {
    assert b * b - a * a == (b - a) * (a + b);
    assert b * b * b - a * a * a == (b - a) * (a * a + a * b + b * b);
  }

  lemma Product(x: real, y: real)
    ensures x > 0.0 && y > 0.0 ==> x * y > 0.0
    ensures x < 0.0 && y > 0.0 ==> x * y < 0.0
  {
  }

  /** The Plato cubic is strictly increasing, on the validated range and off it. */
  lemma PlatoIncreases(a: real, b: real)
    ensures a < b <==> PlatoFromSG(a) < PlatoFromSG(b)
  {
    Chord(a, b);
    SlopeIsPositive(a, b);
    Product(b - a, Slope(a, b));
  }

  /** The cubic's only root lies between these two gravities, a little above water. */
  const BELOW_ROOT := 1.00000773
  const ABOVE_ROOT := 1.00000774

  lemma PlatoSign(sg: real)
    ensures sg >= ABOVE_ROOT ==> PlatoFromSG(sg) > 0.0
    ensures sg <= BELOW_ROOT ==> PlatoFromSG(sg) < 0.0
  {
    PlatoIncreases(ABOVE_ROOT, sg);
    PlatoIncreases(sg, BELOW_ROOT);
  }

  /** The sign of a pitch rate does not depend on volume or factor, only on the gravity. */
  lemma PitchRateSign(og: real, volumeL: real, factor: real)
    requires ValidGravity(og) && volumeL > 0.0
    ensures var r := PitchRate(og, volumeL, factor);
            && r.Ok?
            && (r.value.cellsBillion > 0.0 <==> PlatoFromSG(og) > 0.0)
            && (r.value.cellsBillion < 0.0 <==> PlatoFromSG(og) < 0.0)
            && r.value.dryYeastG == 10.0 * r.value.liquidPacks
  {
    var f := if factor <= 0.0 then PITCH_FACTOR_DEFAULT else factor;
    var k := f * (volumeL * 1000.0);
    Product(f, volumeL * 1000.0);
    Product(k, PlatoFromSG(og));
    Product(PlatoFromSG(og), k);
    assert PlatoFromSG(og) == 0.0 ==> k * PlatoFromSG(og) == 0.0;
  }

  /** Whatever the volume and factor, the pitch rate is negative up to the root and positive beyond it. */
  lemma PitchRateAroundRoot(og: real, volumeL: real, factor: real)
    requires ValidGravity(og) && volumeL > 0.0
    ensures PitchRate(og, volumeL, factor).Ok?
    ensures og <= BELOW_ROOT ==> PitchRate(og, volumeL, factor).value.cellsBillion < 0.0
    ensures og >= ABOVE_ROOT ==> PitchRate(og, volumeL, factor).value.cellsBillion > 0.0
  {
    PlatoSign(og);
    PitchRateSign(og, volumeL, factor);
  }

  /** For gravities of three decimals it is positive exactly from 1.001 on and negative below. */
  lemma PitchRatePositiveIff(thousandths: int, volumeL: real, factor: real)
    requires 990 <= thousandths <= 1200 && volumeL > 0.0
    ensures var r := PitchRate(thousandths as real / 1000.0, volumeL, factor);
            && r.Ok?
            && (r.value.cellsBillion > 0.0 <==> thousandths >= 1001)
            && (r.value.cellsBillion < 0.0 <==> thousandths <= 1000)
  {
    PitchRateAroundRoot(thousandths as real / 1000.0, volumeL, factor);
  }

  // --- ABV ------------------------------------------------------------------------------------------------

  lemma DivideOrder(a: real, b: real, c: real, d: real)
    requires b > 0.0 && d > 0.0
    ensures a * d < c * b <==> a / b < c / d
  {
    var x, y := a / b, c / d;
    assert a == x * b && c == y * d;
    assert a * d == x * (b * d) && c * b == y * (b * d);
    Product(b, d);
    Product(y - x, b * d);
    Product(x - y, b * d);
  }

  lemma DivideSame(a: real, c: real, d: real)
    requires a < c && d > 0.0
    ensures a / d < c / d
  {
    Product(c - a, d);
    DivideOrder(a, d, c, d);
  }

  lemma DivideBack(x: real, y: real)
    requires y > 0.0
    ensures y * x / y == x
  {
  }

  /** Gravity points fermented, per point below 1.775. */
  function Ratio(og: real, fg: real): real
    requires ValidGravity(og)
  {
    ((og - fg) * fg) / (1.775 - og)
  }

  lemma AlternativeAs(og: real, fg: real)
    requires ValidGravity(og)
    ensures AlternativeABV(og, fg) == (76.08 / 0.794) * Ratio(og, fg)
  {
    var d, n := 1.775 - og, og - fg;
    var q := 1.0 / d;
    assert 76.08 * n / d == 76.08 * n * q;
    assert (n * fg) / d == n * fg * q;
  }

  lemma SameSign(n: real, x: real, y: real)
    requires n > 0.0
    ensures n * x > n * y <==> x > y
  {
    Product(n, x - y);
    Product(n, y - x);
    assert n * (x - y) == n * x - n * y;
  }

  lemma Swap(x: real, f: real, y: real)
    ensures (x * f) * y == f * (x * y)
  {
  }

  lemma Cross(o: real, m: real, f: real, k: real)
    ensures (m - f) * (k - o) - (o - f) * (k - m) == (m - o) * (k - f)
  {
    assert (m - f) * (k - o) == m * k - m * o - f * k + f * o;
    assert (o - f) * (k - m) == o * k - o * m - f * k + f * m;
    assert (m - o) * (k - f) == m * k - m * f - o * k + o * f;
  }

  lemma CrossRises(o: real, m: real, f: real, k: real)
    requires o < m && 0.0 < f < k
    ensures ((o - f) * f) * (k - m) < ((m - f) * f) * (k - o)
  {
    var u, v := (m - f) * (k - o), (o - f) * (k - m);
    assert u - v > 0.0 by {
      Cross(o, m, f, k);
      Product(m - o, k - f);
    }
    SameSign(f, u, v);
    Swap(m - f, f, k - o);
    Swap(o - f, f, k - m);
  }

  /** The alternative formula rises with the original gravity. */
  lemma AlternativeRisesWithOG(og: real, more: real, fg: real)
    requires ValidGravity(og) && ValidGravity(more) && ValidGravity(fg) && og < more
    ensures AlternativeABV(og, fg) < AlternativeABV(more, fg)
  {
    AlternativeAs(og, fg);
    AlternativeAs(more, fg);
    assert Ratio(og, fg) < Ratio(more, fg) by {
      CrossRises(og, more, fg, 1.775);
      DivideOrder((og - fg) * fg, 1.775 - og, (more - fg) * fg, 1.775 - more);
    }
  }

  lemma FermentedFalls(og: real, fg: real, more: real)
    requires fg < more && og < fg + more
    ensures (og - more) * more < (og - fg) * fg
  {
    assert (og - fg) * fg - (og - more) * more == (more - fg) * (fg + more - og);
    Product(more - fg, fg + more - og);
  }

  /** It falls as the final gravity rises. */
  lemma AlternativeFallsWithFG(og: real, fg: real, more: real)
    requires ValidGravity(og) && ValidGravity(fg) && ValidGravity(more) && fg < more
    ensures AlternativeABV(og, more) < AlternativeABV(og, fg)
  {
    AlternativeAs(og, fg);
    AlternativeAs(og, more);
    assert Ratio(og, more) < Ratio(og, fg) by {
      FermentedFalls(og, fg, more);
      DivideSame((og - more) * more, (og - fg) * fg, 1.775 - og);
    }
  }

  lemma AlternativePerPoint(og: real, fg: real)
    requires ValidGravity(og)
    ensures AlternativeABV(og, fg) == (og - fg) * (76.08 / 0.794 * fg / (1.775 - og))
  {
    var d, n := 1.775 - og, og - fg;
    var q := 1.0 / d;
    assert 76.08 * n / d == 76.08 * n * q;
    assert 76.08 / 0.794 * fg / d == 76.08 / 0.794 * fg * q;
  }

  /** Exactly when the alternative formula gives more than the simple one. */
  lemma AlternativeExceedsSimpleIff(og: real, fg: real)
    requires ValidGravity(og) && ValidGravity(fg) && fg < og
    ensures AlternativeABV(og, fg) > SimpleABV(og, fg) <==> 76.08 * fg > 131.25 * 0.794 * (1.775 - og)
  {
    var perPoint, d := 76.08 / 0.794 * fg / (1.775 - og), 1.775 - og;
    AlternativePerPoint(og, fg);
    SameSign(og - fg, perPoint, 131.25);
    assert 131.25 < perPoint <==> 131.25 * d < 76.08 / 0.794 * fg by {
      DivideOrder(131.25, 1.0, 76.08 / 0.794 * fg, d);
    }
  }

  /** From 1.070 up it does for every final gravity, as its documentation says of strong worts. */
  lemma AlternativeExceedsSimple(og: real, fg: real)
    requires ValidGravity(og) && ValidGravity(fg) && fg < og && og >= 1.070
    ensures ABV(og, fg, Default).Ok? && ABV(og, fg, Simple).Ok?
    ensures ABV(og, fg, Default).value > ABV(og, fg, Simple).value > 0.0
  {
    AlternativeExceedsSimpleIff(og, fg);
  }

  // --- Predicted final gravity ------------------------------------------------------------------------------

  lemma ShareOf(x: real, share: real)
    requires x > 0.0 && 0.0 <= share <= 1.0
    ensures 0.0 <= Times(x, share) <= x
    ensures share > 0.0 ==> Times(x, share) > 0.0
    ensures Times(x, share) / x == share
  {
    Product(x, share);
    Product(x, 1.0 - share);
    assert x * (1.0 - share) == x - x * share;
    DivideBack(share, x);
  }

  /**
   For a wort above water, the prediction lies between water and the wort, gives back the attenuation, and its
   ABV is what the simple formula says of the two gravities.
   */
  lemma PredictionIsConsistent(og: real, attenuation: real)
    requires 1.0 < og <= 1.200 && 0.0 <= attenuation <= 100.0
    ensures PredictedFG(og, attenuation).Ok?
    ensures var p := PredictedFG(og, attenuation).value;
            && 1.0 <= p.fg <= og
            && (og - p.fg) / (og - 1.0) * 100.0 == attenuation
            && (attenuation > 0.0 ==> ABV(og, p.fg, Simple) == Ok(p.abv) && p.abv > 0.0)
  {
    var p := PredictedFG(og, attenuation).value;
    assert og - p.fg == Drop(og, attenuation);
    ShareOf(og - 1.0, attenuation / 100.0);
  }

  /** At or below the gravity of water nothing is predicted to ferment: the ABV is zero or negative. */
  lemma PredictedABVSign(og: real, attenuation: real)
    requires ValidGravity(og) && 0.0 <= attenuation <= 100.0
    ensures PredictedFG(og, attenuation).Ok?
    ensures PredictedFG(og, attenuation).value.abv > 0.0 <==> og > 1.0 && attenuation > 0.0
  {
    var share := attenuation / 100.0;
    Product(og - 1.0, share);
    assert og == 1.0 || share == 0.0 ==> (og - 1.0) * share == 0.0;
  }
}
