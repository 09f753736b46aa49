/** Properties of the BMI engine and the gauge mapping. */
module UtilsLemmas {
  import opened Wrappers
  import opened BmiTypes
  import opened Decimal
  import opened Utils

  // ---------------------------------------------------------------- validation

  /** A non-positive weight or height is rejected, whatever the unit system. */
  lemma RejectsNonPositive(weight: real, height: real, unitType: UnitType, heightInch: real)
    requires weight <= 0.0 || height <= 0.0
    ensures CalculateBMI(weight, height, unitType, heightInch) == None
  {
  }

  /**
   * On the imperial path, with a positive weight and height, the only other rejection is a
   * non-positive total of inches.
   */
  lemma ImperialRejectsExactlyNonPositiveTotal(weight: real, height: real, heightInch: real)
    requires weight > 0.0 && height > 0.0
    ensures CalculateBMI(weight, height, Imperial, heightInch).None? <==> height * 12.0 + heightInch <= 0.0
  {
  }

  /** A negative inches component is not rejected by itself: 5 ft minus 2 in is 58 in. */
  lemma NegativeInchesAccepted()
    ensures CalculateBMI(150.0, 5.0, Imperial, -2.0).Some?
  {
  }

  /** On the metric path the inches component plays no part. */
  lemma MetricIgnoresInches(weight: real, height: real, a: real, b: real)
    ensures CalculateBMI(weight, height, Metric, a) == CalculateBMI(weight, height, Metric, b)
    ensures CalculateBMI(weight, height, Metric, a) == CalculateBMI(weight, height, Metric)
  {
  }

  // ---------------------------------------------------------------- the value

  /** Metric: the value is the one-decimal rounding of 10000 · kg / cm². */
  lemma MetricValue(weight: real, height: real)
    requires weight > 0.0 && height > 0.0
    ensures CalculateBMI(weight, height, Metric).Some?
    ensures CalculateBMI(weight, height, Metric).value.value == RoundTenth(10000.0 * weight / (height * height))
  {
    QuotientUnique(MetricBMI(weight, height), 10000.0 * weight, height * height);
  }

  /** Imperial: the value is the one-decimal rounding of 703 · lb / in², in = 12 · ft + inches. */
  lemma ImperialValue(weight: real, height: real, heightInch: real)
    requires weight > 0.0 && height > 0.0 && height * 12.0 + heightInch > 0.0
    ensures CalculateBMI(weight, height, Imperial, heightInch).Some?
    ensures CalculateBMI(weight, height, Imperial, heightInch).value.value
            == RoundTenth(703.0 * weight / ((height * 12.0 + heightInch) * (height * 12.0 + heightInch)))
  {
    var t := TotalInches(height, heightInch);
    var b := ImperialBMI(weight, t);
    assert CalculateBMI(weight, height, Imperial, heightInch) == Some(MakeResult(b));
    QuotientUnique(b, 703.0 * weight, t * t);
    assert t == height * 12.0 + heightInch;
    assert 703.0 * weight / ((height * 12.0 + heightInch) * (height * 12.0 + heightInch)) == b;
  }

  /** The value returned is already rounded: rounding it again changes nothing. */
  lemma ValueIsRounded(weight: real, height: real, unitType: UnitType, heightInch: real)
    requires CalculateBMI(weight, height, unitType, heightInch).Some?
    ensures var v := CalculateBMI(weight, height, unitType, heightInch).value.value;
            RoundTenth(v) == v
  {
    RoundTenthFixesTenths(CalculateBMI(weight, height, unitType, heightInch).value.value);
  }

  // ---------------------------------------------------------------- classification

  /** The if/else chain and the boundary table agree in both directions. */
  lemma ClassifyMatchesBands(c: BMICategory, v: real)
    ensures Classify(v) == c <==> InBand(c, v)
  {
  }

  /** No value lies in two bands. */
  lemma BandsDisjoint(c1: BMICategory, c2: BMICategory, v: real)
    requires InBand(c1, v) && InBand(c2, v)
    ensures c1 == c2
  {
  }

  /** A larger value never falls in an earlier category. */
  lemma ClassifyMonotone(v1: real, v2: real)
    requires v1 <= v2
    ensures Rank(Classify(v1)) <= Rank(Classify(v2))
  {
  }

  /** The boundary values belong to the higher category. */
  lemma ClassifyBoundaries()
    ensures Classify(18.4) == Underweight
    ensures Classify(18.5) == Normal && Classify(24.9) == Normal
    ensures Classify(25.0) == Overweight && Classify(29.9) == Overweight
    ensures Classify(30.0) == Obese
  {
  }

  /** The category is chosen from the rounded value: a raw BMI of 18.46 counts as Normal. */
  lemma RoundedValueDecidesCategory()
    ensures MetricBMI(18.46, 100.0) < 18.5
    ensures CalculateBMI(18.46, 100.0, Metric) == Some(MakeResult(18.46))
    ensures MakeResult(18.46).value == 18.5 && MakeResult(18.46).category == Normal
  {
    assert (18.46 * 10.0 + 0.5).Floor == 185;
  }

  /** Each category has its own display string. */
  lemma NameDeterminesCategory(c1: BMICategory, c2: BMICategory)
    requires CategoryName(c1) == CategoryName(c2)
    ensures c1 == c2
  {
  }

  /** Each category has its own colour. */
  lemma ColorDeterminesCategory(c1: BMICategory, c2: BMICategory)
    requires CategoryColor(c1) == CategoryColor(c2)
    ensures c1 == c2
  {
  }

  /** Each category has its own description. */
  lemma DescriptionDeterminesCategory(c1: BMICategory, c2: BMICategory)
    requires CategoryDescription(c1) == CategoryDescription(c2)
    ensures c1 == c2
  {
  }

  /** Colour and description of two results agree exactly when their categories do. */
  lemma PresentationFollowsCategory(r1: BMIResult, r2: BMIResult, w1: real, h1: real, u1: UnitType, i1: real,
                                    w2: real, h2: real, u2: UnitType, i2: real)
    requires CalculateBMI(w1, h1, u1, i1) == Some(r1) && CalculateBMI(w2, h2, u2, i2) == Some(r2)
    ensures r1.category == r2.category <==> r1.color == r2.color
    ensures r1.category == r2.category <==> r1.description == r2.description
  {
    if r1.color == r2.color {
      ColorDeterminesCategory(r1.category, r2.category);
    }
    if r1.description == r2.description {
      DescriptionDeterminesCategory(r1.category, r2.category);
    }
  }

  /** At a fixed height and unit system, a heavier weight never gives an earlier category. */
  lemma CategoryMonotoneInWeight(w1: real, w2: real, height: real, unitType: UnitType, heightInch: real)
    requires 0.0 < w1 <= w2
    requires CalculateBMI(w1, height, unitType, heightInch).Some?
    ensures CalculateBMI(w2, height, unitType, heightInch).Some?
    ensures Rank(CalculateBMI(w1, height, unitType, heightInch).value.category)
            <= Rank(CalculateBMI(w2, height, unitType, heightInch).value.category)
  {
    var b1, b2;
    if unitType == Metric {
      b1, b2 := MetricBMI(w1, height), MetricBMI(w2, height);
      var m := height / 100.0;
      DivideMonotone(w1, w2, m * m);
    } else {
      var t := TotalInches(height, heightInch);
      b1, b2 := ImperialBMI(w1, t), ImperialBMI(w2, t);
      DivideMonotone(w1, w2, t * t);
    }
    RoundTenthMonotone(b1, b2);
    ClassifyMonotone(RoundTenth(b1), RoundTenth(b2));
  }

  lemma QuotientUnique(q: real, n: real, d: real)
    requires d > 0.0 && q * d == n
    ensures q == n / d
  {
  }

  lemma DivideMonotone(a: real, b: real, d: real)
    requires a <= b && d > 0.0
    ensures a / d <= b / d
  {
  }

  /** The worked examples: 70 kg at 175 cm, and 180 lb at 5 ft 9 in. */
  lemma WorkedExamples()
    ensures CalculateBMI(70.0, 175.0, Metric) == Some(MakeResult(MetricBMI(70.0, 175.0)))
    ensures MakeResult(MetricBMI(70.0, 175.0)).value == 22.9
    ensures MakeResult(MetricBMI(70.0, 175.0)).category == Normal
    ensures CalculateBMI(180.0, 5.0, Imperial, 9.0) == Some(MakeResult(ImperialBMI(180.0, 69.0)))
    ensures MakeResult(ImperialBMI(180.0, 69.0)).value == 26.6
    ensures MakeResult(ImperialBMI(180.0, 69.0)).category == Overweight
  {
    assert MetricBMI(70.0, 175.0) == 70.0 / (1.75 * 1.75);
    assert (MetricBMI(70.0, 175.0) * 10.0 + 0.5).Floor == 229;
    assert ImperialBMI(180.0, 69.0) == 126540.0 / 4761.0;
    assert (ImperialBMI(180.0, 69.0) * 10.0 + 0.5).Floor == 266;
  }

  // ---------------------------------------------------------------- gauge

  /** The gauge position never decreases as the BMI grows. */
  lemma GaugeMonotone(b1: real, b2: real)
    requires b1 <= b2
    ensures GetGaugePosition(b1) <= GetGaugePosition(b2)
  {
  }

  /** The gauge at its two ends, its midpoint and beyond. */
  lemma GaugeExamples()
    ensures GetGaugePosition(15.0) == 0.0 && GetGaugePosition(40.0) == 100.0
    ensures GetGaugePosition(0.0) == 0.0 && GetGaugePosition(100.0) == 100.0
    ensures GetGaugePosition(27.5) == 50.0
  {
  }
}
