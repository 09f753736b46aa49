/**
 * The BMI engine: `calculateBMI` validates the measurements, converts them, computes the
 * BMI, rounds it to one decimal and classifies the rounded value; `getGaugePosition` places
 * a BMI value on the 0..100 scale of the gauge.
 */
module Utils {
  import opened Wrappers
  import opened BmiTypes
  import opened Decimal

  /** Height in inches on the imperial path: whole feet plus the inches component. */
  function TotalInches(feet: real, inches: real): (t: real)
    ensures t > 0.0 <==> inches > -12.0 * feet
  {
    feet * 12.0 + inches
  }

  /** The measurements the engine accepts; every other input yields no result. */
  predicate ValidMeasurement(weight: real, height: real, unitType: UnitType, heightInch: real): (ok: bool)
    ensures ok ==> weight > 0.0 && (if unitType == Metric then height > 0.0 else TotalInches(height, heightInch) > 0.0)
  {
    && weight > 0.0
    && height > 0.0
    && (unitType != Metric ==> TotalInches(height, heightInch) > 0.0)
  }

  /** BMI from kilograms and centimetres: kg / m², with m = cm / 100. */
  function MetricBMI(weight: real, heightCm: real): (b: real)
    requires weight > 0.0 && heightCm > 0.0
    ensures b > 0.0
    ensures b * (heightCm * heightCm) == 10000.0 * weight
  {
    var heightInMeters := heightCm / 100.0;
    weight / (heightInMeters * heightInMeters)
  }

  /** BMI from pounds and inches: 703 · lb / in². */
  function ImperialBMI(weight: real, totalInches: real): (b: real)
    requires weight > 0.0 && totalInches > 0.0
    ensures b > 0.0
    ensures b * (totalInches * totalInches) == 703.0 * weight
  {
    703.0 * (weight / (totalInches * totalInches))
  }

  /** The boundary table of the categories: each lower bound inclusive, Obese unbounded above. */
  predicate InBand(c: BMICategory, v: real) {
    match c
    case Underweight => v < 18.5
    case Normal => 18.5 <= v < 25.0
    case Overweight => 25.0 <= v < 30.0
    case Obese => 30.0 <= v
  }

  /** The category chosen by the if/else chain over the rounded value. */
  function Classify(roundedBmi: real): (c: BMICategory)
    ensures InBand(c, roundedBmi)
  {
    if roundedBmi < 18.5 then Underweight
    else if roundedBmi >= 18.5 && roundedBmi < 25.0 then Normal
    else if roundedBmi >= 25.0 && roundedBmi < 30.0 then Overweight
    else Obese
  }

  /** The colour class each category is shown in. */
  function CategoryColor(c: BMICategory): (s: string)
    ensures |s| > 0
  {
    match c
    case Underweight => "text-blue-500"
    case Normal => "text-emerald-500"
    case Overweight => "text-amber-500"
    case Obese => "text-rose-500"
  }

  /** The advice texts of the four categories. */
  const UnderweightDescription: string := "Your BMI indicates you are in the underweight range. It is important to consult with a healthcare professional to discuss your overall health and nutrition."
  const NormalDescription: string := "Congratulations! Your BMI is within the healthy range. Maintaining a balanced diet and regular physical activity are key to staying here."
  const OverweightDescription: string := "Your BMI indicates you are in the overweight range. Small changes to your diet and activity level can have a positive impact on your health."
  const ObeseDescription: string := "Your BMI indicates you are in the obese range. Focusing on sustainable lifestyle changes and seeking guidance from health professionals can help manage health risks."

  /** The advice text each category is shown with. */
  function CategoryDescription(c: BMICategory): (s: string)
    ensures |s| > 0
  {
    match c
    case Underweight => UnderweightDescription
    case Normal => NormalDescription
    case Overweight => OverweightDescription
    case Obese => ObeseDescription
  }

  /** The result record for a raw BMI value: rounded, classified, coloured and described. */
  function MakeResult(bmiValue: real): (r: BMIResult)
    ensures IsTenth(r.value) && Abs(r.value - bmiValue) <= 0.05
    ensures InBand(r.category, r.value)
    ensures r.color == CategoryColor(r.category) && r.description == CategoryDescription(r.category)
  {
    var roundedBmi := RoundTenth(bmiValue);
    var category := Classify(roundedBmi);
    BMIResult(roundedBmi, category, CategoryColor(category), CategoryDescription(category))
  }

  /**
   * `calculateBMI(weight, height, unitType, heightInch = 0)`: None for a non-positive weight or
   * height, and on the imperial path for a non-positive total of inches; otherwise the rounded
   * and classified BMI.
   */
  function CalculateBMI(weight: real, height: real, unitType: UnitType, heightInch: real := 0.0): (r: Option<BMIResult>)
    ensures r.None? <==> !ValidMeasurement(weight, height, unitType, heightInch)
    ensures r.Some? && unitType == Metric ==>
              Abs(r.value.value - MetricBMI(weight, height)) <= 0.05
    ensures r.Some? && unitType != Metric ==>
              Abs(r.value.value - ImperialBMI(weight, TotalInches(height, heightInch))) <= 0.05
    ensures r.Some? ==> IsTenth(r.value.value) && r.value.value >= 0.0
    ensures r.Some? ==> InBand(r.value.category, r.value.value)
    ensures r.Some? ==>
              r.value.color == CategoryColor(r.value.category) &&
              r.value.description == CategoryDescription(r.value.category)
  {
    if weight <= 0.0 || height <= 0.0 then None
    else if unitType == Metric then
      Some(MakeResult(MetricBMI(weight, height)))
    else
      var totalInches := TotalInches(height, heightInch);
      if totalInches <= 0.0 then None
      else Some(MakeResult(ImperialBMI(weight, totalInches)))
  }

  function Min(a: real, b: real): (m: real)
    ensures m <= a && m <= b && (m == a || m == b)
  {
    if a <= b then a else b
  }

  function Max(a: real, b: real): (m: real)
    ensures m >= a && m >= b && (m == a || m == b)
  {
    if a >= b then a else b
  }

  /** `getGaugePosition(bmi)`: BMI 15..40 mapped linearly onto 0..100 and clamped there. */
  function GetGaugePosition(bmi: real): (p: real)
    ensures 0.0 <= p <= 100.0
    ensures 15.0 <= bmi <= 40.0 ==> p * 25.0 == (bmi - 15.0) * 100.0
    ensures bmi <= 15.0 ==> p == 0.0
    ensures bmi >= 40.0 ==> p == 100.0
  {
    var min := 15.0;
    var max := 40.0;
    var percentage := ((bmi - min) / (max - min)) * 100.0;
    Min(Max(percentage, 0.0), 100.0)
  }
}
