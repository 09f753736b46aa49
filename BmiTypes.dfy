/** The data model of the engine: the unit systems, the categories and the result record. */
module BmiTypes {

  /** The unit system a calculation is made in: kilograms and centimetres, or pounds and feet plus inches. */
  datatype UnitType = Metric | Imperial

  /** The four BMI categories, in the order of increasing BMI. */
  datatype BMICategory = Underweight | Normal | Overweight | Obese

  /** The display string each category carries. */
  function CategoryName(c: BMICategory): (s: string)
    ensures |s| > 0
  {
    match c
    case Underweight => "Underweight"
    case Normal => "Normal"
    case Overweight => "Overweight"
    case Obese => "Obese"
  }

  /** The record a successful calculation returns. */
  datatype BMIResult = BMIResult(value: real, category: BMICategory, color: string, description: string)

  /** The position of a category in the order Underweight < Normal < Overweight < Obese. */
  function Rank(c: BMICategory): (n: nat)
    ensures n < 4
  {
    match c
    case Underweight => 0
    case Normal => 1
    case Overweight => 2
    case Obese => 3
  }
}
