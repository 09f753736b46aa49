# BMI engine — a Dafny model

This project models the calculation core of a single-page BMI calculator. `calculateBMI` takes a
weight, a height, a unit system and an optional inches component, and does four things:

1. It rejects non-positive measurements.
2. It converts the measurements and computes the Body Mass Index.
3. It rounds the index to one decimal.
4. It classifies the rounded value into Underweight, Normal, Overweight or Obese. Each category
   comes with a fixed colour class and a fixed description.

`getGaugePosition` maps a BMI onto the 0..100 scale of the gauge that displays it.

All quantities are exact Dafny `real`s. The source's `T | null` result is an `Option`.

- `BmiTypes.dfy` holds the data model of `types.ts`: `UnitType`, `BMICategory` and the `BMIResult` record.
- `Decimal.dfy` holds `parseFloat(x.toFixed(1))` stated over reals. ECMAScript's `toFixed` sets the
  sign aside, picks the integer n whose n/10 is closest to the number, and takes the larger n on a tie.
- `Utils.dfy` holds the engine and the gauge.
- `UtilsLemmas.dfy` holds the properties that relate several calls.

Points of the code worth knowing:

- The code does not check that the inches component is non-negative. A negative value is accepted
  while 12 · feet + inches stays positive (`NegativeInchesAccepted`).
- Rounding is `toFixed(1)`, with half-way cases going away from zero.
- Any unit other than `METRIC` takes the imperial path. `types.ts` declares only `METRIC` and
  `IMPERIAL`, so `Imperial` is the only other case.

## Model

| member | source | states |
|---|---|---|
| `BmiTypes.CategoryName` | types.ts:8-11 | each category's display string, non-empty; `NameDeterminesCategory` shows they are distinct |
| `BmiTypes.Rank` | types.ts:7-12 | the categories are ordered Underweight < Normal < Overweight < Obese, ranks 0..3 |
| `Decimal.RoundNonNegative` | utils.ts:25 | rounding a non-negative number gives a non-negative multiple of 0.1 that is above x - 0.05 and at most x + 0.05 |
| `Decimal.RoundTenth` | utils.ts:25 | `parseFloat(x.toFixed(1))` is a multiple of 0.1 within 0.05 of x, and non-negative for non-negative x |
| `Decimal.RoundTenthIsNearest` | utils.ts:25 | no multiple of 0.1 is closer to x than its rounding |
| `Decimal.RoundTenthMonotone` | utils.ts:25 | x <= y implies the rounding of x is at most the rounding of y |
| `Decimal.RoundTenthFixesTenths` | utils.ts:25 | rounding leaves x unchanged if and only if x is a multiple of 0.1 |
| `Decimal.RoundTenthIdempotent` | utils.ts:25 | rounding an already rounded value changes nothing |
| `Decimal.RoundTenthSymmetric` | utils.ts:25 | rounding of -x is the negation of the rounding of x (the sign is set aside first) |
| `Utils.TotalInches` | utils.ts:20 | computes 12 · feet + inches, which is positive exactly when the inches are above -12 · feet; the rejection and value lemmas state the formula |
| `Utils.ValidMeasurement` | utils.ts:10-21 | the inputs the engine accepts; acceptance guarantees a positive weight and a positive divisor for the unit's formula (height in centimetres, or the total of inches) |
| `Utils.MetricBMI` | utils.ts:16-17 | the metric BMI is positive and satisfies BMI · cm² = 10000 · kg |
| `Utils.ImperialBMI` | utils.ts:22 | the imperial BMI is positive and satisfies BMI · in² = 703 · lb |
| `Utils.Classify` | utils.ts:30-46 | the if/else chain puts the rounded value in its category's band of the boundary table |
| `Utils.CategoryColor` | utils.ts:32-44 | each category's colour class, non-empty; `ColorDeterminesCategory` shows they are distinct |
| `Utils.CategoryDescription` | utils.ts:33-45 | each category's description, non-empty; `DescriptionDeterminesCategory` shows they are distinct |
| `Utils.MakeResult` | utils.ts:25-53 | the result's value is a multiple of 0.1 within 0.05 of the raw BMI, lies in its category's band, and carries that category's colour and description |
| `Utils.CalculateBMI` | utils.ts:4-54 | the result is null exactly for non-positive weight or height, or, off the metric path, a non-positive total of inches; otherwise the value is a non-negative multiple of 0.1 within 0.05 of the unit's BMI formula, lies in its category's band, and carries that category's colour and description |
| `Utils.Min` | utils.ts:61 | `Math.min` of two reals: at most both arguments and equal to one of them |
| `Utils.Max` | utils.ts:61 | `Math.max` of two reals: at least both arguments and equal to one of them |
| `Utils.GetGaugePosition` | utils.ts:56-62 | the position lies in [0, 100]; it equals (bmi - 15) / 25 · 100 on [15, 40], 0 at or below 15, and 100 at or above 40 |
| `UtilsLemmas.RejectsNonPositive` | utils.ts:10 | a non-positive weight or height gives null, whatever the unit system and inches |
| `UtilsLemmas.ImperialRejectsExactlyNonPositiveTotal` | utils.ts:19-22 | with positive weight and height, the imperial result is null if and only if 12 · feet + inches <= 0 |
| `UtilsLemmas.NegativeInchesAccepted` | utils.ts:20-21 | a negative inches component is not rejected by itself: 150 lb at 5 ft minus 2 in gives a result |
| `UtilsLemmas.MetricIgnoresInches` | utils.ts:8 | on the metric path the result does not depend on the inches argument, and omitting it means 0 |
| `UtilsLemmas.MetricValue` | utils.ts:14-17 | for positive weight and height the metric value is the one-decimal rounding of 10000 · kg / cm² |
| `UtilsLemmas.ImperialValue` | utils.ts:19-25 | for a positive weight, height and total, the imperial value is the one-decimal rounding of 703 · lb / (12 · ft + in)² |
| `UtilsLemmas.ValueIsRounded` | utils.ts:25 | every returned value is a fixed point of the one-decimal rounding |
| `UtilsLemmas.ClassifyMatchesBands` | utils.ts:30-46 | a value gets category c if and only if it lies in c's band: below 18.5, [18.5, 25), [25, 30) or 30 and above |
| `UtilsLemmas.BandsDisjoint` | utils.ts:30-46 | no value lies in two bands |
| `UtilsLemmas.ClassifyMonotone` | utils.ts:30-46 | a larger value never gets an earlier category |
| `UtilsLemmas.ClassifyBoundaries` | utils.ts:30-46 | 18.5, 25 and 30 fall into the higher category; 18.4, 24.9 and 29.9 into the lower one |
| `UtilsLemmas.RoundedValueDecidesCategory` | utils.ts:25-37 | the rounded value is what gets classified: a raw BMI of 18.46 is reported as 18.5, Normal |
| `UtilsLemmas.NameDeterminesCategory` | types.ts:8-11 | distinct categories have distinct display strings |
| `UtilsLemmas.ColorDeterminesCategory` | utils.ts:30-46 | distinct categories have distinct colours |
| `UtilsLemmas.DescriptionDeterminesCategory` | utils.ts:30-46 | distinct categories have distinct descriptions |
| `UtilsLemmas.PresentationFollowsCategory` | utils.ts:30-53 | two results have the same colour, and the same description, if and only if they have the same category |
| `UtilsLemmas.CategoryMonotoneInWeight` | utils.ts:10-46 | at a fixed height and unit system, a heavier weight is also accepted and never gets an earlier category |
| `UtilsLemmas.WorkedExamples` | utils.ts:4-54 | 70 kg at 175 cm gives 22.9, Normal; 180 lb at 5 ft 9 in gives 26.6, Overweight |
| `UtilsLemmas.GaugeMonotone` | utils.ts:56-62 | the gauge position never decreases as the BMI grows |
| `UtilsLemmas.GaugeExamples` | utils.ts:56-62 | the gauge gives 0 at 15 and at 0, 100 at 40 and at 100, and 50 at 27.5 |

## Left out

- Floating point: the model computes on exact reals. IEEE-754 doubles, and so the bit-exact
  behaviour of `toFixed` at values whose binary form is not an exact half-way point, are not modelled.
  NaN and Infinity inputs are not modelled either. For example, `NaN <= 0` is false, so the source
  lets NaN past its first guard.
- `toFixed` returns values of 10^21 or more unrounded. A double that large is already a whole
  number, so rounding to a tenth is the identity there anyway. The model always rounds.
- The form handling in App.tsx is not part of this model. That covers string parsing with
  `parseFloat`/`parseInt`, the `isNaN` guards, the 600 ms display delay and dark-mode toggling. The
  `UnitType.US` and `Gender` names it refers to are not declared in `types.ts`.
- The rendering in components/BMIGauge.tsx, components/HealthDashboard.tsx and components/InfoTooltip.tsx
  is presentation. The gauge only calls `getGaugePosition`, which is modelled, and its band widths are cosmetic.
- No ideal-weight range or history log appears in utils.ts or types.ts, so the model has none.
