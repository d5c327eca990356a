# GuiaTallas size calculator, in Dafny

This project models the size calculator of the GuiaTallas size guide
(`components/SizeGuide.tsx`). Given a height in centimetres, a weight in
kilograms, a fit (`holgado`, `normal`, `ajustado`), a garment category and a
cut (`regular`, `slim`), `computeSize` does the following:

- It computes the body-mass index.
- It buckets the BMI into an index on the six-letter top scale (S to 3XL).
- Pants instead use an index into the dedicated pant BMI table.
- It adds a height adjustment (+1 from 185 cm, -1 up to 160 cm) and a fit
  adjustment (+1, 0, -1), then clamps the sum to the scale.
- It returns the label at that index, a numeric label for pants.
- It can report a "lower - upper" range.
- For pants and shirts only, it attaches the A/B/C measurements of the
  cut-matching table row for that size.

Around it, the form checks the birth year, the age, the height and the weight
before calling the calculator, and picks a guide image, falling back from the
slim guide to the regular one.

Modules:

- `Wrappers` (`wrappers.dfy`): `Option` and `Result`.
- `Decimal` (`decimal.dfy`): JavaScript's `String(n)` for the natural numbers
  of the pant scales, and a read-back function. Reading back the rendering
  of a number gives the number.
- `SizeTables` (`size_tables.dfy`): the enumerations, the size scales, the
  four measurement tables, the pant BMI table, the category labels and the
  fit adjustment. It also proves facts about how the tables line up.
- `SizeCalculator` (`size_calculator.dfy`): `clamp`, the rounding
  functions, `find`, BMI, both base indices, the height adjustment, the
  placement of an index on a scale, the measurement lookups and
  `ComputeSize`.
- `SizeProperties` (`size_properties.dfy`): the properties below, stated
  over all inputs, and the worked examples.
- `SizeForm` (`size_form.dfy`): the validation order of the submit handler,
  the submit step without its timers, and the guide fallback.

The index is always a whole number. `indexFloat` is the sum of a base index
and two integer adjustments, so `Math.round`, `Math.floor` and `Math.ceil`
return it unchanged. The "more than 0.35 away" test fires only when clamping
moved the index. Floor and ceiling then clamp to the same end of the scale.
So `computeSize` never reports a range, for the top path or the pant path
(`SizeProperties.RangeNeverSet`). The range logic is modelled as written, and
this is proved about it. For 158 cm / 50 kg, normal fit, regular pants, the code
gives size 36 and no range (`SizeProperties.ExampleShortRegularPants`).

Two other details follow the code as written:

- When the category is pants and the pant path reports no range, the result
  keeps whatever range the top path computed.
- The height adjustment applies the short-height rule after the tall-height
  rule.

## Model

| member | source | states |
|---|---|---|
| Decimal.NatToDecimal | components/SizeGuide.tsx:267 | the decimal text of a size is non-empty and all digits, has one digit exactly for values below 10, and starts with '0' only for zero |
| Decimal.DecimalRoundTrip | components/SizeGuide.tsx:267 | reading the text of a pant size back as decimal gives the size: `String` loses nothing |
| Decimal.NatToDecimalInjective | components/SizeGuide.tsx:289 | two sizes with the same text are the same size, so comparing `String(item.size)` with the label compares sizes |
| SizeTables.FitAdjust | components/SizeGuide.tsx:192-196 | the fit shift is in -1..1, +1 exactly for `holgado`, -1 exactly for `ajustado` |
| SizeTables.PantLabels | components/SizeGuide.tsx:256-267 | the pant labels are the cut's pant sizes through `String`, one per size, in order |
| SizeTables.PantTablesFollowScales | components/SizeGuide.tsx:12-37 | both pant scales have eight sizes, increasing in steps of 2, and each pant table lists its scale's sizes in order |
| SizeTables.ShirtTablesFollowScale | components/SizeGuide.tsx:40-57 | both shirt tables list the six top sizes in scale order |
| SizeTables.TopSizesDistinct | components/SizeGuide.tsx:10 | the six top labels are pairwise different |
| SizeTables.PantBmiRangesOrdered | components/SizeGuide.tsx:60-69 | the eight pant BMI entries carry indices 0..7 in order, their finite bounds increase, and the last bound is infinite |
| SizeTables.CategoriesListEveryCategory | components/SizeGuide.tsx:118-125 | every category has an entry in the category list |
| SizeCalculator.Clamp | components/SizeGuide.tsx:204-206 | the result is at most max and, when min <= max, at least min; a value already in range is returned unchanged; values below or above the range give min or max |
| SizeCalculator.Round | components/SizeGuide.tsx:237 | `Math.round` gives the integer within half a unit, halves going up |
| SizeCalculator.Floor | components/SizeGuide.tsx:246 | `Math.floor` gives the greatest integer not above x |
| SizeCalculator.Ceil | components/SizeGuide.tsx:247 | `Math.ceil` gives the least integer not below x |
| SizeCalculator.Abs | components/SizeGuide.tsx:245 | `Math.abs` is non-negative and equals x or -x |
| SizeCalculator.FindIndex | components/SizeGuide.tsx:255 | `find` returns the first position whose element satisfies the test, or none exactly when no element does |
| SizeCalculator.Bmi | components/SizeGuide.tsx:216-218 | the BMI times the squared height in metres is the weight; its partner `SizeProperties.BmiMonotoneInWeight` shows it grows with weight |
| SizeCalculator.TopBaseIndex | components/SizeGuide.tsx:221-227 | the top base index is a valid top-scale index; it is 0 exactly when BMI < 19 and 5 exactly when BMI >= 31 |
| SizeCalculator.PantBaseIndex | components/SizeGuide.tsx:254-255 | the pant base index is in 0..7 and is the position of the first pant BMI entry whose bound exceeds the BMI (so the `?? 7` fallback is never used) |
| SizeCalculator.HeightAdjust | components/SizeGuide.tsx:229-231 | +1 iff height >= 185, -1 iff height <= 160, 0 iff strictly between |
| SizeCalculator.Place | components/SizeGuide.tsx:234-251 | the chosen index lies on the scale; reported bounds lie on the scale, differ, and come only when the index is more than 0.35 from the fractional index |
| SizeCalculator.TopPlacement | components/SizeGuide.tsx:234-240 | the top index never falls outside the six top sizes |
| SizeCalculator.PantPlacement | components/SizeGuide.tsx:260-266 | the pant index never falls outside the cut's pant scale |
| SizeCalculator.SizeIndex | components/SizeGuide.tsx:236-266 | the recommended index is within the category's scale (top scale, or the cut's pant scale for pants) |
| SizeCalculator.RangeText | components/SizeGuide.tsx:248-249 | a range string exists exactly when bounds were reported |
| SizeCalculator.CategoryLabel | components/SizeGuide.tsx:278-279 | the note's category label is the category's display label from the category list, never the fallback |
| SizeCalculator.CutLabel | components/SizeGuide.tsx:280-283 | the note carries a cut suffix exactly for pants and shirts |
| SizeCalculator.PantMeasurements | components/SizeGuide.tsx:286-293 | pant measurements exist iff some row's size text equals the label, and then are the A/B/C of the first such row |
| SizeCalculator.ShirtMeasurements | components/SizeGuide.tsx:294-301 | shirt measurements exist iff some row's size equals the label, and then are the A/B/C of the first such row |
| SizeCalculator.PantLookupFindsRow | components/SizeGuide.tsx:288-292 | looking up the k-th pant label of a cut finds the k-th row of that cut's pant table |
| SizeCalculator.ShirtLookupFindsRow | components/SizeGuide.tsx:296-300 | looking up the k-th top label finds the k-th row of the cut's shirt table |
| SizeCalculator.ComputeSize | components/SizeGuide.tsx:209-304 | the size is the label at the recommended index of the category's scale; measurements are present iff the category is pants or shirts, and then are verbatim the A/B/C of the cut's table row whose size is the returned size; the note has a cut suffix iff pants or shirts |
| SizeProperties.ClampMonotone | components/SizeGuide.tsx:204-206 | clamping preserves order |
| SizeProperties.WholeIndexPlacement | components/SizeGuide.tsx:234-251 | a whole-number index is placed at its clamped value with no bounds; the 0.35 test fires exactly when clamping moved the index |
| SizeProperties.SizeIndexIsClampedSum | components/SizeGuide.tsx:234-266 | the recommended index is the clamped sum of base index, height adjustment and fit adjustment |
| SizeProperties.RangeNeverSet | components/SizeGuide.tsx:245-274 | `computeSize` never reports a range, for any input |
| SizeProperties.FitOrdering | components/SizeGuide.tsx:234-266 | with everything else fixed, `ajustado` <= `normal` <= `holgado` on both the top and pant paths |
| SizeProperties.BmiMonotoneInWeight | components/SizeGuide.tsx:217-218 | at a fixed height, more weight never lowers the BMI |
| SizeProperties.TopBaseIndexMonotone | components/SizeGuide.tsx:221-227 | a larger BMI never gives a smaller top base index |
| SizeProperties.PantBaseIndexMonotone | components/SizeGuide.tsx:254-255 | a larger BMI never gives a smaller pant base index |
| SizeProperties.WeightMonotone | components/SizeGuide.tsx:217-266 | at a fixed height, fit, category and cut, more weight never gives a smaller size index |
| SizeProperties.ExampleRegularShirt | components/SizeGuide.tsx:209-304 | 175 cm / 72 kg / normal / camisas / regular gives "L" with 68, 58, 74 |
| SizeProperties.ExampleLooseTShirt | components/SizeGuide.tsx:209-304 | 190 cm / 95 kg / holgado / camisetas gives "3XL" with no measurements |
| SizeProperties.ExampleTightSlimPants | components/SizeGuide.tsx:209-304 | 165 cm / 60 kg / ajustado / pantalones / slim gives "40" with 40, 25.6, 105.5 |
| SizeProperties.ExampleShortRegularPants | components/SizeGuide.tsx:209-304 | 158 cm / 50 kg / normal / pantalones / regular gives "36" and no range |
| SizeForm.Message | components/SizeGuide.tsx:404-433 | each of the three failures has a non-empty message text, as set at lines 407, 415 and 430 |
| SizeForm.MessagesDistinct | components/SizeGuide.tsx:404-433 | the three failures have three different message texts |
| SizeForm.Validate | components/SizeGuide.tsx:404-433 | a missing or non-numeric birth year gives the first error. Otherwise an age outside 12..80 gives the second. Otherwise a height or weight that is missing, zero or outside 130..220 cm / 35..200 kg gives the third. Otherwise there is no error |
| SizeForm.BodyAcceptedIsRangeCheck | components/SizeGuide.tsx:419-426 | the zero tests are subsumed by the range tests |
| SizeForm.Submit | components/SizeGuide.tsx:404-441 | the submit step fails exactly when validation does, with validation's error; otherwise the inputs are in range and the result is `computeSize` of them |
| SizeForm.GuideImages | components/SizeGuide.tsx:128-152 | a category has a slim guide exactly when it is pants or shirts |
| SizeForm.GuideInfo | components/SizeGuide.tsx:476-482 | the slim guide is chosen exactly when the cut is slim and the category has a slim guide; otherwise the regular guide is chosen |

## Left out

- React state and rendering (`useState`, `useRef`, JSX, tabs, modal) and the image-error fallback in the UI: presentation, not computation.
- The progress animation (`setInterval`, `setTimeout`, `Date.now`) and `stopProgress`: timers.
- The unit toggles `switchHeightUnit` / `switchWeightUnit` and the inch/pound conversion in the submit handler: floating-point multiplication and display rounding. `SizeForm.Submit` takes height and weight already in centimetres and kilograms.
- The current year (`new Date().getFullYear()`) is a parameter of `SizeForm.Validate`. The birth-year list offered by the select is not modelled.
- Parsing of the form's strings by `Number(...)`: the model takes the parsed value. `None` stands for an empty field or NaN.
- The note's text: `bmi.toFixed(1)` and the rendering of the numbers. The note is modelled as the record of what goes into it.
- The `ABC_COPY` explanatory strings: display copy only.
- IEEE floating point: heights, weights and BMI are exact reals. `ComputeSize` requires a positive height. A zero height, which gives an infinite BMI in JavaScript, is outside the model. The form never passes one, because it requires at least 130 cm.
- `app/layout.tsx` and `next.config.js`: page metadata and framework configuration, no logic.
