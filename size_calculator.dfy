/** The size calculator `computeSize` (components/SizeGuide.tsx): body-mass
    index, a base index on the top or pant scale, height and fit adjustments,
    clamping to the scale, the "lower - upper" range test and the A/B/C lookup. */
module SizeCalculator {
  import opened Wrappers
  import opened Decimal
  import opened SizeTables

  /** `Math.min(Math.max(value, min), max)`. */
  function Clamp(value: int, min: int, max: int): (r: int)
    ensures r <= max
    ensures min <= max ==> min <= r
    ensures min <= value <= max ==> r == value
    ensures value < min && min <= max ==> r == min
    ensures max < value ==> r == max
  {
    var low := if value > min then value else min;
    if low < max then low else max
  }

  /** `Math.round`: the nearest integer, halves rounded towards +infinity. */
  function Round(x: real): (r: int)
    ensures r as real - 0.5 <= x < r as real + 0.5
  {
    (x + 0.5).Floor
  }

  /** `Math.floor`. */
  function Floor(x: real): (r: int)
    ensures r as real <= x < r as real + 1.0
  {
    x.Floor
  }

  /** `Math.ceil`. */
  function Ceil(x: real): (r: int)
    ensures r as real - 1.0 < x <= r as real
  {
    -((-x).Floor)
  }

  function Abs(x: real): (r: real)
    ensures 0.0 <= r && (r == x || r == -x)
  {
    if x < 0.0 then -x else x
  }

  /** `Array.prototype.find` as a position: the first element satisfying `p`. */
  function FindIndex<T>(s: seq<T>, p: T -> bool): (r: Option<nat>)
    ensures r.Some? ==> r.value < |s| && p(s[r.value])
    ensures r.Some? ==> forall i :: 0 <= i < r.value ==> !p(s[i])
    ensures r.None? <==> forall i :: 0 <= i < |s| ==> !p(s[i])
  {
    if s == [] then None
    else if p(s[0]) then Some(0)
    else match FindIndex(s[1..], p)
      case None => None
      case Some(k) => Some(k + 1)
  }

  /** Weight over height squared, height converted from centimetres to metres. */
  function Bmi(heightCm: real, weightKg: real): (bmi: real)
    requires heightCm > 0.0
    ensures bmi * ((heightCm / 100.0) * (heightCm / 100.0)) == weightKg
  {
    var heightM := heightCm / 100.0;
    weightKg / (heightM * heightM)
  }

  /** The base index on the top scale: BMI buckets at 19, 22, 25, 28 and 31. */
  function TopBaseIndex(bmi: real): (r: nat)
    ensures r < |TOP_SIZES|
    ensures r == 0 <==> bmi < 19.0
    ensures r == |TOP_SIZES| - 1 <==> 31.0 <= bmi
  {
    if bmi < 19.0 then 0
    else if bmi < 22.0 then 1
    else if bmi < 25.0 then 2
    else if bmi < 28.0 then 3
    else if bmi < 31.0 then 4
    else 5
  }

  /** The base index on the pant scale: the `index` of the first entry of the
      pant BMI table whose bound exceeds the BMI, 7 if there is none. */
  function PantBaseIndex(bmi: real): (r: int)
    ensures 0 <= r < |PANT_BMI_RANGES|
    ensures Below(bmi, PANT_BMI_RANGES[r].max)
    ensures forall i :: 0 <= i < r ==> !Below(bmi, PANT_BMI_RANGES[i].max)
  {
    PantBmiRangesOrdered();
    match FindIndex(PANT_BMI_RANGES, (range: BmiRange) => Below(bmi, range.max))
    case Some(i) => PANT_BMI_RANGES[i].index
    case None => assert false; 7
  }

  /** +1 for tall people, -1 for short ones; the short rule is applied last. */
  function HeightAdjust(heightCm: real): (r: int)
    ensures r == 1 <==> heightCm >= 185.0
    ensures r == -1 <==> heightCm <= 160.0
    ensures r == 0 <==> 160.0 < heightCm < 185.0
  {
    var tallAdjust := if heightCm >= 185.0 then 1 else 0;
    if heightCm <= 160.0 then -1 else tallAdjust
  }

  /** Where a fractional index lands on a scale of `count` sizes: the rounded,
      clamped index, and the clamped floor and ceiling when the index is more
      than 0.35 away from it and they differ. */
  datatype Placement = Placement(index: nat, bounds: Option<(nat, nat)>)

  function Place(indexFloat: real, count: nat): (p: Placement)
    requires count > 0
    ensures p.index < count
    ensures p.bounds.Some? ==> p.bounds.value.0 < count && p.bounds.value.1 < count
    ensures p.bounds.Some? ==> p.bounds.value.0 != p.bounds.value.1
    ensures p.bounds.Some? ==> Abs(indexFloat - p.index as real) > 0.35
  {
    var rounded := Clamp(Round(indexFloat), 0, count - 1);
    var bounds :=
      if Abs(indexFloat - rounded as real) > 0.35 then
        var lower := Clamp(Floor(indexFloat), 0, count - 1);
        var upper := Clamp(Ceil(indexFloat), 0, count - 1);
        if lower != upper then Some((lower as nat, upper as nat)) else None
      else None;
    Placement(rounded as nat, bounds)
  }

  /** The top-scale placement for a body and fit. */
  function TopPlacement(heightCm: real, weightKg: real, fit: Fit): (p: Placement)
    requires heightCm > 0.0
    ensures p.index < |TOP_SIZES|
  {
    var indexFloat := TopBaseIndex(Bmi(heightCm, weightKg)) + HeightAdjust(heightCm) + FitAdjust(fit);
    Place(indexFloat as real, |TOP_SIZES|)
  }

  /** The pant-scale placement for a body, fit and cut. */
  function PantPlacement(heightCm: real, weightKg: real, fit: Fit, cut: Cut): (p: Placement)
    requires heightCm > 0.0
    ensures p.index < |PantLabels(cut)|
  {
    PantTablesFollowScales(cut);
    var indexFloat := PantBaseIndex(Bmi(heightCm, weightKg)) + HeightAdjust(heightCm) + FitAdjust(fit);
    Place(indexFloat as real, |PantLabels(cut)|)
  }

  /** The scale a category's sizes are taken from. */
  function Scale(category: Category, cut: Cut): seq<string> {
    if category == Pantalones then PantLabels(cut) else TOP_SIZES
  }

  /** The position on `Scale(category, cut)` of the recommended size. */
  function SizeIndex(heightCm: real, weightKg: real, fit: Fit, category: Category, cut: Cut): (i: nat)
    requires heightCm > 0.0
    ensures i < |Scale(category, cut)|
  {
    if category == Pantalones then PantPlacement(heightCm, weightKg, fit, cut).index
    else TopPlacement(heightCm, weightKg, fit).index
  }

  /** `"LOWER - UPPER"` for a placement whose range test fired. */
  function RangeText(labels: seq<string>, bounds: Option<(nat, nat)>): (r: Option<string>)
    requires bounds.Some? ==> bounds.value.0 < |labels| && bounds.value.1 < |labels|
    ensures r.Some? <==> bounds.Some?
  {
    match bounds
    case None => None
    case Some((lower, upper)) => Some(labels[lower] + " - " + labels[upper])
  }

  /** The summary shown with a result. Its text renders the BMI with one
      decimal and the numbers as JavaScript prints them; that rendering is
      not modelled, only what goes into it. */
  datatype Note = Note(bmi: real, heightCm: real, weightKg: real, fit: Fit, categoryLabel: string, cutLabel: string)

  /** What `computeSize` returns. */
  datatype SizeResult = SizeResult(size: string, note: Note, range: Option<string>, measurements: Option<Measurements>)

  /** The display label of a category, falling back to its value. */
  function CategoryLabel(category: Category): (text: string)
    ensures exists i :: 0 <= i < |CATEGORIES| && CATEGORIES[i].0 == category && text == CATEGORIES[i].1
  {
    CategoriesListEveryCategory(category);
    var p := (entry: (Category, string)) => entry.0 == category;
    match FindIndex(CATEGORIES, p)
    case Some(i) => CATEGORIES[i].1
    case None => assert false; CategoryName(category)
  }

  /** The cut suffix of the note, present only for categories with a cut. */
  function CutLabel(category: Category, cut: Cut): (text: string)
    ensures text != [] <==> HasCut(category)
  {
    if HasCut(category) then " | " + (if cut == Slim then "slim fit" else "regular fit") else ""
  }

  /** The A/B/C of the first pant row whose size, as a string, is `key`. */
  function PantMeasurements(table: seq<PantRow>, key: string): (m: Option<Measurements>)
    ensures m.Some? <==> exists i :: 0 <= i < |table| && NatToDecimal(table[i].size) == key
    ensures forall i :: 0 <= i < |table| && NatToDecimal(table[i].size) == key
                        && (forall j :: 0 <= j < i ==> NatToDecimal(table[j].size) != key)
                        ==> m == Some(Measurements(table[i].a, table[i].b, table[i].c))
  {
    match FindIndex(table, (row: PantRow) => NatToDecimal(row.size) == key)
    case Some(i) => Some(Measurements(table[i].a, table[i].b, table[i].c))
    case None => None
  }

  /** The A/B/C of the first shirt row whose size is `key`. */
  function ShirtMeasurements(table: seq<ShirtRow>, key: string): (m: Option<Measurements>)
    ensures m.Some? <==> exists i :: 0 <= i < |table| && table[i].size == key
    ensures forall i :: 0 <= i < |table| && table[i].size == key
                        && (forall j :: 0 <= j < i ==> table[j].size != key)
                        ==> m == Some(Measurements(table[i].a, table[i].b, table[i].c))
  {
    match FindIndex(table, (row: ShirtRow) => row.size == key)
    case Some(i) => Some(Measurements(table[i].a, table[i].b, table[i].c))
    case None => None
  }

  /** Looking up the label of the `k`-th pant size finds the `k`-th row. */
  lemma PantLookupFindsRow(cut: Cut, k: nat)
    requires k < |PantLabels(cut)|
    ensures k < |PantTable(cut)|
    ensures NatToDecimal(PantTable(cut)[k].size) == PantLabels(cut)[k]
    ensures PantMeasurements(PantTable(cut), PantLabels(cut)[k])
            == Some(Measurements(PantTable(cut)[k].a, PantTable(cut)[k].b, PantTable(cut)[k].c))
  {
    PantTablesFollowScales(cut);
    var table, key := PantTable(cut), PantLabels(cut)[k];
    forall j | 0 <= j < k
      ensures NatToDecimal(table[j].size) != key
    {
      if NatToDecimal(table[j].size) == key {
        NatToDecimalInjective(table[j].size, PantSizes(cut)[k]);
      }
    }
  }

  /** Looking up the `k`-th top label finds the `k`-th shirt row. */
  lemma ShirtLookupFindsRow(cut: Cut, k: nat)
    requires k < |TOP_SIZES|
    ensures k < |ShirtTable(cut)|
    ensures ShirtTable(cut)[k].size == TOP_SIZES[k]
    ensures ShirtMeasurements(ShirtTable(cut), TOP_SIZES[k])
            == Some(Measurements(ShirtTable(cut)[k].a, ShirtTable(cut)[k].b, ShirtTable(cut)[k].c))
  {
    ShirtTablesFollowScale(cut);
    TopSizesDistinct();
  }

  /** `computeSize`: the recommended size, the note's contents, the range
      (if the range test fired) and the A/B/C measurements of the size. */
  function ComputeSize(heightCm: real, weightKg: real, fit: Fit, category: Category, cut: Cut): (r: SizeResult)
    requires heightCm > 0.0
    ensures r.size == Scale(category, cut)[SizeIndex(heightCm, weightKg, fit, category, cut)]
    ensures r.measurements.Some? <==> HasCut(category)
    ensures category == Pantalones ==>
              var row := PantTable(cut)[SizeIndex(heightCm, weightKg, fit, category, cut)];
              NatToDecimal(row.size) == r.size && r.measurements == Some(Measurements(row.a, row.b, row.c))
    ensures category == Camisas ==>
              var row := ShirtTable(cut)[SizeIndex(heightCm, weightKg, fit, category, cut)];
              row.size == r.size && r.measurements == Some(Measurements(row.a, row.b, row.c))
    ensures r.note.cutLabel != [] <==> HasCut(category)
  {
    var bmi := Bmi(heightCm, weightKg);
    var top := TopPlacement(heightCm, weightKg, fit);
    var topRange := RangeText(TOP_SIZES, top.bounds);
    var pantLabels := PantLabels(cut);
    var pant := PantPlacement(heightCm, weightKg, fit, cut);
    var size := if category == Pantalones then pantLabels[pant.index] else TOP_SIZES[top.index];
    var range :=
      if category == Pantalones && pant.bounds.Some? then RangeText(pantLabels, pant.bounds)
      else topRange;
    var note := Note(bmi, heightCm, weightKg, fit, CategoryLabel(category), CutLabel(category, cut));
    PantLookupFindsRow(cut, pant.index);
    ShirtLookupFindsRow(cut, top.index);
    var measurements :=
      if category == Pantalones then PantMeasurements(PantTable(cut), size)
      else if category == Camisas then ShirtMeasurements(ShirtTable(cut), size)
      else None;
    SizeResult(size, note, range, measurements)
  }
}
