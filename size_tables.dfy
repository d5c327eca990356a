/** The fixed data the size calculator reads: the enumerations of the form,
    the size scales, the A/B/C measurement tables, the BMI ranges for pants,
    the category labels and the fit adjustment. */
module SizeTables {
  import opened Decimal

  /** Fit preference: loose, normal, tight. */
  datatype Fit = Holgado | Normal | Ajustado

  /** Cut of garments that come in two silhouettes. */
  datatype Cut = Regular | Slim

  datatype Category = Pantalones | Camisas | Sudaderas | Polos | Jerseys | Camisetas

  /** The A/B/C measurements, in centimetres, attached to a result. */
  datatype Measurements = Measurements(a: real, b: real, c: real)

  /** A row of a pant measurement table, keyed by the numeric pant size. */
  datatype PantRow = PantRow(size: nat, a: real, b: real, c: real)

  /** A row of a shirt measurement table, keyed by the letter size. */
  datatype ShirtRow = ShirtRow(size: string, a: real, b: real, c: real)

  /** An upper bound that may be `Number.POSITIVE_INFINITY`. */
  datatype Bound = Finite(value: real) | Infinite

  /** An entry of the BMI-to-pant-index table. */
  datatype BmiRange = BmiRange(max: Bound, index: nat)

  /** `x < b`, where every real number is below infinity. */
  predicate Below(x: real, b: Bound) {
    b.Infinite? || x < b.value
  }

  const TOP_SIZES: seq<string> := ["S", "M", "L", "XL", "2XL", "3XL"]

  const PANT_SIZES_REGULAR: seq<nat> := [36, 38, 40, 42, 44, 46, 48, 50]

  const PANT_SIZES_SLIM: seq<nat> := [38, 40, 42, 44, 46, 48, 50, 52]

  const PANT_TABLE_REGULAR: seq<PantRow> := [
    PantRow(36, 38.0, 25.7, 107.5),
    PantRow(38, 40.0, 26.1, 108.0),
    PantRow(40, 42.0, 26.5, 108.5),
    PantRow(42, 44.0, 26.9, 109.0),
    PantRow(44, 46.0, 26.4, 109.5),
    PantRow(46, 48.0, 27.3, 110.0),
    PantRow(48, 50.0, 27.7, 110.5),
    PantRow(50, 52.0, 28.1, 111.0)
  ]

  const PANT_TABLE_SLIM: seq<PantRow> := [
    PantRow(38, 38.0, 25.2, 105.0),
    PantRow(40, 40.0, 25.6, 105.5),
    PantRow(42, 42.0, 26.0, 106.0),
    PantRow(44, 44.0, 26.4, 106.5),
    PantRow(46, 46.0, 26.8, 107.0),
    PantRow(48, 48.0, 27.2, 107.5),
    PantRow(50, 50.0, 27.6, 108.0),
    PantRow(52, 52.0, 29.0, 108.5)
  ]

  const SHIRT_TABLE_REGULAR: seq<ShirtRow> := [
    ShirtRow("S", 66.0, 54.0, 72.0),
    ShirtRow("M", 67.0, 56.0, 73.0),
    ShirtRow("L", 68.0, 58.0, 74.0),
    ShirtRow("XL", 69.0, 60.0, 75.0),
    ShirtRow("2XL", 70.0, 62.0, 76.0),
    ShirtRow("3XL", 71.0, 64.0, 77.0)
  ]

  const SHIRT_TABLE_SLIM: seq<ShirtRow> := [
    ShirtRow("S", 65.0, 47.0, 70.0),
    ShirtRow("M", 66.0, 52.0, 72.0),
    ShirtRow("L", 67.0, 54.0, 75.0),
    ShirtRow("XL", 68.0, 57.0, 77.0),
    ShirtRow("2XL", 69.0, 61.0, 79.0),
    ShirtRow("3XL", 70.0, 65.0, 81.0)
  ]

  const PANT_BMI_RANGES: seq<BmiRange> := [
    BmiRange(Finite(20.0), 0),
    BmiRange(Finite(21.5), 1),
    BmiRange(Finite(23.0), 2),
    BmiRange(Finite(24.5), 3),
    BmiRange(Finite(26.0), 4),
    BmiRange(Finite(28.0), 5),
    BmiRange(Finite(30.0), 6),
    BmiRange(Infinite, 7)
  ]

  /** The category select: each value with its display label. */
  const CATEGORIES: seq<(Category, string)> := [
    (Pantalones, "Pantalones"),
    (Camisas, "Camisas"),
    (Sudaderas, "Sudaderas"),
    (Polos, "Polos"),
    (Jerseys, "Jerseys"),
    (Camisetas, "Camisetas")
  ]

  /** Every category appears in the category select. */
  lemma CategoriesListEveryCategory(category: Category)
    ensures exists i :: 0 <= i < |CATEGORIES| && CATEGORIES[i].0 == category
  {
    match category
    case Pantalones => assert CATEGORIES[0].0 == category;
    case Camisas => assert CATEGORIES[1].0 == category;
    case Sudaderas => assert CATEGORIES[2].0 == category;
    case Polos => assert CATEGORIES[3].0 == category;
    case Jerseys => assert CATEGORIES[4].0 == category;
    case Camisetas => assert CATEGORIES[5].0 == category;
  }

  /** The string value of a category, as the form stores it. */
  function CategoryName(category: Category): string {
    match category
    case Pantalones => "pantalones"
    case Camisas => "camisas"
    case Sudaderas => "sudaderas"
    case Polos => "polos"
    case Jerseys => "jerseys"
    case Camisetas => "camisetas"
  }

  /** The size-index shift of a fit preference. */
  function FitAdjust(fit: Fit): (r: int)
    ensures -1 <= r <= 1
    ensures r == 1 <==> fit == Holgado
    ensures r == -1 <==> fit == Ajustado
  {
    match fit
    case Holgado => 1
    case Normal => 0
    case Ajustado => -1
  }

  /** Categories that come in a regular and a slim cut and have A/B/C tables. */
  predicate HasCut(category: Category) {
    category == Pantalones || category == Camisas
  }

  function PantSizes(cut: Cut): seq<nat> {
    if cut == Slim then PANT_SIZES_SLIM else PANT_SIZES_REGULAR
  }

  function PantTable(cut: Cut): seq<PantRow> {
    if cut == Slim then PANT_TABLE_SLIM else PANT_TABLE_REGULAR
  }

  function ShirtTable(cut: Cut): seq<ShirtRow> {
    if cut == Slim then SHIRT_TABLE_SLIM else SHIRT_TABLE_REGULAR
  }

  /** The pant scale as the result shows it: each size through `String`. */
  function PantLabels(cut: Cut): (labels: seq<string>)
    ensures |labels| == |PantSizes(cut)|
    ensures forall i :: 0 <= i < |labels| ==> labels[i] == NatToDecimal(PantSizes(cut)[i])
  {
    seq(|PantSizes(cut)|, i requires 0 <= i < |PantSizes(cut)| => NatToDecimal(PantSizes(cut)[i]))
  }

  predicate StrictlyIncreasing(s: seq<nat>) {
    forall i, j :: 0 <= i < j < |s| ==> s[i] < s[j]
  }

  /** Both pant scales have eight sizes, step 2, in increasing order, and each
      pant table lists exactly the sizes of its scale, in the same order. */
  lemma PantTablesFollowScales(cut: Cut)
    ensures |PantSizes(cut)| == |PantTable(cut)| == 8
    ensures StrictlyIncreasing(PantSizes(cut))
    ensures forall i :: 0 <= i < 8 ==> PantTable(cut)[i].size == PantSizes(cut)[i]
    ensures forall i :: 0 <= i < 7 ==> PantSizes(cut)[i + 1] == PantSizes(cut)[i] + 2
  {
  }

  /** Each shirt table lists the six top sizes, in scale order. */
  lemma ShirtTablesFollowScale(cut: Cut)
    ensures |ShirtTable(cut)| == |TOP_SIZES| == 6
    ensures forall i :: 0 <= i < 6 ==> ShirtTable(cut)[i].size == TOP_SIZES[i]
  {
  }

  /** The top labels are pairwise different. */
  lemma TopSizesDistinct()
    ensures forall i, j :: 0 <= i < j < |TOP_SIZES| ==> TOP_SIZES[i] != TOP_SIZES[j]
  {
  }

  /** The pant BMI table: entry `i` has index `i`, the finite bounds increase,
      and the last bound is infinite, so every BMI falls below some bound. */
  lemma PantBmiRangesOrdered()
    ensures |PANT_BMI_RANGES| == 8
    ensures forall i :: 0 <= i < 8 ==> PANT_BMI_RANGES[i].index == i
    ensures forall i :: 0 <= i < 7 ==> PANT_BMI_RANGES[i].max.Finite?
    ensures PANT_BMI_RANGES[7].max.Infinite?
    ensures forall i, j :: 0 <= i < j < 7 ==> PANT_BMI_RANGES[i].max.value < PANT_BMI_RANGES[j].max.value
  {
  }
}
