/** Properties of the size calculator that relate several calls or hold for
    every input: monotonicity in weight, the fit ordering, the fact that the
    index is always a whole number (so no range is ever reported), and the
    worked examples. */
module SizeProperties {
  import opened Wrappers
  import opened Decimal
  import opened SizeTables
  import opened SizeCalculator

  lemma ClampMonotone(u: int, v: int, min: int, max: int)
    requires u <= v
    ensures Clamp(u, min, max) <= Clamp(v, min, max)
  {
  }

  /** For a whole-number index, rounding, flooring and ceiling give the index
      itself, so the placement is just the clamped index: the 0.35 test fires
      exactly when clamping moved the index, and then floor and ceiling clamp
      to the same end of the scale, so no bounds are reported. */
  lemma {:induction false} WholeIndexPlacement(k: int, count: nat)
    requires count > 0
    ensures Place(k as real, count) == Placement(Clamp(k, 0, count - 1) as nat, None)
    ensures Abs(k as real - Clamp(k, 0, count - 1) as real) > 0.35 <==> (k < 0 || count - 1 < k)
  {
    var x := k as real;
    assert Round(x) == k by {
      assert (x + 0.5).Floor == k;
    }
    assert Floor(x) == k && Ceil(x) == k;
  }

  /** The recommended index is the clamped sum of the base index and the two
      whole-number adjustments. */
  lemma SizeIndexIsClampedSum(heightCm: real, weightKg: real, fit: Fit, category: Category, cut: Cut)
    requires heightCm > 0.0
    ensures var bmi := Bmi(heightCm, weightKg);
            var base := if category == Pantalones then PantBaseIndex(bmi) else TopBaseIndex(bmi);
            SizeIndex(heightCm, weightKg, fit, category, cut)
            == Clamp(base + HeightAdjust(heightCm) + FitAdjust(fit), 0, |Scale(category, cut)| - 1)
  {
    var bmi := Bmi(heightCm, weightKg);
    PantTablesFollowScales(cut);
    WholeIndexPlacement(TopBaseIndex(bmi) + HeightAdjust(heightCm) + FitAdjust(fit), |TOP_SIZES|);
    WholeIndexPlacement(PantBaseIndex(bmi) + HeightAdjust(heightCm) + FitAdjust(fit), |PantLabels(cut)|);
  }

  /** `computeSize` never reports a range: the index is always whole. */
  lemma RangeNeverSet(heightCm: real, weightKg: real, fit: Fit, category: Category, cut: Cut)
    requires heightCm > 0.0
    ensures ComputeSize(heightCm, weightKg, fit, category, cut).range == None
  {
    var bmi := Bmi(heightCm, weightKg);
    PantTablesFollowScales(cut);
    WholeIndexPlacement(TopBaseIndex(bmi) + HeightAdjust(heightCm) + FitAdjust(fit), |TOP_SIZES|);
    WholeIndexPlacement(PantBaseIndex(bmi) + HeightAdjust(heightCm) + FitAdjust(fit), |PantLabels(cut)|);
    assert TopPlacement(heightCm, weightKg, fit).bounds == None;
    assert PantPlacement(heightCm, weightKg, fit, cut).bounds == None;
  }

  /** With the other inputs fixed, a tighter fit never gives a larger size. */
  lemma FitOrdering(heightCm: real, weightKg: real, category: Category, cut: Cut)
    requires heightCm > 0.0
    ensures SizeIndex(heightCm, weightKg, Ajustado, category, cut) <= SizeIndex(heightCm, weightKg, Normal, category, cut)
    ensures SizeIndex(heightCm, weightKg, Normal, category, cut) <= SizeIndex(heightCm, weightKg, Holgado, category, cut)
  {
    var bmi := Bmi(heightCm, weightKg);
    var base := if category == Pantalones then PantBaseIndex(bmi) else TopBaseIndex(bmi);
    var last := |Scale(category, cut)| - 1;
    var k := base + HeightAdjust(heightCm);
    SizeIndexIsClampedSum(heightCm, weightKg, Ajustado, category, cut);
    SizeIndexIsClampedSum(heightCm, weightKg, Normal, category, cut);
    SizeIndexIsClampedSum(heightCm, weightKg, Holgado, category, cut);
    ClampMonotone(k - 1, k, 0, last);
    ClampMonotone(k, k + 1, 0, last);
  }

  lemma SquarePositive(x: real)
    requires x > 0.0
    ensures x * x > 0.0
  {
  }

  /** At a fixed height, a heavier person has a BMI at least as large. */
  lemma BmiMonotoneInWeight(heightCm: real, w1: real, w2: real)
    requires heightCm > 0.0 && w1 <= w2
    ensures Bmi(heightCm, w1) <= Bmi(heightCm, w2)
  {
    var heightM := heightCm / 100.0;
    SquarePositive(heightM);
    assert w1 / (heightM * heightM) <= w2 / (heightM * heightM);
  }

  lemma TopBaseIndexMonotone(b1: real, b2: real)
    requires b1 <= b2
    ensures TopBaseIndex(b1) <= TopBaseIndex(b2)
  {
  }

  /** A larger BMI never falls in an earlier pant BMI range. */
  lemma PantBaseIndexMonotone(b1: real, b2: real)
    requires b1 <= b2
    ensures PantBaseIndex(b1) <= PantBaseIndex(b2)
  {
    PantBmiRangesOrdered();
    var i1, i2 := PantBaseIndex(b1), PantBaseIndex(b2);
    // b1 is already below the bound that b2 is below, so b1's range comes no later
    assert Below(b1, PANT_BMI_RANGES[i2].max);
  }

  /** At a fixed height, fit, category and cut, more weight never gives a
      smaller size. */
  lemma WeightMonotone(heightCm: real, w1: real, w2: real, fit: Fit, category: Category, cut: Cut)
    requires heightCm > 0.0 && w1 <= w2
    ensures SizeIndex(heightCm, w1, fit, category, cut) <= SizeIndex(heightCm, w2, fit, category, cut)
  {
    var b1, b2 := Bmi(heightCm, w1), Bmi(heightCm, w2);
    BmiMonotoneInWeight(heightCm, w1, w2);
    TopBaseIndexMonotone(b1, b2);
    PantBaseIndexMonotone(b1, b2);
    SizeIndexIsClampedSum(heightCm, w1, fit, category, cut);
    SizeIndexIsClampedSum(heightCm, w2, fit, category, cut);
    var adjust := HeightAdjust(heightCm) + FitAdjust(fit);
    var last := |Scale(category, cut)| - 1;
    if category == Pantalones {
      ClampMonotone(PantBaseIndex(b1) + adjust, PantBaseIndex(b2) + adjust, 0, last);
    } else {
      ClampMonotone(TopBaseIndex(b1) + adjust, TopBaseIndex(b2) + adjust, 0, last);
    }
  }

  /** 175 cm, 72 kg, normal fit, regular shirt: size L, A/B/C 68/58/74. */
  lemma ExampleRegularShirt()
    ensures ComputeSize(175.0, 72.0, Normal, Camisas, Regular).size == "L"
    ensures ComputeSize(175.0, 72.0, Normal, Camisas, Regular).measurements == Some(Measurements(68.0, 58.0, 74.0))
  {
    assert TopBaseIndex(Bmi(175.0, 72.0)) == 2;
    SizeIndexIsClampedSum(175.0, 72.0, Normal, Camisas, Regular);
  }

  /** 190 cm, 95 kg, loose fit, t-shirt: size 3XL, no measurements. */
  lemma ExampleLooseTShirt()
    ensures ComputeSize(190.0, 95.0, Holgado, Camisetas, Regular).size == "3XL"
    ensures ComputeSize(190.0, 95.0, Holgado, Camisetas, Regular).measurements == None
  {
    assert TopBaseIndex(Bmi(190.0, 95.0)) == 3;
    SizeIndexIsClampedSum(190.0, 95.0, Holgado, Camisetas, Regular);
  }

  /** 165 cm, 60 kg, tight fit, slim pants: size 40, A/B/C 40/25.6/105.5. */
  lemma ExampleTightSlimPants()
    ensures ComputeSize(165.0, 60.0, Ajustado, Pantalones, Slim).size == "40"
    ensures ComputeSize(165.0, 60.0, Ajustado, Pantalones, Slim).measurements == Some(Measurements(40.0, 25.6, 105.5))
  {
    assert PantBaseIndex(Bmi(165.0, 60.0)) == 2;
    SizeIndexIsClampedSum(165.0, 60.0, Ajustado, Pantalones, Slim);
  }

  /** 158 cm, 50 kg, normal fit, regular pants: the short-height adjustment
      moves BMI range 1 down to size 36, and no range is reported. */
  lemma ExampleShortRegularPants()
    ensures ComputeSize(158.0, 50.0, Normal, Pantalones, Regular).size == "36"
    ensures ComputeSize(158.0, 50.0, Normal, Pantalones, Regular).range == None
  {
    assert Bmi(158.0, 50.0) == 50.0 / (1.58 * 1.58);
    assert PantBaseIndex(Bmi(158.0, 50.0)) == 1;
    SizeIndexIsClampedSum(158.0, 50.0, Normal, Pantalones, Regular);
    assert SizeIndex(158.0, 50.0, Normal, Pantalones, Regular) == 0;
    assert PantLabels(Regular)[0] == NatToDecimal(36) == "36";
    RangeNeverSet(158.0, 50.0, Normal, Pantalones, Regular);
  }
}
