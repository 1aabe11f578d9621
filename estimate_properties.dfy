/**
 * Properties of the store's transitions: how the grand-total formulas
 * relate, what the toggles and overrides keep, what the base-field edit
 * re-derives, and the invariants the item tables keep.
 */
module EstimateProperties {
  import opened Wrappers
  import opened Numeric
  import opened ItemLists
  import opened EstimateTypes
  import opened Formulas
  import opened Aggregation
  import opened EstimateRules

  // ------------------------------------------------------------ grand totals

  /** No override, or an override with no fractional part, for every section. */
  predicate WholeEffectiveCosts(e: EstimateData) {
    forall s :: IsWhole(EffectiveCost(e, s))
  }

  /**
   * When every section's effective cost is whole, the override setters and
   * `recalculateAll` agree on the grand total.
   */
  lemma {:induction false} GrandTotalsAgreeOnWholeCosts(e: EstimateData)
    requires WholeEffectiveCosts(e)
    ensures RecalculatedGrandTotal(e) == OverrideGrandTotal(e)
  {
    forall s ensures RoundedContribution(e, s) == Contribution(e, s) {
      CeilOfWhole(EffectiveCost(e, s));
    }
  }

  lemma {:induction false} CeilOfHalf()
    ensures CeilR(0.5) == 1.0
  {
    CeilIsLeast(0.5, 1);
  }

  lemma {:induction false} CeilOfOne()
    ensures CeilR(1.0) == 1.0
  {
    CeilOfWhole(1.0);
  }

  lemma {:induction false} CeilOfTwo()
    ensures CeilR(2.0) == 2.0
  {
    CeilOfWhole(2.0);
  }

  /**
   * They disagree on fractional overrides: with the structural steel hidden
   * and overrides of 0.5 on the two other sections, an override setter writes
   * 1 and `recalculateAll` writes 2.
   */
  lemma {:induction false} FractionalOverridesDisagree(e: EstimateData)
    ensures var f := WithOverride(WithOverride(WithVisible(WithVisible(WithVisible(e,
                       StructuralSteel, false), MetalDeck, true), MiscellaneousSteel, true),
                       MetalDeck, Some(0.5)), MiscellaneousSteel, Some(0.5));
      OverrideGrandTotal(f) == 1.0 && RecalculatedGrandTotal(f) == 2.0
  {
    CeilOfHalf();
    CeilOfOne();
    CeilOfTwo();
  }

  /** An override wins over the computed total, whatever the two are (0 included). */
  lemma {:induction false} OverrideTakesPrecedence(e: EstimateData, s: Section, value: real)
    ensures EffectiveCost(SetOverride(e, s, Some(value)), s) == value
  {
  }

  /** Clearing an override brings back the computed total. */
  lemma {:induction false} ClearingOverrideRestoresActual(e: EstimateData, s: Section)
    ensures EffectiveCost(SetOverride(e, s, None), s) == ActualCost(e, s)
  {
  }

  /** Setting and then clearing an override is the same as clearing it. */
  lemma {:induction false} OverrideThenClear(e: EstimateData, s: Section, value: real)
    ensures SetOverride(SetOverride(e, s, Some(value)), s, None) == SetOverride(e, s, None)
  {
    var once := SetOverride(e, s, None);
    var twice := SetOverride(SetOverride(e, s, Some(value)), s, None);
    assert WithOverride(WithOverride(e, s, Some(value)).(totalCost := SetOverride(e, s, Some(value)).totalCost), s, None)
      == WithOverride(e, s, None).(totalCost := SetOverride(e, s, Some(value)).totalCost);
  }

  /** A hidden section adds nothing to any of the three grand totals. */
  lemma {:induction false} HiddenSectionContributesNothing(e: EstimateData, s: Section)
    requires !Visible(e, s)
    ensures Contribution(e, s) == 0.0 && RoundedContribution(e, s) == 0.0 && RawContribution(e, s) == 0.0
  {
  }

  /** The override of a hidden section does not move the grand total. */
  lemma {:induction false} HiddenOverrideKeepsTotal(e: EstimateData, s: Section, value: Option<real>)
    requires !Visible(e, s)
    ensures SetOverride(e, s, value).totalCost == OverrideGrandTotal(e)
  {
    var r := SetOverride(e, s, value);
    forall t ensures Contribution(r, t) == Contribution(e, t) {
    }
  }

  /** A section with total 10000, 5000 and 2000: the grand total is 17000, and 16000 once the first is overridden to 9000. */
  lemma {:induction false} ThreeSectionExample(e: EstimateData)
    requires e.structuralSteel.visible && e.metalDeck.visible && e.miscellaneousSteel.visible
    requires e.structuralSteel.totalCost == 10000.0 && e.metalDeck.totalCost == 5000.0
    requires e.miscellaneousSteel.totalCost == 2000.0
    requires e.structuralSteel.overriddenTotalCost.None? && e.metalDeck.overriddenTotalCost.None?
    requires e.miscellaneousSteel.overriddenTotalCost.None?
    ensures RecalculatedGrandTotal(e) == 17000.0 && OverrideGrandTotal(e) == 17000.0
    ensures SetOverride(e, StructuralSteel, Some(9000.0)).totalCost == 16000.0
  {
    CeilOfWhole(10000.0);
    CeilOfWhole(5000.0);
    CeilOfWhole(2000.0);
    CeilOfWhole(17000.0);
    CeilOfWhole(16000.0);
  }

  // ------------------------------------------------------------ toggles

  /** Toggling twice restores the visibility; only the grand total is rewritten. */
  lemma {:induction false} DoubleToggle(e: EstimateData, s: Section)
    ensures ToggleVisibility(ToggleVisibility(e, s), s) == e.(totalCost := ToggleGrandTotal(e))
  {
    var once := ToggleVisibility(e, s);
    var twice := ToggleVisibility(once, s);
    assert WithVisible(once, s, Visible(e, s)) == e.(totalCost := once.totalCost);
  }

  /** The toggles do not read the overrides. */
  lemma {:induction false} ToggleIgnoresOverrides(e: EstimateData, s: Section, t: Section, value: Option<real>)
    ensures ToggleVisibility(WithOverride(e, t, value), s).totalCost == ToggleVisibility(e, s).totalCost
  {
    var a := WithVisible(WithOverride(e, t, value), s, !Visible(e, s));
    var b := WithVisible(e, s, !Visible(e, s));
    forall u ensures RawContribution(a, u) == RawContribution(b, u) {
    }
  }

  /** Without overrides and with whole section totals, `recalculateAll`'s grand total is the toggles' plain sum. */
  lemma {:induction false} RecalculatedIsPlainSumWhenWhole(r: EstimateData)
    requires forall t :: Override(r, t).None? && IsWhole(ActualCost(r, t))
    ensures RecalculatedGrandTotal(r) == ToggleGrandTotal(r)
  {
    forall t ensures RoundedContribution(r, t) == RawContribution(r, t) && IsWhole(RawContribution(r, t)) {
      CeilOfWhole(ActualCost(r, t));
      assert IsWhole(0.0);
    }
    var a := RawContribution(r, StructuralSteel);
    var b := RawContribution(r, MetalDeck);
    var c := RawContribution(r, MiscellaneousSteel);
    WholeSum(a, b);
    WholeSum(a + b, c);
    CeilOfWhole(a + b + c);
  }

  /** Without overrides and with whole section totals, a toggle keeps the estimate normalised. */
  lemma {:induction false} ToggleKeepsNormalised(e: EstimateData, s: Section)
    requires Normalised(e)
    requires forall t :: Override(e, t).None? && IsWhole(ActualCost(e, t))
    ensures Normalised(ToggleVisibility(e, s))
  {
    var r := ToggleVisibility(e, s);
    assert r.structuralSteel == e.structuralSteel.(visible := r.structuralSteel.visible);
    StructuralTotalReadsInputs(r.structuralSteel, e.structuralSteel);
    RecalculatedIsPlainSumWhenWhole(r);
  }

  // ------------------------------------------------------------ base-field edits

  /** An area edit touches no tonnage-derived field. */
  lemma {:induction false} AreaEditKeepsTonnage(e: EstimateData, value: real)
    requires TonnageMirrored(e.structuralSteel)
    ensures TonnageMirrored(EditStructuralSteelField(e, Area, value).structuralSteel)
  {
  }

  /** More weight gives strictly more total weight and strictly more tons (for an allowance above -100%). */
  lemma {:induction false} TonnageStrictlyMonotone(w1: real, w2: real, allowance: real)
    requires w1 < w2 && allowance > -100.0
    ensures TotalWeight(w1, allowance) < TotalWeight(w2, allowance)
    ensures TotalTons(TotalWeight(w1, allowance)) < TotalTons(TotalWeight(w2, allowance))
  {
    TimesStrictlyMonotone(w1, w2, 1.0 + allowance / 100.0);
  }

  /** The rounded-up quantities that follow the tonnage only grow or stay. */
  lemma {:induction false} RoundedCostsMonotone(w1: real, w2: real, allowance: real, unitRate: real)
    requires w1 <= w2 && allowance >= -100.0 && unitRate >= 0.0
    ensures TrailerTrips(TotalTons(TotalWeight(w1, allowance))) <= TrailerTrips(TotalTons(TotalWeight(w2, allowance)))
    ensures CeilR(Times(TotalWeight(w1, allowance), unitRate)) <= CeilR(Times(TotalWeight(w2, allowance), unitRate))
  {
    TimesMonotone(w1, w2, 1.0 + allowance / 100.0);
    var t1 := TotalWeight(w1, allowance);
    var t2 := TotalWeight(w2, allowance);
    CeilMonotone(TotalTons(t1) / 20.0, TotalTons(t2) / 20.0);
    TimesMonotone(t1, t2, unitRate);
    CeilMonotone(Times(t1, unitRate), Times(t2, unitRate));
  }

  /** The rates the tonnage-derived costs are priced at: none of them negative. */
  predicate TonnageRatesNonNegative(ss: StructuralSteelData) {
    && (|ss.material| > 0 ==> ss.material[0].unitRate >= 0.0)
    && ss.engineeringDrafting.draftingPricePerTon >= 0.0
    && ss.erectionFreight.pricePerTon >= 0.0
    && ss.erectionFreight.trailerTripCost >= 0.0
  }

  /** The derived weight, tonnage and the three costs that follow it, in one record for comparison. */
  predicate DerivedNoGreater(a: StructuralSteelData, b: StructuralSteelData) {
    && a.totalWeight <= b.totalWeight
    && a.totalTons <= b.totalTons
    && a.materialCost <= b.materialCost
    && a.engineeringDrafting.totalCost <= b.engineeringDrafting.totalCost
    && a.erectionFreight.totalCost <= b.erectionFreight.totalCost
  }

  /** The material cost grows with the First Weight row's weight; the other rows are shared. */
  lemma {:induction false} MaterialCostMonotone(material: seq<MaterialItem>, t1: real, t2: real)
    requires t1 <= t2 && (|material| > 0 ==> material[0].unitRate >= 0.0)
    ensures MaterialCost(FirstWeightRow(material, t1)) <= MaterialCost(FirstWeightRow(material, t2))
  {
    var m1 := FirstWeightRow(material, t1);
    var m2 := FirstWeightRow(material, t2);
    forall i | 0 <= i < |m1| ensures MaterialRowCost(m1[i]) <= MaterialRowCost(m2[i]) {
      if i == 0 {
        TimesMonotone(t1, t2, material[0].unitRate);
        CeilMonotone(Times(t1, material[0].unitRate), Times(t2, material[0].unitRate));
      }
    }
    SumByMonotone(m1, m2, MaterialRowCost);
    CeilMonotone(SumBy(m1, MaterialRowCost), SumBy(m2, MaterialRowCost));
  }

  /** The engineering and drafting total grows with the drafting tonnage. */
  lemma {:induction false} DraftingTotalMonotone(ed: EngineeringDrafting, tons1: real, tons2: real)
    requires tons1 <= tons2 && ed.draftingPricePerTon >= 0.0
    ensures CostEngineeringDrafting(ed.(draftingTons := tons1)).totalCost
         <= CostEngineeringDrafting(ed.(draftingTons := tons2)).totalCost
  {
    TimesMonotone(tons1, tons2, ed.draftingPricePerTon);
    CeilMonotone(Times(tons1, ed.draftingPricePerTon), Times(tons2, ed.draftingPricePerTon));
    var d1 := CeilR(Times(tons1, ed.draftingPricePerTon));
    var d2 := CeilR(Times(tons2, ed.draftingPricePerTon));
    CeilMonotone(ed.engineering + d1, ed.engineering + d2);
  }

  /** The erection cost grows with the erection tonnage. */
  lemma {:induction false} ErectionCostMonotone(x: ErectionFreight, y: ErectionFreight)
    requires x.tons <= y.tons && x.pricePerTon == y.pricePerTon >= 0.0 && x.premium == y.premium
    ensures CostErectionFreight(x).erectionCost <= CostErectionFreight(y).erectionCost
  {
    TimesMonotone(x.tons, y.tons, y.pricePerTon);
    CeilMonotone(Times(x.tons, y.pricePerTon) + y.premium, Times(y.tons, y.pricePerTon) + y.premium);
  }

  /** The freight cost grows with the number of trailer trips. */
  lemma {:induction false} FreightCostMonotone(x: ErectionFreight, y: ErectionFreight)
    requires x.trailerTrips <= y.trailerTrips && x.trailerTripCost == y.trailerTripCost >= 0.0
    requires x.regularTrips == y.regularTrips && x.regularTripCost == y.regularTripCost
    ensures CostErectionFreight(x).freightCost <= CostErectionFreight(y).freightCost
  {
    var regular := Times(y.regularTrips, y.regularTripCost);
    TimesMonotone(x.trailerTrips, y.trailerTrips, y.trailerTripCost);
    CeilMonotone(regular + Times(x.trailerTrips, y.trailerTripCost), regular + Times(y.trailerTrips, y.trailerTripCost));
  }

  /**
   * Of two erection and freight records that differ only in tons and trailer
   * trips, the one with no more of either costs no more in total.
   */
  lemma {:induction false} ErectionTotalMonotone(x: ErectionFreight, y: ErectionFreight)
    requires x == y.(tons := x.tons, trailerTrips := x.trailerTrips)
    requires x.tons <= y.tons && x.trailerTrips <= y.trailerTrips
    requires y.pricePerTon >= 0.0 && y.trailerTripCost >= 0.0
    ensures CostErectionFreight(x).totalCost <= CostErectionFreight(y).totalCost
  {
    ErectionCostMonotone(x, y);
    FreightCostMonotone(x, y);
    var rx := CostErectionFreight(x);
    var ry := CostErectionFreight(y);
    CeilMonotone(rx.erectionCost + rx.freightCost, ry.erectionCost + ry.freightCost);
  }

  /**
   * Re-deriving from a total weight that is no greater gives no greater
   * tonnage, material cost, engineering and drafting total, and erection and
   * freight total, when every other input is the same.
   */
  lemma {:induction false} RederiveTonnageMonotone(a: StructuralSteelData, b: StructuralSteelData)
    requires a == b.(weight := a.weight, connectionAllowance := a.connectionAllowance)
    requires TotalWeight(a.weight, a.connectionAllowance) <= TotalWeight(b.weight, b.connectionAllowance)
    requires TonnageRatesNonNegative(b)
    ensures DerivedNoGreater(RederiveTonnage(a), RederiveTonnage(b))
  {
    var t1 := TotalWeight(a.weight, a.connectionAllowance);
    var t2 := TotalWeight(b.weight, b.connectionAllowance);
    MaterialCostMonotone(b.material, t1, t2);
    DraftingTotalMonotone(b.engineeringDrafting, TotalTons(t1), TotalTons(t2));
    CeilMonotone(TotalTons(t1) / 20.0, TotalTons(t2) / 20.0);
    ErectionTotalMonotone(b.erectionFreight.(tons := TotalTons(t1), trailerTrips := TrailerTrips(TotalTons(t1))),
                          b.erectionFreight.(tons := TotalTons(t2), trailerTrips := TrailerTrips(TotalTons(t2))));
  }

  /**
   * More weight (with an allowance of at least -100%) never lowers the total
   * weight, the tons, the material cost, the engineering and drafting total or
   * the erection and freight total, and raises the first two strictly.
   */
  lemma {:induction false} WeightEditMonotone(e: EstimateData, w1: real, w2: real)
    requires w1 <= w2 && e.structuralSteel.connectionAllowance >= -100.0
    requires TonnageRatesNonNegative(e.structuralSteel)
    ensures DerivedNoGreater(EditStructuralSteelField(e, Weight, w1).structuralSteel,
                             EditStructuralSteelField(e, Weight, w2).structuralSteel)
    ensures w1 < w2 && e.structuralSteel.connectionAllowance > -100.0 ==>
      && EditStructuralSteelField(e, Weight, w1).structuralSteel.totalWeight
         < EditStructuralSteelField(e, Weight, w2).structuralSteel.totalWeight
      && EditStructuralSteelField(e, Weight, w1).structuralSteel.totalTons
         < EditStructuralSteelField(e, Weight, w2).structuralSteel.totalTons
  {
    var ss := e.structuralSteel;
    TimesMonotone(w1, w2, 1.0 + ss.connectionAllowance / 100.0);
    RederiveTonnageMonotone(ss.(weight := w1), ss.(weight := w2));
    if w1 < w2 && ss.connectionAllowance > -100.0 {
      TonnageStrictlyMonotone(w1, w2, ss.connectionAllowance);
    }
  }

  /** On a weight that is not negative, a larger allowance gives no smaller total weight; on a positive one, a larger. */
  lemma {:induction false} TotalWeightGrowsWithAllowance(weight: real, c1: real, c2: real)
    requires c1 <= c2 && weight >= 0.0
    ensures TotalWeight(weight, c1) <= TotalWeight(weight, c2)
    ensures c1 < c2 && weight > 0.0 ==> TotalWeight(weight, c1) < TotalWeight(weight, c2)
  {
    var f1 := 1.0 + c1 / 100.0;
    var f2 := 1.0 + c2 / 100.0;
    TimesMonotone(0.0, f2 - f1, weight);
    if c1 < c2 && weight > 0.0 {
      TimesStrictlyMonotone(0.0, f2 - f1, weight);
    }
    assert Times(weight, f2) - Times(weight, f1) == Times(f2 - f1, weight);
  }

  /**
   * A larger connection allowance (on a weight that is not negative) never
   * lowers the same five quantities, and raises the total weight and the tons
   * strictly when the weight is positive.
   */
  lemma {:induction false} AllowanceEditMonotone(e: EstimateData, c1: real, c2: real)
    requires c1 <= c2 && e.structuralSteel.weight >= 0.0
    requires TonnageRatesNonNegative(e.structuralSteel)
    ensures DerivedNoGreater(EditStructuralSteelField(e, ConnectionAllowance, c1).structuralSteel,
                             EditStructuralSteelField(e, ConnectionAllowance, c2).structuralSteel)
    ensures c1 < c2 && e.structuralSteel.weight > 0.0 ==>
      && EditStructuralSteelField(e, ConnectionAllowance, c1).structuralSteel.totalWeight
         < EditStructuralSteelField(e, ConnectionAllowance, c2).structuralSteel.totalWeight
      && EditStructuralSteelField(e, ConnectionAllowance, c1).structuralSteel.totalTons
         < EditStructuralSteelField(e, ConnectionAllowance, c2).structuralSteel.totalTons
  {
    var ss := e.structuralSteel;
    TotalWeightGrowsWithAllowance(ss.weight, c1, c2);
    RederiveTonnageMonotone(ss.(connectionAllowance := c1), ss.(connectionAllowance := c2));
  }

  /** Only non-strictly: 2000 and 4000 lbs both need one trailer trip. */
  lemma {:induction false} TrailerTripsNotStrict()
    ensures TrailerTrips(TotalTons(TotalWeight(2000.0, 0.0))) == TrailerTrips(TotalTons(TotalWeight(4000.0, 0.0))) == 1.0
  {
    assert TotalTons(TotalWeight(2000.0, 0.0)) / 20.0 == 0.05;
    assert TotalTons(TotalWeight(4000.0, 0.0)) / 20.0 == 0.1;
    CeilIsLeast(0.05, 1);
    CeilIsLeast(0.1, 1);
  }

  /**
   * A weight of 20000 lbs with the default 5% allowance is 21000 lbs, 10.5
   * tons and one trailer trip; at a rate of 0.5 the First Weight row costs 10500.
   */
  lemma {:induction false} WeightEditScenario(e: EstimateData)
    requires e.structuralSteel.connectionAllowance == 5.0
    requires |e.structuralSteel.material| > 0 && e.structuralSteel.material[0].unitRate == 0.5
    ensures var ss := EditStructuralSteelField(e, Weight, 20000.0).structuralSteel;
      && ss.totalWeight == 21000.0 && ss.totalTons == 10.5
      && ss.erectionFreight.trailerTrips == 1.0
      && ss.material[0].weight == 21000.0 && ss.material[0].totalCost == 10500.0
  {
    var ss := EditStructuralSteelField(e, Weight, 20000.0).structuralSteel;
    assert ss.totalWeight == 21000.0;
    CeilIsLeast(10.5 / 20.0, 1);
    assert ss.material[0].unitRate == 0.5;
    CeilOfWhole(10500.0);
  }

  /** With only the 10500 material cost and the default 5% overhead and 10% profit, the section costs 12075. */
  lemma {:induction false} StructuralTotalScenario(ss: StructuralSteelData)
    requires ss.materialCost == 10500.0 && ss.shopLabourCost == 0.0 && ss.owsj.cost == 0.0
    requires ss.engineeringDrafting.totalCost == 0.0 && ss.erectionFreight.totalCost == 0.0
    requires ss.overheadProfit.overhead == 5.0 && ss.overheadProfit.profit == 10.0
    ensures StructuralSubtotal(ss) == 10500.0 && OverheadAmount(ss) == 525.0 && ProfitAmount(ss) == 1050.0
    ensures StructuralTotal(ss) == 12075.0
  {
    CeilOfWhole(10500.0);
    CeilOfWhole(0.0);
    CeilOfWhole(525.0);
    CeilOfWhole(1050.0);
    CeilOfWhole(12075.0);
  }

  /** Intermediate costs round up: 100 at 0.333 costs 34. */
  lemma {:induction false} RoundingExample()
    ensures CeilR(Times(100.0, 0.333)) == 34.0
  {
    CeilIsLeast(33.3, 34);
  }

  /** 10 pieces at 4 per day take 250 hours (the source's factor of 100), 21250 at the standard rate. */
  lemma {:induction false} LabourExample()
    ensures LabourHours(10.0, 4.0) == 250.0
    ensures CeilR(Times(LabourHours(10.0, 4.0), 85.0)) == 21250.0
  {
    CeilOfWhole(250.0);
    CeilOfWhole(21250.0);
  }
}
