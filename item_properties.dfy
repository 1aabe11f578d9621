/**
 * Invariants of the three item tables under the store's add, update and
 * remove handlers, and of the structural-steel derived fields under the
 * sub-record edits.
 */
module ItemProperties {
  import opened Wrappers
  import opened Numeric
  import opened ItemLists
  import opened EstimateTypes
  import opened Formulas
  import opened Aggregation
  import opened EstimateRules
  import opened EstimateDefaults

  // ------------------------------------------------------------ row invariants

  /** Every material row's cost is its weight times its rate, rounded up. */
  predicate MaterialRowsConsistent(items: seq<MaterialItem>) {
    forall i :: 0 <= i < |items| ==> MaterialItemConsistent(items[i])
  }

  predicate LabourRowsConsistent(items: seq<LabourItem>) {
    forall i :: 0 <= i < |items| ==> LabourItemConsistent(items[i])
  }

  predicate MiscellaneousRowsConsistent(items: seq<MiscellaneousItem>) {
    forall i :: 0 <= i < |items| ==> MiscellaneousItemConsistent(items[i])
  }

  lemma {:induction false} ZeroProducts()
    ensures CeilR(Times(0.0, 0.0)) == 0.0 && CeilR(Times(0.0, 85.0)) == 0.0
  {
    CeilOfWhole(0.0);
  }

  /** Adding a material row appends one zero row, keeps the rows consistent and leaves the aggregate's sum as it was. */
  lemma {:induction false} AddMaterialKeepsRows(e: EstimateData, newId: string)
    requires MaterialRowsConsistent(e.structuralSteel.material)
    ensures var r := AddMaterialItem(e, newId).structuralSteel;
      && MaterialRowsConsistent(r.material)
      && |r.material| == |e.structuralSteel.material| + 1
      && r.materialCost == CeilR(SumBy(e.structuralSteel.material, MaterialRowCost))
  {
    ZeroProducts();
    SumByAppend(e.structuralSteel.material, NewMaterialItem(newId), MaterialRowCost);
  }

  lemma {:induction false} UpdateMaterialKeepsRows(e: EstimateData, id: string, field: MaterialField)
    requires MaterialRowsConsistent(e.structuralSteel.material)
    ensures MaterialRowsConsistent(UpdateMaterialItem(e, id, field).structuralSteel.material)
  {
  }

  lemma {:induction false} RemoveMaterialKeepsRows(e: EstimateData, id: string)
    requires MaterialRowsConsistent(e.structuralSteel.material)
    ensures MaterialRowsConsistent(RemoveMaterialItem(e, id).structuralSteel.material)
  {
    var before := e.structuralSteel.material;
    var after := RemoveMaterialItem(e, id).structuralSteel.material;
    forall i | 0 <= i < |after| ensures MaterialItemConsistent(after[i]) {
      assert after[i] in before;
    }
  }

  /** An update or removal for an id no row has leaves the rows as they are. */
  lemma {:induction false} UnknownMaterialIdKeepsRows(e: EstimateData, id: string, field: MaterialField)
    requires forall i :: 0 <= i < |e.structuralSteel.material| ==> e.structuralSteel.material[i].id != id
    ensures UpdateMaterialItem(e, id, field).structuralSteel.material == e.structuralSteel.material
    ensures RemoveMaterialItem(e, id).structuralSteel.material == e.structuralSteel.material
  {
    assert RemoveMaterialItem(e, id).structuralSteel.material == e.structuralSteel.material by {
      RemoveWhereNoMatch(e.structuralSteel.material, MaterialIdIs(id));
    }
  }

  /** Removing a row that exists makes the table shorter. */
  lemma {:induction false} RemoveExistingMaterialShrinks(e: EstimateData, i: nat)
    requires i < |e.structuralSteel.material|
    ensures |RemoveMaterialItem(e, e.structuralSteel.material[i].id).structuralSteel.material|
          < |e.structuralSteel.material|
  {
    RemoveWhereShrinks(e.structuralSteel.material, MaterialIdIs(e.structuralSteel.material[i].id), i);
  }

  lemma {:induction false} AddLabourKeepsRows(e: EstimateData, newId: string)
    requires LabourRowsConsistent(e.structuralSteel.shopLabour)
    ensures var r := AddLabourItem(e, newId).structuralSteel;
      && LabourRowsConsistent(r.shopLabour)
      && |r.shopLabour| == |e.structuralSteel.shopLabour| + 1
      && r.shopLabourCost == CeilR(SumBy(e.structuralSteel.shopLabour, LabourRowCost))
  {
    ZeroProducts();
    SumByAppend(e.structuralSteel.shopLabour, NewLabourItem(newId), LabourRowCost);
  }

  lemma {:induction false} UpdateLabourKeepsRows(e: EstimateData, id: string, field: LabourField)
    requires LabourUpdateDefined(e.structuralSteel.shopLabour, id, field)
    requires LabourRowsConsistent(e.structuralSteel.shopLabour)
    ensures LabourRowsConsistent(UpdateLabourItem(e, id, field).structuralSteel.shopLabour)
  {
  }

  lemma {:induction false} RemoveLabourKeepsRows(e: EstimateData, id: string)
    requires LabourRowsConsistent(e.structuralSteel.shopLabour)
    ensures LabourRowsConsistent(RemoveLabourItem(e, id).structuralSteel.shopLabour)
  {
    var before := e.structuralSteel.shopLabour;
    var after := RemoveLabourItem(e, id).structuralSteel.shopLabour;
    forall i | 0 <= i < |after| ensures LabourItemConsistent(after[i]) {
      assert after[i] in before;
    }
  }

  lemma {:induction false} UnknownLabourIdKeepsRows(e: EstimateData, id: string, field: LabourField)
    requires forall i :: 0 <= i < |e.structuralSteel.shopLabour| ==> e.structuralSteel.shopLabour[i].id != id
    ensures LabourUpdateDefined(e.structuralSteel.shopLabour, id, field)
    ensures UpdateLabourItem(e, id, field).structuralSteel.shopLabour == e.structuralSteel.shopLabour
    ensures RemoveLabourItem(e, id).structuralSteel.shopLabour == e.structuralSteel.shopLabour
  {
    assert RemoveLabourItem(e, id).structuralSteel.shopLabour == e.structuralSteel.shopLabour by {
      RemoveWhereNoMatch(e.structuralSteel.shopLabour, LabourIdIs(id));
    }
  }

  lemma {:induction false} AddMiscellaneousKeepsRows(e: EstimateData, newId: string)
    requires MiscellaneousRowsConsistent(e.miscellaneousSteel.items)
    ensures var r := AddMiscellaneousItem(e, newId).miscellaneousSteel;
      && MiscellaneousRowsConsistent(r.items)
      && |r.items| == |e.miscellaneousSteel.items| + 1
      && r.totalCost == CeilR(SumBy(e.miscellaneousSteel.items, MiscellaneousRowCost))
  {
    ZeroProducts();
    SumByAppend(e.miscellaneousSteel.items, NewMiscellaneousItem(newId), MiscellaneousRowCost);
  }

  lemma {:induction false} UpdateMiscellaneousKeepsRows(e: EstimateData, id: string, field: MiscellaneousField)
    requires MiscellaneousRowsConsistent(e.miscellaneousSteel.items)
    ensures MiscellaneousRowsConsistent(UpdateMiscellaneousItem(e, id, field).miscellaneousSteel.items)
  {
  }

  lemma {:induction false} RemoveMiscellaneousKeepsRows(e: EstimateData, id: string)
    requires MiscellaneousRowsConsistent(e.miscellaneousSteel.items)
    ensures MiscellaneousRowsConsistent(RemoveMiscellaneousItem(e, id).miscellaneousSteel.items)
  {
    var before := e.miscellaneousSteel.items;
    var after := RemoveMiscellaneousItem(e, id).miscellaneousSteel.items;
    forall i | 0 <= i < |after| ensures MiscellaneousItemConsistent(after[i]) {
      assert after[i] in before;
    }
  }

  lemma {:induction false} UnknownMiscellaneousIdKeepsRows(e: EstimateData, id: string, field: MiscellaneousField)
    requires forall i :: 0 <= i < |e.miscellaneousSteel.items| ==> e.miscellaneousSteel.items[i].id != id
    ensures UpdateMiscellaneousItem(e, id, field).miscellaneousSteel.items == e.miscellaneousSteel.items
    ensures RemoveMiscellaneousItem(e, id).miscellaneousSteel.items == e.miscellaneousSteel.items
  {
    assert RemoveMiscellaneousItem(e, id).miscellaneousSteel.items == e.miscellaneousSteel.items by {
      RemoveWhereNoMatch(e.miscellaneousSteel.items, MiscellaneousIdIs(id));
    }
  }

  // ------------------------------------------------------------ derived fields

  /** Editing a material row other than the First Weight row keeps the tonnage-derived fields. */
  lemma {:induction false} MaterialEditBesideFirstRowKeepsTonnage(e: EstimateData, id: string, field: MaterialField)
    requires TonnageMirrored(e.structuralSteel)
    requires |e.structuralSteel.material| > 0 ==> e.structuralSteel.material[0].id != id
    ensures TonnageMirrored(UpdateMaterialItem(e, id, field).structuralSteel)
  {
  }

  lemma {:induction false} OwsjEditKeepsTonnage(e: EstimateData, field: OwsjField)
    requires TonnageMirrored(e.structuralSteel)
    ensures TonnageMirrored(UpdateOwsjField(e, field).structuralSteel)
  {
  }

  lemma {:induction false} OverheadProfitEditKeepsTonnage(e: EstimateData, field: OverheadProfitField)
    requires TonnageMirrored(e.structuralSteel)
    ensures TonnageMirrored(UpdateOverheadProfitField(e, field).structuralSteel)
    ensures UpdateOverheadProfitField(e, field).structuralSteel.overheadProfit.totalPercentage
         == UpdateOverheadProfitField(e, field).structuralSteel.overheadProfit.overhead
          + UpdateOverheadProfitField(e, field).structuralSteel.overheadProfit.profit
  {
  }

  /** Only a direct edit of the drafting tonnage breaks its link to the total tons. */
  lemma {:induction false} EngineeringDraftingEditKeepsTonnage(e: EstimateData, field: EngineeringDraftingField)
    requires TonnageMirrored(e.structuralSteel)
    requires !field.DraftingTons?
    ensures TonnageMirrored(UpdateEngineeringDraftingField(e, field).structuralSteel)
  {
  }

  /** Only a direct edit of the erection tonnage or of the trailer-trip count breaks their link to the total tons. */
  lemma {:induction false} ErectionFreightEditKeepsTonnage(e: EstimateData, field: ErectionFreightField)
    requires TonnageMirrored(e.structuralSteel)
    requires !field.ErectionTons? && !field.TrailerTripCount?
    ensures TonnageMirrored(UpdateErectionFreightField(e, field).structuralSteel)
  {
  }

  /** A trailer-trip count typed in is kept as typed. */
  lemma {:induction false} TrailerTripsSettable(e: EstimateData, trips: real)
    ensures UpdateErectionFreightField(e, TrailerTripCount(trips)).structuralSteel.erectionFreight.trailerTrips == trips
  {
  }

  lemma {:induction false} MetalDeckEditKeepsStructuralSteel(e: EstimateData, field: MetalDeckField)
    ensures UpdateMetalDeckField(e, field).structuralSteel == e.structuralSteel
    ensures MetalDeckConsistent(UpdateMetalDeckField(e, field).metalDeck)
  {
  }

  // ------------------------------------------------------------ seed estimate

  /** Every seed row costs nothing and is consistent with its inputs. */
  lemma {:induction false} DefaultRowsConsistent(ids: seq<string>)
    requires |ids| == 14
    ensures MaterialRowsConsistent(DefaultMaterialItems(ids[0..5]))
    ensures LabourRowsConsistent(DefaultLabourItems(ids[5..10]))
    ensures MiscellaneousRowsConsistent(DefaultMiscellaneousItems(ids[10..14]))
    ensures SumBy(DefaultMaterialItems(ids[0..5]), MaterialRowCost) == 0.0
    ensures SumBy(DefaultLabourItems(ids[5..10]), LabourRowCost) == 0.0
    ensures SumBy(DefaultMiscellaneousItems(ids[10..14]), MiscellaneousRowCost) == 0.0
  {
    ZeroProducts();
    CeilOfWhole(0.0);
    SumByZero(DefaultMaterialItems(ids[0..5]), MaterialRowCost);
    SumByZero(DefaultLabourItems(ids[5..10]), LabourRowCost);
    SumByZero(DefaultMiscellaneousItems(ids[10..14]), MiscellaneousRowCost);
  }

  /** A structural-steel section with nothing entered yet: every derived field is zero and consistent. */
  lemma {:induction false} BlankStructuralSteel(ss: StructuralSteelData)
    requires ss.weight == 0.0 && ss.totalWeight == 0.0 && ss.totalTons == 0.0 && ss.totalCost == 0.0
    requires ss.materialCost == 0.0 && ss.shopLabourCost == 0.0 && ss.owsj.cost == 0.0
    requires SumBy(ss.material, MaterialRowCost) == 0.0
    requires |ss.material| > 0 ==> ss.material[0].weight == 0.0 && ss.material[0].totalCost == 0.0
    requires ss.engineeringDrafting == EngineeringDrafting(0.0, 0.0, 0.0, ss.engineeringDrafting.draftingPricePerTon, 0.0)
    requires var ef := ss.erectionFreight;
      ef.tons == 0.0 && ef.pricePerTon == 0.0 && ef.premium == 0.0 && ef.regularTrips == 0.0
      && ef.trailerTrips == 0.0 && ef.erectionCost == 0.0 && ef.freightCost == 0.0 && ef.totalCost == 0.0
    ensures TonnageMirrored(ss)
    ensures ss.totalCost == StructuralTotal(ss)
  {
    CeilOfWhole(0.0);
    var ef := ss.erectionFreight;
    assert Times(ef.tons, ef.pricePerTon) == 0.0;
    assert Times(ef.regularTrips, ef.regularTripCost) == 0.0;
    assert Times(ef.trailerTrips, ef.trailerTripCost) == 0.0;
    assert Times(ss.engineeringDrafting.draftingTons, ss.engineeringDrafting.draftingPricePerTon) == 0.0;
    assert Times(ss.weight, 1.0 + ss.connectionAllowance / 100.0) == 0.0;
    assert StructuralSubtotal(ss) == 0.0;
    assert Times(0.0, ss.overheadProfit.overhead / 100.0) == 0.0;
    assert Times(0.0, ss.overheadProfit.profit / 100.0) == 0.0;
  }

  /** With every section at zero and nothing overridden the grand total is zero. */
  lemma {:induction false} BlankGrandTotal(e: EstimateData)
    requires e.structuralSteel.totalCost == 0.0 && e.metalDeck.totalCost == 0.0 && e.miscellaneousSteel.totalCost == 0.0
    requires e.structuralSteel.overriddenTotalCost.None? && e.metalDeck.overriddenTotalCost.None?
    requires e.miscellaneousSteel.overriddenTotalCost.None?
    ensures RecalculatedGrandTotal(e) == 0.0
  {
    CeilOfWhole(0.0);
  }

  /** The seed estimate already satisfies every invariant the handlers maintain. */
  lemma {:induction false} DefaultEstimateIsConsistent(quoteNumber: string, date: string, ids: seq<string>)
    requires |ids| == 14
    ensures var e := DefaultEstimate(quoteNumber, date, ids);
      && Normalised(e)
      && TonnageMirrored(e.structuralSteel)
      && MaterialRowsConsistent(e.structuralSteel.material)
      && LabourRowsConsistent(e.structuralSteel.shopLabour)
      && MiscellaneousRowsConsistent(e.miscellaneousSteel.items)
  {
    DefaultRowsConsistent(ids);
    var e := DefaultEstimate(quoteNumber, date, ids);
    BlankStructuralSteel(e.structuralSteel);
    BlankGrandTotal(e);
  }
}
