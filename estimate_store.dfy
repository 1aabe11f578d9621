/**
 * The zustand store of src/store/estimatesadasStore.ts as a class: one field
 * per piece of store state, one method per handler. Each method writes
 * `currentEstimate` through the transition of EstimateRules that models the
 * handler, followed by `Recalculate` exactly where the source calls
 * `get().recalculateAll()` after its `set`. The fresh uuids, the random draw,
 * the year and month of today's date and its `yyyy-MM-dd` rendering are
 * parameters.
 */
module EstimateStore {
  import opened Wrappers
  import opened EstimateTypes
  import opened Formulas
  import opened Aggregation
  import opened EstimateRules
  import opened EstimateDefaults

  class EstimateStore {
    var initialized: bool
    var currentEstimate: EstimateData
    var allEstimates: seq<EstimateData>

    /**
     * The store's initial state: not initialised, a default estimate whose
     * quote number is generated from the year, the month and the draw, and
     * no saved estimates.
     */
    constructor (year: nat, monthIndex: nat, draw: real, date: string, ids: seq<string>)
      requires monthIndex < 12 && 0.0 <= draw < 1.0
      requires |ids| == 14
      ensures !initialized && allEstimates == []
      ensures currentEstimate == DefaultEstimate(GenerateQuoteNumber(year, monthIndex, draw), date, ids)
      ensures currentEstimate.projectInfo.quoteNumber == GenerateQuoteNumber(year, monthIndex, draw)
    {
      initialized := false;
      currentEstimate := DefaultEstimate(GenerateQuoteNumber(year, monthIndex, draw), date, ids);
      allEstimates := [];
    }

    method SetInitialized(value: bool)
      modifies this
      ensures initialized == value
      ensures currentEstimate == old(currentEstimate) && allEstimates == old(allEstimates)
    {
      initialized := value;
    }

    /** `resetEstimate`: a fresh default estimate with a newly generated quote number. */
    method ResetEstimate(year: nat, monthIndex: nat, draw: real, date: string, ids: seq<string>)
      requires monthIndex < 12 && 0.0 <= draw < 1.0
      requires |ids| == 14
      modifies this
      ensures currentEstimate == DefaultEstimate(GenerateQuoteNumber(year, monthIndex, draw), date, ids)
      ensures currentEstimate.projectInfo.quoteNumber == GenerateQuoteNumber(year, monthIndex, draw)
      ensures initialized == old(initialized) && allEstimates == old(allEstimates)
    {
      currentEstimate := DefaultEstimate(GenerateQuoteNumber(year, monthIndex, draw), date, ids);
    }

    /** `loadEstimate` stores the record as given: nothing is recomputed. */
    method LoadEstimate(estimate: EstimateData)
      modifies this
      ensures currentEstimate == estimate
      ensures initialized == old(initialized) && allEstimates == old(allEstimates)
    {
      currentEstimate := estimate;
    }

    method LoadAllEstimates(estimates: seq<EstimateData>)
      modifies this
      ensures allEstimates == estimates
      ensures initialized == old(initialized) && currentEstimate == old(currentEstimate)
    {
      allEstimates := estimates;
    }

    method UpdateProjectInfo(field: ProjectInfoField, value: string)
      modifies this
      ensures currentEstimate == EstimateRules.UpdateProjectInfo(old(currentEstimate), field, value)
      ensures initialized == old(initialized) && allEstimates == old(allEstimates)
    {
      currentEstimate := EstimateRules.UpdateProjectInfo(currentEstimate, field, value);
    }

    method UpdateRemarks(remarks: string)
      modifies this
      ensures currentEstimate == old(currentEstimate).(remarks := remarks)
      ensures initialized == old(initialized) && allEstimates == old(allEstimates)
    {
      currentEstimate := EstimateRules.UpdateRemarks(currentEstimate, remarks);
    }

    // ----------------------------------------------------------- toggles

    method ToggleStructuralSteelVisibility()
      modifies this
      ensures currentEstimate == ToggleVisibility(old(currentEstimate), StructuralSteel)
      ensures initialized == old(initialized) && allEstimates == old(allEstimates)
    {
      currentEstimate := ToggleVisibility(currentEstimate, StructuralSteel);
    }

    method ToggleMetalDeckVisibility()
      modifies this
      ensures currentEstimate == ToggleVisibility(old(currentEstimate), MetalDeck)
      ensures initialized == old(initialized) && allEstimates == old(allEstimates)
    {
      currentEstimate := ToggleVisibility(currentEstimate, MetalDeck);
    }

    method ToggleMiscellaneousSteelVisibility()
      modifies this
      ensures currentEstimate == ToggleVisibility(old(currentEstimate), MiscellaneousSteel)
      ensures initialized == old(initialized) && allEstimates == old(allEstimates)
    {
      currentEstimate := ToggleVisibility(currentEstimate, MiscellaneousSteel);
    }

    // ----------------------------------------------------------- overrides

    method UpdateStructuralSteelOverride(value: Option<real>)
      modifies this
      ensures currentEstimate == SetOverride(old(currentEstimate), StructuralSteel, value)
      ensures initialized == old(initialized) && allEstimates == old(allEstimates)
    {
      currentEstimate := SetOverride(currentEstimate, StructuralSteel, value);
    }

    method UpdateMetalDeckOverride(value: Option<real>)
      modifies this
      ensures currentEstimate == SetOverride(old(currentEstimate), MetalDeck, value)
      ensures initialized == old(initialized) && allEstimates == old(allEstimates)
    {
      currentEstimate := SetOverride(currentEstimate, MetalDeck, value);
    }

    method UpdateMiscellaneousSteelOverride(value: Option<real>)
      modifies this
      ensures currentEstimate == SetOverride(old(currentEstimate), MiscellaneousSteel, value)
      ensures initialized == old(initialized) && allEstimates == old(allEstimates)
    {
      currentEstimate := SetOverride(currentEstimate, MiscellaneousSteel, value);
    }

    // ----------------------------------------------------------- recalculation

    /** `recalculateAll`: afterwards both recomputed totals agree with their formulas. */
    method RecalculateAll()
      modifies this
      ensures currentEstimate == Recalculate(old(currentEstimate))
      ensures Normalised(currentEstimate)
      ensures initialized == old(initialized) && allEstimates == old(allEstimates)
    {
      currentEstimate := Recalculate(currentEstimate);
      RecalculateNormalises(old(currentEstimate));
    }

    /**
     * `updateStructuralSteelField`: the handler calls `recalculateAll` inside
     * its own `set`, on the state before the edit, and then overwrites that
     * state with the edited estimate built from the same earlier state. The
     * recalculation is therefore lost and both totals keep their old values.
     */
    method UpdateStructuralSteelField(field: BaseField, value: real)
      modifies this
      ensures currentEstimate == EditStructuralSteelField(old(currentEstimate), field, value)
      ensures currentEstimate.structuralSteel.totalCost == old(currentEstimate).structuralSteel.totalCost
      ensures currentEstimate.totalCost == old(currentEstimate).totalCost
      ensures initialized == old(initialized) && allEstimates == old(allEstimates)
    {
      var state := currentEstimate;
      var edited := EditStructuralSteelField(state, field, value);
      RecalculateAll();
      currentEstimate := edited;
    }

    // ----------------------------------------------------------- material rows

    method AddMaterialItem(newId: string)
      modifies this
      ensures currentEstimate == Recalculate(EstimateRules.AddMaterialItem(old(currentEstimate), newId))
      ensures Normalised(currentEstimate)
      ensures initialized == old(initialized) && allEstimates == old(allEstimates)
    {
      currentEstimate := EstimateRules.AddMaterialItem(currentEstimate, newId);
      RecalculateAll();
    }

    method UpdateMaterialItem(id: string, field: MaterialField)
      modifies this
      ensures currentEstimate == Recalculate(EstimateRules.UpdateMaterialItem(old(currentEstimate), id, field))
      ensures Normalised(currentEstimate)
      ensures initialized == old(initialized) && allEstimates == old(allEstimates)
    {
      currentEstimate := EstimateRules.UpdateMaterialItem(currentEstimate, id, field);
      RecalculateAll();
    }

    method RemoveMaterialItem(id: string)
      modifies this
      ensures currentEstimate == Recalculate(EstimateRules.RemoveMaterialItem(old(currentEstimate), id))
      ensures Normalised(currentEstimate)
      ensures initialized == old(initialized) && allEstimates == old(allEstimates)
    {
      currentEstimate := EstimateRules.RemoveMaterialItem(currentEstimate, id);
      RecalculateAll();
    }

    // ----------------------------------------------------------- labour rows

    method AddLabourItem(newId: string)
      modifies this
      ensures currentEstimate == Recalculate(EstimateRules.AddLabourItem(old(currentEstimate), newId))
      ensures Normalised(currentEstimate)
      ensures initialized == old(initialized) && allEstimates == old(allEstimates)
    {
      currentEstimate := EstimateRules.AddLabourItem(currentEstimate, newId);
      RecalculateAll();
    }

    method UpdateLabourItem(id: string, field: LabourField)
      requires LabourUpdateDefined(currentEstimate.structuralSteel.shopLabour, id, field)
      modifies this
      ensures currentEstimate == Recalculate(EstimateRules.UpdateLabourItem(old(currentEstimate), id, field))
      ensures Normalised(currentEstimate)
      ensures initialized == old(initialized) && allEstimates == old(allEstimates)
    {
      currentEstimate := EstimateRules.UpdateLabourItem(currentEstimate, id, field);
      RecalculateAll();
    }

    method RemoveLabourItem(id: string)
      modifies this
      ensures currentEstimate == Recalculate(EstimateRules.RemoveLabourItem(old(currentEstimate), id))
      ensures Normalised(currentEstimate)
      ensures initialized == old(initialized) && allEstimates == old(allEstimates)
    {
      currentEstimate := EstimateRules.RemoveLabourItem(currentEstimate, id);
      RecalculateAll();
    }

    // ----------------------------------------------------------- miscellaneous rows

    method AddMiscellaneousItem(newId: string)
      modifies this
      ensures currentEstimate == Recalculate(EstimateRules.AddMiscellaneousItem(old(currentEstimate), newId))
      ensures Normalised(currentEstimate)
      ensures initialized == old(initialized) && allEstimates == old(allEstimates)
    {
      currentEstimate := EstimateRules.AddMiscellaneousItem(currentEstimate, newId);
      RecalculateAll();
    }

    method UpdateMiscellaneousItem(id: string, field: MiscellaneousField)
      modifies this
      ensures currentEstimate == Recalculate(EstimateRules.UpdateMiscellaneousItem(old(currentEstimate), id, field))
      ensures Normalised(currentEstimate)
      ensures initialized == old(initialized) && allEstimates == old(allEstimates)
    {
      currentEstimate := EstimateRules.UpdateMiscellaneousItem(currentEstimate, id, field);
      RecalculateAll();
    }

    method RemoveMiscellaneousItem(id: string)
      modifies this
      ensures currentEstimate == Recalculate(EstimateRules.RemoveMiscellaneousItem(old(currentEstimate), id))
      ensures Normalised(currentEstimate)
      ensures initialized == old(initialized) && allEstimates == old(allEstimates)
    {
      currentEstimate := EstimateRules.RemoveMiscellaneousItem(currentEstimate, id);
      RecalculateAll();
    }

    // ----------------------------------------------------------- sub-record edits

    method UpdateOwsjField(field: OwsjField)
      modifies this
      ensures currentEstimate == Recalculate(EstimateRules.UpdateOwsjField(old(currentEstimate), field))
      ensures Normalised(currentEstimate)
      ensures initialized == old(initialized) && allEstimates == old(allEstimates)
    {
      currentEstimate := EstimateRules.UpdateOwsjField(currentEstimate, field);
      RecalculateAll();
    }

    method UpdateEngineeringDraftingField(field: EngineeringDraftingField)
      modifies this
      ensures currentEstimate == Recalculate(EstimateRules.UpdateEngineeringDraftingField(old(currentEstimate), field))
      ensures Normalised(currentEstimate)
      ensures initialized == old(initialized) && allEstimates == old(allEstimates)
    {
      currentEstimate := EstimateRules.UpdateEngineeringDraftingField(currentEstimate, field);
      RecalculateAll();
    }

    method UpdateErectionFreightField(field: ErectionFreightField)
      modifies this
      ensures currentEstimate == Recalculate(EstimateRules.UpdateErectionFreightField(old(currentEstimate), field))
      ensures Normalised(currentEstimate)
      ensures initialized == old(initialized) && allEstimates == old(allEstimates)
    {
      currentEstimate := EstimateRules.UpdateErectionFreightField(currentEstimate, field);
      RecalculateAll();
    }

    method UpdateOverheadProfitField(field: OverheadProfitField)
      modifies this
      ensures currentEstimate == Recalculate(EstimateRules.UpdateOverheadProfitField(old(currentEstimate), field))
      ensures Normalised(currentEstimate)
      ensures initialized == old(initialized) && allEstimates == old(allEstimates)
    {
      currentEstimate := EstimateRules.UpdateOverheadProfitField(currentEstimate, field);
      RecalculateAll();
    }

    method UpdateMetalDeckField(field: MetalDeckField)
      modifies this
      ensures currentEstimate == Recalculate(EstimateRules.UpdateMetalDeckField(old(currentEstimate), field))
      ensures Normalised(currentEstimate)
      ensures initialized == old(initialized) && allEstimates == old(allEstimates)
    {
      currentEstimate := EstimateRules.UpdateMetalDeckField(currentEstimate, field);
      RecalculateAll();
    }
  }
}
