/**
 * How the three sections feed the grand total: visibility, the manual
 * override that takes precedence over a section's computed total, and the
 * three grand-total formulas the store uses (src/store/estimatesadasStore.ts).
 */
module Aggregation {
  import opened Wrappers
  import opened Numeric
  import opened EstimateTypes

  /** The three independently toggleable cost groups. */
  datatype Section = StructuralSteel | MetalDeck | MiscellaneousSteel

  function Visible(e: EstimateData, s: Section): bool {
    match s
    case StructuralSteel => e.structuralSteel.visible
    case MetalDeck => e.metalDeck.visible
    case MiscellaneousSteel => e.miscellaneousSteel.visible
  }

  /** The section's computed ("actual") total. */
  function ActualCost(e: EstimateData, s: Section): real {
    match s
    case StructuralSteel => e.structuralSteel.totalCost
    case MetalDeck => e.metalDeck.totalCost
    case MiscellaneousSteel => e.miscellaneousSteel.totalCost
  }

  function Override(e: EstimateData, s: Section): Option<real> {
    match s
    case StructuralSteel => e.structuralSteel.overriddenTotalCost
    case MetalDeck => e.metalDeck.overriddenTotalCost
    case MiscellaneousSteel => e.miscellaneousSteel.overriddenTotalCost
  }

  /** `overriddenTotalCost ?? totalCost`: an override, even 0, wins over the computed total. */
  function EffectiveCost(e: EstimateData, s: Section): (r: real)
    ensures Override(e, s).Some? ==> r == Override(e, s).value
    ensures Override(e, s).None? ==> r == ActualCost(e, s)
  {
    Override(e, s).GetOr(ActualCost(e, s))
  }

  function WithVisible(e: EstimateData, s: Section, visible: bool): EstimateData {
    match s
    case StructuralSteel => e.(structuralSteel := e.structuralSteel.(visible := visible))
    case MetalDeck => e.(metalDeck := e.metalDeck.(visible := visible))
    case MiscellaneousSteel => e.(miscellaneousSteel := e.miscellaneousSteel.(visible := visible))
  }

  function WithOverride(e: EstimateData, s: Section, value: Option<real>): EstimateData {
    match s
    case StructuralSteel => e.(structuralSteel := e.structuralSteel.(overriddenTotalCost := value))
    case MetalDeck => e.(metalDeck := e.metalDeck.(overriddenTotalCost := value))
    case MiscellaneousSteel => e.(miscellaneousSteel := e.miscellaneousSteel.(overriddenTotalCost := value))
  }

  /** What a section adds to the grand total in the override setters: nothing when hidden. */
  function Contribution(e: EstimateData, s: Section): real {
    if Visible(e, s) then EffectiveCost(e, s) else 0.0
  }

  /** What a section adds in `recalculateAll`: its effective cost rounded up, nothing when hidden. */
  function RoundedContribution(e: EstimateData, s: Section): real {
    if Visible(e, s) then CeilR(EffectiveCost(e, s)) else 0.0
  }

  /** What a section adds in the visibility toggles: its raw computed total; overrides are not read. */
  function RawContribution(e: EstimateData, s: Section): real {
    if Visible(e, s) then ActualCost(e, s) else 0.0
  }

  /** The grand total the override setters write: `Math.ceil` of the sum of the contributions. */
  function OverrideGrandTotal(e: EstimateData): real {
    CeilR(Contribution(e, StructuralSteel) + Contribution(e, MetalDeck) + Contribution(e, MiscellaneousSteel))
  }

  /** The grand total `recalculateAll` writes. */
  function RecalculatedGrandTotal(e: EstimateData): real {
    CeilR(RoundedContribution(e, StructuralSteel) + RoundedContribution(e, MetalDeck)
      + RoundedContribution(e, MiscellaneousSteel))
  }

  /** The grand total the visibility toggles write: a plain sum, not rounded. */
  function ToggleGrandTotal(e: EstimateData): real {
    RawContribution(e, StructuralSteel) + RawContribution(e, MetalDeck) + RawContribution(e, MiscellaneousSteel)
  }
}
