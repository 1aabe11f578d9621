/**
 * The records of an estimate (src/types/estimate.ts). Every quantity of the
 * source is a JavaScript number and is a `real` here; optional fields are
 * `Option`s. Fields the engine never reads or writes (pricePerTon,
 * pricePerSqft, hoursPerTon, deckCost and the metal-deck erection block) are
 * not part of this model.
 */
module EstimateTypes {
  import opened Wrappers

  /** Project metadata: passed through untouched by the cost engine. */
  datatype ProjectInfo = ProjectInfo(
    quoteNumber: string,
    date: string,
    gcName: string,
    gcAddress: string,
    projectName: string,
    projectAddress: string,
    estimator: string,
    closingDate: string,
    contactPerson: string,
    contactPhone: string,
    architect: string,
    architectPhone: string,
    engineer: string,
    engineerPhone: string,
    structuralDrawings: string,
    structuralDrawingsDate: string,
    structuralDrawingsRevision: string,
    architecturalDrawings: string,
    architecturalDrawingsDate: string,
    architecturalDrawingsRevision: string)

  /** A row of the structural-steel material table. */
  datatype MaterialItem = MaterialItem(
    id: string,
    description: string,
    weight: real,
    unitRate: real,
    totalCost: real)

  /** A row of the shop-labour table. */
  datatype LabourItem = LabourItem(
    id: string,
    memberGroup: string,
    totalPcs: real,
    pcsPerDay: real,
    hours: real,
    hourlyRate: real,
    totalCost: real)

  /** The two item types of the miscellaneous-steel table, 'S/O' and 'S/I'. */
  datatype MiscKind = SO | SI

  /** A row of the miscellaneous-steel table. */
  datatype MiscellaneousItem = MiscellaneousItem(
    id: string,
    kind: MiscKind,
    description: string,
    unit: real,
    unitRate: real,
    totalCost: real,
    refDrawing: Option<string>)

  /** The open-web steel joist block. */
  datatype Owsj = Owsj(
    supplier: string,
    pcs: real,
    weight: real,
    pricePerWeight: real,
    cost: real)

  datatype EngineeringDrafting = EngineeringDrafting(
    engineering: real,
    draftingTons: real,
    draftingPricePerTon: real,
    draftingCost: real,
    totalCost: real)

  datatype ErectionFreight = ErectionFreight(
    erector: string,
    tons: real,
    pricePerTon: real,
    premium: real,
    erectionCost: real,
    regularTrips: real,
    regularTripCost: real,
    trailerTrips: real,
    trailerTripCost: real,
    freightCost: real,
    totalCost: real)

  /** Overhead and profit, both in percent. */
  datatype OverheadProfit = OverheadProfit(
    overhead: real,
    profit: real,
    totalPercentage: real)

  datatype StructuralSteelData = StructuralSteelData(
    visible: bool,
    area: real,
    weight: real,
    connectionAllowance: real,
    totalWeight: real,
    totalTons: real,
    material: seq<MaterialItem>,
    materialCost: real,
    shopLabour: seq<LabourItem>,
    shopLabourCost: real,
    owsj: Owsj,
    engineeringDrafting: EngineeringDrafting,
    erectionFreight: ErectionFreight,
    overheadProfit: OverheadProfit,
    totalCost: real,
    overriddenTotalCost: Option<real>)

  datatype MetalDeckData = MetalDeckData(
    visible: bool,
    area: real,
    costPerSqft: real,
    totalCost: real,
    overriddenTotalCost: Option<real>)

  datatype MiscellaneousSteelData = MiscellaneousSteelData(
    visible: bool,
    items: seq<MiscellaneousItem>,
    totalCost: real,
    overriddenTotalCost: Option<real>)

  /** The root record; `id` is absent until the estimate is first stored. */
  datatype EstimateData = EstimateData(
    id: Option<string>,
    projectInfo: ProjectInfo,
    structuralSteel: StructuralSteelData,
    metalDeck: MetalDeckData,
    miscellaneousSteel: MiscellaneousSteelData,
    remarks: string,
    totalCost: real,
    createdAt: Option<string>,
    updatedAt: Option<string>,
    notes: Option<string>)

  /** JavaScript truthiness of an optional id: absent and '' are both "no id". */
  predicate HasId(id: Option<string>) {
    id.Some? && id.value != ""
  }
}
