/**
 * The store's command handlers as pure transitions from one estimate to the
 * next (src/store/estimatesadasStore.ts). `EstimateStore` applies them to its
 * `currentEstimate`; the handlers the source follows with
 * `get().recalculateAll()` are followed by `Recalculate` there.
 */
module EstimateRules {
  import opened Wrappers
  import opened Numeric
  import opened ItemLists
  import opened EstimateTypes
  import opened Formulas
  import opened Aggregation

  // ------------------------------------------------------ recalculateAll

  /**
   * `recalculateAll`: rewrite the structural-steel total from its rounded
   * components plus overhead and profit, then the grand total from the
   * visible sections' rounded effective costs. Nothing else is written.
   */
  function Recalculate(e: EstimateData): (r: EstimateData)
    ensures r.structuralSteel == e.structuralSteel.(totalCost := StructuralTotal(e.structuralSteel))
    ensures r.totalCost == RecalculatedGrandTotal(r)
    ensures r == e.(structuralSteel := r.structuralSteel, totalCost := r.totalCost)
  {
    var withSteel := e.(structuralSteel := e.structuralSteel.(totalCost := StructuralTotal(e.structuralSteel)));
    withSteel.(totalCost := RecalculatedGrandTotal(withSteel))
  }

  /** An estimate whose two recomputed totals already agree with their formulas. */
  predicate Normalised(e: EstimateData) {
    && e.structuralSteel.totalCost == StructuralTotal(e.structuralSteel)
    && e.totalCost == RecalculatedGrandTotal(e)
  }

  /** The structural-steel total reads neither the stored total, the flag nor the override. */
  lemma {:induction false} StructuralTotalReadsInputs(a: StructuralSteelData, b: StructuralSteelData)
    requires a == b.(totalCost := a.totalCost, visible := a.visible, overriddenTotalCost := a.overriddenTotalCost)
    ensures StructuralTotal(a) == StructuralTotal(b)
  {
    assert StructuralSubtotal(a) == StructuralSubtotal(b);
    assert OverheadAmount(a) == OverheadAmount(b) && ProfitAmount(a) == ProfitAmount(b);
  }

  /** The recalculated grand total reads only each section's flag, override and computed total. */
  lemma {:induction false} GrandTotalReadsSections(e: EstimateData, f: EstimateData)
    requires forall s :: Visible(e, s) == Visible(f, s)
    requires forall s :: Override(e, s) == Override(f, s) && ActualCost(e, s) == ActualCost(f, s)
    ensures RecalculatedGrandTotal(e) == RecalculatedGrandTotal(f)
  {
    forall s ensures RoundedContribution(e, s) == RoundedContribution(f, s) {
      assert EffectiveCost(e, s) == EffectiveCost(f, s);
    }
  }

  /** After `recalculateAll` both totals agree with their formulas. */
  lemma {:induction false} RecalculateNormalises(e: EstimateData)
    ensures Normalised(Recalculate(e))
  {
    var r := Recalculate(e);
    StructuralTotalReadsInputs(r.structuralSteel, e.structuralSteel);
    assert r.structuralSteel.totalCost == StructuralTotal(r.structuralSteel);
  }

  /** `recalculateAll` changes exactly the estimates that are not yet normalised. */
  lemma {:induction false} NormalisedIsFixedPoint(e: EstimateData)
    ensures Normalised(e) <==> Recalculate(e) == e
  {
    var r := Recalculate(e);
    RecalculateNormalises(e);
    if Normalised(e) {
      assert r.structuralSteel == e.structuralSteel;
      GrandTotalReadsSections(r, e);
      assert r.totalCost == e.totalCost;
    }
  }

  /** Running `recalculateAll` twice is the same as running it once. */
  lemma {:induction false} RecalculateIdempotent(e: EstimateData)
    ensures Recalculate(Recalculate(e)) == Recalculate(e)
  {
    RecalculateNormalises(e);
    NormalisedIsFixedPoint(Recalculate(e));
  }

  // ------------------------------------------------- toggles and overrides

  /** `toggle…Visibility`: flip one section's flag and write the unrounded sum of the visible raw totals. */
  function ToggleVisibility(e: EstimateData, s: Section): (r: EstimateData)
    ensures Visible(r, s) == !Visible(e, s)
    ensures forall t :: t != s ==> Visible(r, t) == Visible(e, t)
    ensures forall t :: ActualCost(r, t) == ActualCost(e, t) && Override(r, t) == Override(e, t)
    ensures r.totalCost == ToggleGrandTotal(r)
    ensures r == WithVisible(e, s, !Visible(e, s)).(totalCost := r.totalCost)
  {
    var flipped := WithVisible(e, s, !Visible(e, s));
    flipped.(totalCost := ToggleGrandTotal(flipped))
  }

  /** `update…Override`: store the value (None clears it) and write the rounded sum of the visible effective costs. */
  function SetOverride(e: EstimateData, s: Section, value: Option<real>): (r: EstimateData)
    ensures Override(r, s) == value
    ensures forall t :: t != s ==> Override(r, t) == Override(e, t)
    ensures forall t :: ActualCost(r, t) == ActualCost(e, t) && Visible(r, t) == Visible(e, t)
    ensures r.totalCost == OverrideGrandTotal(r)
    ensures r == WithOverride(e, s, value).(totalCost := r.totalCost)
  {
    var stored := WithOverride(e, s, value);
    stored.(totalCost := OverrideGrandTotal(stored))
  }

  // ---------------------------------------- updateStructuralSteelField

  /** The three base inputs of the structural-steel section. */
  datatype BaseField = Area | Weight | ConnectionAllowance

  /** The forced "First Weight" row: row 0 carries the total weight and is re-costed. */
  function FirstWeightRow(material: seq<MaterialItem>, totalWeight: real): (r: seq<MaterialItem>)
    ensures |r| == |material|
    ensures |r| > 0 ==> r[0].weight == totalWeight && MaterialItemConsistent(r[0])
    ensures |r| > 0 ==> r[0].(totalCost := material[0].totalCost) == material[0].(weight := totalWeight)
    ensures forall i :: 1 <= i < |r| ==> r[i] == material[i]
  {
    if |material| == 0 then material
    else material[0 := material[0].(weight := totalWeight,
                                    totalCost := CeilR(Times(totalWeight, material[0].unitRate)))]
  }

  /**
   * The fields a weight or allowance edit derives from the base inputs:
   * tonnage, the First Weight row, the drafting and erection tonnage and the
   * trailer trips, with the costs that depend on them.
   */
  predicate TonnageMirrored(ss: StructuralSteelData) {
    && ss.totalWeight == TotalWeight(ss.weight, ss.connectionAllowance)
    && ss.totalTons == TotalTons(ss.totalWeight)
    && (|ss.material| > 0 ==> ss.material[0].weight == ss.totalWeight && MaterialItemConsistent(ss.material[0]))
    && ss.materialCost == MaterialCost(ss.material)
    && ss.engineeringDrafting.draftingTons == ss.totalTons
    && EngineeringDraftingConsistent(ss.engineeringDrafting)
    && ss.erectionFreight.tons == ss.totalTons
    && ss.erectionFreight.trailerTrips == TrailerTrips(ss.totalTons)
    && ErectionFreightConsistent(ss.erectionFreight)
  }

  /** Lines 237-278: recompute everything that follows from `weight` and `connectionAllowance`. */
  function RederiveTonnage(ss: StructuralSteelData): (r: StructuralSteelData)
    ensures TonnageMirrored(r)
    ensures r.weight == ss.weight && r.connectionAllowance == ss.connectionAllowance && r.area == ss.area
    ensures |r.material| == |ss.material|
    ensures forall i :: 1 <= i < |r.material| ==> r.material[i] == ss.material[i]
    ensures r.engineeringDrafting.engineering == ss.engineeringDrafting.engineering
    ensures r.engineeringDrafting.draftingPricePerTon == ss.engineeringDrafting.draftingPricePerTon
    ensures r.erectionFreight.(tons := ss.erectionFreight.tons, trailerTrips := ss.erectionFreight.trailerTrips,
                               erectionCost := ss.erectionFreight.erectionCost, freightCost := ss.erectionFreight.freightCost,
                               totalCost := ss.erectionFreight.totalCost) == ss.erectionFreight
    ensures r == ss.(totalWeight := r.totalWeight, totalTons := r.totalTons, material := r.material,
                     materialCost := r.materialCost, engineeringDrafting := r.engineeringDrafting,
                     erectionFreight := r.erectionFreight)
  {
    var totalWeight := TotalWeight(ss.weight, ss.connectionAllowance);
    var totalTons := TotalTons(totalWeight);
    var material := FirstWeightRow(ss.material, totalWeight);
    var drafting := CostEngineeringDrafting(ss.engineeringDrafting.(draftingTons := totalTons));
    var erection := CostErectionFreight(ss.erectionFreight.(tons := totalTons, trailerTrips := TrailerTrips(totalTons)));
    ss.(totalWeight := totalWeight, totalTons := totalTons, material := material,
        materialCost := MaterialCost(material), engineeringDrafting := drafting, erectionFreight := erection)
  }

  /**
   * `updateStructuralSteelField`. The source calls `recalculateAll` from
   * inside its own update, on the state before the edit, and then replaces
   * that state with the edited copy; both totals therefore keep their old
   * values here.
   */
  function EditStructuralSteelField(e: EstimateData, field: BaseField, value: real): (r: EstimateData)
    ensures r.structuralSteel.area == (if field == Area then value else e.structuralSteel.area)
    ensures r.structuralSteel.weight == (if field == Weight then value else e.structuralSteel.weight)
    ensures r.structuralSteel.connectionAllowance
         == (if field == ConnectionAllowance then value else e.structuralSteel.connectionAllowance)
    ensures field != Area ==> TonnageMirrored(r.structuralSteel)
    ensures field != Area ==> r.metalDeck == e.metalDeck
    ensures field == Area ==> r.structuralSteel == e.structuralSteel.(area := value)
    ensures field == Area ==> r.metalDeck == e.metalDeck.(area := value, totalCost := CeilR(Times(value, e.metalDeck.costPerSqft)))
    ensures r.structuralSteel.totalCost == e.structuralSteel.totalCost && r.totalCost == e.totalCost
    ensures r == e.(structuralSteel := r.structuralSteel, metalDeck := r.metalDeck)
  {
    var ss := e.structuralSteel;
    match field
    case Area =>
      var deck := e.metalDeck.(area := value);
      e.(structuralSteel := ss.(area := value),
         metalDeck := deck.(totalCost := CeilR(Times(deck.area, deck.costPerSqft))))
    case Weight =>
      e.(structuralSteel := RederiveTonnage(ss.(weight := value)))
    case ConnectionAllowance =>
      e.(structuralSteel := RederiveTonnage(ss.(connectionAllowance := value)))
  }

  // ------------------------------------------------------- material rows

  function MaterialIdIs(id: string): MaterialItem -> bool {
    (m: MaterialItem) => m.id == id
  }

  function MaterialEdit(field: MaterialField): MaterialItem -> MaterialItem {
    (m: MaterialItem) => EditMaterialItem(m, field)
  }

  /** The row `addMaterialItem` appends. */
  function NewMaterialItem(id: string): MaterialItem {
    MaterialItem(id, "", 0.0, 0.0, 0.0)
  }

  /** `addMaterialItem`, before its `recalculateAll`. */
  function AddMaterialItem(e: EstimateData, newId: string): (r: EstimateData)
    ensures r.structuralSteel.material == e.structuralSteel.material + [NewMaterialItem(newId)]
    ensures r.structuralSteel.materialCost == MaterialCost(r.structuralSteel.material)
    ensures r == e.(structuralSteel := e.structuralSteel.(material := r.structuralSteel.material,
                                                          materialCost := r.structuralSteel.materialCost))
  {
    var material := e.structuralSteel.material + [NewMaterialItem(newId)];
    e.(structuralSteel := e.structuralSteel.(material := material, materialCost := MaterialCost(material)))
  }

  /** `updateMaterialItem`, before its `recalculateAll`: only the rows with this id are rewritten. */
  function UpdateMaterialItem(e: EstimateData, id: string, field: MaterialField): (r: EstimateData)
    ensures |r.structuralSteel.material| == |e.structuralSteel.material|
    ensures forall i :: (0 <= i < |e.structuralSteel.material| ==>
      r.structuralSteel.material[i]
        == if e.structuralSteel.material[i].id == id
           then EditMaterialItem(e.structuralSteel.material[i], field)
           else e.structuralSteel.material[i])
    ensures r.structuralSteel.materialCost == MaterialCost(r.structuralSteel.material)
    ensures r == e.(structuralSteel := e.structuralSteel.(material := r.structuralSteel.material,
                                                          materialCost := r.structuralSteel.materialCost))
  {
    var material := MapWhere(e.structuralSteel.material, MaterialIdIs(id), MaterialEdit(field));
    e.(structuralSteel := e.structuralSteel.(material := material, materialCost := MaterialCost(material)))
  }

  /** `removeMaterialItem`, before its `recalculateAll`: every row with this id goes. */
  function RemoveMaterialItem(e: EstimateData, id: string): (r: EstimateData)
    ensures r.structuralSteel.material == RemoveWhere(e.structuralSteel.material, MaterialIdIs(id))
    ensures forall i :: 0 <= i < |r.structuralSteel.material| ==> r.structuralSteel.material[i].id != id
    ensures forall i :: (0 <= i < |e.structuralSteel.material| && e.structuralSteel.material[i].id != id
      ==> e.structuralSteel.material[i] in r.structuralSteel.material)
    ensures r.structuralSteel.materialCost == MaterialCost(r.structuralSteel.material)
    ensures r == e.(structuralSteel := e.structuralSteel.(material := r.structuralSteel.material,
                                                          materialCost := r.structuralSteel.materialCost))
  {
    var material := RemoveWhere(e.structuralSteel.material, MaterialIdIs(id));
    e.(structuralSteel := e.structuralSteel.(material := material, materialCost := MaterialCost(material)))
  }

  // --------------------------------------------------------- labour rows

  function LabourIdIs(id: string): LabourItem -> bool {
    (l: LabourItem) => l.id == id
  }

  function LabourEdit(field: LabourField): LabourItem --> LabourItem {
    (l: LabourItem) requires LabourEditDefined(l, field) => EditLabourItem(l, field)
  }

  /** Every row the edit reaches keeps a non-zero `pcsPerDay` afterwards. */
  predicate LabourUpdateDefined(labour: seq<LabourItem>, id: string, field: LabourField) {
    forall i :: 0 <= i < |labour| && labour[i].id == id ==> LabourEditDefined(labour[i], field)
  }

  /** The row `addLabourItem` appends: zero pieces and the standard rate of 85. */
  function NewLabourItem(id: string): LabourItem {
    LabourItem(id, "", 0.0, 0.0, 0.0, 85.0, 0.0)
  }

  function AddLabourItem(e: EstimateData, newId: string): (r: EstimateData)
    ensures r.structuralSteel.shopLabour == e.structuralSteel.shopLabour + [NewLabourItem(newId)]
    ensures r.structuralSteel.shopLabourCost == LabourCost(r.structuralSteel.shopLabour)
    ensures r == e.(structuralSteel := e.structuralSteel.(shopLabour := r.structuralSteel.shopLabour,
                                                          shopLabourCost := r.structuralSteel.shopLabourCost))
  {
    var labour := e.structuralSteel.shopLabour + [NewLabourItem(newId)];
    e.(structuralSteel := e.structuralSteel.(shopLabour := labour, shopLabourCost := LabourCost(labour)))
  }

  function UpdateLabourItem(e: EstimateData, id: string, field: LabourField): (r: EstimateData)
    requires LabourUpdateDefined(e.structuralSteel.shopLabour, id, field)
    ensures |r.structuralSteel.shopLabour| == |e.structuralSteel.shopLabour|
    ensures forall i :: (0 <= i < |e.structuralSteel.shopLabour| ==>
      r.structuralSteel.shopLabour[i]
        == if e.structuralSteel.shopLabour[i].id == id
           then EditLabourItem(e.structuralSteel.shopLabour[i], field)
           else e.structuralSteel.shopLabour[i])
    ensures r.structuralSteel.shopLabourCost == LabourCost(r.structuralSteel.shopLabour)
    ensures r == e.(structuralSteel := e.structuralSteel.(shopLabour := r.structuralSteel.shopLabour,
                                                          shopLabourCost := r.structuralSteel.shopLabourCost))
  {
    var labour := MapWhere(e.structuralSteel.shopLabour, LabourIdIs(id), LabourEdit(field));
    e.(structuralSteel := e.structuralSteel.(shopLabour := labour, shopLabourCost := LabourCost(labour)))
  }

  function RemoveLabourItem(e: EstimateData, id: string): (r: EstimateData)
    ensures r.structuralSteel.shopLabour == RemoveWhere(e.structuralSteel.shopLabour, LabourIdIs(id))
    ensures forall i :: 0 <= i < |r.structuralSteel.shopLabour| ==> r.structuralSteel.shopLabour[i].id != id
    ensures forall i :: (0 <= i < |e.structuralSteel.shopLabour| && e.structuralSteel.shopLabour[i].id != id
      ==> e.structuralSteel.shopLabour[i] in r.structuralSteel.shopLabour)
    ensures r.structuralSteel.shopLabourCost == LabourCost(r.structuralSteel.shopLabour)
    ensures r == e.(structuralSteel := e.structuralSteel.(shopLabour := r.structuralSteel.shopLabour,
                                                          shopLabourCost := r.structuralSteel.shopLabourCost))
  {
    var labour := RemoveWhere(e.structuralSteel.shopLabour, LabourIdIs(id));
    e.(structuralSteel := e.structuralSteel.(shopLabour := labour, shopLabourCost := LabourCost(labour)))
  }

  // -------------------------------------------------- miscellaneous rows

  function MiscellaneousIdIs(id: string): MiscellaneousItem -> bool {
    (m: MiscellaneousItem) => m.id == id
  }

  function MiscellaneousEdit(field: MiscellaneousField): MiscellaneousItem -> MiscellaneousItem {
    (m: MiscellaneousItem) => EditMiscellaneousItem(m, field)
  }

  /** The row `addMiscellaneousItem` appends: an 'S/O' item with zero quantities. */
  function NewMiscellaneousItem(id: string): MiscellaneousItem {
    MiscellaneousItem(id, SO, "", 0.0, 0.0, 0.0, None)
  }

  function AddMiscellaneousItem(e: EstimateData, newId: string): (r: EstimateData)
    ensures r.miscellaneousSteel.items == e.miscellaneousSteel.items + [NewMiscellaneousItem(newId)]
    ensures r.miscellaneousSteel.totalCost == MiscellaneousCost(r.miscellaneousSteel.items)
    ensures r == e.(miscellaneousSteel := e.miscellaneousSteel.(items := r.miscellaneousSteel.items,
                                                                totalCost := r.miscellaneousSteel.totalCost))
  {
    var items := e.miscellaneousSteel.items + [NewMiscellaneousItem(newId)];
    e.(miscellaneousSteel := e.miscellaneousSteel.(items := items, totalCost := MiscellaneousCost(items)))
  }

  function UpdateMiscellaneousItem(e: EstimateData, id: string, field: MiscellaneousField): (r: EstimateData)
    ensures |r.miscellaneousSteel.items| == |e.miscellaneousSteel.items|
    ensures forall i :: (0 <= i < |e.miscellaneousSteel.items| ==>
      r.miscellaneousSteel.items[i]
        == if e.miscellaneousSteel.items[i].id == id
           then EditMiscellaneousItem(e.miscellaneousSteel.items[i], field)
           else e.miscellaneousSteel.items[i])
    ensures r.miscellaneousSteel.totalCost == MiscellaneousCost(r.miscellaneousSteel.items)
    ensures r == e.(miscellaneousSteel := e.miscellaneousSteel.(items := r.miscellaneousSteel.items,
                                                                totalCost := r.miscellaneousSteel.totalCost))
  {
    var items := MapWhere(e.miscellaneousSteel.items, MiscellaneousIdIs(id), MiscellaneousEdit(field));
    e.(miscellaneousSteel := e.miscellaneousSteel.(items := items, totalCost := MiscellaneousCost(items)))
  }

  function RemoveMiscellaneousItem(e: EstimateData, id: string): (r: EstimateData)
    ensures r.miscellaneousSteel.items == RemoveWhere(e.miscellaneousSteel.items, MiscellaneousIdIs(id))
    ensures forall i :: 0 <= i < |r.miscellaneousSteel.items| ==> r.miscellaneousSteel.items[i].id != id
    ensures forall i :: (0 <= i < |e.miscellaneousSteel.items| && e.miscellaneousSteel.items[i].id != id
      ==> e.miscellaneousSteel.items[i] in r.miscellaneousSteel.items)
    ensures r.miscellaneousSteel.totalCost == MiscellaneousCost(r.miscellaneousSteel.items)
    ensures r == e.(miscellaneousSteel := e.miscellaneousSteel.(items := r.miscellaneousSteel.items,
                                                                totalCost := r.miscellaneousSteel.totalCost))
  {
    var items := RemoveWhere(e.miscellaneousSteel.items, MiscellaneousIdIs(id));
    e.(miscellaneousSteel := e.miscellaneousSteel.(items := items, totalCost := MiscellaneousCost(items)))
  }

  // ------------------------------------------------- sub-record edits
  // Each handler replaces one block of the structural-steel section (or the
  // metal-deck section) by the block's own edit in Formulas; the store
  // follows each of them with `Recalculate`.

  function UpdateOwsjField(e: EstimateData, field: OwsjField): EstimateData {
    e.(structuralSteel := e.structuralSteel.(owsj := EditOwsj(e.structuralSteel.owsj, field)))
  }

  function UpdateEngineeringDraftingField(e: EstimateData, field: EngineeringDraftingField): EstimateData {
    e.(structuralSteel := e.structuralSteel.(
      engineeringDrafting := EditEngineeringDrafting(e.structuralSteel.engineeringDrafting, field)))
  }

  function UpdateErectionFreightField(e: EstimateData, field: ErectionFreightField): EstimateData {
    e.(structuralSteel := e.structuralSteel.(
      erectionFreight := EditErectionFreight(e.structuralSteel.erectionFreight, field)))
  }

  function UpdateOverheadProfitField(e: EstimateData, field: OverheadProfitField): EstimateData {
    e.(structuralSteel := e.structuralSteel.(
      overheadProfit := EditOverheadProfit(e.structuralSteel.overheadProfit, field)))
  }

  function UpdateMetalDeckField(e: EstimateData, field: MetalDeckField): EstimateData {
    e.(metalDeck := EditMetalDeck(e.metalDeck, field))
  }

  // ------------------------------------------------- project info and remarks

  /** The keys of `ProjectInfo`, one per field. */
  datatype ProjectInfoField =
      QuoteNumber
    | Date
    | GcName
    | GcAddress
    | ProjectName
    | ProjectAddress
    | Estimator
    | ClosingDate
    | ContactPerson
    | ContactPhone
    | Architect
    | ArchitectPhone
    | Engineer
    | EngineerPhone
    | StructuralDrawings
    | StructuralDrawingsDate
    | StructuralDrawingsRevision
    | ArchitecturalDrawings
    | ArchitecturalDrawingsDate
    | ArchitecturalDrawingsRevision

  /** Reads the field a key names. */
  function ProjectInfoValue(p: ProjectInfo, field: ProjectInfoField): string {
    match field
    case QuoteNumber => p.quoteNumber
    case Date => p.date
    case GcName => p.gcName
    case GcAddress => p.gcAddress
    case ProjectName => p.projectName
    case ProjectAddress => p.projectAddress
    case Estimator => p.estimator
    case ClosingDate => p.closingDate
    case ContactPerson => p.contactPerson
    case ContactPhone => p.contactPhone
    case Architect => p.architect
    case ArchitectPhone => p.architectPhone
    case Engineer => p.engineer
    case EngineerPhone => p.engineerPhone
    case StructuralDrawings => p.structuralDrawings
    case StructuralDrawingsDate => p.structuralDrawingsDate
    case StructuralDrawingsRevision => p.structuralDrawingsRevision
    case ArchitecturalDrawings => p.architecturalDrawings
    case ArchitecturalDrawingsDate => p.architecturalDrawingsDate
    case ArchitecturalDrawingsRevision => p.architecturalDrawingsRevision
  }

  /** `{ ...projectInfo, [field]: value }`: write one field, keep the other nineteen. */
  function WithProjectInfoField(p: ProjectInfo, field: ProjectInfoField, value: string): (r: ProjectInfo)
    ensures ProjectInfoValue(r, field) == value
    ensures forall other :: other != field ==> ProjectInfoValue(r, other) == ProjectInfoValue(p, other)
  {
    match field
    case QuoteNumber => p.(quoteNumber := value)
    case Date => p.(date := value)
    case GcName => p.(gcName := value)
    case GcAddress => p.(gcAddress := value)
    case ProjectName => p.(projectName := value)
    case ProjectAddress => p.(projectAddress := value)
    case Estimator => p.(estimator := value)
    case ClosingDate => p.(closingDate := value)
    case ContactPerson => p.(contactPerson := value)
    case ContactPhone => p.(contactPhone := value)
    case Architect => p.(architect := value)
    case ArchitectPhone => p.(architectPhone := value)
    case Engineer => p.(engineer := value)
    case EngineerPhone => p.(engineerPhone := value)
    case StructuralDrawings => p.(structuralDrawings := value)
    case StructuralDrawingsDate => p.(structuralDrawingsDate := value)
    case StructuralDrawingsRevision => p.(structuralDrawingsRevision := value)
    case ArchitecturalDrawings => p.(architecturalDrawings := value)
    case ArchitecturalDrawingsDate => p.(architecturalDrawingsDate := value)
    case ArchitecturalDrawingsRevision => p.(architecturalDrawingsRevision := value)
  }

  /** `updateProjectInfo`: only the project information changes; no total is recomputed. */
  function UpdateProjectInfo(e: EstimateData, field: ProjectInfoField, value: string): (r: EstimateData)
    ensures ProjectInfoValue(r.projectInfo, field) == value
    ensures forall other :: other != field ==> ProjectInfoValue(r.projectInfo, other) == ProjectInfoValue(e.projectInfo, other)
    ensures r == e.(projectInfo := r.projectInfo)
  {
    e.(projectInfo := WithProjectInfoField(e.projectInfo, field, value))
  }

  /** `updateRemarks`: only the remarks change. */
  function UpdateRemarks(e: EstimateData, remarks: string): EstimateData {
    e.(remarks := remarks)
  }
}
