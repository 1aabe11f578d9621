/**
 * The cost rules of the estimate engine (src/store/estimatesadasStore.ts):
 * the tonnage helpers, the section aggregates, the per-row cost rules and
 * the rules that recompute the derived fields of each structural-steel
 * sub-record. Every intermediate cost is rounded up with `CeilR`.
 */
module Formulas {
  import opened Wrappers
  import opened Numeric
  import opened ItemLists
  import opened EstimateTypes

  // ---------------------------------------------------------------- tonnage

  /** `calculateTotalWeight`: the weight plus the connection allowance (in percent). */
  function TotalWeight(weight: real, connectionAllowance: real): real {
    Times(weight, 1.0 + connectionAllowance / 100.0)
  }

  /** `calculateTotalTons`: pounds to short tons. */
  function TotalTons(totalWeight: real): real {
    totalWeight / 2000.0
  }

  /** One trailer trip per started 20 tons. */
  function TrailerTrips(totalTons: real): real {
    CeilR(totalTons / 20.0)
  }

  // ---------------------------------------------------------- aggregates

  /** `item.totalCost || 0`: a number is never NaN here, so this is the row's cost. */
  function MaterialRowCost(m: MaterialItem): real { m.totalCost }
  function LabourRowCost(l: LabourItem): real { l.totalCost }
  function MiscellaneousRowCost(m: MiscellaneousItem): real { m.totalCost }

  /** `calculateMaterialCost`: the rounded-up sum of the row costs. */
  function MaterialCost(items: seq<MaterialItem>): real {
    CeilR(SumBy(items, MaterialRowCost))
  }

  /** `calculateLabourCost`. */
  function LabourCost(items: seq<LabourItem>): real {
    CeilR(SumBy(items, LabourRowCost))
  }

  /** `calculateMiscellaneousCost`. */
  function MiscellaneousCost(items: seq<MiscellaneousItem>): real {
    CeilR(SumBy(items, MiscellaneousRowCost))
  }

  // ------------------------------------------------------- material rows

  /** The fields of a material row a caller may edit. */
  datatype MaterialField =
    | MaterialDescription(text: string)
    | MaterialWeight(weight: real)
    | MaterialUnitRate(rate: real)

  predicate MaterialItemConsistent(m: MaterialItem) {
    m.totalCost == CeilR(Times(m.weight, m.unitRate))
  }

  /** `{ ...item, [field]: value }` followed by the row's cost rule. */
  function EditMaterialItem(m: MaterialItem, field: MaterialField): (r: MaterialItem)
    ensures MaterialItemConsistent(r)
    ensures r.id == m.id
    ensures r.description == if field.MaterialDescription? then field.text else m.description
    ensures r.weight == if field.MaterialWeight? then field.weight else m.weight
    ensures r.unitRate == if field.MaterialUnitRate? then field.rate else m.unitRate
  {
    var edited := match field
      case MaterialDescription(text) => m.(description := text)
      case MaterialWeight(weight) => m.(weight := weight)
      case MaterialUnitRate(rate) => m.(unitRate := rate);
    edited.(totalCost := CeilR(Times(edited.weight, edited.unitRate)))
  }

  // --------------------------------------------------------- labour rows

  /** The fields of a labour row a caller may edit. */
  datatype LabourField =
    | MemberGroup(text: string)
    | TotalPcs(pcs: real)
    | PcsPerDay(rate: real)
    | HourlyRate(rate: real)

  function WithLabourField(l: LabourItem, field: LabourField): LabourItem {
    match field
    case MemberGroup(text) => l.(memberGroup := text)
    case TotalPcs(pcs) => l.(totalPcs := pcs)
    case PcsPerDay(rate) => l.(pcsPerDay := rate)
    case HourlyRate(rate) => l.(hourlyRate := rate)
  }

  /**
   * The source divides by `pcsPerDay` without a guard; the model covers the
   * edits after which that divisor is not zero.
   */
  predicate LabourEditDefined(l: LabourItem, field: LabourField) {
    WithLabourField(l, field).pcsPerDay != 0.0
  }

  /** Hours for a row: `Math.ceil(totalPcs / pcsPerDay * 100)`. */
  function LabourHours(totalPcs: real, pcsPerDay: real): real
    requires pcsPerDay != 0.0
  {
    CeilR(Quotient(totalPcs, pcsPerDay) * 100.0)
  }

  /**
   * A labour row whose cost follows its hours; its hours follow the piece
   * counts wherever they are defined (a zero `pcsPerDay` only occurs on rows
   * nobody has edited, whose hours stay as seeded).
   */
  predicate LabourItemConsistent(l: LabourItem) {
    && (l.pcsPerDay != 0.0 ==> l.hours == LabourHours(l.totalPcs, l.pcsPerDay))
    && l.totalCost == CeilR(Times(l.hours, l.hourlyRate))
  }

  /** `{ ...item, [field]: value }`, then hours, then cost. */
  function EditLabourItem(l: LabourItem, field: LabourField): (r: LabourItem)
    requires LabourEditDefined(l, field)
    ensures LabourItemConsistent(r)
    ensures r.id == l.id
    ensures r.memberGroup == if field.MemberGroup? then field.text else l.memberGroup
    ensures r.totalPcs == if field.TotalPcs? then field.pcs else l.totalPcs
    ensures r.pcsPerDay == if field.PcsPerDay? then field.rate else l.pcsPerDay
    ensures r.hourlyRate == if field.HourlyRate? then field.rate else l.hourlyRate
    ensures r.hours == LabourHours(r.totalPcs, r.pcsPerDay)
  {
    var edited := WithLabourField(l, field);
    var hours := LabourHours(edited.totalPcs, edited.pcsPerDay);
    edited.(hours := hours, totalCost := CeilR(Times(hours, edited.hourlyRate)))
  }

  // -------------------------------------------------- miscellaneous rows

  /** The fields of a miscellaneous row a caller may edit. */
  datatype MiscellaneousField =
    | MiscType(kind: MiscKind)
    | MiscDescription(text: string)
    | MiscUnit(unit: real)
    | MiscUnitRate(rate: real)
    | MiscRefDrawing(reference: string)

  predicate MiscellaneousItemConsistent(m: MiscellaneousItem) {
    m.totalCost == CeilR(Times(m.unit, m.unitRate))
  }

  function EditMiscellaneousItem(m: MiscellaneousItem, field: MiscellaneousField): (r: MiscellaneousItem)
    ensures MiscellaneousItemConsistent(r)
    ensures r.id == m.id
    ensures r.kind == if field.MiscType? then field.kind else m.kind
    ensures r.description == if field.MiscDescription? then field.text else m.description
    ensures r.unit == if field.MiscUnit? then field.unit else m.unit
    ensures r.unitRate == if field.MiscUnitRate? then field.rate else m.unitRate
    ensures r.refDrawing == if field.MiscRefDrawing? then Some(field.reference) else m.refDrawing
  {
    var edited := match field
      case MiscType(kind) => m.(kind := kind)
      case MiscDescription(text) => m.(description := text)
      case MiscUnit(unit) => m.(unit := unit)
      case MiscUnitRate(rate) => m.(unitRate := rate)
      case MiscRefDrawing(reference) => m.(refDrawing := Some(reference));
    edited.(totalCost := CeilR(Times(edited.unit, edited.unitRate)))
  }

  // ------------------------------------------------------------- OWSJ

  datatype OwsjField =
    | OwsjSupplier(text: string)
    | OwsjPcs(pcs: real)
    | OwsjWeight(weight: real)
    | OwsjPricePerWeight(price: real)

  /** The joist cost is recomputed only when one of its two factors is edited. */
  function EditOwsj(o: Owsj, field: OwsjField): (r: Owsj)
    ensures r.supplier == if field.OwsjSupplier? then field.text else o.supplier
    ensures r.pcs == if field.OwsjPcs? then field.pcs else o.pcs
    ensures r.weight == if field.OwsjWeight? then field.weight else o.weight
    ensures r.pricePerWeight == if field.OwsjPricePerWeight? then field.price else o.pricePerWeight
    ensures field.OwsjWeight? || field.OwsjPricePerWeight? ==> r.cost == CeilR(Times(r.weight, r.pricePerWeight))
    ensures field.OwsjSupplier? || field.OwsjPcs? ==> r.cost == o.cost
  {
    match field
    case OwsjSupplier(text) => o.(supplier := text)
    case OwsjPcs(pcs) => o.(pcs := pcs)
    case OwsjWeight(weight) => o.(weight := weight, cost := CeilR(Times(weight, o.pricePerWeight)))
    case OwsjPricePerWeight(price) => o.(pricePerWeight := price, cost := CeilR(Times(o.weight, price)))
  }

  // ------------------------------------------- engineering and drafting

  datatype EngineeringDraftingField =
    | Engineering(cost: real)
    | DraftingTons(tons: real)
    | DraftingPricePerTon(price: real)

  predicate EngineeringDraftingConsistent(ed: EngineeringDrafting) {
    && ed.draftingCost == CeilR(Times(ed.draftingTons, ed.draftingPricePerTon))
    && ed.totalCost == CeilR(ed.engineering + ed.draftingCost)
  }

  /** Recompute the drafting cost and then the block total. */
  function CostEngineeringDrafting(ed: EngineeringDrafting): (r: EngineeringDrafting)
    ensures EngineeringDraftingConsistent(r)
    ensures r.engineering == ed.engineering && r.draftingTons == ed.draftingTons
    ensures r.draftingPricePerTon == ed.draftingPricePerTon
  {
    var drafting := CeilR(Times(ed.draftingTons, ed.draftingPricePerTon));
    ed.(draftingCost := drafting, totalCost := CeilR(ed.engineering + drafting))
  }

  function EditEngineeringDrafting(ed: EngineeringDrafting, field: EngineeringDraftingField): (r: EngineeringDrafting)
    ensures EngineeringDraftingConsistent(r)
    ensures r.engineering == if field.Engineering? then field.cost else ed.engineering
    ensures r.draftingTons == if field.DraftingTons? then field.tons else ed.draftingTons
    ensures r.draftingPricePerTon == if field.DraftingPricePerTon? then field.price else ed.draftingPricePerTon
  {
    CostEngineeringDrafting(
      match field
      case Engineering(cost) => ed.(engineering := cost)
      case DraftingTons(tons) => ed.(draftingTons := tons)
      case DraftingPricePerTon(price) => ed.(draftingPricePerTon := price))
  }

  // --------------------------------------------- erection and freight

  datatype ErectionFreightField =
    | Erector(text: string)
    | ErectionTons(tons: real)
    | ErectionPricePerTon(price: real)
    | Premium(amount: real)
    | RegularTrips(trips: real)
    | RegularTripCost(cost: real)
    | TrailerTripCount(trips: real)
    | TrailerTripCost(cost: real)

  predicate ErectionFreightConsistent(ef: ErectionFreight) {
    && ef.erectionCost == CeilR(Times(ef.tons, ef.pricePerTon) + ef.premium)
    && ef.freightCost == CeilR(Times(ef.regularTrips, ef.regularTripCost) + Times(ef.trailerTrips, ef.trailerTripCost))
    && ef.totalCost == CeilR(ef.erectionCost + ef.freightCost)
  }

  /** Recompute the erection cost, the freight cost and the block total; the trip counts are inputs here. */
  function CostErectionFreight(ef: ErectionFreight): (r: ErectionFreight)
    ensures ErectionFreightConsistent(r)
    ensures r.(erectionCost := ef.erectionCost, freightCost := ef.freightCost, totalCost := ef.totalCost) == ef
  {
    var erection := CeilR(Times(ef.tons, ef.pricePerTon) + ef.premium);
    var freight := CeilR(Times(ef.regularTrips, ef.regularTripCost) + Times(ef.trailerTrips, ef.trailerTripCost));
    ef.(erectionCost := erection, freightCost := freight, totalCost := CeilR(erection + freight))
  }

  function WithErectionFreightField(ef: ErectionFreight, field: ErectionFreightField): ErectionFreight {
    match field
    case Erector(text) => ef.(erector := text)
    case ErectionTons(tons) => ef.(tons := tons)
    case ErectionPricePerTon(price) => ef.(pricePerTon := price)
    case Premium(amount) => ef.(premium := amount)
    case RegularTrips(trips) => ef.(regularTrips := trips)
    case RegularTripCost(cost) => ef.(regularTripCost := cost)
    case TrailerTripCount(trips) => ef.(trailerTrips := trips)
    case TrailerTripCost(cost) => ef.(trailerTripCost := cost)
  }

  /** Set the field, then recompute the costs; the trailer-trip count is never re-derived here. */
  function EditErectionFreight(ef: ErectionFreight, field: ErectionFreightField): (r: ErectionFreight)
    ensures ErectionFreightConsistent(r)
    ensures r.trailerTrips == if field.TrailerTripCount? then field.trips else ef.trailerTrips
    ensures r.tons == if field.ErectionTons? then field.tons else ef.tons
    ensures r.erector == if field.Erector? then field.text else ef.erector
  {
    CostErectionFreight(WithErectionFreightField(ef, field))
  }

  // ------------------------------------------------ overhead and profit

  datatype OverheadProfitField = Overhead(percent: real) | Profit(percent: real)

  function EditOverheadProfit(op: OverheadProfit, field: OverheadProfitField): (r: OverheadProfit)
    ensures r.overhead == if field.Overhead? then field.percent else op.overhead
    ensures r.profit == if field.Profit? then field.percent else op.profit
    ensures r.totalPercentage == r.overhead + r.profit
  {
    var edited := match field
      case Overhead(p) => op.(overhead := p)
      case Profit(p) => op.(profit := p);
    edited.(totalPercentage := edited.overhead + edited.profit)
  }

  // --------------------------------------------------------- metal deck

  datatype MetalDeckField = DeckArea(area: real) | DeckCostPerSqft(price: real)

  predicate MetalDeckConsistent(md: MetalDeckData) {
    md.totalCost == CeilR(Times(md.area, md.costPerSqft))
  }

  function EditMetalDeck(md: MetalDeckData, field: MetalDeckField): (r: MetalDeckData)
    ensures MetalDeckConsistent(r)
    ensures r.area == if field.DeckArea? then field.area else md.area
    ensures r.costPerSqft == if field.DeckCostPerSqft? then field.price else md.costPerSqft
    ensures r.visible == md.visible && r.overriddenTotalCost == md.overriddenTotalCost
  {
    var edited := match field
      case DeckArea(area) => md.(area := area)
      case DeckCostPerSqft(price) => md.(costPerSqft := price);
    edited.(totalCost := CeilR(Times(edited.area, edited.costPerSqft)))
  }

  // ------------------------------------------------ structural total

  /** The five rounded components that overhead and profit are charged on. */
  function StructuralSubtotal(ss: StructuralSteelData): real {
    CeilR(ss.materialCost) + CeilR(ss.shopLabourCost) + CeilR(ss.owsj.cost)
      + CeilR(ss.engineeringDrafting.totalCost) + CeilR(ss.erectionFreight.totalCost)
  }

  /** The overhead amount: the subtotal times the overhead percentage, rounded up. */
  function OverheadAmount(ss: StructuralSteelData): real {
    CeilR(Times(StructuralSubtotal(ss), ss.overheadProfit.overhead / 100.0))
  }

  function ProfitAmount(ss: StructuralSteelData): real {
    CeilR(Times(StructuralSubtotal(ss), ss.overheadProfit.profit / 100.0))
  }

  /** The structural-steel section total that `recalculateAll` writes. */
  function StructuralTotal(ss: StructuralSteelData): real {
    CeilR(StructuralSubtotal(ss) + OverheadAmount(ss) + ProfitAmount(ss))
  }
}
