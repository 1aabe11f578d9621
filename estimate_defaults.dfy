/**
 * The estimate `resetEstimate` starts from (src/store/estimatesadasStore.ts,
 * `getDefaultEstimate` and the seed-row helpers). The fresh row ids, the
 * random quote number and today's date are parameters.
 */
module EstimateDefaults {
  import opened Wrappers
  import opened Numeric
  import opened Decimal
  import opened EstimateTypes
  import opened QuoteNumbers

  /** `generateQuoteNumber`: `draw` is `Math.random()`, so the sequence number is one of 01 to 99. */
  function GenerateQuoteNumber(year: nat, monthIndex: nat, draw: real): (r: string)
    requires monthIndex < 12
    requires 0.0 <= draw < 1.0
    ensures |r| == |MonthPrefix(year, monthIndex)| + 2
    ensures r[..|MonthPrefix(year, monthIndex)|] == MonthPrefix(year, monthIndex)
    ensures AllDigits(r[|MonthPrefix(year, monthIndex)|..])
    ensures 1 <= DecimalValue(r[|MonthPrefix(year, monthIndex)|..]) <= 99
  {
    var n := (draw * 99.0).Floor + 1;
    var suffix := PadTwo(n);
    PadTwoRoundTrip(n);
    var r := MonthPrefix(year, monthIndex) + suffix;
    assert r[|MonthPrefix(year, monthIndex)|..] == suffix;
    r
  }

  /** The description of the forced first material row. */
  const FirstWeight := "First Weight"

  /** The five seed material rows; the first is the First Weight row. */
  function DefaultMaterialItems(ids: seq<string>): (r: seq<MaterialItem>)
    requires |ids| == 5
    ensures |r| == 5 && r[0].description == FirstWeight
  {
    [ MaterialItem(ids[0], FirstWeight, 0.0, 0.0, 0.0),
      MaterialItem(ids[1], "HSS (All)", 0.0, 0.0, 0.0),
      MaterialItem(ids[2], "HSS (7\" & 8\")", 0.0, 0.0, 0.0),
      MaterialItem(ids[3], "Channel Premium", 0.0, 0.0, 0.0),
      MaterialItem(ids[4], "Plate Premium (3/4\" & Higher)", 0.0, 0.0, 0.0) ]
  }

  /** The five seed labour rows, all at the standard hourly rate of 85. */
  function DefaultLabourItems(ids: seq<string>): (r: seq<LabourItem>)
    requires |ids| == 5
    ensures |r| == 5 && forall i :: 0 <= i < 5 ==> r[i].hourlyRate == 85.0 && r[i].pcsPerDay == 0.0
  {
    [ LabourItem(ids[0], "Column", 0.0, 0.0, 0.0, 85.0, 0.0),
      LabourItem(ids[1], "Beam", 0.0, 0.0, 0.0, 85.0, 0.0),
      LabourItem(ids[2], "Brace", 0.0, 0.0, 0.0, 85.0, 0.0),
      LabourItem(ids[3], "Girts", 0.0, 0.0, 0.0, 85.0, 0.0),
      LabourItem(ids[4], "VBF", 0.0, 0.0, 0.0, 85.0, 0.0) ]
  }

  /** The four seed miscellaneous rows, all of type 'S/O'. */
  function DefaultMiscellaneousItems(ids: seq<string>): (r: seq<MiscellaneousItem>)
    requires |ids| == 4
    ensures |r| == 4 && forall i :: 0 <= i < 4 ==> r[i].kind == SO
  {
    [ MiscellaneousItem(ids[0], SO, "Bent Plate Frame for Drive in Door (8' x 8')", 0.0, 0.0, 0.0, None),
      MiscellaneousItem(ids[1], SO, "Roof Hatch Ladder with Cage x 18' high", 0.0, 0.0, 0.0, None),
      MiscellaneousItem(ids[2], SO, "Shop drawings", 0.0, 0.0, 0.0, None),
      MiscellaneousItem(ids[3], SO, "Stamp", 0.0, 0.0, 0.0, None) ]
  }

  function EmptyProjectInfo(quoteNumber: string, date: string): ProjectInfo {
    ProjectInfo(quoteNumber, date, "", "", "", "", "", "", "", "", "", "", "", "", "", "", "", "", "", "")
  }

  /** `getDefaultEstimate`: `ids` are the 14 fresh row ids in seed order. */
  function DefaultEstimate(quoteNumber: string, date: string, ids: seq<string>): (r: EstimateData)
    requires |ids| == 14
    ensures r.id.None? && r.totalCost == 0.0
    ensures r.structuralSteel.connectionAllowance == 5.0
    ensures r.structuralSteel.overheadProfit == OverheadProfit(5.0, 10.0, 15.0)
    ensures r.structuralSteel.erectionFreight.regularTripCost == 300.0
    ensures r.structuralSteel.erectionFreight.trailerTripCost == 600.0
    ensures r.structuralSteel.visible && r.metalDeck.visible && r.miscellaneousSteel.visible
    ensures r.structuralSteel.overriddenTotalCost.None? && r.metalDeck.overriddenTotalCost.None?
    ensures r.miscellaneousSteel.overriddenTotalCost.None?
  {
    EstimateData(
      None,
      EmptyProjectInfo(quoteNumber, date),
      StructuralSteelData(
        true, 0.0, 0.0, 5.0, 0.0, 0.0,
        DefaultMaterialItems(ids[0..5]), 0.0,
        DefaultLabourItems(ids[5..10]), 0.0,
        Owsj("", 0.0, 0.0, 0.0, 0.0),
        EngineeringDrafting(0.0, 0.0, 0.0, 0.0, 0.0),
        ErectionFreight("", 0.0, 0.0, 0.0, 0.0, 0.0, 300.0, 0.0, 600.0, 0.0, 0.0),
        OverheadProfit(5.0, 10.0, 15.0),
        0.0, None),
      MetalDeckData(true, 0.0, 0.0, 0.0, None),
      MiscellaneousSteelData(true, DefaultMiscellaneousItems(ids[10..14]), 0.0, None),
      "", 0.0, None, None, None)
  }
}
