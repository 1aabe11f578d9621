# Steel estimation app — verified model of the estimate core

The application prices structural-steel jobs. Its main record is one
estimate, which has three sections:

- structural steel: material rows, shop-labour rows, open-web steel joists,
  engineering and drafting, erection and freight, overhead and profit;
- metal deck;
- miscellaneous steel rows.

Each section can be hidden or given a manual override. Either choice changes
the grand total.

This project models four parts of the code:

- the estimate store and its formulas (`src/store/estimatesadasStore.ts`);
- quote numbering on save (`src/services/supabaseClient.ts`);
- the revision numbering and record composition of the front sheet's save
  button (`src/pages/FrontSheet.tsx`);
- the phone-number input mask (`src/components/ui/FormInput.tsx`).

Numbers are exact reals. `Math.ceil` is `Numeric.CeilR`.

The store is the class `EstimateStore.EstimateStore`:

- It has one field per piece of store state.
- It has one method per handler. Each method's `ensures` ties the new
  `currentEstimate` to a pure transition in `EstimateRules`.
- Handlers that call `get().recalculateAll()` after their `set` are followed
  by `EstimateRules.Recalculate`.

Properties are proved about these transitions:

- `EstimateRules`: the recalculation is idempotent and normalising.
- `EstimateProperties`: toggles, overrides, tonnage and rounding.
- `ItemProperties`: row-table invariants, derived-field invariants and the
  seed estimate.

The month's quote-number gap search is an imperative loop
(`QuoteNumbers.ScanForGap`), proved against the function
`QuoteNumbers.FirstGap`. JavaScript's `parseInt`, `split` and the
`/R\d+$/` replace are spelled out in `JsStrings` and `FrontSheet`.

Several places where the code differs from what its comments or UI suggest
are modelled as written:

- **Stale structural edits.** `updateStructuralSteelField` runs
  `recalculateAll` inside its own `set`, on the state from before the edit.
  It then overwrites that state with the edited record, so the section total
  and the grand total keep their old values.
- **Toggle totals.** The visibility toggles write an unrounded sum of the
  computed section totals. They ignore overrides.
- **Override versus recalculation totals.** The override setters round only
  the final sum. `recalculateAll` rounds each contribution and then the sum.
- **Labour hours.** They are divided by pieces-per-day with no zero guard.
- **Trailer trips.** In `updateErectionFreightField`, the trailer-trip count
  is an input. It is not re-derived from the tonnage.
- **Revision numbers.**
  - The revision number is read after the first `R` and written over the last
    `R<digits>`, so `pR1R5` becomes `pR1R2`.
  - The save record is built from the estimate as it was before the revised
    number was stored.
  - Because a new-number save drops the id, `saveEstimate` stamps the record
    with the next free month number. The revised number is never saved.
- **Gap search.**
  - The search trusts the text order of the query. Repeated or unordered
    suffixes can make it return a number that is already in use.
  - A suffix that does not parse counts as a gap.

## Model

| member | source | states |
|---|---|---|
| EstimateRules.Recalculate | src/store/estimatesadasStore.ts:806-837 | only the structural-steel total and the grand total change; the section total is the subtotal of the five ceiled blocks plus ceiled overhead and profit, rounded up; the grand total is the ceiled sum of the visible sections' ceiled effective costs (override if set) |
| EstimateRules.RecalculateNormalises | src/store/estimatesadasStore.ts:806-837 | after a recalculation both totals agree with their formulas |
| EstimateRules.NormalisedIsFixedPoint | src/store/estimatesadasStore.ts:806-837 | an estimate is left unchanged by a recalculation exactly when its totals already agree with the formulas |
| EstimateRules.RecalculateIdempotent | src/store/estimatesadasStore.ts:806-837 | recalculating twice is the same as once |
| EstimateRules.StructuralTotalReadsInputs | src/store/estimatesadasStore.ts:806-821 | the structural total depends on the section's inputs only, not on its stored total, flag or override |
| EstimateRules.GrandTotalReadsSections | src/store/estimatesadasStore.ts:823-834 | the recalculated grand total depends only on each section's flag, override and computed total |
| EstimateRules.ToggleVisibility | src/store/estimatesadasStore.ts:210-229 | the toggled section's flag flips, every other flag, computed total and override is kept, and the grand total becomes the plain unrounded sum of the visible sections' computed totals |
| EstimateRules.SetOverride | src/store/estimatesadasStore.ts:728-804 | the section's override becomes the given value (or is cleared), the others stay, and the grand total is the ceiled sum of the visible effective costs |
| EstimateRules.FirstWeightRow | src/store/estimatesadasStore.ts:242-250 | the First Weight row (row 0) takes the total weight and its cost is recomputed; all other rows are kept |
| EstimateRules.RederiveTonnage | src/store/estimatesadasStore.ts:237-278 | after a weight or allowance change, total weight, total tons, the First Weight row, material cost, drafting tonnage and cost, erection tonnage, trailer trips and freight costs are all consistent with the inputs; nothing else changes |
| EstimateRules.EditStructuralSteelField | src/store/estimatesadasStore.ts:231-305 | an area edit also sets the metal-deck area and cost; a weight or allowance edit re-derives the tonnage fields; in every case the section total and the grand total keep their pre-edit values |
| EstimateRules.AddMaterialItem | src/store/estimatesadasStore.ts:307-333 | one zero row with the fresh id is appended and the material cost is the rounded sum of the rows |
| EstimateRules.UpdateMaterialItem | src/store/estimatesadasStore.ts:335-361 | rows with the id get the edit and their cost recomputed, the others are kept, and the material cost is the rounded sum |
| ItemLists.RemoveWhere | src/store/estimatesadasStore.ts:365 | `filter`: every kept row is a row of the input that does not match, and every row that does not match is kept as many times as it occurs |
| ItemLists.RemoveWhereConcat | src/store/estimatesadasStore.ts:365 | filtering distributes over concatenation, so the kept rows stay in their order |
| EstimateRules.RemoveMaterialItem | src/store/estimatesadasStore.ts:363-381 | no row with the id remains, every other row is kept in order, and the material cost is the rounded sum |
| EstimateRules.AddLabourItem | src/store/estimatesadasStore.ts:383-411 | one zero row at rate 85 with the fresh id is appended and the labour cost is the rounded sum |
| EstimateRules.UpdateLabourItem | src/store/estimatesadasStore.ts:413-440 | rows with the id get the edit and recomputed hours and cost, the others are kept, and the labour cost is the rounded sum |
| EstimateRules.RemoveLabourItem | src/store/estimatesadasStore.ts:442-460 | no row with the id remains, the others are kept, and the labour cost is the rounded sum |
| EstimateRules.AddMiscellaneousItem | src/store/estimatesadasStore.ts:642-669 | one zero S/O row with the fresh id is appended and the section total is the rounded sum |
| EstimateRules.UpdateMiscellaneousItem | src/store/estimatesadasStore.ts:671-697 | rows with the id get the edit and their cost recomputed, the others are kept, and the section total is the rounded sum |
| EstimateRules.RemoveMiscellaneousItem | src/store/estimatesadasStore.ts:699-717 | no row with the id remains, the others are kept, and the section total is the rounded sum |
| EstimateRules.WithProjectInfoField | src/store/estimatesadasStore.ts:198-208 | the named project field takes the value and every other field is unchanged |
| EstimateRules.UpdateProjectInfo | src/store/estimatesadasStore.ts:198-208 | only the named project field of the estimate changes |
| Formulas.EditMaterialItem | src/store/estimatesadasStore.ts:336-343 | the edited field takes the value, the row's cost is ceil(weight × rate) and the id is kept |
| Formulas.EditLabourItem | src/store/estimatesadasStore.ts:414-422 | the edited field takes the value, hours are ceil(totalPcs / pcsPerDay × 100) and cost is ceil(hours × rate) |
| Formulas.EditMiscellaneousItem | src/store/estimatesadasStore.ts:672-679 | the edited field takes the value and the row's cost is ceil(unit × rate) |
| Formulas.EditOwsj | src/store/estimatesadasStore.ts:462-484 | the edited field takes the value; the cost is recomputed only for a weight or price edit |
| Formulas.CostEngineeringDrafting | src/store/estimatesadasStore.ts:253-262 | drafting cost is ceil(tons × price) and the block total ceil(engineering + drafting); inputs are kept |
| Formulas.EditEngineeringDrafting | src/store/estimatesadasStore.ts:486-517 | the edited input takes the value and the block's costs are consistent with its inputs |
| Formulas.CostErectionFreight | src/store/estimatesadasStore.ts:263-278 | erection, freight and block totals are recomputed from the inputs and nothing else changes |
| Formulas.EditErectionFreight | src/store/estimatesadasStore.ts:519-555 | the edited input takes the value (the trailer-trip count included), the rest of the tonnage is kept, and the block's costs are consistent |
| Formulas.EditOverheadProfit | src/store/estimatesadasStore.ts:557-582 | the edited percentage takes the value and the total percentage is overhead plus profit |
| Formulas.EditMetalDeck | src/store/estimatesadasStore.ts:605-619 | the edited input takes the value, the total is ceil(area × price), and visibility and override are kept |
| Aggregation.EffectiveCost | src/store/estimatesadasStore.ts:823-831 | a section's effective cost is its override when set and its computed total otherwise |
| EstimateDefaults.GenerateQuoteNumber | src/store/estimatesadasStore.ts:32-38 | the seed quote number is the month prefix followed by two digits whose value lies in 1..99 |
| EstimateDefaults.DefaultMaterialItems | src/store/estimatesadasStore.ts:40-46 | five rows, the first being First Weight |
| EstimateDefaults.DefaultLabourItems | src/store/estimatesadasStore.ts:48-54 | five rows, each at rate 85 and zero pieces per day |
| EstimateDefaults.DefaultMiscellaneousItems | src/store/estimatesadasStore.ts:56-61 | four shop-only rows |
| EstimateDefaults.DefaultEstimate | src/store/estimatesadasStore.ts:63-147 | the seed estimate has no id, zero totals, 5 % allowance, overhead 5 %, profit 10 %, trip costs 300 and 600, all sections visible and no overrides |
| EstimateStore.EstimateStore.constructor | src/store/estimatesadasStore.ts:185-190 | the store starts uninitialised, with no saved estimates and the seed estimate whose quote number is the one `generateQuoteNumber` gives for the year, month and draw |
| EstimateStore.EstimateStore.SetInitialized | src/store/estimatesadasStore.ts:187 | only the flag changes |
| EstimateStore.EstimateStore.ResetEstimate | src/store/estimatesadasStore.ts:192 | the current estimate becomes a fresh seed estimate with a newly generated quote number; nothing else changes |
| EstimateStore.EstimateStore.LoadEstimate | src/store/estimatesadasStore.ts:194 | the current estimate becomes the given record unchanged |
| EstimateStore.EstimateStore.LoadAllEstimates | src/store/estimatesadasStore.ts:196 | only the list of saved estimates changes |
| EstimateStore.EstimateStore.UpdateProjectInfo | src/store/estimatesadasStore.ts:198-208 | only the named project field changes and nothing is recalculated |
| EstimateStore.EstimateStore.UpdateRemarks | src/store/estimatesadasStore.ts:719-726 | only the remarks change |
| EstimateStore.EstimateStore.ToggleStructuralSteelVisibility | src/store/estimatesadasStore.ts:210-229 | the state becomes the toggle transition for structural steel |
| EstimateStore.EstimateStore.ToggleMetalDeckVisibility | src/store/estimatesadasStore.ts:584-603 | the state becomes the toggle transition for metal deck |
| EstimateStore.EstimateStore.ToggleMiscellaneousSteelVisibility | src/store/estimatesadasStore.ts:621-640 | the state becomes the toggle transition for miscellaneous steel |
| EstimateStore.EstimateStore.UpdateStructuralSteelOverride | src/store/estimatesadasStore.ts:728-752 | the state becomes the override transition for structural steel |
| EstimateStore.EstimateStore.UpdateMetalDeckOverride | src/store/estimatesadasStore.ts:754-778 | the state becomes the override transition for metal deck |
| EstimateStore.EstimateStore.UpdateMiscellaneousSteelOverride | src/store/estimatesadasStore.ts:780-804 | the state becomes the override transition for miscellaneous steel |
| EstimateStore.EstimateStore.RecalculateAll | src/store/estimatesadasStore.ts:806-837 | the state becomes its recalculation, after which both totals agree with their formulas |
| EstimateStore.EstimateStore.UpdateStructuralSteelField | src/store/estimatesadasStore.ts:231-305 | the state becomes the edited record; the inner recalculation is lost, so both totals keep their old values |
| EstimateStore.EstimateStore.AddMaterialItem | src/store/estimatesadasStore.ts:307-333 | the state becomes the recalculated add, with both totals normalised |
| EstimateStore.EstimateStore.UpdateMaterialItem | src/store/estimatesadasStore.ts:335-361 | the state becomes the recalculated row edit, with both totals normalised |
| EstimateStore.EstimateStore.RemoveMaterialItem | src/store/estimatesadasStore.ts:363-381 | the state becomes the recalculated removal, with both totals normalised |
| EstimateStore.EstimateStore.AddLabourItem | src/store/estimatesadasStore.ts:383-411 | the state becomes the recalculated add, with both totals normalised |
| EstimateStore.EstimateStore.UpdateLabourItem | src/store/estimatesadasStore.ts:413-440 | the state becomes the recalculated row edit, with both totals normalised |
| EstimateStore.EstimateStore.RemoveLabourItem | src/store/estimatesadasStore.ts:442-460 | the state becomes the recalculated removal, with both totals normalised |
| EstimateStore.EstimateStore.AddMiscellaneousItem | src/store/estimatesadasStore.ts:642-669 | the state becomes the recalculated add, with both totals normalised |
| EstimateStore.EstimateStore.UpdateMiscellaneousItem | src/store/estimatesadasStore.ts:671-697 | the state becomes the recalculated row edit, with both totals normalised |
| EstimateStore.EstimateStore.RemoveMiscellaneousItem | src/store/estimatesadasStore.ts:699-717 | the state becomes the recalculated removal, with both totals normalised |
| EstimateStore.EstimateStore.UpdateOwsjField | src/store/estimatesadasStore.ts:462-484 | the state becomes the recalculated joist edit, with both totals normalised |
| EstimateStore.EstimateStore.UpdateEngineeringDraftingField | src/store/estimatesadasStore.ts:486-517 | the state becomes the recalculated drafting edit, with both totals normalised |
| EstimateStore.EstimateStore.UpdateErectionFreightField | src/store/estimatesadasStore.ts:519-555 | the state becomes the recalculated erection edit, with both totals normalised |
| EstimateStore.EstimateStore.UpdateOverheadProfitField | src/store/estimatesadasStore.ts:557-582 | the state becomes the recalculated percentage edit, with both totals normalised |
| EstimateStore.EstimateStore.UpdateMetalDeckField | src/store/estimatesadasStore.ts:605-619 | the state becomes the recalculated deck edit, with both totals normalised |
| EstimateProperties.GrandTotalsAgreeOnWholeCosts | src/store/estimatesadasStore.ts:728-837 | when every effective cost is a whole number, the override setters and the recalculation give the same grand total |
| EstimateProperties.FractionalOverridesDisagree | src/store/estimatesadasStore.ts:728-837 | with two overrides of 0.5 the override setter writes 1 while the recalculation writes 2 |
| EstimateProperties.OverrideTakesPrecedence | src/store/estimatesadasStore.ts:728-752 | after setting an override the section's effective cost is that value |
| EstimateProperties.ClearingOverrideRestoresActual | src/store/estimatesadasStore.ts:728-752 | after clearing the override the effective cost is the computed total |
| EstimateProperties.OverrideThenClear | src/store/estimatesadasStore.ts:728-752 | setting and then clearing an override is the same as clearing it |
| EstimateProperties.HiddenSectionContributesNothing | src/store/estimatesadasStore.ts:218-220 | a hidden section adds nothing to any of the three grand-total formulas |
| EstimateProperties.HiddenOverrideKeepsTotal | src/store/estimatesadasStore.ts:738-746 | overriding a hidden section does not change the grand total the override setter writes |
| EstimateProperties.ThreeSectionExample | src/store/estimatesadasStore.ts:728-837 | sections of 10000, 5000 and 2000 give 17000, and a structural override of 9000 gives 16000 |
| EstimateProperties.DoubleToggle | src/store/estimatesadasStore.ts:210-229 | toggling a section twice restores every flag and leaves the plain-sum total |
| EstimateProperties.ToggleIgnoresOverrides | src/store/estimatesadasStore.ts:218-222 | the total a toggle writes does not depend on any override |
| EstimateProperties.RecalculatedIsPlainSumWhenWhole | src/store/estimatesadasStore.ts:210-229 | without overrides and with whole totals, the toggle's sum equals the recalculated grand total |
| EstimateProperties.ToggleKeepsNormalised | src/store/estimatesadasStore.ts:210-229 | under those conditions a toggle keeps a normalised estimate normalised |
| EstimateProperties.AreaEditKeepsTonnage | src/store/estimatesadasStore.ts:281-292 | an area edit keeps every tonnage-derived field consistent |
| EstimateProperties.TonnageStrictlyMonotone | src/store/estimatesadasStore.ts:12-18 | more weight gives strictly more total weight and tons when the allowance exceeds −100 % |
| EstimateProperties.RoundedCostsMonotone | src/store/estimatesadasStore.ts:242-275 | trailer trips and the First Weight row cost never decrease as the weight grows |
| EstimateProperties.MaterialCostMonotone | src/store/estimatesadasStore.ts:242-252 | with a non-negative first-row rate, a heavier First Weight row never lowers the material cost |
| EstimateProperties.DraftingTotalMonotone | src/store/estimatesadasStore.ts:254-262 | with a non-negative price per ton, more drafting tons never lower the engineering and drafting total |
| EstimateProperties.ErectionTotalMonotone | src/store/estimatesadasStore.ts:264-277 | with non-negative rates, no more tons and trailer trips never cost more in erection and freight |
| EstimateProperties.RederiveTonnageMonotone | src/store/estimatesadasStore.ts:232-277 | a total weight that is no greater gives no greater total weight, tons, material cost, drafting total and erection total |
| EstimateProperties.WeightEditMonotone | src/store/estimatesadasStore.ts:232-277 | raising the weight never lowers the total weight, tons, material cost, drafting total or erection total; the first two rise strictly when the allowance exceeds −100 % |
| EstimateProperties.TotalWeightGrowsWithAllowance | src/store/estimatesadasStore.ts:12-14 | on a non-negative weight, a larger allowance never lowers the total weight, and raises it on a positive weight |
| EstimateProperties.AllowanceEditMonotone | src/store/estimatesadasStore.ts:232-277 | raising the connection allowance on a non-negative weight never lowers the same five quantities; the first two rise strictly on a positive weight |
| EstimateProperties.TrailerTripsNotStrict | src/store/estimatesadasStore.ts:270 | 1 ton and 2 tons both need one trailer trip |
| EstimateProperties.WeightEditScenario | src/store/estimatesadasStore.ts:237-250 | weight 20000 with 5 % allowance gives 21000 lb, 10.5 tons, one trailer trip, and a First Weight cost of 10500 at rate 0.5 |
| EstimateProperties.StructuralTotalScenario | src/store/estimatesadasStore.ts:806-821 | a 10500 subtotal with 5 % and 10 % gives 525, 1050 and a total of 12075 |
| EstimateProperties.RoundingExample | src/store/estimatesadasStore.ts:340 | 100 × 0.333 is rounded up to 34 |
| EstimateProperties.LabourExample | src/store/estimatesadasStore.ts:418-419 | 10 pieces at 4 per day take 250 hours, costing 21250 at rate 85 |
| ItemProperties.AddMaterialKeepsRows | src/store/estimatesadasStore.ts:307-333 | adding a row keeps every row's cost consistent, grows the table by one and leaves the sum of row costs as it was |
| ItemProperties.UpdateMaterialKeepsRows | src/store/estimatesadasStore.ts:335-361 | a row edit keeps every row's cost consistent |
| ItemProperties.RemoveMaterialKeepsRows | src/store/estimatesadasStore.ts:363-381 | a removal keeps every row's cost consistent |
| ItemProperties.UnknownMaterialIdKeepsRows | src/store/estimatesadasStore.ts:335-381 | an edit or removal for an id no row has changes no row |
| ItemProperties.RemoveExistingMaterialShrinks | src/store/estimatesadasStore.ts:363-381 | removing the id of an existing row shortens the table |
| ItemProperties.AddLabourKeepsRows | src/store/estimatesadasStore.ts:383-411 | adding a row keeps every row consistent, grows the table by one and keeps the sum |
| ItemProperties.UpdateLabourKeepsRows | src/store/estimatesadasStore.ts:413-440 | a row edit keeps every row's hours and cost consistent |
| ItemProperties.RemoveLabourKeepsRows | src/store/estimatesadasStore.ts:442-460 | a removal keeps every row consistent |
| ItemProperties.UnknownLabourIdKeepsRows | src/store/estimatesadasStore.ts:413-460 | an edit or removal for an unknown id is defined and changes no row |
| ItemProperties.AddMiscellaneousKeepsRows | src/store/estimatesadasStore.ts:642-669 | adding a row keeps every row consistent, grows the table by one and keeps the sum |
| ItemProperties.UpdateMiscellaneousKeepsRows | src/store/estimatesadasStore.ts:671-697 | a row edit keeps every row consistent |
| ItemProperties.RemoveMiscellaneousKeepsRows | src/store/estimatesadasStore.ts:699-717 | a removal keeps every row consistent |
| ItemProperties.UnknownMiscellaneousIdKeepsRows | src/store/estimatesadasStore.ts:671-717 | an edit or removal for an unknown id changes no row |
| ItemProperties.MaterialEditBesideFirstRowKeepsTonnage | src/store/estimatesadasStore.ts:335-361 | editing a row other than First Weight keeps the tonnage-derived fields consistent |
| ItemProperties.OwsjEditKeepsTonnage | src/store/estimatesadasStore.ts:462-484 | a joist edit keeps the tonnage-derived fields consistent |
| ItemProperties.OverheadProfitEditKeepsTonnage | src/store/estimatesadasStore.ts:557-582 | a percentage edit keeps the tonnage-derived fields, and the total percentage is overhead plus profit |
| ItemProperties.EngineeringDraftingEditKeepsTonnage | src/store/estimatesadasStore.ts:486-517 | only a direct drafting-tonnage edit can unlink it from total tons |
| ItemProperties.ErectionFreightEditKeepsTonnage | src/store/estimatesadasStore.ts:519-555 | only a direct edit of the erection tons or the trailer-trip count can unlink them from total tons |
| ItemProperties.TrailerTripsSettable | src/store/estimatesadasStore.ts:519-525 | a trailer-trip count typed in is stored as typed |
| ItemProperties.MetalDeckEditKeepsStructuralSteel | src/store/estimatesadasStore.ts:605-619 | a deck edit leaves structural steel untouched and the deck total consistent |
| ItemProperties.DefaultRowsConsistent | src/store/estimatesadasStore.ts:40-61 | every seed row is consistent and each seed table sums to zero |
| ItemProperties.BlankStructuralSteel | src/store/estimatesadasStore.ts:86-131 | a structural section with nothing entered has consistent derived fields and a zero total |
| ItemProperties.BlankGrandTotal | src/store/estimatesadasStore.ts:806-837 | zero sections without overrides give a zero grand total |
| ItemProperties.DefaultEstimateIsConsistent | src/store/estimatesadasStore.ts:63-147 | the seed estimate is normalised, its tonnage fields are consistent and every seed row is consistent |
| QuoteNumbers.MonthPrefix | src/services/supabaseClient.ts:29-32 | the prefix is three characters longer than the year's `slice(-2)` (two month digits and a dash), and its last character is the dash |
| QuoteNumbers.MonthPrefixEncodesDate | src/services/supabaseClient.ts:29-32 | the digits before the month read back as the year modulo 100, and the two month digits read back as the one-based month (`getMonth() + 1`) |
| QuoteNumbers.SequenceNumbers | src/services/supabaseClient.ts:51-52 | one parsed suffix (or NaN) per fetched quote, in query order |
| QuoteNumbers.SequenceNumberOfQuote | src/services/supabaseClient.ts:52-55 | a quote number written as prefix plus padded n reads back as n |
| QuoteNumbers.FirstGapFrom | src/services/supabaseClient.ts:50-61 | the scan stops at the first position whose number is not the expected one, and every earlier position held its expected number |
| QuoteNumbers.FirstGap | src/services/supabaseClient.ts:50-61 | the chosen number lies between 1 and one past the number of quotes |
| QuoteNumbers.FirstGapIsSmallestUnused | src/services/supabaseClient.ts:49-61 | for strictly increasing positive numbers the result is unused and every smaller positive number is used |
| QuoteNumbers.NextNumberIsSmallestUnused | src/services/supabaseClient.ts:36-61 | for quotes written by this scheme in increasing order, the next number is the smallest one not in use |
| QuoteNumbers.GapIsFilled | src/services/supabaseClient.ts:53-55 | with 01 and 03 in use the next number is 02 |
| QuoteNumbers.RepeatedNumberIsReused | src/services/supabaseClient.ts:51-57 | a repeated number makes the scan return a number already in use |
| QuoteNumbers.UnparsableSuffixIsAGap | src/services/supabaseClient.ts:52-55 | a suffix that is NaN is treated as a gap |
| QuoteNumbers.ScanForGap | src/services/supabaseClient.ts:50-61 | the loop over the fetched quotes returns the first expected number that a quote's parsed suffix does not match, or one past the count |
| QuoteNumbers.NextQuoteNumber | src/services/supabaseClient.ts:27-67 | a failed query or no quotes give prefix 01; otherwise the result is the prefix and the padded first gap of the parsed suffixes |
| QuoteNumbers.AssignQuoteNumberOnCreate | src/services/supabaseClient.ts:73-76 | a record without an id (absent or empty) takes the next quote number; one with an id is unchanged |
| Decimal.NatToString | src/pages/FrontSheet.tsx:91 | the decimal rendering is a non-empty digit string, one digit exactly below 10 |
| Decimal.NatToStringRoundTrip | src/pages/FrontSheet.tsx:91 | reading back a rendered number gives the number |
| Decimal.PadTwo | src/services/supabaseClient.ts:55 | `padStart(2, '0')` gives at least two digits, exactly two below 100 |
| Decimal.PadTwoRoundTrip | src/services/supabaseClient.ts:55 | the padded number reads back as itself |
| Decimal.LastTwo | src/services/supabaseClient.ts:30 | `slice(-2)` keeps two characters, or the whole string when shorter |
| Decimal.LastTwoIsSuffix | src/services/supabaseClient.ts:30 | what `slice(-2)` keeps is the tail of the string, and the dropped head followed by it is the whole string |
| Decimal.LastTwoOfRendering | src/services/supabaseClient.ts:30 | `getFullYear().toString().slice(-2)` is all digits and reads back as the year modulo 100 |
| JsStrings.TrimStart | src/services/supabaseClient.ts:52 | parseInt skips exactly the leading white space |
| JsStrings.DigitPrefix | src/services/supabaseClient.ts:52 | the longest prefix of radix digits |
| JsStrings.ParseDigits | src/pages/FrontSheet.tsx:91 | parseInt of a digit string is its decimal value |
| JsStrings.ParseRendered | src/pages/FrontSheet.tsx:91 | parseInt of a rendered number gives the number back |
| JsStrings.ParseSkipsWhiteSpace | src/services/supabaseClient.ts:52 | leading white space does not change parseInt's result |
| JsStrings.ParseNonNumeric | src/pages/FrontSheet.tsx:91 | parseInt of text starting with neither white space, a sign nor a digit is NaN |
| JsStrings.BeforeFirst | src/pages/FrontSheet.tsx:91 | the text up to the first separator, which contains none |
| JsStrings.SplitPart | src/pages/FrontSheet.tsx:91 | `split(c)[0]` is the text before the first separator |
| JsStrings.SplitAtOnlySeparator | src/services/supabaseClient.ts:52 | with a single separator, part 0 is the text before it, part 1 the text after, and part 2 is undefined |
| FrontSheet.FindRevisionSuffix | src/pages/FrontSheet.tsx:91 | the leftmost match of `/R\d+$/`, or none when no position matches |
| FrontSheet.NextRevisionNumber | src/pages/FrontSheet.tsx:90-92 | a quote number without 'R' gets 'R1'; one with 'R' but no trailing revision is unchanged |
| FrontSheet.IncrementedRevision | src/pages/FrontSheet.tsx:91 | the text written for digits d is the decimal of d's value plus one |
| FrontSheet.NextRevisionOfRevision | src/pages/FrontSheet.tsx:90-92 | `pR<d>` becomes `pR<d+1>` |
| FrontSheet.DoubleRevisionReplacesLast | src/pages/FrontSheet.tsx:90-92 | in `pR<a>R<b>` the last revision is replaced by the increment of the first |
| FrontSheet.RevisionReadsFirstNumber | src/pages/FrontSheet.tsx:90-92 | `pR<a>R<b>` becomes `pR<a>R<a+1>`: the number is read after the first 'R' |
| FrontSheet.EmptyRevisionTextReadsZero | src/pages/FrontSheet.tsx:90-92 | `pRR<b>` becomes `pRR1`: the empty text after the first 'R' falls back to '0' |
| FrontSheet.UnparsableRevisionGivesNaN | src/pages/FrontSheet.tsx:90-92 | when the text after the first 'R' does not parse, the trailing revision is replaced by 'RNaN' |
| FrontSheet.LeadingRGivesNaN | src/pages/FrontSheet.tsx:90-92 | a quote number starting with 'R' followed by non-numeric text, such as `RFQ-…R<d>`, gets the revision 'RNaN' |
| FrontSheet.RepeatedRevisions | src/pages/FrontSheet.tsx:90-92 | revising a base number k times gives `pR<k>` |
| FrontSheet.FirstRevisionExample | src/pages/FrontSheet.tsx:92 | 2501-07 becomes 2501-07R1 |
| FrontSheet.NextRevisionExample | src/pages/FrontSheet.tsx:91 | 2501-07R1 becomes 2501-07R2 |
| FrontSheet.MultiDigitRevisionExample | src/pages/FrontSheet.tsx:91 | 2501-07R10 becomes 2501-07R11, and 2501-07R09 becomes 2501-07R10 (the leading zero is dropped) |
| FrontSheet.LeadingRExample | src/pages/FrontSheet.tsx:91 | RFQ-2501-07R1 becomes RFQ-2501-07RNaN |
| FrontSheet.RevisionWithoutSuffixKeepsQuote | src/pages/FrontSheet.tsx:91 | R2501-07 is left unchanged |
| FrontSheet.HandleSave | src/pages/FrontSheet.tsx:83-106 | a revised number is produced exactly when there is a route id and a new number is asked for; the record is the old snapshot with its id dropped for a new number, updated-at set, and created-at set, from the second clock reading, when the record has no id |
| FrontSheet.RevisionSaveStoresNextFreeNumber | src/pages/FrontSheet.tsx:88-108 | a new-number save of an existing estimate is stored under the next free month number, not the revised number |
| FrontSheet.UpdateSaveKeepsIdentity | src/pages/FrontSheet.tsx:98-108 | a plain save of an existing estimate keeps its id, project information and creation time |
| FrontSheet.FirstSaveGetsNextNumber | src/pages/FrontSheet.tsx:88-108 | a save on the new-estimate page produces no revision, stamps created-at and gets the next number |
| PhoneFormat.Digits | src/components/ui/FormInput.tsx:32 | the stripped value holds only digits and is no longer than the input |
| PhoneFormat.DigitsAppend | src/components/ui/FormInput.tsx:32 | stripping distributes over concatenation |
| PhoneFormat.DigitsOfDigits | src/components/ui/FormInput.tsx:32 | stripping a digit string changes nothing |
| PhoneFormat.Layout | src/components/ui/FormInput.tsx:33-38 | the mask is at most 14 characters |
| PhoneFormat.FormatPhoneNumber | src/components/ui/FormInput.tsx:30-39 | an empty value is returned as it is; any other is masked from its digits, in at most 14 characters |
| PhoneFormat.LayoutKeepsDigits | src/components/ui/FormInput.tsx:33-38 | the mask's digits are the first ten input digits, in order |
| PhoneFormat.DigitsOfFormat | src/components/ui/FormInput.tsx:30-39 | the formatted value's digits are the first ten digits of the input |
| PhoneFormat.LayoutOfFirstTen | src/components/ui/FormInput.tsx:38 | digits after the tenth do not affect the mask |
| PhoneFormat.FormatIdempotent | src/components/ui/FormInput.tsx:30-39 | formatting a formatted value changes nothing |
| PhoneFormat.PhoneInputValue | src/components/ui/FormInput.tsx:41-47 | a tel input is masked; any other input keeps its value |
| PhoneFormat.TenDigitExample | src/components/ui/FormInput.tsx:38 | 4165551234 becomes (416) 555-1234 |
| PhoneFormat.FormattedExample | src/components/ui/FormInput.tsx:30-39 | (416) 555-1234 is kept |
| PhoneFormat.FiveDigitExample | src/components/ui/FormInput.tsx:35-37 | 41655 becomes (416) 55 |

## Left out

- The zustand plumbing is not modelled: `create`, `set` merging and subscriptions. Each handler is one method on the class.
- Network and database calls are not modelled. The Supabase query becomes a `Result` parameter of `QuoteNumbers.NextQuoteNumber`. The upsert and the reading of the returned id are left out, as are the delete, get, list and notes functions of `src/services/supabaseClient.ts`.
- `new Date()`, `Math.random()` and `uuidv4()` are parameters: the year and month index, the draw in [0, 1), the two timestamps of a save (one for each `new Date()` call) and the fresh row ids. `EstimateStore.EstimateStore.constructor` and `ResetEstimate` take the year and month for the quote number separately from the `yyyy-MM-dd` date. The source reads the clock twice there, and the model does not require the two readings to agree.
- Arithmetic is on exact reals. IEEE-754 rounding, NaN from `0/0`, infinities and `-0` are not captured. A typed number that fails to parse is not modelled either.
- `EstimateRules.UpdateLabourItem`: it requires a non-zero pieces-per-day for the edited rows. The source computes `totalPcs / pcsPerDay` with no guard, which yields Infinity or NaN in JavaScript rather than an error. The same applies to `EstimateStore.EstimateStore.UpdateLabourItem`.
- Aliasing is not captured. `saveEstimate` assigns the quote number to `estimate.projectInfo` in place. On a first save, that object is shared with the store's current estimate, so the store also sees the new number. `recalculateAll` and `updateStructuralSteelField` likewise assign into nested objects they share with the previous state. The model has value semantics, so it only shows the records each handler produces.
- The navigation after a save, the `saving` flag, the error alert and the logging in `handleSave` are not modelled.
- The React rendering of the front sheet and the form controls is not modelled. Neither is the browser's `maxLength`, which would cut a typed value before the mask sees it.
- Type fields that no handler computes with are dropped. These are the structural-steel section's reference fields `pricePerTon`, `pricePerSqft` and `hoursPerTon` (src/types/estimate.ts:59-60, 66), and the metal deck's `deckCost` with its `erection` block of area, price per square foot and total (src/types/estimate.ts:113-117). Editing one of them through a handler would only copy the value.
- `parseInt` is modelled for the strings that occur here. Leading white space, an optional sign, a 0x prefix and the longest digit run are covered. Numbers beyond what a double can hold exactly are read exactly.
- `FrontSheet.NextRevisionNumber`: its own contract states only the no-'R' and no-match cases. The cases with a trailing revision are stated by the lemmas `NextRevisionOfRevision`, `RevisionReadsFirstNumber`, `EmptyRevisionTextReadsZero`, `UnparsableRevisionGivesNaN` and `LeadingRGivesNaN`.
- `Formulas.EditErectionFreight`: its contract names the edited input, the tonnage and the erector. That the other inputs are kept is stated through `Formulas.CostErectionFreight` rather than field by field.
- `EstimateProperties.RoundedCostsMonotone`: rounded costs and trip counts are only non-decreasing in the weight. This is weaker than strict growth, and `TrailerTripsNotStrict` shows that strict growth fails. The same holds for `WeightEditMonotone` and `AllowanceEditMonotone`: they state strict growth only for the total weight and the tons, and the costs only non-decreasing. Both also assume the rates the costs are priced at are not negative, which the source does not check.
- The store variant used only by other pages (`src/store/estimateStore.ts`) is not part of this model.
