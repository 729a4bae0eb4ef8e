# Rig cost navigator dashboard — a Dafny model of its logic

This project models the logic behind the rig-cost dashboard's components. Its centre is the **rig cost-scenario state** of the cost-breakdown screen, `CostBreakdown.RigCostScenarios`. That state is an ordered list of rigs and a selected rig id. Each rig owns a copy of a fixed taxonomy: five cost categories with thirty-six items in all. Three handlers change the state:

- add a rig;
- remove a rig;
- edit one item's cost.

Three reductions read it:

- the total of a category;
- the grand total of the selected rig;
- the per-rig totals of the comparison table.

Smaller pure pieces sit around the centre:

- **`DynamicCharts`** and **`CostCategories`**: the chart-descriptor dispatch of the two chart screens. It decides which chart body a `{chartConfig, data}` descriptor gets, which keys feed it, and which colour each series or slice gets. The nine-colour palette and the `||` colour precedence they share are in **`Charts`**.
- **`DataImport`**: file-extension classification, removal of a file by position, and the guard and clean-up of the sequential upload loop.
- **`AIPredictions`**: confidence banding, and the query handler with its blank-input guard, answer fallback and loading flag.
- **`ContingencyPlanning`** and **`NptCalculator`**: the two cost formulas and the coercion of their text inputs.

Stateful parts are classes whose methods have `modifies` clauses:

- `RigCostScenarios` (rigs and selection);
- `ImportPanel` (files and busy flag);
- `PredictionPanel` (input, prediction and loading flag).

Everything else is functions over datatypes. `parseFloat` is a parameter of type `Numeric.Parser = string -> Option<real>`, where `None` stands for `NaN`. The network calls and `JSON.parse` are parameters too. Costs are `real` and sums are exact.

Two behaviours of the code differ from what a reader of the screen might expect. The model follows the code in both.

- **Rig ids are not unique.** `addNewRig` numbers the new rig by the list length. After a removal it can therefore reuse an id that is still listed.
- **Removal can empty the list.** The "more than one rig" guard of `removeRig` does not guarantee that a rig remains, because the filter drops every rig with the id. When every remaining rig carries the selected id (for example, exactly two rigs sharing it), the list empties and `updatedRigs[0].id` throws. `RemoveRig` reports this as `crashed` (see Findings).

## Model

| member | source | states |
|---|---|---|
| CostBreakdown.InitialCosts | src/pages/dashboard/components/CostBreakdown.tsx:16-85 | definition only: `getInitialCosts`, the five categories in source order with every cost 0; InitialCostsFresh states its counts, ids and zero costs |
| CostBreakdown.PreDrillingCategory | src/pages/dashboard/components/CostBreakdown.tsx:18-29 | definition only: the pre-drilling category as written; PreDrillingFresh states its contents |
| CostBreakdown.DrillingCategory | src/pages/dashboard/components/CostBreakdown.tsx:30-42 | definition only: the drilling category as written; DrillingFresh states its contents |
| CostBreakdown.CompletionCategory | src/pages/dashboard/components/CostBreakdown.tsx:43-60 | definition only: the completion category as written; CompletionFresh states its contents |
| CostBreakdown.PostCompletionCategory | src/pages/dashboard/components/CostBreakdown.tsx:61-71 | definition only: the post-completion category as written; PostCompletionFresh states its contents |
| CostBreakdown.LogisticsCategory | src/pages/dashboard/components/CostBreakdown.tsx:72-83 | definition only: the logistics category as written; LogisticsFresh states its contents |
| CostBreakdown.PreDrillingFresh | src/pages/dashboard/components/CostBreakdown.tsx:18-29 | the pre-drilling category has id `pre-drilling`, 6 items with distinct ids, every cost 0 |
| CostBreakdown.DrillingFresh | src/pages/dashboard/components/CostBreakdown.tsx:30-42 | the drilling category has 7 items with distinct ids, every cost 0 |
| CostBreakdown.CompletionFresh | src/pages/dashboard/components/CostBreakdown.tsx:43-60 | the completion category has 12 items with distinct ids, every cost 0 |
| CostBreakdown.PostCompletionFresh | src/pages/dashboard/components/CostBreakdown.tsx:61-71 | the post-completion category has 5 items with distinct ids, every cost 0 |
| CostBreakdown.LogisticsFresh | src/pages/dashboard/components/CostBreakdown.tsx:72-83 | the logistics category has 6 items with distinct ids, every cost 0 |
| CostBreakdown.InitialCostsFresh | src/pages/dashboard/components/CostBreakdown.tsx:16-85 | a fresh taxonomy has 5 categories in order with 6, 7, 12, 5 and 6 items, every cost 0, distinct category ids and distinct item ids within each category |
| CostBreakdown.ShapeOf | src/pages/dashboard/components/CostBreakdown.tsx:16-85 | definition only: the ids and names of a cost list without its costs; EditKeepsShape and IdsDistinctOfSameShape state what it is for |
| CostBreakdown.IdsDistinctOfSameShape | src/pages/dashboard/components/CostBreakdown.tsx:16-85 | two cost lists with the same structure agree on whether their ids are distinct |
| CostBreakdown.SumItems | src/pages/dashboard/components/CostBreakdown.tsx:131-133 | definition only: the left-to-right `reduce` of the item costs from 0; SumItemsAppend, SumItemsReplace and ZeroItemsSumZero state its behaviour |
| CostBreakdown.CategoryTotal | src/pages/dashboard/components/CostBreakdown.tsx:131-133 | definition only: `calculateCategoryTotal`, the item sum of one category |
| CostBreakdown.SumCategories | src/pages/dashboard/components/CostBreakdown.tsx:139-141 | definition only: the left-to-right `reduce` of the category totals from 0; SumCategoriesAppend, SumCategoriesReplace and SumCategoriesIsSumOfAllItems state its behaviour |
| CostBreakdown.RigTotal | src/pages/dashboard/components/CostBreakdown.tsx:253-256 | a rig's total, the sum of its category totals, equals the sum over every item of every one of its categories |
| CostBreakdown.SumItemsReplace | src/pages/dashboard/components/CostBreakdown.tsx:131-133 | replacing one item moves the item sum by exactly the change in that item's cost |
| CostBreakdown.SumCategoriesReplace | src/pages/dashboard/components/CostBreakdown.tsx:139-141 | replacing one category moves the sum of the category totals by exactly the change in that category's total |
| CostBreakdown.SumItemsAppend | src/pages/dashboard/components/CostBreakdown.tsx:131-133 | the left-to-right item sum of a concatenation is the sum of the parts' sums |
| CostBreakdown.SumCategoriesAppend | src/pages/dashboard/components/CostBreakdown.tsx:139-141 | the sum of category totals of a concatenation is the sum of the parts' sums |
| CostBreakdown.SumCategoriesIsSumOfAllItems | src/pages/dashboard/components/CostBreakdown.tsx:131-142 | the sum of the category totals equals the sum over every item of every category |
| CostBreakdown.ZeroItemsSumZero | src/pages/dashboard/components/CostBreakdown.tsx:131-133 | items that all cost 0 total 0 |
| CostBreakdown.ZeroCategoriesSumZero | src/pages/dashboard/components/CostBreakdown.tsx:131-142 | categories whose items all cost 0 total 0, each one and together |
| CostBreakdown.InitialCostsTotalZero | src/pages/dashboard/components/CostBreakdown.tsx:16-85 | every category total of a fresh taxonomy is 0, and so is their sum |
| CostBreakdown.RigId | src/pages/dashboard/components/CostBreakdown.tsx:88-90 | the id `rig-${n}` starts with `rig-`, continues with digits only, and those digits read back as `n` |
| CostBreakdown.RigName | src/pages/dashboard/components/CostBreakdown.tsx:88-91 | the name `Rig ${n}` starts with `Rig `, continues with digits only, and those digits read back as `n` |
| CostBreakdown.NewRig | src/pages/dashboard/components/CostBreakdown.tsx:88-93 | the rig built as number `n` carries the same number text in its id and its name, and the given taxonomy |
| CostBreakdown.InitialRigs | src/pages/dashboard/components/CostBreakdown.tsx:11-14 | the screen starts with two rigs with distinct ids, both holding the given taxonomy |
| CostBreakdown.RigIdInjective | src/pages/dashboard/components/CostBreakdown.tsx:87-90 | ids built as `rig-${n}` from different numbers differ |
| CostBreakdown.InitialRigsAreNumbered | src/pages/dashboard/components/CostBreakdown.tsx:11-14 | the two starting rigs are exactly the rigs `addNewRig` would build as numbers 1 and 2 |
| CostBreakdown.FreshRigTotalZero | src/pages/dashboard/components/CostBreakdown.tsx:11-14 | a rig holding a fresh taxonomy totals 0 in every category and overall |
| CostBreakdown.FindRig | src/pages/dashboard/components/CostBreakdown.tsx:136 | `find` fails exactly when no rig has the id; otherwise it returns a listed rig with that id |
| CostBreakdown.FindRigIndex | src/pages/dashboard/components/CostBreakdown.tsx:136 | when `find` succeeds, it returns the rig at the first position carrying the id |
| CostBreakdown.FindRigFirst | src/pages/dashboard/components/CostBreakdown.tsx:136 | `find` returns the first rig with the id, not a later one sharing it |
| CostBreakdown.CurrentRigCosts | src/pages/dashboard/components/CostBreakdown.tsx:144-146 | with no rig carrying the selected id the current cost list is empty |
| CostBreakdown.GrandTotal | src/pages/dashboard/components/CostBreakdown.tsx:135-142 | the grand total is the sum of the category totals of the current cost list, and 0 when no rig has the selected id |
| CostBreakdown.ComparisonTotals | src/pages/dashboard/components/CostBreakdown.tsx:253-256 | definition only: one total per rig, in list order; ComparisonTotalIsGrandTotal states what each entry means |
| CostBreakdown.ComparisonTotalIsGrandTotal | src/pages/dashboard/components/CostBreakdown.tsx:253-256 | a rig's comparison total equals the grand total shown when it is selected, if no earlier rig shares its id |
| CostBreakdown.WithoutRig | src/pages/dashboard/components/CostBreakdown.tsx:100 | the filter never lengthens the list and keeps no rig with the removed id |
| CostBreakdown.WithoutRigAppend | src/pages/dashboard/components/CostBreakdown.tsx:100 | the filter keeps list order: filtering a concatenation filters each part |
| CostBreakdown.WithoutRigMembers | src/pages/dashboard/components/CostBreakdown.tsx:100 | a rig survives the filter if and only if it was listed and its id differs |
| CostBreakdown.WithoutAbsentRig | src/pages/dashboard/components/CostBreakdown.tsx:100 | removing an id no rig carries changes nothing |
| CostBreakdown.WithoutRigEmpty | src/pages/dashboard/components/CostBreakdown.tsx:100-103 | the filter leaves nothing if and only if every rig carries the id |
| CostBreakdown.RemoveDistinctRig | src/pages/dashboard/components/CostBreakdown.tsx:100 | with distinct ids, removing a listed id drops exactly that rig and keeps the others in order |
| CostBreakdown.WithoutRigKeepsDistinct | src/pages/dashboard/components/CostBreakdown.tsx:100 | removal keeps distinct ids distinct |
| CostBreakdown.EditItems | src/pages/dashboard/components/CostBreakdown.tsx:117-119 | definition only: the `items.map` of `handleCostChange`; EditTouchesOnlyTarget and EditItemsSum state its effect |
| CostBreakdown.EditCategories | src/pages/dashboard/components/CostBreakdown.tsx:113-123 | definition only: the `costs.map` of `handleCostChange`; EditTouchesOnlyTarget, EditKeepsShape and EditCategoriesSum state its effect |
| CostBreakdown.EditRigs | src/pages/dashboard/components/CostBreakdown.tsx:109-127 | definition only: the `rigs.map` of `handleCostChange`; EditTouchesOnlyTarget and EditChangesGrandTotal state its effect |
| CostBreakdown.EditTouchesOnlyTarget | src/pages/dashboard/components/CostBreakdown.tsx:108-129 | an edit sets only the matching item of the matching category of the selected rig(s); other rigs, categories and items, and all ids, names and lengths, are unchanged |
| CostBreakdown.EditKeepsShape | src/pages/dashboard/components/CostBreakdown.tsx:113-123 | an edit changes costs only, never the structure of the cost list |
| CostBreakdown.EditKeepsIdsDistinct | src/pages/dashboard/components/CostBreakdown.tsx:108-129 | an edit keeps rig ids and the distinctness of every rig's category and item ids |
| CostBreakdown.EditLastWins | src/pages/dashboard/components/CostBreakdown.tsx:108-129 | a second edit of the same item overrides the first |
| CostBreakdown.EditItemsSum | src/pages/dashboard/components/CostBreakdown.tsx:117-119 | editing the one item with the id moves the item total by the change in its cost |
| CostBreakdown.EditCategoriesSum | src/pages/dashboard/components/CostBreakdown.tsx:113-123 | editing one item moves the sum of the category totals by the change in its cost |
| CostBreakdown.EditChangesGrandTotal | src/pages/dashboard/components/CostBreakdown.tsx:108-142 | an edit of the selected rig moves the grand total by exactly the change in the edited item's cost |
| CostBreakdown.RigCostScenarios.constructor | src/pages/dashboard/components/CostBreakdown.tsx:10-14 | the screen starts with `rig-1` and `rig-2`, each holding the taxonomy `getInitialCosts` builds, and `rig-1` selected |
| CostBreakdown.RigCostScenarios.ShownRigIsFirstSelected | src/pages/dashboard/components/CostBreakdown.tsx:135-146 | while any rig is listed, the costs shown and the grand total are those of the first rig carrying the selected id, and that cost list has distinct ids |
| CostBreakdown.RigCostScenarios.AddNewRig | src/pages/dashboard/components/CostBreakdown.tsx:87-96 | appends rig number `n+1` (id `rig-(n+1)`, name `Rig (n+1)`, the taxonomy `getInitialCosts` builds) to the unchanged list and selects it |
| CostBreakdown.RigCostScenarios.RemoveRig | src/pages/dashboard/components/CostBreakdown.tsx:98-106 | with at most one rig nothing changes; otherwise the list becomes the filtered list, the selection moves to the first remaining rig if it was removed, and it crashes exactly when the selected id was removed and nothing remains |
| CostBreakdown.RigCostScenarios.HandleCostChange | src/pages/dashboard/components/CostBreakdown.tsx:108-129 | the list becomes the edit of the selected rig's item at `parseFloat(value) \|\| 0`; the selection is kept |
| CostBreakdown.RigCostScenarios.SelectRig | src/pages/dashboard/components/CostBreakdown.tsx:161-170 | the selector sets the selection to a listed rig's id and changes nothing else |
| CostBreakdown.DuplicateIdCrash | src/pages/dashboard/components/CostBreakdown.tsx:87-106 | from the initial state, remove `rig-1`, add a rig, then remove the selected rig: the removal crashes |
| CostBreakdown.RemoveThenAddRepeatsId | src/pages/dashboard/components/CostBreakdown.tsx:87-106 | removing `rig-1` from the starting rigs leaves rig 2 alone, the rig then added as number 2 is again `rig-2`, and filtering `rig-2` out of the two leaves nothing |
| CostBreakdown.LandCostScenario | src/pages/dashboard/components/CostBreakdown.tsx:108-142 | entering 50000 as the land cost of the initial selected rig makes the grand total 50000 |
| CostBreakdown.AddThenRemoveScenario | src/pages/dashboard/components/CostBreakdown.tsx:87-106 | adding a rig to the initial state gives `rig-3`, selected; removing `rig-1` then leaves `rig-2`, `rig-3` with `rig-3` still selected |
| CostBreakdown.AddThenRemoveLists | src/pages/dashboard/components/CostBreakdown.tsx:87-106 | rig number 3 is `rig-3`, and removing `rig-1` from the starting rigs followed by rig 3 leaves rigs 2 and 3 in that order |
| CostBreakdown.InitialIdsFreshFrom3 | src/pages/dashboard/components/CostBreakdown.tsx:11-14 | the starting rigs have distinct ids and none numbered 3 or more |
| CostBreakdown.CountedAddKeepsIdsFresh | src/pages/dashboard/components/CostBreakdown.tsx:87-96 | with a growing counter in place of the list length, adding keeps ids distinct and unused above the counter |
| CostBreakdown.CountedRemoveKeepsIdsFresh | src/pages/dashboard/components/CostBreakdown.tsx:98-106 | removal keeps the counter invariant |
| CostBreakdown.CountedRemoveKeepsARig | src/pages/dashboard/components/CostBreakdown.tsx:98-104 | under the counter invariant, removing from more than one rig leaves at least one, so `updatedRigs[0]` exists |
| Numeric.OrZero | src/pages/dashboard/components/CostBreakdown.tsx:118 | `parseFloat(v) \|\| 0` is 0 exactly when parsing fails or gives 0; any other result is the parsed number |
| Numeric.Coerce | src/pages/dashboard/components/ContingencyPlanning.tsx:29 | definition only: `parseFloat(v) \|\| 0` on a text input, through OrZero, whose contract states the fallback; NptCalculator.UnparsedInputZeroesCost states its effect on a cost |
| Numeric.DigitChar | src/pages/dashboard/components/CostBreakdown.tsx:89-90 | a digit's character is a decimal digit whose value is that digit |
| Numeric.DecimalString | src/pages/dashboard/components/CostBreakdown.tsx:89-90 | the decimal text of `n` in `${n}` is non-empty, all digits, with no leading zero except for 0 itself |
| Numeric.DigitValue | src/pages/dashboard/components/CostBreakdown.tsx:89-90 | a digit character's value is below 10 |
| Numeric.DecimalRoundTrip | src/pages/dashboard/components/CostBreakdown.tsx:89-90 | reading back the decimal text of `n` gives `n` |
| Numeric.DecimalInjective | src/pages/dashboard/components/CostBreakdown.tsx:89-90 | distinct numbers have distinct decimal texts |
| Charts.ChartColorsDistinct | src/pages/dashboard/components/DynamicCharts.tsx:25-27 | the palette has nine pairwise distinct colours |
| Charts.PaletteColor | src/pages/dashboard/components/DynamicCharts.tsx:86 | `chartColors[i % chartColors.length]` is always a palette colour, the one at `i % 9` |
| Charts.PaletteCycles | src/pages/dashboard/components/DynamicCharts.tsx:86 | the palette colour repeats after nine indexes and differs within any nine consecutive ones |
| Charts.OrElse | src/pages/dashboard/components/CostCategories.tsx:63 | `a \|\| b` is `a` or `b`, and it is non-empty exactly when `a` is a non-empty string or `b` is non-empty |
| Charts.BarColor | src/pages/dashboard/components/DynamicCharts.tsx:86 | definition only: `fill \|\| stroke \|\| chartColors[i % 9]`; BarColorChoices states the result is the fill, the stroke or the palette colour and never empty, and DynamicCharts.BarPerSeries ties it to each bar |
| Charts.BarColorChoices | src/pages/dashboard/components/CostCategories.tsx:112 | a bar colour is the series' own fill, its own stroke, or a palette colour, and never empty |
| Charts.PieCellColors | src/pages/dashboard/components/DynamicCharts.tsx:122-124 | definition only: one `chartColors[i % 9]` per data row; PieCellsCycle states the count and the cycle, and DynamicCharts.PieKeysAndCells ties them to the pie |
| Charts.PieCellsCycle | src/pages/dashboard/components/CostCategories.tsx:78-80 | slices nine apart share a colour, nearer slices do not |
| Charts.ChartsOrEmpty | src/pages/dashboard/components/DynamicCharts.tsx:47 | definition only: `x \|\| []`; DynamicCharts.ResponseShown states that a missing list shows the same as an empty one |
| DynamicCharts.XKey | src/pages/dashboard/components/DynamicCharts.tsx:77 | definition only: `xAxis?.dataKey`; BarPerSeries, LinePerSeries and ScatterUsesFirstSeries state that the x key is present exactly when an x axis is, and is its `dataKey` |
| DynamicCharts.Bars | src/pages/dashboard/components/DynamicCharts.tsx:81-88 | definition only: the `series.map` of the bar chart; BarPerSeries states the bars' keys, names and colours |
| DynamicCharts.Lines | src/pages/dashboard/components/DynamicCharts.tsx:98-106 | definition only: the `series.map` of the line chart; LinePerSeries states the lines' keys, names and colours |
| DynamicCharts.FirstSeries | src/pages/dashboard/components/DynamicCharts.tsx:115 | definition only: `series[0]`; PieKeysAndCells and ScatterUsesFirstSeries state that a pie and a scatter take their keys, name and colour from the first series |
| DynamicCharts.Body | src/pages/dashboard/components/DynamicCharts.tsx:74-141 | a card gets a chart body exactly when its type is bar, line, pie or scatter |
| DynamicCharts.RenderChart | src/pages/dashboard/components/DynamicCharts.tsx:62-145 | definition only: the `switch` on the chart type; BarPerSeries, LinePerSeries, LineIgnoresFill, PieKeysAndCells, ScatterUsesFirstSeries, ScatterIgnoresLaterSeries and UnknownTypeTitleOnly state each branch, title included |
| DynamicCharts.RenderAll | src/pages/dashboard/components/DynamicCharts.tsx:60-62 | definition only: the loading/error guard and the `map`; RenderAllEmptyIff, RenderAllAppend and ResponseShown state when cards show, how many, and in what order |
| DynamicCharts.ChartsOf | src/pages/dashboard/components/DynamicCharts.tsx:47 | definition only: `res.data.charts \|\| []`; ResponseShown states that a response without `charts` shows nothing and otherwise one card per listed descriptor |
| DynamicCharts.BarPerSeries | src/pages/dashboard/components/DynamicCharts.tsx:74-90 | a bar chart has one bar per series, in order, keyed and named by it, coloured fill, else stroke, else `chartColors[i % 9]` |
| DynamicCharts.LinePerSeries | src/pages/dashboard/components/DynamicCharts.tsx:91-108 | a line chart has one line per series, in order, coloured stroke, else `chartColors[i % 9]` |
| DynamicCharts.LineIgnoresFill | src/pages/dashboard/components/DynamicCharts.tsx:98-106 | changing series fills does not change a line chart card |
| DynamicCharts.PieKeysAndCells | src/pages/dashboard/components/DynamicCharts.tsx:109-127 | a pie's value key is `series[0].dataKey`, its name key `xAxis.dataKey`, with one palette-coloured cell per row |
| DynamicCharts.ScatterUsesFirstSeries | src/pages/dashboard/components/DynamicCharts.tsx:128-141 | a scatter's y key and name come from `series[0]`, its colour is `series[0].stroke`, else `chartColors[0]` |
| DynamicCharts.ScatterIgnoresLaterSeries | src/pages/dashboard/components/DynamicCharts.tsx:128-141 | series after the first do not change a scatter card |
| DynamicCharts.UnknownTypeTitleOnly | src/pages/dashboard/components/DynamicCharts.tsx:66-145 | a descriptor of any other type gets a card with its title and no chart |
| DynamicCharts.RenderAllEmptyIff | src/pages/dashboard/components/DynamicCharts.tsx:60-62 | no card is shown exactly while loading, after an error, or with no descriptors; otherwise there is one card per descriptor |
| DynamicCharts.RenderAllAppend | src/pages/dashboard/components/DynamicCharts.tsx:62 | the cards of two lists one after the other are the first list's cards followed by the second's |
| DynamicCharts.ResponseShown | src/pages/dashboard/components/DynamicCharts.tsx:47-62 | after a response the screen shows one card per listed descriptor, with its title, unless loading or in error; a response without `charts` shows nothing, like an empty list |
| CostCategories.AxisKey | src/pages/dashboard/components/CostCategories.tsx:72 | `xAxis?.dataKey` is present only when the axis and its key are, and then it is the axis's key |
| CostCategories.FirstDataKey | src/pages/dashboard/components/CostCategories.tsx:71 | `series?.[0]?.dataKey` is present only when a first series with a key is, and then it is that key |
| CostCategories.LooseBars | src/pages/dashboard/components/CostCategories.tsx:107-114 | a missing `series` gives no bars, otherwise one bar per series |
| CostCategories.RenderChart | src/pages/dashboard/components/CostCategories.tsx:54-124 | a descriptor renders if and only if it has a configuration and rows and its type is pie or bar; a rendered card always has a chart |
| CostCategories.Rendered | src/pages/dashboard/components/CostCategories.tsx:146 | every card shown is the rendering of one of the descriptors, and there are no more cards than descriptors |
| CostCategories.RenderedOne | src/pages/dashboard/components/CostCategories.tsx:146 | a single descriptor is shown as exactly its card, or not at all when it renders nothing |
| CostCategories.RenderedAppend | src/pages/dashboard/components/CostCategories.tsx:146 | the cards of two descriptor lists placed one after the other are the first list's cards followed by the second's, so order is kept and each descriptor contributes once |
| CostCategories.ChartsVisible | src/pages/dashboard/components/CostCategories.tsx:144-148 | definition only: `!loading && !error && charts.length > 0`; ShownCards states what it decides |
| CostCategories.ShownCards | src/pages/dashboard/components/CostCategories.tsx:144-148 | definition only: the guard `!loading && !error && charts.length > 0` around the rendered cards; ShownCardsNonEmptyIff and LengthGuardRedundant state when cards show and that the length test changes nothing |
| CostCategories.PieDefaults | src/pages/dashboard/components/CostCategories.tsx:59-90 | a pie card's title defaults to "Pie Chart", its value key to `value`, its name key to `name`, with one cell per row coloured `chartColors[i % 9]` |
| CostCategories.BarDefaults | src/pages/dashboard/components/CostCategories.tsx:92-121 | a bar card's title defaults to "Bar Chart"; one bar per series with fill, stroke, palette precedence; no bars when `series` is missing |
| CostCategories.AllRenderAllShown | src/pages/dashboard/components/CostCategories.tsx:146 | when every descriptor renders, every one is shown, in order |
| CostCategories.NothingRenderedIsSkipped | src/pages/dashboard/components/CostCategories.tsx:123 | descriptors that render nothing (line, scatter, broken ones) add nothing to the cards |
| CostCategories.RenderedEmptyIff | src/pages/dashboard/components/CostCategories.tsx:144-148 | nothing is rendered exactly when no descriptor renders |
| CostCategories.ShownCardsNonEmptyIff | src/pages/dashboard/components/CostCategories.tsx:144-148 | cards are shown exactly when not loading, not in error, and some descriptor renders |
| CostCategories.LengthGuardRedundant | src/pages/dashboard/components/CostCategories.tsx:146 | the shown cards are none while loading or in error, and otherwise the rendered ones; the `charts.length > 0` test changes nothing |
| DataImport.LowerChar | src/pages/dashboard/components/DataImport.tsx:35 | the result is never an ASCII capital; it is a small letter exactly when the input is a letter of either case; it is the input or the input shifted by 32 |
| DataImport.Lower | src/pages/dashboard/components/DataImport.tsx:35 | `toLowerCase` keeps the length and lower-cases each character |
| DataImport.LowerIdempotent | src/pages/dashboard/components/DataImport.tsx:35 | lower-casing twice is lower-casing once |
| DataImport.LastSegment | src/pages/dashboard/components/DataImport.tsx:35 | `split('.').pop()` is a dot-free suffix of the name, preceded by a dot unless it is the whole name |
| DataImport.NoDotIsOwnSegment | src/pages/dashboard/components/DataImport.tsx:35 | a name without a dot is its own extension |
| DataImport.LowerLastSegment | src/pages/dashboard/components/DataImport.tsx:35 | lower-casing commutes with taking the last segment |
| DataImport.Classify | src/pages/dashboard/components/DataImport.tsx:36-48 | `xls`, `xlsx`, `csv` are exactly the spreadsheets, `pdf` exactly the PDFs, `doc`, `docx` exactly the documents, all else unknown |
| DataImport.GetFileType | src/pages/dashboard/components/DataImport.tsx:34-49 | definition only: classify the lower-cased last segment; FileTypeIgnoresCase, OnlyLastSegmentCounts and NoDotClassifiesWholeName state that case does not matter, only the text after the last dot counts, and a dot-free name is its own extension |
| DataImport.FileTypeIgnoresCase | src/pages/dashboard/components/DataImport.tsx:35 | names that lower-case alike get the same kind |
| DataImport.NoDotClassifiesWholeName | src/pages/dashboard/components/DataImport.tsx:35 | a dot-free name is classified as if it were the extension |
| DataImport.SegmentAfterDot | src/pages/dashboard/components/DataImport.tsx:35 | after a dot, a dot-free tail is the last segment |
| DataImport.OnlyLastSegmentCounts | src/pages/dashboard/components/DataImport.tsx:35-48 | only the part after the last dot decides the kind |
| DataImport.RemoveAt | src/pages/dashboard/components/DataImport.tsx:102 | removal by index never lengthens the list |
| DataImport.RemoveAtSlices | src/pages/dashboard/components/DataImport.tsx:101-103 | removing index `i` drops exactly that element and keeps the rest in order; an index outside the list changes nothing |
| DataImport.RemoveAtOutside | src/pages/dashboard/components/DataImport.tsx:102 | an index outside the list removes nothing |
| DataImport.RemoveAtInside | src/pages/dashboard/components/DataImport.tsx:102 | an index inside the list removes exactly that element |
| DataImport.Entries | src/pages/dashboard/components/DataImport.tsx:15-19 | definition only: each dropped name paired with its kind; EntriesAppend and EntriesRemoveAt state that each file is classified on its own, in order |
| DataImport.EntriesAppend | src/pages/dashboard/components/DataImport.tsx:15-19 | classifying two lists of names one after the other gives the entries of the first followed by those of the second |
| DataImport.EntriesRemoveAt | src/pages/dashboard/components/DataImport.tsx:15-19 | removing a name and classifying the rest gives the entries with that name's entry removed |
| DataImport.FirstFailure | src/pages/dashboard/components/DataImport.tsx:70-84 | no failure exactly when every upload succeeds; otherwise the position of a failing upload with every earlier one succeeding |
| DataImport.ImportPanel.constructor | src/pages/dashboard/components/DataImport.tsx:10-11 | the panel starts with no files and not busy |
| DataImport.ImportPanel.Drop | src/pages/dashboard/components/DataImport.tsx:14-20 | dropped files replace the list, each with its kind |
| DataImport.ImportPanel.RemoveFile | src/pages/dashboard/components/DataImport.tsx:101-103 | the list loses the element at the index |
| DataImport.ImportPanel.HandleUpload | src/pages/dashboard/components/DataImport.tsx:65-99 | no files: nothing is sent and nothing changes; otherwise files are sent in order up to the first failure, all succeeding clears the list, a failure keeps it, and the busy flag ends false |
| DataImport.LowerXLSX | src/pages/dashboard/components/DataImport.tsx:35 | `XLSX` lower-cases to `xlsx` |
| DataImport.LowerPDF | src/pages/dashboard/components/DataImport.tsx:35 | `PDF` lower-cases to `pdf` |
| DataImport.UpperCaseExtension | src/pages/dashboard/components/DataImport.tsx:34-49 | `Budget.XLSX` is a spreadsheet |
| DataImport.DotlessName | src/pages/dashboard/components/DataImport.tsx:34-49 | `PDF` is a PDF |
| DataImport.TrailingDot | src/pages/dashboard/components/DataImport.tsx:34-49 | `notes.` is unknown |
| AIPredictions.ConfidenceColor | src/pages/dashboard/components/AIPredictions.tsx:99-103 | green exactly from 85, yellow exactly from 70 below 85, red exactly below 70 |
| AIPredictions.ConfidenceMonotone | src/pages/dashboard/components/AIPredictions.tsx:99-103 | a higher confidence never gets a worse band |
| AIPredictions.IsJsWhitespace | src/pages/dashboard/components/AIPredictions.tsx:58 | definition only: the characters `trim` removes (JavaScript's white space and line terminators) |
| AIPredictions.Blank | src/pages/dashboard/components/AIPredictions.tsx:58 | definition only: every character is white space; TrimEmptyIffBlank ties it to `trim` |
| AIPredictions.TrimStart | src/pages/dashboard/components/AIPredictions.tsx:58 | drops exactly the leading white space: a suffix that starts with a non-space, after only spaces |
| AIPredictions.TrimEnd | src/pages/dashboard/components/AIPredictions.tsx:58 | drops exactly the trailing white space: a prefix that ends with a non-space, before only spaces |
| AIPredictions.Trim | src/pages/dashboard/components/AIPredictions.tsx:58 | trimming never lengthens a string |
| AIPredictions.TrimEmptyIffBlank | src/pages/dashboard/components/AIPredictions.tsx:58 | `!input.trim()` holds if and only if the input is all white space |
| AIPredictions.AnswerOf | src/pages/dashboard/components/AIPredictions.tsx:74-84 | the answer shown is the reply's non-empty `answer`, "No answer available." when it is missing or empty, the apology when the text does not parse or is `null`; never empty |
| AIPredictions.TextReplyAsObject | src/pages/dashboard/components/AIPredictions.tsx:76-81 | a string reply and the object it parses to give the same answer |
| AIPredictions.PredictionAfter | src/pages/dashboard/components/AIPredictions.tsx:86-93 | the prediction is empty exactly after a failed request |
| AIPredictions.PredictionPanel.constructor | src/pages/dashboard/components/AIPredictions.tsx:13-15 | empty input and prediction, not loading |
| AIPredictions.PredictionPanel.SetInput | src/pages/dashboard/components/AIPredictions.tsx:13 | typing sets the input and nothing else |
| AIPredictions.PredictionPanel.HandlePredict | src/pages/dashboard/components/AIPredictions.tsx:57-97 | blank input sends nothing and changes nothing; otherwise it posts `{query: input, top_k: 100, include_images: false}`, shows the answer after the outcome, and ends not loading |
| ContingencyPlanning.InitialPlanner | src/pages/dashboard/components/ContingencyPlanning.tsx:9-10 | the planner starts at 10 percent of a base of 1000000 |
| ContingencyPlanning.ContingencyCost | src/pages/dashboard/components/ContingencyPlanning.tsx:12-14 | a zero percentage or a zero base gives no contingency |
| ContingencyPlanning.ContingencyBounds | src/pages/dashboard/components/ContingencyPlanning.tsx:12-14 | 100 times the contingency is base times percentage; for a non-negative base it lies between 0 and half the base |
| ContingencyPlanning.HundredthsBounds | src/pages/dashboard/components/ContingencyPlanning.tsx:13 | `b * x / 100` with `0 <= x <= 50` lies between 0 and half of a non-negative `b` |
| ContingencyPlanning.TotalProjectCost | src/pages/dashboard/components/ContingencyPlanning.tsx:56 | definition only: base plus contingency; TotalProjectCostBounds states its range for a non-negative base |
| ContingencyPlanning.TotalProjectCostBounds | src/pages/dashboard/components/ContingencyPlanning.tsx:56 | for a non-negative base the total is between the base and one and a half times it |
| ContingencyPlanning.SetBaseCost | src/pages/dashboard/components/ContingencyPlanning.tsx:29 | the base becomes the parsed number, or 0 when parsing fails; the percentage is kept |
| ContingencyPlanning.SetPercentage | src/pages/dashboard/components/ContingencyPlanning.tsx:37-43 | the slider sets the percentage and keeps the base |
| ContingencyPlanning.InitialPlannerCosts | src/pages/dashboard/components/ContingencyPlanning.tsx:9-14 | with the starting inputs the contingency is 100000 and the total 1100000 |
| ContingencyPlanning.ScaleKeepsOrder | src/pages/dashboard/components/ContingencyPlanning.tsx:13 | multiplying by a non-negative factor keeps the order |
| ContingencyPlanning.HundredthsMonotone | src/pages/dashboard/components/ContingencyPlanning.tsx:13 | `b * x / 100` grows with `x` for a non-negative `b` |
| ContingencyPlanning.ContingencyMonotone | src/pages/dashboard/components/ContingencyPlanning.tsx:12-14 | for a non-negative base a larger percentage never gives a smaller contingency |
| ContingencyPlanning.ContingencyLinearInBase | src/pages/dashboard/components/ContingencyPlanning.tsx:12-14 | scaling the base scales the contingency by the same factor |
| NptCalculator.InitialInputs | src/pages/dashboard/components/NptCalculator.tsx:8-9 | both inputs start at 0 |
| NptCalculator.NptCost | src/pages/dashboard/components/NptCalculator.tsx:11-13 | a zero in either factor gives zero cost |
| NptCalculator.SetHours | src/pages/dashboard/components/NptCalculator.tsx:29 | the hours become the parsed number, or 0 when parsing fails; the rate is kept |
| NptCalculator.SetRate | src/pages/dashboard/components/NptCalculator.tsx:39 | the rate becomes the parsed number, or 0 when parsing fails; the hours are kept |
| NptCalculator.InitialCostZero | src/pages/dashboard/components/NptCalculator.tsx:8-13 | the starting cost is 0, and stays 0 after setting only one of the two inputs |
| NptCalculator.ZeroFactorCostsNothing | src/pages/dashboard/components/NptCalculator.tsx:12 | a zero factor makes the cost zero |
| NptCalculator.NptCostNonNegative | src/pages/dashboard/components/NptCalculator.tsx:12 | non-negative hours at a non-negative rate cost nothing negative |
| NptCalculator.NptCostMonotone | src/pages/dashboard/components/NptCalculator.tsx:12 | at a non-negative rate more lost hours never cost less |
| NptCalculator.UnparsedInputZeroesCost | src/pages/dashboard/components/NptCalculator.tsx:29-39 | an input that does not parse zeroes the cost |

## Left out

- Rendering. JSX, layout, styling classes, the UI components and the chart library's drawing are not modelled. A chart is described by its kind, keys, colours and rows (`Charts.ChartBody`), not drawn. Axis labels and y-axis labels only label the drawing, so the model drops them.
- Network and browser plumbing are left out: the HTTP client and its configuration, `FormData`, preview URLs, the drop zone and toasts. Each upload is an abstract `accepts(file)` outcome. Each query is an abstract `post(request)` outcome.
- `parseFloat` and `JSON.parse` are foreign library code. They are parameters (`Numeric.Parser`; `parse: string -> JsonParse`), not reimplemented.
- IEEE-754 floating point is not modelled. Costs, rates and percentages are exact `real`s, so rounding, `NaN` arithmetic and `Infinity` are not captured. `toLocaleString` display formatting is not modelled.
- Handlers are single atomic steps. The model does not capture async interleaving of overlapping requests or React's batching of state updates.
- The chart screens' file-upload handlers (`handleFileChange`) are network plumbing. Only their results are modelled: `ChartsOf` for `charts || []`, and the `loading`/`error` visibility condition.
- The cost-categories screen's `fetchCategories` and its `categories` name list are left out. They are a network call and a plain list display.
- The static prediction and forecast tables in the AI-predictions screen are constant display data and are left out.
- `Cost3DCharts.tsx` (static sample scatters), `WellIdentification.tsx` (form field copies, constant total) and `Dashboard.tsx` (tab wiring) are not part of this model.
- AIPredictions.PredictionPanel.HandlePredict: the intermediate `isLoading == true` state is only visible between the awaits. The method states the flag at the end of the call, not during it.
- DataImport.Lower: models `toLowerCase` on ASCII capitals only. No non-ASCII character lower-cases into the letters of a recognised extension, so classification is unaffected.
- DataImport.ImportPanel.HandleUpload: a file's upload success is a function of the file. Repeated uploads of the same file are assumed to behave alike.
- ContingencyPlanning.SetPercentage: the slider's value is an array in the code. The model keeps its single element as an integer from 0 to 50, which the slider's `min`, `max` and `step` enforce.
- DynamicCharts.ChartData: `chartConfig` and `series` are typed as always present, so their absence is not modelled. The code destructures `chartConfig` and calls `series.map` without guards (DynamicCharts.tsx:64, 81), so a descriptor without them throws during rendering.
- CostCategories.Descriptor: three malformed descriptors that throw are not modelled. A null descriptor throws at `const { chartConfig, data } = chart` (CostCategories.tsx:55). A pie whose `data` is truthy but not an array throws at `data.map` (CostCategories.tsx:78). A bar whose `series` is truthy but not an array throws at `series?.map` (CostCategories.tsx:107). The model's descriptor is never null, and holds `data` and `series` as optional lists with no other shape.
- AIPredictions.AnswerOf: `answer` is modelled only as a string. The code passes any truthy value through `parsed.answer || answer` (AIPredictions.tsx:78, 80), so a non-string answer such as a number would be shown as is.
- CostBreakdown.RigCostScenarios.SelectRig: requires the id to be one of the listed rigs. The selector only offers those ids.
- CostBreakdown.RigCostScenarios.RemoveRig: the code throws a `TypeError` when the filtered list is empty. The model returns `crashed` with the state as it is at the throw: the list already emptied, the selection unchanged.

## Findings

| source | as written | input that shows it | evidently intended | confidence | as-written member | corrected member |
|---|---|---|---|---|---|---|
| src/pages/dashboard/components/CostBreakdown.tsx:88-103 | the new rig's number is `rigs.length + 1`, so after a removal it can repeat a listed id; `removeRig` then filters out every rig with the id and reads `updatedRigs[0].id` of an empty list | start with `rig-1`, `rig-2`; remove `rig-1`; add (gives a second `rig-2`, selected); remove the current rig: the list empties and reading `updatedRigs[0].id` throws | rig ids are distinct, so removing from more than one rig always leaves one to select (for example, numbering from a counter that only grows) | not executed | CostBreakdown.DuplicateIdCrash | CostBreakdown.CountedRemoveKeepsARig |
