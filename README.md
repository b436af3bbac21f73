# Twin treemap core, modelled in Dafny

This project models the core of `js/twinTreemap.js`, the script behind the "twin treemap" view.
The view loads a value-flow dataset: leaf sectors, final-demand countries, and links
(sector, demand country, value). It draws two linked treemaps: sectors grouped by section and
countries grouped by continent. Clicking a tile in one treemap filters the other. The model covers:

- the aggregation engine: surviving links, the two adjacency maps, the per-sector and per-country
  totals, and the "no domestic" variants keyed on the origin country (`aggregation.dfy`, `dataset.dfy`);
- the node lists for the current selection, and their grouping by section or continent
  (`nodes.dfy`, `grouping.dfy`, `ordering.dfy`);
- the shared selection state, its handlers, the layout key, the per-treemap three-way render
  decision, and the opacity rule (`selection.dfy`, `view.dfy`);
- `truncateOneLine` (binary search for the longest prefix that fits with the `..` ellipsis) and
  `wrapWordsMaxLines` (greedy word wrap onto at most 1–3 lines) (`text.dfy`);
- the per-tile label fitting: visibility thresholds, start font sizes, the descending font-size
  loops for the name and the value, and the value/name no-overlap rule (`labels.dfy`);
- small helpers: `normalizeYear`, `selectChartUnit`, `decimalsForScaledValue`, the section-colour
  hash and `tooltip.move` (`extras.dfy`).

Values are idealised as `real`. A JSON value that is not a number is `NaN` in the model, and it
coerces to 0 as `Number(x) || 0` does. Tile widths and heights are integers, because the treemap
layout rounds its rectangles. Three things are parameters of the model:

- text measurement (`getComputedTextLength`): a function from font size and string to a width;
- the canvas font metrics: a probe giving the measured ascent and descent for a font size, or none
  when there is no canvas;
- the treemap layout: it is not modelled.

The view object (`View.TwinTreemap`) is a class. Its fields are the loaded data, the selection
state, and the two remembered layout keys. Its handlers update the state in place and then call
`RenderAll`. Each imperative loop of the source is a method proved equal to a specification
function. The properties are proved about those functions:

- the adjacency build and the total loops (`Aggregation.BuildIndex`);
- the bucket loop of the grouping functions (`Grouping.BucketBy`);
- the binary search (`Text.LongestFitting`) and the word loop (`Text.WrapWordsMaxLines`);
- the two font-size loops (`Labels.FitName`, `Labels.FitValue`);
- the hash loop (`Extras.SectionPaletteIndex`).

Three behaviours of the code are easy to miss, and the model follows each of them:

- Groups with a non-positive value: the grouping functions do not filter them out. The node lists
  keep only nodes with a positive value (js/twinTreemap.js:1085, 1110), so every group is positive
  anyway (`Grouping.GroupsPositive`, `View.RenderedTotals`).
- The fitting text: when the text fits and no cut is forced, `truncateOneLine` leaves the *trimmed*
  text in the element (js/twinTreemap.js:107-108). The model does the same (`Text.TruncationShape`).
- Resize: the resize handler re-renders with the state unchanged (js/twinTreemap.js:1326-1329).
  Both layout keys are then unchanged, so each non-empty treemap gets only the opacity update. Its
  `renderLayout` (js/twinTreemap.js:457-475), which reads the container size, is not run again, and
  the tiles keep the geometry of the old container size (`View.TwinTreemap.OnResize`).

## Model

| member | source | states |
|---|---|---|
| Common.FilterCount | js/twinTreemap.js:886-897 | `.filter` keeps each element that passes the test as often as it occurs, and drops every other one |
| Common.FilterAppend | js/twinTreemap.js:886-897 | `.filter` of a concatenation is the concatenation of the filtered parts, so the input order is kept |
| Dataset.LeafSectors | js/twinTreemap.js:886 | exactly the sectors whose `is_leaf` is numerically 1 are kept, each as often as it occurs |
| Dataset.LeafSectorsSnoc | js/twinTreemap.js:886 | one more sector at the end is appended to the result iff it is a leaf: the kept sectors stay in input order |
| Dataset.RealCountries | js/twinTreemap.js:887-889 | exactly the demand entities whose `is_country` is numerically 1 are kept, each as often as it occurs |
| Dataset.RealCountriesSnoc | js/twinTreemap.js:887-889 | one more entity at the end is appended to the result iff it is a real country: input order is kept |
| Dataset.SurvivingLinks | js/twinTreemap.js:894-897 | a link survives iff its sector id and its demand id are both known; survivors keep their multiplicity |
| Dataset.SurvivingLinksSnoc | js/twinTreemap.js:894-897 | one more link at the end is appended to the result iff both its ids are known: input order is kept |
| Dataset.LinksOfSurvivors | js/twinTreemap.js:886-897 | a link survives iff it runs from a leaf sector to a real country |
| Aggregation.RowTotal | js/twinTreemap.js:1006-1008 | the loop over a row's values returns the row's total |
| Aggregation.RowTotalSkipping | js/twinTreemap.js:1020-1026 | the loop that skips the domestic column returns the row total without that column |
| Aggregation.TotalsPerRow | js/twinTreemap.js:1004-1015 | one total per adjacency row, equal to that row's sum |
| Aggregation.TotalsPerRowSkipping | js/twinTreemap.js:1017-1028 | one total per sector row, equal to the row sum without the domestic column |
| Aggregation.TotalsWithout | js/twinTreemap.js:1029-1033 | the country totals with the domestic entry dropped and every other entry kept |
| Aggregation.BuildIndex | js/twinTreemap.js:986-1034 | the loops build exactly the adjacency maps and the six total maps that the specification `IndexOf` defines |
| Aggregation.AdjCell | js/twinTreemap.js:990-1001 | each adjacency cell sums the values of the links with that pair; a cell exists iff such a link exists |
| Aggregation.AdjRowTotal | js/twinTreemap.js:1004-1028 | a row total (with any excluded columns) equals the summed value of the row's links outside those columns |
| Aggregation.AdjacencySums | js/twinTreemap.js:986-1002 | `sectorToCountry[s][c]` and `countryToSector[c][s]` both equal the pair's link sum; both entries exist iff the pair has a link |
| Aggregation.TotalsAreLinkSums | js/twinTreemap.js:1004-1028 | each sector, country and no-domestic sector total is the summed value of that entity's links (without the domestic ones) |
| Aggregation.MassConservation | js/twinTreemap.js:1004-1015 | the sector totals and the country totals both add up to the total value of the surviving links |
| Aggregation.SplitByDemand | js/twinTreemap.js:1017-1034 | the total link value splits into the domestic country's links plus all the others |
| Aggregation.NoDomesticTotals | js/twinTreemap.js:1017-1034 | no-domestic maps are empty without an origin id; otherwise country totals minus the domestic key, sector totals on the same keys, both summing to the non-domestic link value |
| Ordering.InsertDesc | js/twinTreemap.js:1086 | inserting keeps the elements (as a multiset) and adds one |
| Ordering.SortDesc | js/twinTreemap.js:1086 | the sort is a permutation of its input |
| Ordering.SortDescSorted | js/twinTreemap.js:1086 | the sort's result is non-increasing in value |
| Ordering.SortDescStable | js/twinTreemap.js:1086 | the sort is stable: elements with equal value keep their input order |
| Ordering.SortDescOfSorted | js/twinTreemap.js:1086 | an already descending list is left unchanged |
| Ordering.KeepFilter | js/twinTreemap.js:1085 | a filter that passes every element of some value keeps all of them, in order |
| Ordering.FilterSort | js/twinTreemap.js:1085-1086 | filtering then sorting gives a descending list holding each passing element as often as it occurs, and nothing else |
| Ordering.FilterSortStable | js/twinTreemap.js:1085-1086 | when the filter passes every element of value `v`, filtering then sorting keeps those elements in input order |
| Selection.ClearHiddenDomestic | js/twinTreemap.js:1167-1173 | clears the country selection iff it is the hidden domestic country, and otherwise changes nothing; the result is consistent |
| Selection.Step | js/twinTreemap.js:1249-1349 | a sector click toggles the sector and clears the country; a country click selects the country unless it was selected or is the hidden domestic one, and clears the sector; reset clears both; only the toggles change the flag, and they keep the selections except a now hidden domestic country; resize of a consistent state changes nothing; the result is consistent |
| Selection.RunConsistent | js/twinTreemap.js:1167-1173 | any sequence of events keeps at most one selection and never a hidden domestic one |
| Selection.InitialRunConsistent | js/twinTreemap.js:1036-1040 | starting from the initial state, every reachable state is consistent |
| Selection.ClickSectorTwice | js/twinTreemap.js:1249-1253 | clicking the same sector twice selects it, then deselects it |
| Selection.SecondAxisClearsFirst | js/twinTreemap.js:1249-1313 | a click in one treemap clears the selection made in the other |
| Selection.ToggleDomesticClears | js/twinTreemap.js:1340-1344 | hiding the domestic country deselects it and keeps any other selection |
| Selection.LayoutKeyInjective | js/twinTreemap.js:1214-1216 | two layout keys are equal iff the flags are equal and the opposite selections are equal (absent counts as "") |
| Selection.Decide | js/twinTreemap.js:1217-1262 | empty message iff no groups; full layout iff the key changed; opacity update iff the key is unchanged; the remembered key becomes the key, or none when empty |
| Selection.OpacityOnlyWhenInputsUnchanged | js/twinTreemap.js:1214-1262 | only an unchanged flag and opposite selection lead to an opacity-only update |
| Selection.EmptyForcesRelayout | js/twinTreemap.js:1217-1219 | after an empty render, the next non-empty render runs a full layout |
| Selection.TargetOpacity | js/twinTreemap.js:565-566 | opacity 1 iff there is no selection or the leaf is the selected one, 0.55 otherwise |
| Nodes.SectorNodesOf | js/twinTreemap.js:1066-1084 | one node per leaf sector, in leaf order, carrying that sector's total from the chosen totals (0 when absent) |
| Nodes.SectorNodesSpec | js/twinTreemap.js:1066-1087 | the sector nodes are non-increasing; they are the positive nodes of the leaf sectors, each as often as its sector occurs; equal values keep leaf order |
| Nodes.SectorNodesMembers | js/twinTreemap.js:1066-1087 | every sector node is positive and comes from a leaf sector; every leaf sector with a positive total has its node |
| Nodes.CountryNodesOf | js/twinTreemap.js:1089-1102 | one node per real country, in country order, carrying that country's total from the chosen totals (0 when absent) |
| Nodes.ShownCountryMembers | js/twinTreemap.js:1098-1109 | the shown nodes are the nodes of the countries other than the hidden domestic one, each as often as its country occurs |
| Nodes.ShownCountryNodesSnoc | js/twinTreemap.js:1098-1109 | one more country at the end is appended to the shown nodes iff it is not the hidden domestic one: country order is kept |
| Nodes.CountryNodesSpec | js/twinTreemap.js:1089-1112 | the country nodes are non-increasing; they are the positive shown nodes, each as often as its country occurs; equal values keep country order |
| Nodes.CountryNodesMembers | js/twinTreemap.js:1089-1112 | every country node is positive and never the hidden domestic country; every other country with a positive total has its node |
| Nodes.SectorNodeValues | js/twinTreemap.js:1066-1083 | a sector node's value is its link sum towards the selected country, or over all (non-domestic) countries |
| Nodes.CountryNodeValues | js/twinTreemap.js:1089-1102 | a country node's value is its link sum from the selected sector or from all sectors; the hidden domestic one never appears |
| Grouping.SumValuesSort | js/twinTreemap.js:1147-1148 | sorting the children does not change their summed value |
| Grouping.OrderMembers | js/twinTreemap.js:1139-1144 | the bucket keys are exactly the keys of the nodes |
| Grouping.OrderDistinct | js/twinTreemap.js:1139-1144 | each key gets one bucket |
| Grouping.BucketMembers | js/twinTreemap.js:1139-1144 | a bucket holds exactly the nodes with its key |
| Grouping.BucketBy | js/twinTreemap.js:1139-1144 | the bucket loop yields the keys in first-seen order and, per key, the nodes with that key in input order |
| Grouping.Groups | js/twinTreemap.js:1146-1163 | the groups are non-increasing in value and are a permutation of one group per key in first-seen order |
| Grouping.GroupNodes | js/twinTreemap.js:1138-1164 | the imperative grouping (buckets, group records, sort) returns the specified groups |
| Grouping.GroupsByKey | js/twinTreemap.js:1138-1164 | one group per distinct key and no other |
| Grouping.GroupContents | js/twinTreemap.js:1146-1160 | a group's id is the prefixed key; its children are its key's nodes, descending; its value is their sum |
| Grouping.Partition | js/twinTreemap.js:1138-1164 | every node is a child of exactly one group, the one of its key |
| Grouping.GroupsEmpty | js/twinTreemap.js:1138-1164 | there are groups iff there are nodes |
| Grouping.GroupsPositive | js/twinTreemap.js:1146-1160 | with positive nodes, every group is non-empty and has a positive value |
| Grouping.GroupsConserveValue | js/twinTreemap.js:1138-1164 | the group values add up to the summed value of the nodes |
| Grouping.SectionGroups | js/twinTreemap.js:1138-1164 | section groups keyed by section code, ids `section:<code>` |
| Grouping.ContinentGroups | js/twinTreemap.js:1114-1136 | continent groups keyed by continent, ids `continent:<name>` |
| Text.TrimTwice | js/twinTreemap.js:107 | trimming is idempotent |
| Text.Words | js/twinTreemap.js:139 | every word is non-empty and has no white space |
| Text.WordsSplit | js/twinTreemap.js:139 | the words of two texts joined at white space are the words of the first followed by those of the second |
| Text.WordsNone | js/twinTreemap.js:139-141 | there are no words exactly when the text is all white space (the early `linesUsed: 0` exit) |
| Text.WordsLetters | js/twinTreemap.js:139 | the words, put together, are the text's non-space characters in order |
| Text.WordsOfJoin | js/twinTreemap.js:139 | splitting words joined by single spaces gives the words back |
| Text.TruncationShape | js/twinTreemap.js:104-133 | cut iff text and (width ≤ 0 or forced or too wide); uncut gives the trimmed text; cut gives a prefix candidate that fits or is `..` |
| Text.TruncateOneLine | js/twinTreemap.js:104-133 | the early exits and the binary search compute the specified truncation |
| Text.LongestFitting | js/twinTreemap.js:118-129 | the `lo`/`hi` loop computes the specified binary search |
| Text.SearchPasses | js/twinTreemap.js:118-129 | the search ends on 0 or on a prefix length whose candidate fits |
| Text.SearchIsLongest | js/twinTreemap.js:118-129 | with a downward-closed fit predicate, the search finds the longest fitting length |
| Text.TruncationIsLongest | js/twinTreemap.js:104-133 | under a measure monotone in the prefix length, a cut keeps the longest prefix whose candidate fits |
| Text.TruncationEnds | js/twinTreemap.js:104-133 | a forced cut of non-empty text always reports a cut and ends with `..` |
| Text.SafeMaxLines | js/twinTreemap.js:143 | the line limit lies in 1..3 and a limit already in range is kept |
| Text.WrapStep | js/twinTreemap.js:155-189 | one pass of the word loop: either the loop's final result or the state for the next word |
| Text.WrapWordsMaxLines | js/twinTreemap.js:135-194 | the word loop computes the specified wrap |
| Text.WrapLines | js/twinTreemap.js:135-194 | 0 lines iff no words; else 1..limit lines that fit or are `..`; without a cut every line measures within the width and the lines join to the words in order; cut output ends with `..` |
| Labels.FontMetrics | js/twinTreemap.js:202-231 | positive metrics; a positive measurement is used; otherwise 0.8/0.2 of the size (12 when the size is 0) |
| Labels.DescendResult | js/twinTreemap.js:650-694 | the descending loop keeps the largest size needing no ellipsis; a cut or absent plan means no size avoided the ellipsis |
| Labels.TryName | js/twinTreemap.js:653-690 | one name attempt at a size: 1 or 2 lines as the height allows, baseline from the ascent, block bottom from the lines used |
| Labels.FitName | js/twinTreemap.js:650-694 | the name's font-size loop (with its `continue` and two `break`s) computes the specified search |
| Labels.TryValue | js/twinTreemap.js:717-730 | one value attempt at a size: skipped when its top would be above the name block, else the one-line cut, bottom-aligned by the descent |
| Labels.FitValue | js/twinTreemap.js:712-736 | the value's font-size loop computes the specified search |
| Labels.StartSizesAreFloors | js/twinTreemap.js:631-632 | the start sizes are the floors of width/9 clamped to 11..22 and width/11 clamped to 11..20 |
| Labels.TilePlanOf | js/twinTreemap.js:627-739 | no text when the text width is under 10, width under 28 or height under 22; a name needs width ≥ 46 and height ≥ 28; a value needs width ≥ 54 |
| Labels.FitTile | js/twinTreemap.js:627-739 | the per-tile fitting computes the specified tile plan |
| Labels.FitTileName | js/twinTreemap.js:643-696 | the name is fitted only in a tile at least 46 wide and 28 tall, into the height left below the name top; the result is the name part of the specified tile plan |
| Labels.TruncationFits | js/twinTreemap.js:104-133 | a truncation result is empty, `..`, or fits the width |
| Labels.TilePlacement | js/twinTreemap.js:643-711 | the name block stays above the bottom padding; a value's top is at least 3 below the name block (or below the top padding); its baseline is above the bottom padding |
| Labels.TileNameSize | js/twinTreemap.js:649-694 | the name size lies in 9..start; uncut at the largest size needing no ellipsis; cut only if none did; no name only if no size had room |
| Labels.ValueSize | js/twinTreemap.js:712-736 | the value is uncut at the largest size needing no ellipsis; cut only if none did; absent iff no size kept the value below the name |
| Labels.TileTextFits | js/twinTreemap.js:627-739 | every shown name line and value fits the text width at its font size (or is `..` or empty); a name or value shown without an ellipsis is empty or fits |
| View.TwinTreemap.constructor | js/twinTreemap.js:886-1040 | the view holds the surviving data, the index of its links, the initial state and no remembered layout keys |
| View.TwinTreemap.SectorGroups | js/twinTreemap.js:1204-1213 | the sector nodes' total and their section groups for the current state |
| View.TwinTreemap.CountryGroups | js/twinTreemap.js:1264-1273 | the country nodes' total and their continent groups for the current state |
| View.TwinTreemap.RenderSectors | js/twinTreemap.js:1204-1262 | the sector treemap gets the section groups of the current nodes and their total; the layout key follows the three-way decision |
| View.TwinTreemap.RenderCountries | js/twinTreemap.js:1264-1323 | the country treemap gets the continent groups of the current nodes and their total; the layout key follows the three-way decision |
| View.TwinTreemap.RenderAll | js/twinTreemap.js:1166-1324 | clears a hidden domestic selection, leaves a consistent state, renders both treemaps, and leaves both remembered keys current for that state |
| View.TwinTreemap.OnSectorClick | js/twinTreemap.js:1249-1253 | the sector click transition followed by an animated render |
| View.TwinTreemap.OnCountryClick | js/twinTreemap.js:1309-1313 | the country click transition followed by an animated render |
| View.TwinTreemap.OnReset | js/twinTreemap.js:1335-1339 | both selections cleared, then an animated render |
| View.TwinTreemap.OnToggleButton | js/twinTreemap.js:1340-1344 | the domestic flag flipped, then an animated render |
| View.TwinTreemap.OnToggleCheckbox | js/twinTreemap.js:1345-1349 | the domestic flag set from the checkbox, then an animated render |
| View.TwinTreemap.OnResize | js/twinTreemap.js:1326-1329 | the state kept, then a render without animation; when the remembered keys were current, neither treemap runs a full layout |
| View.RenderedTotals | js/twinTreemap.js:1204-1273 | each totals line equals the summed group values; every group is positive and non-empty; no groups iff no nodes; no hidden domestic tile |
| Extras.NormalizeYear | js/twinTreemap.js:755-759 | a non-number gives 2022; any other year is clamped to 1995..2022 |
| Extras.SelectChartUnit | js/twinTreemap.js:304-311 | one of the five units (each letter with its scale); the plain unit below 1000; otherwise the largest scale not above the maximum, which is below 1000 units of it (below 1e15) |
| Extras.DecimalsForScaledValue | js/twinTreemap.js:330-336 | 0..2 decimals; values from 1 to 1000 show three significant digits |
| Extras.DecimalsMonotone | js/twinTreemap.js:330-336 | a larger magnitude never gets more decimals |
| Extras.SectionHash | js/twinTreemap.js:958-962 | the hash stays an unsigned 32-bit number |
| Extras.SectionHashIsPolynomial | js/twinTreemap.js:958-962 | the hash is the base-31 polynomial of the character codes modulo 2^32 |
| Extras.SectionPaletteIndex | js/twinTreemap.js:958-963 | the hash loop picks a palette index in 0..15, the hash modulo 16 |
| Extras.SectionColorOf | js/twinTreemap.js:953-964 | a palette colour iff no fixed long-name colour and a non-empty code; its index is the polynomial hash modulo 16 |
| Extras.Place | js/twinTreemap.js:409-413 | just past the pointer when it fits; otherwise flipped before it, never nearer the edge than 12; inside the viewport when there is room |
| Extras.TooltipMove | js/twinTreemap.js:398-419 | with room in the viewport and the pointer inside, the tooltip stays inside with 12 px padding on both axes |

## Left out

- DOM and d3 rendering (selections, joins, transitions, attributes, the empty message, tooltip
  contents, the selection labels and the domestic button's title and disabled state): display side
  effects. Only the decisions they act on are modelled.
- The squarified treemap layout (`d3.treemap`): a foreign library. The model takes the tile width
  and height as inputs.
- Fetching, the JSON cache, the abort controller, the cleanup hook, listener wiring, and the resize
  debounce timer: I/O, timers and cancellation. `OnResize` is the render the timer finally runs.
- URL handling, `normalizeCountry` and the data-URL builders: browser APIs only.
- Number formatting (`formatMil`, `formatShortNumber`, `formatChartValueUsd`, `formatMoneyUsd`,
  `formatPct`, the totals lines) and the raw-to-USD multiplier: they need `Intl.NumberFormat` and
  floating division. The model keeps the totals in raw units.
- Text measurement and the canvas: parameters of the model. The font-metrics cache is only
  memoisation and is not modelled.
- Floating point: sums are exact reals, so conservation holds in idealised arithmetic. IEEE
  rounding of the JavaScript sums is not modelled. `Infinity` is not a value of the model. The
  hash is exact, because every intermediate value stays below 2^53.
- `wrapTextTwoLines` and `sumBy`: never called.
- `prefersReducedMotion`, the colour palettes and their hex strings: only the hash index and where
  a section colour comes from are modelled.
- Labels.FontMetrics: the font family and weight are left out. They only choose the measured font,
  and the probe stands for that choice.
- Text.TruncateOneLine: strings are sequences of Unicode scalar values, while JavaScript's `length`
  and `slice` count UTF-16 code units. Text with characters outside the Basic Multilingual Plane
  is cut at other positions in the source, and such a cut can split a surrogate pair. The same
  applies to Text.LongestFitting, Text.Truncation, Text.WrapWordsMaxLines, Labels.TryName,
  Labels.FitName, Labels.TryValue, Labels.FitValue and Labels.TilePlanOf, which use it.
- Extras.SectionPaletteIndex: characters are Unicode scalar values. A character outside the Basic
  Multilingual Plane counts as two UTF-16 code units in `charCodeAt`, and that case is not modelled.
- View.TwinTreemap.constructor: the first `renderAll({ animate: false })` after set-up is a separate
  `RenderAll(false)` call, not part of the constructor.
