# WhiteHatStats: the chart's drawing pass

`WhiteHatStats` is a React component that draws a horizontal stacked bar chart of gun deaths per
100,000 people, one bar per US state, split into a male and a female part. Whenever the data, the
canvas, its size or the brushed state changes, an effect runs one drawing pass:

1. It returns at once while the canvas or the data is missing.
2. It clears the canvas.
3. It builds one plot entry per state record:
   - the total deaths;
   - the male, female and total rates per 100k, rounded to two decimals;
   - the population;
   - the state's name with underscores as spaces;
   - an "ease of drawing" figure taken from a constant table, with a default of 5;
   - the male/total ratio.
4. It sorts the entries in place by descending total rate.
5. It stacks the male and female rates.
6. It appends the bars with their tooltips, the axes, the title and the legend.
7. When the state brushed in another view is among the drawn names, it appends a highlight frame.

The model has one module per part of that pass:

- **`JsNumber`**: `Number(x.toFixed(2))` on exact reals (round half away from zero), `d3.descending`, and IEEE division for the gender ratio.
- **`Names`**: the underscore-to-space normalisation, and the band scale's de-duplicated domain.
- **`Difficulty`**: the lookup table as an object literal whose later duplicate key wins, and the lookup with its default. The lookup also finds the names a plain object inherits from `Object.prototype`.
- **`PlotData`**: the record-to-entry derivation, and the `for…of`/`push` loop as a method.
- **`RateSort`**: the in-place stable sort as an insertion sort on an array, proved against a functional `SortByRate`. The sort's result is proved sorted, a permutation and stable, and proved to be the only result any stable sort can give.
- **`StackLayout`**: `d3.stack` with keys male and female and the default order and offset.
- **`Scales`**: the inner-size clamp, the value maximum and the band domain.
- **`Interaction`**: the tooltip's share and its lines, and the highlight decision.
- **`Chart`**:
  - the `Canvas` class, whose element list is cleared and appended to;
  - the draw guard;
  - `Render`, which is proved to leave exactly `Scene(records, width, height, brushed)` on the canvas;
  - lemmas about that scene.

## Model

| member | source | states |
|---|---|---|
| JsNumber.Divide | src/WhiteHatStats.js:43 | the ratio is finite exactly when the divisor is non-zero, and then times the divisor gives the dividend; over 0 it is +Infinity exactly for a positive dividend, -Infinity exactly for a negative one, and NaN exactly for 0/0 |
| JsNumber.Round2 | src/WhiteHatStats.js:37-40 | rounding to two decimals moves a value by at most 0.005 |
| JsNumber.Round2Monotone | src/WhiteHatStats.js:37-40 | rounding to two decimals preserves order |
| JsNumber.Round2Sign | src/WhiteHatStats.js:37-40 | rounding keeps 0, keeps the sign, and keeps values at or below -0.005 negative |
| JsNumber.RoundedPartsWithinCent | src/WhiteHatStats.js:37-40 | two parts rounded separately add up to their rounded sum to within 0.01 |
| JsNumber.Descending | src/WhiteHatStats.js:49 | the comparator is negative, zero or positive exactly when the first rate is larger, equal or smaller |
| Names.SpaceUnderscores | src/WhiteHatStats.js:41 | same length; every `_` becomes a space and every other character is kept; no `_` is left |
| Names.SpaceUnderscoresIdempotent | src/WhiteHatStats.js:41 | normalising a normalised name changes nothing |
| Names.SpaceUnderscoresKeepsPlainNames | src/WhiteHatStats.js:41 | a name without `_` is left as it is |
| Names.Distinct | src/WhiteHatStats.js:57-58 | the band domain holds exactly the names given, each once, and is no longer than the list |
| Names.DistinctOfUnique | src/WhiteHatStats.js:57-58 | when no name repeats, the domain is the name list itself, in order |
| Difficulty.Assigned | src/WhiteHatStats.js:164-214 | an object literal has a key exactly when some property writes it, with the value of the last such write; `DrawingDifficulty` is the table's literal assigned this way |
| Difficulty.AssignStep | src/WhiteHatStats.js:164-214 | assigning one more property adds its key and keeps every other key's last write |
| Difficulty.Lookup | src/WhiteHatStats.js:34 | an own key gives the table's number; any other name gives a value exactly when `Object.prototype` supplies it, and that value is the inherited property; otherwise `undefined` |
| Difficulty.EaseOfDrawing | src/WhiteHatStats.js:34-42 | the table's number when the abbreviation is an own key; the inherited property when only `Object.prototype` has the name; otherwise 5 |
| Difficulty.EaseOfWrittenKey | src/WhiteHatStats.js:164-214 | the last write of a key in the table is what the lookup gives for that key |
| Difficulty.ZeroIsNotMissing | src/WhiteHatStats.js:42 | CO and WY, whose value is 0, give 0 and not the default, because the test is for `undefined` |
| Difficulty.DuplicateKeyKeepsLaterValue | src/WhiteHatStats.js:182-188 | MN is written twice (2.1, then 5.1), and the lookup gives 5.1 |
| Difficulty.MissingStatesGetDefault | src/WhiteHatStats.js:42 | AZ, CT, WI and the empty abbreviation are not in the table and give 5 |
| Difficulty.ShortNamesAreOwn | src/WhiteHatStats.js:34 | no name of two characters or fewer is inherited from `Object.prototype`, so an abbreviation never finds a prototype property |
| Difficulty.PrototypeNamesAreNotMissing | src/WhiteHatStats.js:34-42 | a name `Object.prototype` supplies (`constructor`, `toString`, …) is not `undefined`, so the entry gets the inherited property and not 5 |
| PlotData.RatePer100kScales | src/WhiteHatStats.js:37-40 | the exact rate times the population is 100,000 times the count |
| PlotData.RoundedRate | src/WhiteHatStats.js:37-40 | the stored rate is within 0.005 of count ÷ population × 100000 |
| PlotData.Entry | src/WhiteHatStats.js:34-44 | an entry keeps the record's count and population, takes the normalised state name and the lookup's ease of drawing; its male, female (count − male count) and total rates are each within 0.005 of count ÷ population × 100000; its gender ratio is the IEEE quotient male count ÷ count |
| PlotData.Entries | src/WhiteHatStats.js:32-46 | one entry per record, entry i built from record i |
| PlotData.BuildPlotData | src/WhiteHatStats.js:32-46 | the push loop yields one entry per record, entry i built from record i |
| PlotData.RatesAddUpWithinCent | src/WhiteHatStats.js:37-40 | the male and female rates add up to the total rate to within 0.01 |
| PlotData.RateMonotone | src/WhiteHatStats.js:37-40 | for counts 0 ≤ a ≤ b in one population, 0 ≤ rate of a ≤ rate of b |
| PlotData.RoundedRateMonotone | src/WhiteHatStats.js:37-40 | the same for the stored rates: non-negative and ordered by count |
| PlotData.SubRatesBoundedByTotal | src/WhiteHatStats.js:37-40 | when 0 ≤ male count ≤ count, both sub-rates lie between 0 and the total rate |
| PlotData.FemaleRateOfExcessMaleCount | src/WhiteHatStats.js:38 | with no guard, a male count above the total gives a female rate ≤ 0, negative once the unrounded rate is ≤ -0.005 |
| PlotData.FemaleRateIsNotRateDifference | src/WhiteHatStats.js:38 | the female rate comes from the count difference: for one record it differs from total rate minus male rate |
| PlotData.TexasAndVermont | src/WhiteHatStats.js:37-40 | worked values: Texas 13.79; Vermont 16.13 = 11.29 + 4.84 |
| RateSort.VermontBeforeTexas | src/WhiteHatStats.js:49 | sorting the Texas and Vermont entries puts Vermont (16.13) before Texas (13.79) |
| RateSort.InOrder | src/WhiteHatStats.js:49 | the comparator `d3.descending(a.per100k, b.per100k)` keeps a before b exactly when a's rate is at least b's |
| RateSort.Insert | src/WhiteHatStats.js:49 | one insertion step of the sort adds one entry; its contents and position are stated by InsertPermutes, InsertDescends and InsertAt |
| RateSort.SortByRate | src/WhiteHatStats.js:49 | the sort's result has as many entries as its input; SortDescends, SortPermutes, SortIsStable and StableSortIsUnique state the rest |
| RateSort.InsertPermutes | src/WhiteHatStats.js:49 | one insertion adds exactly the inserted entry |
| RateSort.InsertDescends | src/WhiteHatStats.js:49 | inserting into a descending sequence keeps it descending |
| RateSort.InsertAt | src/WhiteHatStats.js:49 | an entry is inserted right behind the last entry the comparator keeps before it |
| RateSort.SortDescends | src/WhiteHatStats.js:49 | the sorted entries have non-increasing `per100k` |
| RateSort.SortPermutes | src/WhiteHatStats.js:49 | the sorted entries are a permutation of the input |
| RateSort.SortIsStable | src/WhiteHatStats.js:49 | entries with equal `per100k` keep their input order |
| RateSort.DescendingClassesDetermine | src/WhiteHatStats.js:49 | two descending sequences whose equal-rate classes agree are equal |
| RateSort.StableSortIsUnique | src/WhiteHatStats.js:49 | any descending sequence that keeps each rate class in input order is `SortByRate` of the input |
| RateSort.ShiftPast | src/WhiteHatStats.js:49 | shifts the entries the comparator puts behind x one place right, stopping at the first one it keeps before x |
| RateSort.InsertInPlace | src/WhiteHatStats.js:49 | one pass moves a[i] into the sorted prefix and leaves the rest of the array alone |
| RateSort.SortInPlace | src/WhiteHatStats.js:49 | the array ends as `SortByRate` of its old contents |
| StackLayout.Value | src/WhiteHatStats.js:68 | `d[key]` reads the male rate for the male key and the female rate for the female key |
| StackLayout.BaseLayer | src/WhiteHatStats.js:66-68 | the first series spans [0, value] for every entry |
| StackLayout.LayerOn | src/WhiteHatStats.js:66-68 | the next series starts each entry where the one below ends |
| StackLayout.Stack | src/WhiteHatStats.js:66-78 | two layers, male then female; per entry male spans [0, male] and female [male, male + female] |
| Scales.InnerWidth | src/WhiteHatStats.js:14-25 | with the margins left 120 and right 24: at least 10; equals width - 144 when that is at least 10, else 10 |
| Scales.InnerHeight | src/WhiteHatStats.js:14-26 | with the margins top 56 and bottom 30: at least 10; equals height - 86 when that is at least 10, else 10 |
| Scales.MaxRate | src/WhiteHatStats.js:52 | none for no entries; otherwise a rate of some entry that bounds every rate |
| Scales.MaxRateOfSorted | src/WhiteHatStats.js:49-52 | after the sort the maximum is the first entry's rate |
| Scales.NamesOf | src/WhiteHatStats.js:58 | the names of the entries, in order |
| Scales.BandDomain | src/WhiteHatStats.js:57-60 | the domain holds exactly the entries' names, each once |
| Scales.BandDomainOfUniqueNames | src/WhiteHatStats.js:57-58 | with distinct names the domain is the name list in sorted order |
| Interaction.Label | src/WhiteHatStats.js:90 | "Male" exactly for the male key, "Female" exactly for the female key |
| Interaction.Share | src/WhiteHatStats.js:86 | 0 when the total rate is not positive; otherwise the percentage the key's value is of the total rate |
| Interaction.ShareWithinPercent | src/WhiteHatStats.js:86 | a value between 0 and the total rate has a share between 0 and 100 |
| Interaction.ShareOfConsistentRecord | src/WhiteHatStats.js:86 | for a record with 0 ≤ male count ≤ count both tooltip shares lie in [0, 100] |
| Interaction.TooltipLines | src/WhiteHatStats.js:87-92 | four lines in order: name, total deaths, label with value and share, total rate |
| Interaction.Truthy | src/WhiteHatStats.js:137 | `if (brushed)` passes exactly for a defined, non-empty string |
| Interaction.HighlightedName | src/WhiteHatStats.js:136-139 | a name exactly when the brushed state is truthy and its normalised form is in the domain; that name is the normalised form |
| Interaction.HighlightExamples | src/WhiteHatStats.js:136-139 | New_York matches "New York"; an unknown or missing brushed state matches nothing |
| Chart.SkipDraw | src/WhiteHatStats.js:21 | the bitwise-or guard skips exactly when the canvas or the data is missing |
| Chart.Canvas.Clear | src/WhiteHatStats.js:23 | the canvas is left empty |
| Chart.Canvas.Append | src/WhiteHatStats.js:27 | the element goes after everything already drawn |
| Chart.DrawBars | src/WhiteHatStats.js:77-97 | one rectangle per segment, in order, each with its tooltip |
| Chart.SortedPlotData | src/WhiteHatStats.js:32-49 | the built and sorted array is `SortByRate` of the entries of the records |
| Chart.DrawLayers | src/WhiteHatStats.js:70-84 | appends the two layer groups, then the male rectangles, then the female ones |
| Chart.DrawDecorations | src/WhiteHatStats.js:100-150 | appends the axes, title, legend and, when one is due, the highlight |
| Chart.Scene | src/WhiteHatStats.js:19-151 | the scene of one pass starts with the margin group and the male and female layer groups; it has 2n + 7 elements, one more exactly when the brushed state yields a highlight name, and that highlight is then the last element |
| Chart.LayerBars | src/WhiteHatStats.js:70-97 | the layers hold one rectangle per segment of the stack, each with its tooltip: the j-th male one at 2 + j and the j-th female one at 2 + n + j |
| Chart.SceneBars | src/WhiteHatStats.js:70-97 | in the scene, the j-th male rectangle is at 3 + j and the j-th female one at 3 + n + j, each the j-th segment of its layer of the stack over the sorted entries, with its tooltip |
| Chart.Render | src/WhiteHatStats.js:19-151 | missing data leaves the canvas as it was; otherwise the canvas holds exactly the scene of the inputs, whatever it held before |
| Chart.RenderTwice | src/WhiteHatStats.js:151 | rerunning the effect with unchanged inputs leaves the same scene |
| Chart.DomainNamesTheRecords | src/WhiteHatStats.js:57-58 | a name is in the band domain exactly when it is some record's normalised state name |
| Chart.HighlightDrawnIffBrushedStateShown | src/WhiteHatStats.js:136-150 | a pass draws one highlight when the brushed state is truthy and names a record, otherwise none; never more than one |
| Chart.BarTopsNearTotalRate | src/WhiteHatStats.js:66-84 | the female rectangle the scene draws for each state ends within 0.01 of that state's total rate |

## Left out

- Difficulty.EaseOfDrawing: an inherited property is named, not given its value. The model does not say which function or object `constructor`, `toString` and the rest are, and it does not carry such a non-number through the tooltip or the chart. A two-letter abbreviation never reaches it (`ShortNamesAreOwn`). Only the twelve standard `Object.prototype` names are modelled.
- PlotData.Entry: requires a positive population. With a population of 0 every rate would be Infinity or NaN, and the model does not carry non-finite rates through the sort and the stack. `Number(state.population)` is taken to be an integer already.
- JsNumber.Round2: rounds exact reals half away from zero. It does not model the binary double that `toFixed(2)` actually sees, so a value like 1.005, which is stored slightly below 1.005, rounds up here and down in the browser.
- Interaction.TooltipLines: the numbers' text, `share.toFixed(1)`, the `<b>` markup, and the join with `</br>` are not modelled. The `.filter(Boolean)` is not modelled either; it drops nothing, because all four strings are non-empty.
- Interaction.Label: the key is the two-valued `Key`, so any key other than `'male'` can only be the female one.
- StackLayout.LayerOn: d3's replacement of NaN offsets by 0 is not modelled, since the rates are finite reals.
- Chart.Render: the nesting of elements is not kept (title and legend go on the canvas root, bars and the highlight into the margin group). Nor are pixel positions, the band padding, the linear `xScale` mapping, colours, tick counts or the font-size formula. The legend's per-item groups, rectangles and texts are one `Legend` element. `Render`'s `data` argument stands for both `props.data` in the guard and `props.data.states` in the loop. The model assumes that `props.data` always carries `states`; without it, the `for…of` would throw after the canvas has been cleared and the margin group appended.
- The tooltip's DOM calls (`moveTTipEvent`, `hideTTip`, `tTip.html`) and the `mousemove`/`mouseout` handlers are foreign calls on event wiring. They are not part of this model.
- `console.log`, the returned JSX, `useRef`, the effect's scheduling and `useSVGCanvas` are framework and I/O. `useSVGCanvas` is not part of this model; the canvas, its size and the brushed state are parameters of `Chart.Render`.
