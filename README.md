# Date-window filtering of the city temperature charts

This project models the logic behind the two zoomable charts of the React
temperature playground. The data behind both charts is a fixed slice of
daily records: records 225 up to 375 of the city temperature mock data, as
`src/MultipleLinesChart.tsx:24-27` takes it. The slice stops at the end of
the mock data, so the range chart assumes only that the dataset is
non-empty and in date order. The brush chart also needs at least ten
records. The first render reads the tenth-last record to place the initial
brush, in a memo (`src/BrushChart.tsx:143-157`) that is recomputed only when
the overview width changes. With fewer than ten records that read gives
`undefined`, `getDate(undefined)` throws, and the chart never mounts. Each record has a date and the
temperatures of San Francisco, New York and Austin. Everything else in the
repository draws axes, lines and tooltips.

- `dataset.dfy` (module `Dataset`) holds the records, each with its date as a
  millisecond timestamp. It also holds the filter both charts apply. The
  filter's predicate is a value: either an inclusive time window or a brush
  box that is open on all four sides. This file proves what the filter keeps,
  that it keeps order and multiplicities, that it keeps sortedness, how it
  behaves on concatenation and on narrowing, and which time extent a scale
  receives.
- `range_chart.dfy` (module `RangeChart`) models the range chart.
  - The pure parts are functions: the window chosen by the option switch, the
    zoom-out window and the deduplication of the year options.
  - The component state is the class `RangeView`. Its fields are `filterOption`
    and `filteredCityTemperature`. A third field, `effectDeps`, holds the option
    value the re-filter effect last ran with.
  - Each handler and the effect are methods of `RangeView`.
- `brush_chart.dfy` (module `BrushChart`) models the brush chart: the brush
  filter, the temperature-domain upper bound and the initial brush span. The
  class `BrushView` holds `filteredCityTemperature`, and the brush change,
  Clear, Reset and brush-click handlers are its methods.

The code has a few behaviours that a reader of the screens might not expect.
The model states each one as the code has it:

- The select emits `Year-<y>` for a year option. That value matches no case of
  the switch, so a year option shows the whole dataset, like `Custom` and the
  placeholder. Only the bare string `Year` reaches the year case. There the
  option holds no year after a dash, so the bounds are built from date
  strings that start with `undefined`. How such non-ISO strings parse is left
  to the JavaScript engine. The model takes the outcome where both are invalid
  dates: every comparison with them is false, and nothing is shown.
- Clear puts the whole dataset on screen and selects `Last90Days`. The effect
  re-filters only when the option changed. Clicking Clear while another option
  is selected therefore ends on the last-90-days view. A second click ends on
  the whole dataset, so in this chart Clear is not idempotent. `ClearTwice`
  selects `Last7Days` after mounting and then clicks Clear twice.
- The brush change filter is open on all four sides. A brush whose x-bounds
  are exactly the timestamps of the tenth-last and the last record (the
  initial brush position) drops both of those records. The window between
  those timestamps, counting both ends, holds the last ten records.
- The temperature-domain upper bound replaces an absent or zero series maximum
  by 0, but it keeps a negative maximum. The bound is non-negative exactly when
  the view is empty or holds a non-negative value.
- The overview's temperature domain is memoised on the first render, when the
  whole dataset is on screen. It is not recomputed while the chart size stays
  the same.
- The brush's change and click events exist only when the brush is drawn,
  at a height of at least 300 pixels. Clear and Reset check the brush
  reference and do nothing without it.
- Zoom-out reads the first and the last record on screen. On an empty view
  that read throws, and the model returns `thrown` with the state unchanged.

## Model

| member | source | states |
|---|---|---|
| `Dataset.Filter` | src/RangeChart.tsx:79-83 | a record is in the result iff it is in the input and the criterion keeps it; the result is no longer than the input |
| `Dataset.FilterIsSubsequence` | src/RangeChart.tsx:79-83 | the filter result is an order-preserving subsequence of its input |
| `Dataset.FilterCount` | src/BrushChart.tsx:60-73 | each kept record occurs in the result as often as in the input; a dropped one does not occur |
| `Dataset.FilterSorted` | src/RangeChart.tsx:104-108 | filtering sorted data yields sorted data |
| `Dataset.FilterNarrow` | src/RangeChart.tsx:104-108 | filtering by a wider window and then a narrower one equals filtering by the narrower one |
| `Dataset.WholeWindow` | src/RangeChart.tsx:73-83 | the window from the first to the last timestamp of sorted data keeps every record |
| `Dataset.SuffixWindow` | src/BrushChart.tsx:143-157 | on sorted data the window from the k-th to the last timestamp keeps exactly the records from position k on |
| `Dataset.TimeExtent` | src/BrushChart.tsx:94-101 | the extent is None exactly for an empty view; otherwise it bounds every timestamp and both ends are attained |
| `Dataset.SortedExtent` | src/BrushChart.tsx:118-125 | on sorted data the extent is the first and the last timestamp |
| `Dataset.FilterBetween` | src/BrushChart.tsx:60-73 | when the criterion keeps nothing before position i and nothing from position j on, the filter of the whole equals the filter of the part between |
| `RangeChart.PresetDays` | src/RangeChart.tsx:55-66 | exactly the three presets have a length in days, and that length is 7, 28 or 90; which preset has which length is stated by `PresetWindows` |
| `RangeChart.PresetWindows` | src/RangeChart.tsx:55-66 | `Last7Days`, `Last28Days` and `Last90Days` keep exactly the records at most 7, 28 and 90 days older than the last record, respectively |
| `RangeChart.OptionWindow` | src/RangeChart.tsx:46-77 | the switch gives no valid window exactly for `Year`; every valid window ends at the last record; a preset's starts N days before it, and any unmatched option's starts at the first record |
| `RangeChart.FilterDataByOption` | src/RangeChart.tsx:46-84 | the result is an order-preserving subsequence of the dataset, is empty for `Year`, and holds the last record for every preset |
| `RangeChart.LastDaysFilter` | src/RangeChart.tsx:55-66 | with N = 7, 28 or 90, the preset keeps exactly the records with last − N·86 400 000 ≤ t ≤ last, in order, and always keeps the last record |
| `RangeChart.UnmatchedOptionShowsAll` | src/RangeChart.tsx:73-76 | any option other than the three presets and `Year` shows the whole sorted dataset |
| `RangeChart.YearLiteralShowsNothing` | src/RangeChart.tsx:67-72 | the bare `Year` option shows no records, because its bounds are invalid dates |
| `RangeChart.YearSelectValueShowsAll` | src/RangeChart.tsx:132-136 | every `Year-<text>` value shows the whole sorted dataset |
| `RangeChart.SelectNonPresetShowsAll` | src/RangeChart.tsx:128-138 | every value the select emits, other than the three presets, shows the whole sorted dataset |
| `RangeChart.IndexOf` | src/RangeChart.tsx:43 | the result is −1 exactly when the value is absent; otherwise it is the position of the value's first occurrence |
| `RangeChart.UniqueFrom` | src/RangeChart.tsx:42-44 | keeps exactly the values whose first occurrence is at or after the start position, ordered by first occurrence |
| `RangeChart.UniqueYearsOptions` | src/RangeChart.tsx:41-44 | the year options have no duplicates, have the same elements as the years of the records, and follow first-occurrence order |
| `RangeChart.SelectOptions` | src/RangeChart.tsx:128-138 | the select has one value per year option plus five: the placeholder and the three presets first, `Custom` last, and a `Year-` value in every place between |
| `RangeChart.SelectYearValues` | src/RangeChart.tsx:132-136 | the select value at position 4 + i is `Year-` followed by the decimal text of the i-th year option |
| `RangeChart.ZoomOutWindowCoversView` | src/RangeChart.tsx:96-102 | on a sorted view every visible record lies strictly inside the zoom-out window |
| `RangeChart.ZoomOut` | src/RangeChart.tsx:95-108 | zoom-out keeps exactly the dataset records within two days of the first and the last visible record, in order |
| `RangeChart.ZoomOutKeepsView` | src/RangeChart.tsx:95-110 | when the view came from a window of sorted data, it equals the zoomed-out view cut back to that window, so it is a subsequence of the zoomed-out view |
| `RangeChart.RangeView.constructor` | src/RangeChart.tsx:37-39 | the chart starts with the `Last90Days` option, the whole dataset on screen, and an effect that has not yet run |
| `RangeChart.RangeView.OnFilterSelectChange` | src/RangeChart.tsx:90-93 | a selection stores the option and changes nothing else |
| `RangeChart.RangeView.RunEffect` | src/RangeChart.tsx:86-88 | the effect re-filters by the option only when the option differs from the value it last ran with (always on mount) |
| `RangeChart.RangeView.OnZoomOut` | src/RangeChart.tsx:95-111 | an empty view throws and changes nothing; otherwise the view becomes the zoom-out of the whole dataset and contains the old view in order; the option is untouched |
| `RangeChart.RangeView.HandleClearClick` | src/RangeChart.tsx:114-117 | Clear shows the whole dataset and selects `Last90Days` |
| `RangeChart.RangeView.ClearInteraction` | src/RangeChart.tsx:86-117 | Clear followed by the effect shows the whole dataset if the option was already `Last90Days` at the last effect run, and the `Last90Days` view otherwise |
| `RangeChart.ClearTwice` | src/RangeChart.tsx:86-117 | after mounting and selecting `Last7Days`, the first Clear shows the `Last90Days` view and only the second shows the whole dataset |
| `BrushChart.BrushFilter` | src/BrushChart.tsx:60-73 | a record is kept iff it is in the dataset with x0 < t < x1 and y0 < sf < y1 |
| `BrushChart.BrushFilterExact` | src/BrushChart.tsx:58-74 | a brush keeps the records inside its open box in order and with their multiplicities; a record on either x edge is dropped |
| `BrushChart.CollapsedBrushShowsNothing` | src/BrushChart.tsx:66 | a brush with x1 ≤ x0 keeps nothing |
| `BrushChart.OnlySanFranciscoMatters` | src/BrushChart.tsx:62-72 | two datasets that agree on timestamps and San Francisco values give results that agree on both, record by record; New York and Austin values play no part |
| `BrushChart.SeriesMax` | src/BrushChart.tsx:109-111 | a series maximum is None exactly for an empty view; otherwise it bounds the series and is attained |
| `BrushChart.ValueUpperBound` | src/BrushChart.tsx:105-112 | the upper bound is at least every value of every series on screen, is 0 for an empty view, and is otherwise 0 or a value on screen |
| `BrushChart.UpperBoundSign` | src/BrushChart.tsx:130-136 | the upper bound is non-negative exactly when the view is empty or holds a non-negative value |
| `BrushChart.InitialBrushSpan` | src/BrushChart.tsx:143-157 | on sorted data the initial brush's ends (tenth-last and last record) form a proper interval |
| `BrushChart.InitialBrushCoversLastTen` | src/BrushChart.tsx:143-157 | on sorted data with at least 10 records, the window between the initial brush ends, counting both, holds exactly the last ten records |
| `BrushChart.InitialBrushStrict` | src/BrushChart.tsx:60-73 | a brush change with exactly the initial brush ends as x-bounds drops both end records and keeps only what it keeps of the eight records between them |
| `BrushChart.BrushView.constructor` | src/BrushChart.tsx:52-54 | the chart needs at least ten records, since with fewer the first render throws in `getDate(undefined)` for the tenth-last one; it starts with the whole dataset on screen; the brush reference exists exactly when the height is at least 300 |
| `BrushChart.BrushView.OnBrushChange` | src/BrushChart.tsx:56-75 | only a drawn brush reports a change; a null domain changes nothing; otherwise the view becomes the brush filter of the whole dataset, independent of the previous view |
| `BrushChart.BrushView.HandleClearClick` | src/BrushChart.tsx:160-165 | Clear shows the whole dataset when the brush reference exists and changes nothing otherwise |
| `BrushChart.BrushView.HandleResetClick` | src/BrushChart.tsx:167-186 | with the brush reference set, Reset shows the brush filter of the whole dataset by the bounds the widget reports; otherwise nothing changes |
| `BrushChart.BrushView.OnBrushClick` | src/BrushChart.tsx:242 | a click on the drawn brush shows the whole dataset |
| `BrushChart.BrushView.DateDomain` | src/BrushChart.tsx:94-101 | the detail time domain is the first and the last timestamp on screen, or None when the view is empty |
| `BrushChart.BrushView.BrushDateDomain` | src/BrushChart.tsx:118-125 | the overview time domain is the first and the last timestamp of the dataset |
| `BrushChart.BrushView.TemperatureDomain` | src/BrushChart.tsx:102-117 | the detail value domain starts at 0; its upper end bounds every value on screen, is 0 for an empty view, and is otherwise 0 or a value on screen |
| `BrushChart.BrushView.BrushTemperatureDomain` | src/BrushChart.tsx:126-141 | the overview value domain starts at 0; its upper end bounds every value of the dataset and is 0 or one of those values |
| `BrushChart.TwoBrushes` | src/BrushChart.tsx:56-75 | after two brushes with a null domain between them, the view is the second brush alone (last write wins) |
| `BrushChart.ResetTwice` | src/BrushChart.tsx:160-165 | Clear twice ends where Clear once does, on the whole dataset; with a brush drawn, a brush click twice ends where one click does, on the whole dataset |

## Left out

- Scales and pixels: the d3/visx time and linear scales, the pixel ranges, `nice: true` rounding of the value domain, and brush pixel ↔ domain conversion are library code over floating point. The model keeps only the domain endpoints the code hands to them.
- Dates: parsing date strings and `getFullYear` depend on the time zone and the library. A record carries its timestamp in milliseconds and its year as given integers.
- Temperatures are reals. `Number(...)` yielding NaN, and NaN's effect on comparisons and on `max`, is not modelled.
- The year case's bounds are modelled only by their effect: an invalid date makes every comparison false. No date string is built.
- YearLiteralShowsNothing: the result of the literal `Year` case depends on how the JavaScript engine parses the non-ISO strings `undefined-01-01T00:00:00` and `undefined2022-12-31T00:00:00`. The model takes the outcome where both are invalid dates. An engine that reads them as valid dates would give a different result. The select never emits the bare `Year`.
- `handleResetClick` (src/BrushChart.tsx:167-186) moves the brush to its initial position with the widget's `getExtent` and `updateBrush`. The widget reports the move through `onChange` (src/BrushChart.tsx:241), so Reset amounts to `OnBrushChange` with the initial brush's domain bounds. `HandleResetClick` takes those bounds as a parameter, since they come from the pixel ↔ domain conversion left out above. The widget's `reset`, which the Clear handler calls, is not modelled either.
- React scheduling: render timing and memo invalidation are not modelled. The effect is an explicit `RunEffect` step. The overview value domain is taken at the first render, as its memo dependencies fix it while the size is unchanged.
- Layout arithmetic (margins, chart heights, `BrushHandle` drawing) and all rendering in src/MultipleLinesChart.tsx, src/RangeChartWithTable.tsx and src/App.tsx are out of scope. The table's render-prop passes `focused` and `onFocus`, but `RangeChart` neither accepts nor implements them, so there is no focus logic to model.
- index.js is a static-file server (I/O).
- Behaviour one might expect of such charts, which the code does not have and so the model does not have either:
  - There is no re-centring on a clicked point.
  - Clear selects `Last90Days`, not an unset label.
  - Year options do not filter by calendar year.
  - The chart starts on the whole dataset. The last ten records only position the brush widget.
  - No window argument is validated.
