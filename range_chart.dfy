/** The range chart: a select of preset date ranges, a zoom-out button and a
    clear button over the dataset. The preset and the zoom-out each compute
    an inclusive time window and filter the whole dataset by it. */
module RangeChart {
  import opened Dataset

  /** The values of the filter option enumeration. */
  const Last7Days: string := "Last7Days"
  const Last28Days: string := "Last28Days"
  const Last90Days: string := "Last90Days"
  const Year: string := "Year"
  const Custom: string := "Custom"

  const DefaultFilterOption: string := Last90Days

  /** The length in days of a "last N days" preset, None for any other option. */
  function PresetDays(option: string): (n: Option<nat>)
    ensures n.Some? <==> option in {Last7Days, Last28Days, Last90Days}
    ensures n.Some? ==> n.value in {7, 28, 90}
  {
    if option == Last7Days then Some(7)
    else if option == Last28Days then Some(28)
    else if option == Last90Days then Some(90)
    else None
  }

  /** The window the switch of filterDataByOption chooses. A preset ends at the
      last record and starts N days before it; every option no case matches
      spans the first to the last record. None is the `Year` case: there the
      option holds no year after a dash, both bounds are invalid dates, and
      every comparison with them is false. */
  function OptionWindow(data: seq<Record>, option: string): (w: Option<Window>)
    requires data != []
    ensures w == None <==> option == Year
    ensures w.Some? ==> w.value.hi == data[|data| - 1].t
    ensures PresetDays(option).Some? ==>
      w.value.lo == data[|data| - 1].t - PresetDays(option).value * Day
    ensures option !in {Last7Days, Last28Days, Last90Days, Year} ==>
      w.value.lo == data[0].t
  {
    var first, last := data[0].t, data[|data| - 1].t;
    match PresetDays(option)
    case Some(n) => Some(Window(last - n * Day, last))
    case None => if option == Year then None else Some(Window(first, last))
  }

  /** The records an optional window keeps; an invalid window keeps none. */
  function OptionWindowFilter(data: seq<Record>, w: Option<Window>): seq<Record>
  {
    match w
    case None => []
    case Some(w) => WindowFilter(data, w)
  }

  /** filterDataByOption: the records of the option's window, in order. A
      preset always keeps the last record; the literal `Year` keeps none. */
  function FilterDataByOption(data: seq<Record>, option: string): (r: seq<Record>)
    requires data != []
    ensures IsSubsequence(r, data)
    ensures option == Year ==> r == []
    ensures PresetDays(option).Some? ==> data[|data| - 1] in r
  {
    var w := OptionWindow(data, option);
    if w.Some? then
      FilterIsSubsequence(data, Within(w.value));
      assert PresetDays(option).Some? ==> Keeps(Within(w.value), data[|data| - 1]);
      OptionWindowFilter(data, w)
    else
      []
  }

  /** A "last N days" preset (N = 7, 28 or 90) keeps exactly the records at
      most N days older than the last one, in order, and always keeps the
      last record. */
  lemma LastDaysFilter(data: seq<Record>, option: string, n: nat)
    requires data != []
    requires PresetDays(option) == Some(n)
    ensures var r, last := FilterDataByOption(data, option), data[|data| - 1].t;
      && (forall x :: x in r <==> x in data && last - n * Day <= x.t <= last)
      && IsSubsequence(r, data)
      && data[|data| - 1] in r
  {
    var last := data[|data| - 1].t;
    var w := Window(last - n * Day, last);
    assert OptionWindow(data, option) == Some(w);
    assert Keeps(Within(w), data[|data| - 1]);
    FilterIsSubsequence(data, Within(w));
  }

  /** Each preset keeps the records of its own length in days: `Last7Days`
      the last seven days, `Last28Days` the last 28, `Last90Days` the last 90,
      counting back from the last record. */
  lemma PresetWindows(data: seq<Record>)
    requires data != []
    ensures var last := data[|data| - 1].t;
      && (forall x :: x in FilterDataByOption(data, Last7Days) <==> x in data && last - 7 * Day <= x.t <= last)
      && (forall x :: x in FilterDataByOption(data, Last28Days) <==> x in data && last - 28 * Day <= x.t <= last)
      && (forall x :: x in FilterDataByOption(data, Last90Days) <==> x in data && last - 90 * Day <= x.t <= last)
  {
    LastDaysFilter(data, Last7Days, 7);
    LastDaysFilter(data, Last28Days, 28);
    LastDaysFilter(data, Last90Days, 90);
  }

  /** Every option that no case of the switch matches shows the whole sorted
      dataset. */
  lemma UnmatchedOptionShowsAll(data: seq<Record>, option: string)
    requires Sorted(data) && data != []
    requires option !in {Last7Days, Last28Days, Last90Days, Year}
    ensures FilterDataByOption(data, option) == data
  {
    WholeWindow(data);
  }

  /** The literal `Year` option shows nothing. */
  lemma YearLiteralShowsNothing(data: seq<Record>)
    requires data != []
    ensures FilterDataByOption(data, Year) == []
  {
  }

  /** The decimal text of an integer, as a template literal renders it. */
  function DecimalText(n: int): string
    decreases if n < 0 then 1 - n else n
  {
    if n < 0 then "-" + DecimalText(-n)
    else if n < 10 then ["0123456789"[n]]
    else DecimalText(n / 10) + ["0123456789"[n % 10]]
  }

  /** The calendar year of every record, in dataset order. */
  function YearsOptions(data: seq<Record>): seq<int>
  {
    seq(|data|, i requires 0 <= i < |data| => data[i].year)
  }

  /** The position of the first `x` in `a`, or -1 when there is none. */
  function IndexOf(a: seq<int>, x: int): (i: int)
    ensures -1 <= i < |a|
    ensures i >= 0 ==> a[i] == x && forall j :: 0 <= j < i ==> a[j] != x
    ensures i == -1 ==> x !in a
  {
    if a == [] then -1
    else if a[0] == x then 0
    else
      var k := IndexOf(a[1..], x);
      if k == -1 then -1 else k + 1
  }

  /** The elements of `a` from position `i` on whose first occurrence in `a` is
      at their own position. */
  function UniqueFrom(a: seq<int>, i: nat): (u: seq<int>)
    requires i <= |a|
    ensures forall x :: x in u <==> x in a && IndexOf(a, x) >= i
    ensures forall p, q :: 0 <= p < q < |u| ==> IndexOf(a, u[p]) < IndexOf(a, u[q])
    decreases |a| - i
  {
    if i == |a| then []
    else
      var rest := UniqueFrom(a, i + 1);
      assert forall x :: x in a && IndexOf(a, x) >= i ==> IndexOf(a, x) == i || IndexOf(a, x) >= i + 1;
      (if IndexOf(a, a[i]) == i then [a[i]] else []) + rest
  }

  /** The year options of the select: every year of the dataset once, in the
      order of their first appearance. */
  function UniqueYearsOptions(data: seq<Record>): (u: seq<int>)
    ensures forall y :: y in u <==> y in YearsOptions(data)
    ensures forall p, q :: 0 <= p < q < |u| ==> u[p] != u[q]
    ensures forall p, q :: 0 <= p < q < |u| ==>
      IndexOf(YearsOptions(data), u[p]) < IndexOf(YearsOptions(data), u[q])
  {
    UniqueFrom(YearsOptions(data), 0)
  }

  /** The values of the select, in order: the placeholder, the three presets,
      one `Year-<y>` per year option, and `Custom`. */
  function SelectOptions(data: seq<Record>): (o: seq<string>)
    ensures |o| == |UniqueYearsOptions(data)| + 5
    ensures o[..4] == ["", Last7Days, Last28Days, Last90Days] && o[|o| - 1] == Custom
    ensures forall i :: 4 <= i < |o| - 1 ==> |o[i]| >= 5 && o[i][..5] == Year + "-"
  {
    var years := UniqueYearsOptions(data);
    ["", Last7Days, Last28Days, Last90Days]
      + seq(|years|, i requires 0 <= i < |years| => Year + "-" + DecimalText(years[i]))
      + [Custom]
  }

  /** The value after the presets at offset i names the i-th year option. */
  lemma SelectYearValues(data: seq<Record>)
    ensures var years, o := UniqueYearsOptions(data), SelectOptions(data);
      forall i :: 0 <= i < |years| ==> o[4 + i] == Year + "-" + DecimalText(years[i])
  {
  }

  /** A value of the form `Year-<text>` is never the literal `Year`, nor a
      preset, so it shows the whole sorted dataset. */
  lemma YearSelectValueShowsAll(data: seq<Record>, text: string)
    requires Sorted(data) && data != []
    ensures FilterDataByOption(data, Year + "-" + text) == data
  {
    var o := Year + "-" + text;
    assert o[0] == 'Y' && |o| >= 5;
    assert o != Last7Days && o != Last28Days && o != Last90Days by {
      assert Last7Days[0] == Last28Days[0] == Last90Days[0] == 'L';
    }
    UnmatchedOptionShowsAll(data, o);
  }

  /** Every value the select can emit other than the three presets shows the
      whole sorted dataset. */
  lemma SelectNonPresetShowsAll(data: seq<Record>, option: string)
    requires Sorted(data) && data != []
    requires option in SelectOptions(data) && PresetDays(option) == None
    ensures FilterDataByOption(data, option) == data
  {
    var years := UniqueYearsOptions(data);
    var yearValues := seq(|years|, i requires 0 <= i < |years| => Year + "-" + DecimalText(years[i]));
    assert SelectOptions(data) == ["", Last7Days, Last28Days, Last90Days] + yearValues + [Custom];
    if option in yearValues {
      var i :| 0 <= i < |years| && yearValues[i] == option;
      YearSelectValueShowsAll(data, DecimalText(years[i]));
    } else {
      assert option == "" || option == Custom;
      UnmatchedOptionShowsAll(data, option);
    }
  }

  /** Zoom-out pads the first and the last visible record by two days. */
  function ZoomOutWindow(view: seq<Record>): Window
    requires view != []
  {
    Window(view[0].t - 2 * Day, view[|view| - 1].t + 2 * Day)
  }

  /** On a sorted view the zoom-out window lies strictly around every
      visible record. */
  lemma ZoomOutWindowCoversView(view: seq<Record>)
    requires view != [] && Sorted(view)
    ensures forall x :: x in view ==> ZoomOutWindow(view).lo < x.t < ZoomOutWindow(view).hi
  {
    forall x | x in view
      ensures view[0].t <= x.t <= view[|view| - 1].t
    {
      var k :| 0 <= k < |view| && view[k] == x;
    }
  }

  /** Zoom-out filters the whole dataset, not the view, by the padded window:
      it keeps exactly the dataset records within two days of the visible
      span, in order. */
  function ZoomOut(data: seq<Record>, view: seq<Record>): (r: seq<Record>)
    requires view != []
    ensures forall x :: x in r <==> x in data && view[0].t - 2 * Day <= x.t <= view[|view| - 1].t + 2 * Day
    ensures IsSubsequence(r, data)
  {
    FilterIsSubsequence(data, Within(ZoomOutWindow(view)));
    WindowFilter(data, ZoomOutWindow(view))
  }

  /** When the view is a window of sorted data, zooming out keeps all of it:
      the old view is the new view cut back to the old window, so it is an
      order-preserving subsequence of the new view. */
  lemma ZoomOutKeepsView(data: seq<Record>, w: Window)
    requires Sorted(data)
    requires WindowFilter(data, w) != []
    ensures var view := WindowFilter(data, w);
      && WindowFilter(ZoomOut(data, view), w) == view
      && IsSubsequence(view, ZoomOut(data, view))
  {
    var view := WindowFilter(data, w);
    FilterSorted(data, Within(w));
    forall x | x in data && Keeps(Within(w), x)
      ensures Keeps(Within(ZoomOutWindow(view)), x)
    {
      var k :| 0 <= k < |view| && view[k] == x;
      assert view[0].t <= view[k].t <= view[|view| - 1].t;
    }
    FilterNarrow(data, Within(ZoomOutWindow(view)), Within(w));
    FilterIsSubsequence(ZoomOut(data, view), Within(w));
  }

  /** The component's state: the selected option and the records on screen,
      plus the option value the re-filter effect last ran with (None before
      the component mounts). */
  class RangeView {
    const data: seq<Record>
    var filterOption: string
    var filteredCityTemperature: seq<Record>
    var effectDeps: Option<string>
    /** The window the records on screen came from; None for an invalid one. */
    ghost var window: Option<Window>

    ghost predicate Valid()
      reads this
    {
      IsDataset(data) && filteredCityTemperature == OptionWindowFilter(data, window)
    }

    /** The initial state: the default option and the whole dataset. */
    constructor (dataset: seq<Record>)
      requires IsDataset(dataset)
      ensures Valid() && data == dataset
      ensures filterOption == DefaultFilterOption && filteredCityTemperature == dataset
      ensures effectDeps == None
    {
      data := dataset;
      filterOption := DefaultFilterOption;
      filteredCityTemperature := dataset;
      effectDeps := None;
      window := Some(Window(dataset[0].t, dataset[|dataset| - 1].t));
      new;
      WholeWindow(dataset);
    }

    /** A selection in the select stores the option and nothing else. */
    method OnFilterSelectChange(option: string)
      requires Valid()
      modifies this
      ensures Valid()
      ensures filterOption == option && filteredCityTemperature == old(filteredCityTemperature)
      ensures effectDeps == old(effectDeps)
    {
      filterOption := option;
    }

    /** The effect: after a render in which the option differs from the one it
        last ran with (or on mount), it re-filters the dataset by the option. */
    method RunEffect()
      requires Valid()
      modifies this
      ensures Valid()
      ensures filterOption == old(filterOption) && effectDeps == Some(filterOption)
      ensures filteredCityTemperature ==
        if old(effectDeps) == Some(filterOption) then old(filteredCityTemperature)
        else FilterDataByOption(data, filterOption)
    {
      if effectDeps != Some(filterOption) {
        filteredCityTemperature := FilterDataByOption(data, filterOption);
        window := OptionWindow(data, filterOption);
        effectDeps := Some(filterOption);
      }
    }

    /** Zoom-out reads the first and last visible record; on an empty view
        that read throws and nothing changes. Otherwise the view becomes the
        padded window over the whole dataset, which contains the old view. */
    method OnZoomOut() returns (thrown: bool)
      requires Valid()
      modifies this
      ensures Valid()
      ensures thrown <==> old(filteredCityTemperature) == []
      ensures thrown ==> filteredCityTemperature == old(filteredCityTemperature)
      ensures !thrown ==> filteredCityTemperature == ZoomOut(data, old(filteredCityTemperature))
      ensures !thrown ==> IsSubsequence(old(filteredCityTemperature), filteredCityTemperature)
      ensures filterOption == old(filterOption) && effectDeps == old(effectDeps)
    {
      if filteredCityTemperature == [] {
        return true;
      }
      assert window.Some?;
      ZoomOutKeepsView(data, window.value);
      var zoomed := ZoomOut(data, filteredCityTemperature);
      window := Some(ZoomOutWindow(filteredCityTemperature));
      filteredCityTemperature := zoomed;
      thrown := false;
    }

    /** Clear shows the whole dataset and selects the default option. */
    method HandleClearClick()
      requires Valid()
      modifies this
      ensures Valid()
      ensures filteredCityTemperature == data && filterOption == DefaultFilterOption
      ensures effectDeps == old(effectDeps)
    {
      filteredCityTemperature := data;
      filterOption := DefaultFilterOption;
      window := Some(Window(data[0].t, data[|data| - 1].t));
      WholeWindow(data);
    }

    /** A click on Clear followed by the effect of the render it causes: the
        Last90Days view when the option changed, the whole dataset when it was
        already the default. */
    method ClearInteraction()
      requires Valid()
      modifies this
      ensures Valid()
      ensures filterOption == DefaultFilterOption && effectDeps == Some(DefaultFilterOption)
      ensures filteredCityTemperature ==
        if old(effectDeps) == Some(DefaultFilterOption) then data
        else FilterDataByOption(data, DefaultFilterOption)
    {
      HandleClearClick();
      RunEffect();
    }
  }

  /** After mounting and selecting `Last7Days`, a first Clear ends on the
      `Last90Days` view and only a second Clear shows the whole dataset:
      Clear is not idempotent in this chart. */
  method ClearTwice(dataset: seq<Record>) returns (first: seq<Record>, second: seq<Record>)
    requires IsDataset(dataset)
    ensures first == FilterDataByOption(dataset, Last90Days)
    ensures second == dataset
  {
    var v := new RangeView(dataset);
    v.RunEffect();
    v.OnFilterSelectChange(Last7Days);
    v.RunEffect();
    v.ClearInteraction();
    first := v.filteredCityTemperature;
    v.ClearInteraction();
    second := v.filteredCityTemperature;
  }
}
