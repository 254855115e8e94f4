/** The brush chart: a detail chart over the records on screen and, below it,
    an overview of the whole dataset carrying a brush. Dragging the brush
    filters the whole dataset by the brushed box; clicking the brush or the
    Clear button brings the whole dataset back. */
module BrushChart {
  import opened Dataset

  /** The brush, and so its Clear button, is only drawn at this height. */
  const MinBrushHeight: int := 300

  /** The initial brush covers this many records at the end of the dataset. */
  const InitialBrushRecords: nat := 10

  /** onBrushChange's filter: the records strictly inside the brushed box. */
  function BrushFilter(data: seq<Record>, b: Bounds): (r: seq<Record>)
    ensures forall x :: x in r <==> x in data && b.x0 < x.t as real < b.x1 && b.y0 < x.sf < b.y1
  {
    Filter(data, Inside(b))
  }

  /** A brush keeps the records strictly inside its box in their original
      order and with their multiplicities; a record on an x edge of the box is
      dropped. */
  lemma BrushFilterExact(data: seq<Record>, b: Bounds)
    ensures var r := BrushFilter(data, b);
      && (forall x :: x in r ==> x.t as real != b.x0 && x.t as real != b.x1)
      && (forall x :: multiset(r)[x] == if Keeps(Inside(b), x) then multiset(data)[x] else 0)
      && IsSubsequence(r, data)
  {
    FilterCount(data, Inside(b));
    FilterIsSubsequence(data, Inside(b));
  }

  /** A brush whose right edge is not right of its left edge keeps nothing. */
  lemma {:induction false} CollapsedBrushShowsNothing(data: seq<Record>, b: Bounds)
    requires b.x1 <= b.x0
    ensures BrushFilter(data, b) == []
  {
    if data != [] {
      CollapsedBrushShowsNothing(data[1..], b);
    }
  }

  /** Only the timestamps and the San Francisco temperatures decide the
      result: two datasets that agree on those give results that agree on
      those, record by record. */
  lemma {:induction false} OnlySanFranciscoMatters(d1: seq<Record>, d2: seq<Record>, b: Bounds)
    requires |d1| == |d2|
    requires forall i :: 0 <= i < |d1| ==> d1[i].t == d2[i].t && d1[i].sf == d2[i].sf
    ensures var r1, r2 := BrushFilter(d1, b), BrushFilter(d2, b);
      && |r1| == |r2|
      && forall i :: 0 <= i < |r1| ==> r1[i].t == r2[i].t && r1[i].sf == r2[i].sf
  {
    if d1 != [] {
      OnlySanFranciscoMatters(d1[1..], d2[1..], b);
      assert Keeps(Inside(b), d1[0]) == Keeps(Inside(b), d2[0]);
    }
  }

  /** The three temperature series. */
  datatype Series = SanFrancisco | NewYork | Austin

  function Value(r: Record, s: Series): real
  {
    match s
    case SanFrancisco => r.sf
    case NewYork => r.ny
    case Austin => r.austin
  }

  /** The largest value of a series over `view`, None when `view` is empty. */
  function SeriesMax(view: seq<Record>, s: Series): (m: Option<real>)
    ensures m == None <==> view == []
    ensures m.Some? ==> forall x :: x in view ==> Value(x, s) <= m.value
    ensures m.Some? ==> exists x :: x in view && Value(x, s) == m.value
  {
    if view == [] then None
    else
      assert view == [view[0]] + view[1..];
      match SeriesMax(view[1..], s)
      case None => Some(Value(view[0], s))
      case Some(m) => Some(if m < Value(view[0], s) then Value(view[0], s) else m)
  }

  /** `m || 0`: an absent maximum (and a maximum of 0) reads as 0. */
  function OrZero(m: Option<real>): real
  {
    match m
    case None => 0.0
    case Some(v) => if v == 0.0 then 0.0 else v
  }

  function Max3(a: real, b: real, c: real): real
  {
    if a >= b && a >= c then a else if b >= c then b else c
  }

  /** The upper end of a temperature scale's domain: the largest of the three
      series maxima over `view`, each read as 0 when absent. It bounds every
      value on screen, it is 0 for an empty view, and otherwise it is either
      one of the values on screen or 0. */
  function ValueUpperBound(view: seq<Record>): (hi: real)
    ensures forall x, s :: x in view ==> Value(x, s) <= hi
    ensures view == [] ==> hi == 0.0
    ensures hi == 0.0 || exists x, s :: x in view && Value(x, s) == hi
  {
    Max3(OrZero(SeriesMax(view, SanFrancisco)), OrZero(SeriesMax(view, NewYork)), OrZero(SeriesMax(view, Austin)))
  }

  /** The upper bound is not clamped at 0: it is non-negative exactly when the
      view is empty or holds a non-negative value. */
  lemma UpperBoundSign(view: seq<Record>)
    ensures ValueUpperBound(view) >= 0.0 <==> view == [] || exists x, s :: x in view && Value(x, s) >= 0.0
  {
    var hi := ValueUpperBound(view);
    if hi < 0.0 {
      assert view != [];
      var x, s :| x in view && Value(x, s) == hi;
      assert forall y, t :: y in view ==> Value(y, t) < 0.0;
    }
  }

  /** The window between the initial brush's ends: the tenth-last and the last
      record. On sorted data it is a proper interval. */
  function InitialBrushSpan(data: seq<Record>): (w: Window)
    requires |data| >= InitialBrushRecords
    ensures Sorted(data) ==> w.lo < w.hi
  {
    Window(data[|data| - InitialBrushRecords].t, data[|data| - 1].t)
  }

  /** On sorted data the initial brush spans exactly the last ten records,
      counting both ends. */
  lemma InitialBrushCoversLastTen(data: seq<Record>)
    requires Sorted(data) && |data| >= InitialBrushRecords
    ensures WindowFilter(data, InitialBrushSpan(data)) == data[|data| - InitialBrushRecords..]
  {
    SuffixWindow(data, |data| - InitialBrushRecords);
  }

  /** A brush change whose x-bounds are exactly the initial span's ends drops
      both end records, since the brush box is open: only the eight records
      strictly between them can be kept. */
  lemma InitialBrushStrict(data: seq<Record>, y0: real, y1: real)
    requires Sorted(data) && |data| >= InitialBrushRecords
    ensures var w := InitialBrushSpan(data);
      var b := Bounds(w.lo as real, w.hi as real, y0, y1);
      && BrushFilter(data, b) == BrushFilter(data[|data| - InitialBrushRecords + 1..|data| - 1], b)
      && data[|data| - InitialBrushRecords] !in BrushFilter(data, b)
      && data[|data| - 1] !in BrushFilter(data, b)
  {
    var n, k := |data|, |data| - InitialBrushRecords;
    OutsideSpanDropped(data, y0, y1);
    FilterBetween(data, Inside(Bounds(data[k].t as real, data[n - 1].t as real, y0, y1)), k + 1, n - 1);
  }

  lemma OutsideSpanDropped(data: seq<Record>, y0: real, y1: real)
    requires Sorted(data) && |data| >= InitialBrushRecords
    ensures var n, k := |data|, |data| - InitialBrushRecords;
      var w := InitialBrushSpan(data);
      var c := Inside(Bounds(w.lo as real, w.hi as real, y0, y1));
      && (forall x :: x in data[..k + 1] ==> !Keeps(c, x))
      && (forall x :: x in data[n - 1..] ==> !Keeps(c, x))
  {
    var n, k := |data|, |data| - InitialBrushRecords;
    forall x | x in data[..k + 1]
      ensures x.t <= data[k].t
    {
      var j :| 0 <= j <= k && data[..k + 1][j] == x;
      assert data[j] == x;
    }
    assert data[n - 1..] == [data[n - 1]];
  }

  /** The component's state: the records on screen over a fixed dataset, and
      whether the brush (hence the brush reference) is drawn. */
  class BrushView {
    const data: seq<Record>
    const brushAttached: bool
    var filteredCityTemperature: seq<Record>
    /** The last brush applied since the view last showed the whole dataset. */
    ghost var lastBrush: Option<Bounds>

    /** The view is always the whole dataset or one brush over it, and so in
        time order. */
    ghost predicate Valid()
      reads this
    {
      && IsDataset(data) && |data| >= InitialBrushRecords
      && Sorted(filteredCityTemperature)
      && filteredCityTemperature == match lastBrush
         case None => data
         case Some(b) => BrushFilter(data, b)
    }

    constructor (dataset: seq<Record>, height: int)
      requires IsDataset(dataset) && |dataset| >= InitialBrushRecords
      ensures Valid() && data == dataset && filteredCityTemperature == dataset
      ensures brushAttached == (height >= MinBrushHeight)
    {
      data := dataset;
      brushAttached := height >= MinBrushHeight;
      filteredCityTemperature := dataset;
      lastBrush := None;
    }

    /** A brush change, which only a drawn brush can report. A null domain
        changes nothing; otherwise the whole dataset, not the current view,
        is filtered by the new box. */
    method OnBrushChange(domain: Option<Bounds>)
      requires Valid() && brushAttached
      modifies this
      ensures Valid()
      ensures domain == None ==> filteredCityTemperature == old(filteredCityTemperature)
      ensures domain.Some? ==> filteredCityTemperature == BrushFilter(data, domain.value)
    {
      if domain == None {
        return;
      }
      FilterSorted(data, Inside(domain.value));
      filteredCityTemperature := BrushFilter(data, domain.value);
      lastBrush := domain;
    }

    /** Clear shows the whole dataset when the brush reference is set. */
    method HandleClearClick()
      requires Valid()
      modifies this
      ensures Valid()
      ensures filteredCityTemperature == if brushAttached then data else old(filteredCityTemperature)
    {
      if brushAttached {
        filteredCityTemperature := data;
        lastBrush := None;
      }
    }

    /** Reset moves the brush back to its initial position, and the brush
        widget reports the move as a brush change. The domain bounds of that
        change come from converting the initial position through the overview
        scales, so they are a parameter here. */
    method HandleResetClick(initial: Bounds)
      requires Valid()
      modifies this
      ensures Valid()
      ensures filteredCityTemperature ==
        if brushAttached then BrushFilter(data, initial) else old(filteredCityTemperature)
    {
      if brushAttached {
        OnBrushChange(Some(initial));
      }
    }

    /** A click on the drawn brush shows the whole dataset. */
    method OnBrushClick()
      requires Valid() && brushAttached
      modifies this
      ensures Valid()
      ensures filteredCityTemperature == data
    {
      filteredCityTemperature := data;
      lastBrush := None;
    }

    /** The detail chart's time domain: the extent of the records on screen. */
    function DateDomain(): (e: Option<Window>)
      requires Valid()
      reads this
      ensures e.Some? <==> filteredCityTemperature != []
      ensures e.Some? ==> e.value == Window(filteredCityTemperature[0].t,
                                            filteredCityTemperature[|filteredCityTemperature| - 1].t)
    {
      var view := filteredCityTemperature;
      if view == [] then None
      else
        SortedExtent(view);
        TimeExtent(view)
    }

    /** The overview's time domain: the first to the last record. */
    function BrushDateDomain(): (e: Option<Window>)
      requires IsDataset(data)
      ensures e == Some(Window(data[0].t, data[|data| - 1].t))
    {
      SortedExtent(data);
      TimeExtent(data)
    }

    /** The detail chart's value domain: from 0 to the largest value on
        screen, or to 0 when that is absent or 0. */
    function TemperatureDomain(): (d: (real, real))
      reads this
      ensures d.0 == 0.0
      ensures forall x, s :: x in filteredCityTemperature ==> Value(x, s) <= d.1
      ensures filteredCityTemperature == [] ==> d.1 == 0.0
      ensures d.1 == 0.0 || exists x, s :: x in filteredCityTemperature && Value(x, s) == d.1
    {
      (0.0, ValueUpperBound(filteredCityTemperature))
    }

    /** The overview's value domain. Its memo is computed on the first render,
        when the whole dataset is on screen, and not again while the size stays
        the same. */
    function BrushTemperatureDomain(): (d: (real, real))
      reads this
      ensures d.0 == 0.0
      ensures forall x, s :: x in data ==> Value(x, s) <= d.1
      ensures data == [] ==> d.1 == 0.0
      ensures d.1 == 0.0 || exists x, s :: x in data && Value(x, s) == d.1
    {
      (0.0, ValueUpperBound(data))
    }
  }

  /** Two brushes in a row: the second one alone decides the view. */
  method TwoBrushes(dataset: seq<Record>, first: Bounds, second: Bounds) returns (shown: seq<Record>)
    requires IsDataset(dataset) && |dataset| >= InitialBrushRecords
    ensures shown == BrushFilter(dataset, second)
  {
    var v := new BrushView(dataset, MinBrushHeight);
    v.OnBrushChange(Some(first));
    v.OnBrushChange(None);
    v.OnBrushChange(Some(second));
    shown := v.filteredCityTemperature;
  }

  /** Clearing twice or clicking the brush twice ends where doing it once
      does: on the whole dataset. Without the brush there is nothing to brush
      or click, and Clear changes nothing. */
  method ResetTwice(dataset: seq<Record>, height: int, b: Bounds) returns (clearedOnce: seq<Record>, clearedTwice: seq<Record>, clickedOnce: seq<Record>, clickedTwice: seq<Record>)
    requires IsDataset(dataset) && |dataset| >= InitialBrushRecords
    ensures clearedOnce == clearedTwice == dataset
    ensures clickedOnce == clickedTwice == dataset
  {
    var v := new BrushView(dataset, height);
    if v.brushAttached {
      v.OnBrushChange(Some(b));
    }
    v.HandleClearClick();
    clearedOnce := v.filteredCityTemperature;
    v.HandleClearClick();
    clearedTwice := v.filteredCityTemperature;
    if v.brushAttached {
      v.OnBrushChange(Some(b));
      v.OnBrushClick();
      clickedOnce := v.filteredCityTemperature;
      v.OnBrushClick();
      clickedTwice := v.filteredCityTemperature;
    } else {
      clickedOnce, clickedTwice := v.filteredCityTemperature, v.filteredCityTemperature;
    }
  }
}
