/** The dataset both charts display, and the filter both charts apply to it.

    The dataset is a fixed slice (records 225 up to 375, or up to the end of
    the records when there are fewer) of the daily city temperature records,
    ordered by date. A record's date is kept as its
    millisecond timestamp `t`; the three temperature series are reals, since
    the charts only compare them and take maxima. */
module Dataset {

  datatype Option<+T> = None | Some(value: T)

  /** Milliseconds in one day. */
  const Day: int := 24 * 60 * 60 * 1000

  /** One day of data: its timestamp, its calendar year and the temperatures
      of San Francisco, New York and Austin. */
  datatype Record = Record(t: int, year: int, sf: real, ny: real, austin: real)

  /** Timestamps strictly increase along the sequence. */
  ghost predicate Sorted(s: seq<Record>)
  {
    forall i, j :: 0 <= i < j < |s| ==> s[i].t < s[j].t
  }

  /** What the charts can assume about the dataset constant: it is not empty
      and it is in date order. Its length is not fixed, since the slice stops
      at the end of the records. */
  ghost predicate IsDataset(d: seq<Record>)
  {
    0 < |d| && Sorted(d)
  }

  /** An inclusive time window `[lo, hi]`, in milliseconds. */
  datatype Window = Window(lo: int, hi: int)

  /** A brush selection in domain space: time on x, temperature on y. */
  datatype Bounds = Bounds(x0: real, x1: real, y0: real, y1: real)

  /** The predicates the charts pass to the array filter: an inclusive window
      on the timestamp, or the brush box, open on all four sides, over the
      timestamp and the San Francisco temperature. */
  datatype Criterion = Within(w: Window) | Inside(b: Bounds)

  predicate Keeps(c: Criterion, r: Record)
  {
    match c
    case Within(w) => w.lo <= r.t <= w.hi
    case Inside(b) => b.x0 < r.t as real < b.x1 && b.y0 < r.sf < b.y1
  }

  /** The records of `s` that `c` keeps, in their original order. */
  function Filter(s: seq<Record>, c: Criterion): (r: seq<Record>)
    ensures |r| <= |s|
    ensures forall x :: x in r <==> x in s && Keeps(c, x)
  {
    if s == [] then []
    else
      assert s == [s[0]] + s[1..];
      (if Keeps(c, s[0]) then [s[0]] else []) + Filter(s[1..], c)
  }

  function WindowFilter(s: seq<Record>, w: Window): seq<Record>
  {
    Filter(s, Within(w))
  }

  /** `a` is `b` with some elements dropped and the rest left in order. */
  ghost predicate IsSubsequence(a: seq<Record>, b: seq<Record>)
    decreases |b|
  {
    if a == [] then true
    else if b == [] then false
    else (a[0] == b[0] && IsSubsequence(a[1..], b[1..])) || IsSubsequence(a, b[1..])
  }

  /** Filtering keeps the surviving records in their original order. */
  lemma {:induction false} FilterIsSubsequence(s: seq<Record>, c: Criterion)
    ensures IsSubsequence(Filter(s, c), s)
  {
    if s != [] {
      var rest := Filter(s[1..], c);
      FilterIsSubsequence(s[1..], c);
      if Keeps(c, s[0]) {
        assert Filter(s, c) == [s[0]] + rest;
        assert ([s[0]] + rest)[1..] == rest;
      } else {
        assert Filter(s, c) == rest;
      }
    }
  }

  /** Each record occurs in the result as often as in the input when the
      criterion keeps it, and not at all otherwise. */
  lemma {:induction false} FilterCount(s: seq<Record>, c: Criterion)
    ensures forall x :: multiset(Filter(s, c))[x] == if Keeps(c, x) then multiset(s)[x] else 0
  {
    if s != [] {
      FilterCount(s[1..], c);
      assert s == [s[0]] + s[1..];
    }
  }

  /** Filtering sorted data gives sorted data. */
  lemma {:induction false} FilterSorted(s: seq<Record>, c: Criterion)
    requires Sorted(s)
    ensures Sorted(Filter(s, c))
  {
    if s != [] {
      var rest := Filter(s[1..], c);
      FilterSorted(s[1..], c);
      forall x | x in rest
        ensures s[0].t < x.t
      {
        var k :| 0 <= k < |s[1..]| && s[1..][k] == x;
        assert s[k + 1] == x;
      }
    }
  }

  /** A filter that keeps everything returns its input. */
  lemma {:induction false} FilterAllKept(s: seq<Record>, c: Criterion)
    requires forall x :: x in s ==> Keeps(c, x)
    ensures Filter(s, c) == s
  {
    if s != [] {
      FilterAllKept(s[1..], c);
      assert s == [s[0]] + s[1..];
    }
  }

  /** A filter that keeps nothing returns the empty sequence. */
  lemma {:induction false} FilterNoneKept(s: seq<Record>, c: Criterion)
    requires forall x :: x in s ==> !Keeps(c, x)
    ensures Filter(s, c) == []
  {
    if s != [] {
      FilterNoneKept(s[1..], c);
    }
  }

  /** Filtering distributes over concatenation. */
  lemma {:induction false} FilterAppend(a: seq<Record>, b: seq<Record>, c: Criterion)
    ensures Filter(a + b, c) == Filter(a, c) + Filter(b, c)
  {
    if a != [] {
      FilterAppend(a[1..], b, c);
      assert (a + b)[1..] == a[1..] + b;
      assert (a + b)[0] == a[0];
    } else {
      assert a + b == b;
    }
  }

  /** Filtering with a wider criterion first and a narrower one after gives
      what the narrower one alone gives. */
  lemma {:induction false} FilterNarrow(s: seq<Record>, outer: Criterion, inner: Criterion)
    requires forall x :: x in s && Keeps(inner, x) ==> Keeps(outer, x)
    ensures Filter(Filter(s, outer), inner) == Filter(s, inner)
  {
    if s != [] {
      FilterNarrow(s[1..], outer, inner);
      var rest := Filter(s[1..], outer);
      if Keeps(outer, s[0]) {
        assert Filter(s, outer) == [s[0]] + rest;
        assert ([s[0]] + rest)[1..] == rest;
        assert ([s[0]] + rest)[0] == s[0];
      } else {
        assert !Keeps(inner, s[0]);
        assert Filter(s, outer) == rest;
        assert Filter(s, inner) == Filter(s[1..], inner);
      }
    }
  }

  /** Over sorted, non-empty data, the window from the first to the last
      timestamp keeps every record. */
  lemma WholeWindow(s: seq<Record>)
    requires Sorted(s) && s != []
    ensures WindowFilter(s, Window(s[0].t, s[|s| - 1].t)) == s
  {
    forall x | x in s
      ensures Keeps(Within(Window(s[0].t, s[|s| - 1].t)), x)
    {
      var k :| 0 <= k < |s| && s[k] == x;
    }
    FilterAllKept(s, Within(Window(s[0].t, s[|s| - 1].t)));
  }

  /** Over sorted data, the window from the k-th to the last timestamp keeps
      exactly the records from position k on. */
  lemma SuffixWindow(s: seq<Record>, k: nat)
    requires Sorted(s) && k < |s|
    ensures WindowFilter(s, Window(s[k].t, s[|s| - 1].t)) == s[k..]
  {
    var c := Within(Window(s[k].t, s[|s| - 1].t));
    var before, after := s[..k], s[k..];
    assert s == before + after;
    FilterAppend(before, after, c);
    PrefixDropped(s, k);
    FilterNoneKept(before, c);
    SuffixKept(s, k);
    FilterAllKept(after, c);
  }

  lemma PrefixDropped(s: seq<Record>, k: nat)
    requires Sorted(s) && k < |s|
    ensures forall x :: x in s[..k] ==> !Keeps(Within(Window(s[k].t, s[|s| - 1].t)), x)
  {
    forall x | x in s[..k]
      ensures x.t < s[k].t
    {
      var j :| 0 <= j < k && s[..k][j] == x;
      assert s[j] == x;
    }
  }

  lemma SuffixKept(s: seq<Record>, k: nat)
    requires Sorted(s) && k < |s|
    ensures forall x :: x in s[k..] ==> Keeps(Within(Window(s[k].t, s[|s| - 1].t)), x)
  {
    forall x | x in s[k..]
      ensures s[k].t <= x.t <= s[|s| - 1].t
    {
      var j :| 0 <= j < |s| - k && s[k..][j] == x;
      assert s[k + j] == x;
    }
  }

  /** When the criterion keeps nothing before position i and nothing from
      position j on, filtering the whole equals filtering s[i..j]. */
  lemma FilterBetween(s: seq<Record>, c: Criterion, i: nat, j: nat)
    requires i <= j <= |s|
    requires forall x :: x in s[..i] ==> !Keeps(c, x)
    requires forall x :: x in s[j..] ==> !Keeps(c, x)
    ensures Filter(s, c) == Filter(s[i..j], c)
  {
    assert s == s[..i] + (s[i..j] + s[j..]);
    FilterAppend(s[..i], s[i..j] + s[j..], c);
    FilterAppend(s[i..j], s[j..], c);
    FilterNoneKept(s[..i], c);
    FilterNoneKept(s[j..], c);
  }

  function Min(a: int, b: int): int { if a <= b then a else b }
  function Max(a: int, b: int): int { if a <= b then b else a }

  /** The earliest and latest timestamps of `s`, or None when `s` is empty;
      this is the domain a time scale is given. */
  function TimeExtent(s: seq<Record>): (e: Option<Window>)
    ensures e == None <==> s == []
    ensures e.Some? ==> forall x :: x in s ==> e.value.lo <= x.t <= e.value.hi
    ensures e.Some? ==> (exists x :: x in s && x.t == e.value.lo) && (exists x :: x in s && x.t == e.value.hi)
  {
    if s == [] then None
    else
      assert s == [s[0]] + s[1..];
      match TimeExtent(s[1..])
      case None => Some(Window(s[0].t, s[0].t))
      case Some(w) => Some(Window(Min(s[0].t, w.lo), Max(s[0].t, w.hi)))
  }

  /** On sorted data the extent is the first and the last timestamp. */
  lemma {:induction false} SortedExtent(s: seq<Record>)
    requires Sorted(s) && s != []
    ensures TimeExtent(s) == Some(Window(s[0].t, s[|s| - 1].t))
  {
    if |s| > 1 {
      var rest := s[1..];
      assert Sorted(rest) by {
        forall i, j | 0 <= i < j < |rest|
          ensures rest[i].t < rest[j].t
        {
          assert rest[i] == s[i + 1] && rest[j] == s[j + 1];
        }
      }
      SortedExtent(rest);
      assert rest[0] == s[1] && rest[|rest| - 1] == s[|s| - 1];
    }
  }
}
