/** The inclusive `YYYY-MM-DD` range filter that every list page applies. */
module DateRange {
  import opened Common
  import opened Text

  /** A bound left empty is not applied; a bound that is set is inclusive,
      compared as strings. */
  predicate InRange(date: string, start: string, end: string)
  {
    (start == "" || StrLe(start, date)) && (end == "" || StrLe(date, end))
  }

  /** The two chained filters of the pages:
      `if (start) xs = xs.filter(x => x.date >= start)` then
      `if (end) xs = xs.filter(x => x.date <= end)`. */
  function ByDateRange<T>(s: seq<T>, date: T -> string, start: string, end: string): seq<T>
  {
    var fromStart := if start != "" then Filter(s, x => StrLe(start, date(x))) else s;
    if end != "" then Filter(fromStart, x => StrLe(date(x), end)) else fromStart
  }

  /** The chained filters keep exactly the elements in range, with their
      multiplicity and order: they are one filter by `InRange`. */
  lemma ByDateRangeIsFilter<T>(s: seq<T>, date: T -> string, start: string, end: string, inRange: T -> bool)
    requires forall x :: inRange(x) == InRange(date(x), start, end)
    ensures ByDateRange(s, date, start, end) == Filter(s, inRange)
  {
    var p := x => StrLe(start, date(x));
    var q := x => StrLe(date(x), end);
    if start != "" && end != "" {
      FilterFilter(s, p, q, inRange);
    } else if start != "" {
      FilterSame(s, p, inRange);
    } else if end != "" {
      FilterSame(s, q, inRange);
    } else {
      FilterAllPass(s, inRange);
    }
  }

  /** With both bounds empty the list is left as it is. */
  lemma NoBoundsKeepsAll<T>(s: seq<T>, date: T -> string)
    ensures ByDateRange(s, date, "", "") == s
  {
  }
}
