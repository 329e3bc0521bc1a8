/** Values and list operations shared by every page: optional values, the number
    boxes of the forms, `reduce` sums, `filter` and `find`. */
module Common {

  datatype Option<T> = None | Some(value: T)

  /** The outcome of a call to the hosted store: its row, or the message of the error it reports. */
  datatype Result<T> = Success(value: T) | Failure(message: string)

  /** A number box of a form as the program sees it: left empty, or holding some
      text that `Number.parseFloat` turns into `parsed` (None when the text is not
      a number, i.e. parseFloat gives NaN). */
  datatype NumberText = Empty | Typed(parsed: Option<real>)

  /** `Number.parseFloat(text)`; the empty text is NaN. */
  function ParseFloat(t: NumberText): Option<real>
  {
    match t
    case Empty => None
    case Typed(p) => p
  }

  /** The text `x.toString()` of a stored number, which parses back to `x`. */
  function NumberToText(x: real): NumberText
  {
    Typed(Some(x))
  }

  /** `n || 0` on a parsed number: NaN (and a missing value) count as 0. */
  function OrZero(o: Option<real>): real
  {
    if o.Some? then o.value else 0.0
  }

  /** `Number.parseFloat(text) || 0`. */
  function ParsedOrZero(t: NumberText): real
  {
    OrZero(ParseFloat(t))
  }

  /** `s.reduce((sum, x) => sum + f(x), 0)`: a left fold starting at 0. */
  function Sum<T>(s: seq<T>, f: T -> real): real
  {
    if |s| == 0 then 0.0 else Sum(s[..|s| - 1], f) + f(s[|s| - 1])
  }

  /** `s.filter(p)`: the elements that satisfy `p`, in their order. */
  function Filter<T>(s: seq<T>, p: T -> bool): (r: seq<T>)
    ensures |r| <= |s|
    ensures forall i :: 0 <= i < |r| ==> r[i] in s && p(r[i])
    ensures forall i :: 0 <= i < |s| && p(s[i]) ==> s[i] in r
  {
    if |s| == 0 then [] else (if p(s[0]) then [s[0]] else []) + Filter(s[1..], p)
  }

  /** `s.find(p)`: the first element that satisfies `p`, if any. */
  function FindFirst<T>(s: seq<T>, p: T -> bool): (r: Option<T>)
    ensures r.Some? ==> r.value in s && p(r.value)
    ensures r.None? <==> forall i :: 0 <= i < |s| ==> !p(s[i])
  {
    if |s| == 0 then None else if p(s[0]) then Some(s[0]) else FindFirst(s[1..], p)
  }

  /** `a` is `b` with some elements left out, the others kept in their order. */
  predicate SubsequenceOf<T(==)>(a: seq<T>, b: seq<T>)
    decreases |b|
  {
    if |b| == 0 then |a| == 0
    else SubsequenceOf(a, b[1..]) || (|a| > 0 && a[0] == b[0] && SubsequenceOf(a[1..], b[1..]))
  }

  lemma {:induction false} SumAppend<T>(a: seq<T>, b: seq<T>, f: T -> real)
    ensures Sum(a + b, f) == Sum(a, f) + Sum(b, f)
    decreases |b|
  {
    if |b| == 0 {
      assert a + b == a;
    } else {
      var b' := b[..|b| - 1];
      assert (a + b)[..|a + b| - 1] == a + b';
      SumAppend(a, b', f);
    }
  }

  /** Summing head first gives the same as the left fold. */
  lemma {:induction false} SumCons<T>(s: seq<T>, f: T -> real)
    requires |s| > 0
    ensures Sum(s, f) == f(s[0]) + Sum(s[1..], f)
  {
    assert s == [s[0]] + s[1..];
    SumAppend([s[0]], s[1..], f);
    assert [s[0]][..0] == [];
  }

  lemma {:induction false} FilterAppend<T>(a: seq<T>, b: seq<T>, p: T -> bool)
    ensures Filter(a + b, p) == Filter(a, p) + Filter(b, p)
    decreases |a|
  {
    if |a| == 0 {
      assert a + b == b;
    } else {
      assert (a + b)[1..] == a[1..] + b;
      FilterAppend(a[1..], b, p);
    }
  }

  /** One step of `filter`: the head, if it passes, then the filtered tail. */
  lemma FilterCons<T>(s: seq<T>, p: T -> bool)
    requires |s| > 0
    ensures Filter(s, p) == (if p(s[0]) then [s[0]] else []) + Filter(s[1..], p)
  {
  }

  /** A filter nothing passes leaves nothing. */
  lemma {:induction false} FilterNone<T>(s: seq<T>, p: T -> bool)
    requires forall i :: 0 <= i < |s| ==> !p(s[i])
    ensures Filter(s, p) == []
  {
    if |s| > 0 {
      FilterNone(s[1..], p);
    }
  }

  /** Filters by predicates that agree everywhere give the same list. */
  lemma {:induction false} FilterSame<T>(s: seq<T>, p: T -> bool, q: T -> bool)
    requires forall x :: p(x) == q(x)
    ensures Filter(s, p) == Filter(s, q)
  {
    if |s| > 0 {
      FilterSame(s[1..], p, q);
    }
  }

  /** A filter keeps its input unchanged when every element passes. */
  lemma {:induction false} FilterAllPass<T>(s: seq<T>, p: T -> bool)
    requires forall i :: 0 <= i < |s| ==> p(s[i])
    ensures Filter(s, p) == s
  {
    if |s| > 0 {
      FilterAllPass(s[1..], p);
      assert [s[0]] + s[1..] == s;
    }
  }

  /** A filter's output is an order-preserving subsequence of its input. */
  lemma {:induction false} FilterIsSubsequence<T>(s: seq<T>, p: T -> bool)
    ensures SubsequenceOf(Filter(s, p), s)
  {
    if |s| > 0 {
      FilterIsSubsequence(s[1..], p);
      var r := Filter(s, p);
      if p(s[0]) {
        assert r[0] == s[0] && r[1..] == Filter(s[1..], p);
      } else {
        assert r == Filter(s[1..], p);
      }
    }
  }

  /** Two chained filters are one filter by the conjunction, counted with multiplicity. */
  lemma {:induction false} FilterFilter<T>(s: seq<T>, p: T -> bool, q: T -> bool, pq: T -> bool)
    requires forall x :: pq(x) == (p(x) && q(x))
    ensures Filter(Filter(s, p), q) == Filter(s, pq)
  {
    if |s| > 0 {
      FilterFilter(s[1..], p, q, pq);
      var head := if p(s[0]) then [s[0]] else [];
      FilterAppend(head, Filter(s[1..], p), q);
      if p(s[0]) {
        assert Filter(head, q) == (if q(s[0]) then [s[0]] else []) by {
          assert head[1..] == [];
        }
      }
    }
  }

  /** Filtering with the same predicate twice changes nothing. */
  lemma {:induction false} FilterIdempotent<T>(s: seq<T>, p: T -> bool)
    ensures Filter(Filter(s, p), p) == Filter(s, p)
  {
    FilterAllPass(Filter(s, p), p);
  }

  /** A list splits into the part that passes and the part that fails, sums included. */
  lemma {:induction false} SumPartition<T>(s: seq<T>, p: T -> bool, notP: T -> bool, f: T -> real)
    requires forall x :: notP(x) == !p(x)
    ensures Sum(Filter(s, p), f) + Sum(Filter(s, notP), f) == Sum(s, f)
  {
    if |s| > 0 {
      SumPartition(s[1..], p, notP, f);
      SumCons(s, f);
      var hp := if p(s[0]) then [s[0]] else [];
      var hn := if notP(s[0]) then [s[0]] else [];
      SumAppend(hp, Filter(s[1..], p), f);
      SumAppend(hn, Filter(s[1..], notP), f);
      if p(s[0]) {
        SumCons(hp, f);
      } else {
        SumCons(hn, f);
      }
    }
  }

  /** `find` after `filter` is one `find` by the conjunction. */
  lemma {:induction false} FindFirstOfFilter<T>(s: seq<T>, p: T -> bool, q: T -> bool, pq: T -> bool)
    requires forall x :: pq(x) == (p(x) && q(x))
    ensures FindFirst(Filter(s, p), q) == FindFirst(s, pq)
  {
    if |s| > 0 {
      var r := Filter(s, p);
      var rest := Filter(s[1..], p);
      FindFirstOfFilter(s[1..], p, q, pq);
      assert pq(s[0]) == (p(s[0]) && q(s[0]));
      if p(s[0]) {
        assert r == [s[0]] + rest;
        assert r[0] == s[0] && r[1..] == rest;
        if !q(s[0]) {
          assert FindFirst(r, q) == FindFirst(rest, q);
        }
      } else {
        assert r == rest;
      }
    }
  }

  /** Elements that do not match in front of a list do not change what `find` returns. */
  lemma {:induction false} FindFirstSkip<T>(a: seq<T>, b: seq<T>, p: T -> bool)
    requires forall i :: 0 <= i < |a| ==> !p(a[i])
    ensures FindFirst(a + b, p) == FindFirst(b, p)
  {
    if |a| == 0 {
      assert a + b == b;
    } else {
      assert !p((a + b)[0]);
      assert (a + b)[1..] == a[1..] + b;
      assert forall i :: 0 <= i < |a[1..]| ==> !p(a[1..][i]) by {
        forall i | 0 <= i < |a[1..]| ensures !p(a[1..][i]) {
          assert a[1..][i] == a[i + 1];
        }
      }
      FindFirstSkip(a[1..], b, p);
    }
  }

  /** `find` returns the element at the first index that satisfies the predicate. */
  lemma {:induction false} FindFirstAt<T>(s: seq<T>, p: T -> bool, i: nat)
    requires i < |s| && p(s[i])
    requires forall j :: 0 <= j < i ==> !p(s[j])
    ensures FindFirst(s, p) == Some(s[i])
  {
    if i > 0 {
      FindFirstAt(s[1..], p, i - 1);
    }
  }
}
