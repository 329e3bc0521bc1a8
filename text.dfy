/** The string operations of JavaScript that the pages rely on: `trim`, `split`
    and `join` on one separator character, the `<=` order on strings, and the
    decimal `parseInt` / `toString` of integers. */
module Text {
  import opened Common

  /** The characters `String.prototype.trim` removes: white space and line terminators. */
  predicate IsSpace(c: char)
  {
    || c == ' ' || c == '\t' || c == '\n' || c == '\r' || c == '\U{000B}' || c == '\U{000C}'
    || c == '\U{00A0}' || c == '\U{1680}' || ('\U{2000}' <= c <= '\U{200A}')
    || c == '\U{2028}' || c == '\U{2029}' || c == '\U{202F}' || c == '\U{205F}'
    || c == '\U{3000}' || c == '\U{FEFF}'
  }

  /** `s.trimStart()`; `TrimStartSpec` states what it returns. */
  function TrimStart(s: string): string
  {
    if |s| > 0 && IsSpace(s[0]) then TrimStart(s[1..]) else s
  }

  /** `s.trimEnd()`; `TrimEndSpec` states what it returns. */
  function TrimEnd(s: string): string
  {
    if |s| > 0 && IsSpace(s[|s| - 1]) then TrimEnd(s[..|s| - 1]) else s
  }

  /** `s.trim()` */
  function Trim(s: string): string
  {
    TrimEnd(TrimStart(s))
  }

  /** `trimStart` gives the suffix of `s` that starts at its first non-space character. */
  lemma {:induction false} TrimStartSpec(s: string)
    ensures var r := TrimStart(s);
            && |r| <= |s| && r == s[|s| - |r|..]
            && (r == "" || !IsSpace(r[0]))
            && forall i :: 0 <= i < |s| - |r| ==> IsSpace(s[i])
  {
    if |s| > 0 && IsSpace(s[0]) {
      TrimStartSpec(s[1..]);
      var r := TrimStart(s[1..]);
      assert s[1..][|s| - 1 - |r|..] == s[|s| - |r|..];
      forall i | 1 <= i < |s| - |r| ensures IsSpace(s[i]) {
        assert s[i] == s[1..][i - 1];
      }
    }
  }

  /** `trimEnd` gives the prefix of `s` that ends at its last non-space character. */
  lemma {:induction false} TrimEndSpec(s: string)
    ensures var r := TrimEnd(s);
            && |r| <= |s| && r == s[..|r|]
            && (r == "" || !IsSpace(r[|r| - 1]))
            && forall i :: |r| <= i < |s| ==> IsSpace(s[i])
  {
    if |s| > 0 && IsSpace(s[|s| - 1]) {
      TrimEndSpec(s[..|s| - 1]);
      var r := TrimEnd(s[..|s| - 1]);
      assert s[..|s| - 1][..|r|] == s[..|r|];
      forall i | |r| <= i < |s| - 1 ensures IsSpace(s[i]) {
        assert s[i] == s[..|s| - 1][i];
      }
    }
  }

  /** `trim` leaves no white space at either end, is never longer than its
      input, and is a stretch of it with only white space cut off each side. */
  lemma TrimEnds(s: string)
    ensures var r, k := Trim(s), |s| - |TrimStart(s)|;
            && 0 <= k <= k + |r| <= |s|
            && (r == "" || (!IsSpace(r[0]) && !IsSpace(r[|r| - 1])))
            && r == s[k..k + |r|]
            && (forall i :: 0 <= i < k ==> IsSpace(s[i]))
            && (forall i :: k + |r| <= i < |s| ==> IsSpace(s[i]))
  {
    var t := TrimStart(s);
    var r := TrimEnd(t);
    TrimStartSpec(s);
    TrimEndSpec(t);
    var k := |s| - |t|;
    if r != "" {
      assert r[0] == t[0];
    }
    assert r == s[k..k + |r|];
    forall i | k + |r| <= i < |s| ensures IsSpace(s[i]) {
      assert s[i] == t[i - k];
    }
  }

  /** A text is blank when `trim` leaves nothing, i.e. `!s.trim()` in JavaScript. */
  predicate IsBlank(s: string)
  {
    Trim(s) == ""
  }

  /** Trimming twice is trimming once. */
  lemma TrimIdempotent(s: string)
    ensures Trim(Trim(s)) == Trim(s)
  {
    var r := Trim(s);
    TrimEnds(s);
    assert TrimStart(r) == r;
    assert TrimEnd(r) == r;
  }

  /** `trim` leaves nothing exactly when every character is white space. */
  lemma {:induction false} BlankIffAllSpace(s: string)
    ensures IsBlank(s) <==> forall i :: 0 <= i < |s| ==> IsSpace(s[i])
  {
    var t := TrimStart(s);
    TrimStartSpec(s);
    TrimEndSpec(t);
    assert |t| > 0 ==> t[0] == s[|s| - |t|];
    if !forall i :: 0 <= i < |s| ==> IsSpace(s[i]) {
      var i :| 0 <= i < |s| && !IsSpace(s[i]);
      assert |s| - |t| <= i;
      assert t != "";
      assert t[0] == s[|s| - |t|];
    }
  }

  /** A text without white space at either end is its own `trim`. */
  lemma TrimOfTrimmed(s: string)
    requires s == "" || (!IsSpace(s[0]) && !IsSpace(s[|s| - 1]))
    ensures Trim(s) == s
  {
    assert TrimStart(s) == s;
  }

  // ---------------------------------------------------------------------------
  // split and join on one separator character

  /** `s.split(sep)` for a one-character separator: always at least one part,
      and no part contains the separator. */
  function Split(s: string, sep: char): (parts: seq<string>)
    ensures |parts| >= 1
    ensures forall i :: 0 <= i < |parts| ==> sep !in parts[i]
  {
    if |s| == 0 then [""]
    else if s[0] == sep then [""] + Split(s[1..], sep)
    else
      var rest := Split(s[1..], sep);
      [[s[0]] + rest[0]] + rest[1..]
  }

  /** `parts.join(sep)` for a one-character separator. */
  function Join(parts: seq<string>, sep: char): string
  {
    if |parts| == 0 then ""
    else if |parts| == 1 then parts[0]
    else parts[0] + [sep] + Join(parts[1..], sep)
  }

  /** A character found in none of the parts, other than the separator, is not
      in the joined text. */
  lemma {:induction false} JoinAvoids(parts: seq<string>, sep: char, c: char)
    requires c != sep
    requires forall i :: 0 <= i < |parts| ==> c !in parts[i]
    ensures c !in Join(parts, sep)
  {
    if |parts| > 1 {
      JoinAvoids(parts[1..], sep, c);
    }
  }

  /** Joining the parts of a split gives back the original text. */
  lemma {:induction false} JoinSplit(s: string, sep: char)
    ensures Join(Split(s, sep), sep) == s
  {
    if |s| > 0 {
      var rest := Split(s[1..], sep);
      JoinSplit(s[1..], sep);
      if s[0] == sep {
        assert Split(s, sep) == [""] + rest;
        assert ([""] + rest)[1..] == rest;
        assert s == "" + [sep] + s[1..];
      } else {
        var parts := Split(s, sep);
        assert parts == [[s[0]] + rest[0]] + rest[1..];
        if |rest| == 1 {
          assert s == [s[0]] + s[1..];
        } else {
          assert parts[1..] == rest[1..];
          assert Join(rest, sep) == rest[0] + [sep] + Join(rest[1..], sep);
          assert s == [s[0]] + s[1..];
        }
      }
    }
  }

  /** Splitting text that starts with a separator-free piece. */
  lemma {:induction false} SplitPrefix(p: string, t: string, sep: char)
    requires sep !in p
    ensures Split(p + t, sep) == [p + Split(t, sep)[0]] + Split(t, sep)[1..]
  {
    if |p| > 0 {
      SplitPrefix(p[1..], t, sep);
      assert (p + t)[0] == p[0];
      assert (p + t)[1..] == p[1..] + t;
      assert [p[0]] + (p[1..] + Split(t, sep)[0]) == p + Split(t, sep)[0];
    } else {
      var rest := Split(t, sep);
      assert p + t == t && p + rest[0] == rest[0];
      assert [rest[0]] + rest[1..] == rest;
    }
  }

  /** Splitting joined separator-free parts gives back the parts. */
  lemma {:induction false} SplitJoin(parts: seq<string>, sep: char)
    requires |parts| >= 1
    requires forall i :: 0 <= i < |parts| ==> sep !in parts[i]
    ensures Split(Join(parts, sep), sep) == parts
  {
    if |parts| == 1 {
      SplitPrefix(parts[0], "", sep);
      assert parts[0] + "" == parts[0];
      assert parts == [parts[0]];
    } else {
      var tail := Join(parts[1..], sep);
      SplitJoin(parts[1..], sep);
      SplitPrefix(parts[0], [sep] + tail, sep);
      assert parts[0] + [sep] + tail == parts[0] + ([sep] + tail);
      assert ([sep] + tail)[1..] == tail;
      assert Split([sep] + tail, sep) == [""] + parts[1..];
      assert parts[0] + "" == parts[0];
      assert parts == [parts[0]] + parts[1..];
    }
  }

  /** Text without the separator splits into itself alone. */
  lemma SplitWhole(s: string, sep: char)
    requires sep !in s
    ensures Split(s, sep) == [s]
  {
    SplitPrefix(s, "", sep);
    assert s + "" == s;
  }

  /** A separator-free piece before the first separator comes off as the first part. */
  lemma SplitAtFirst(p: string, t: string, sep: char)
    requires sep !in p
    ensures Split(p + [sep] + t, sep) == [p] + Split(t, sep)
  {
    SplitPrefix(p, [sep] + t, sep);
    assert p + [sep] + t == p + ([sep] + t);
    assert ([sep] + t)[1..] == t;
    assert Split([sep] + t, sep) == [""] + Split(t, sep);
    assert p + "" == p;
  }

  // ---------------------------------------------------------------------------
  // the `<=` order of JavaScript strings

  /** `a <= b` on strings: lexicographic by character code, a prefix first. */
  predicate StrLe(a: string, b: string)
  {
    if |a| == 0 then true
    else if |b| == 0 then false
    else if a[0] != b[0] then a[0] < b[0]
    else StrLe(a[1..], b[1..])
  }

  /** `a < b` on strings. */
  predicate StrLt(a: string, b: string)
  {
    StrLe(a, b) && a != b
  }

  lemma {:induction false} StrLeReflexive(a: string)
    ensures StrLe(a, a)
  {
    if |a| > 0 {
      StrLeReflexive(a[1..]);
    }
  }

  lemma {:induction false} StrLeTotal(a: string, b: string)
    ensures StrLe(a, b) || StrLe(b, a)
  {
    if |a| > 0 && |b| > 0 && a[0] == b[0] {
      StrLeTotal(a[1..], b[1..]);
    }
  }

  lemma {:induction false} StrLeAntisymmetric(a: string, b: string)
    requires StrLe(a, b) && StrLe(b, a)
    ensures a == b
  {
    if |a| > 0 && |b| > 0 {
      StrLeAntisymmetric(a[1..], b[1..]);
      assert a == [a[0]] + a[1..] && b == [b[0]] + b[1..];
    }
  }

  lemma {:induction false} StrLeTransitive(a: string, b: string, c: string)
    requires StrLe(a, b) && StrLe(b, c)
    ensures StrLe(a, c)
  {
    if |a| > 0 && |b| > 0 && |c| > 0 && a[0] == b[0] == c[0] {
      StrLeTransitive(a[1..], b[1..], c[1..]);
    }
  }

  // ---------------------------------------------------------------------------
  // decimal integers: `n.toString()` and `parseInt(s, 10)`

  predicate IsDigit(c: char)
  {
    '0' <= c <= '9'
  }

  function DigitChar(d: nat): (c: char)
    requires d < 10
    ensures IsDigit(c)
  {
    ('0' as int + d) as char
  }

  function DigitValue(c: char): nat
    requires IsDigit(c)
  {
    c as int - '0' as int
  }

  predicate AllDigits(s: string)
  {
    forall i :: 0 <= i < |s| ==> IsDigit(s[i])
  }

  /** The decimal digits of `n`, most significant first, no leading zero. */
  function NatToString(n: nat): (r: string)
    ensures |r| > 0 && AllDigits(r)
  {
    if n < 10 then [DigitChar(n)] else NatToString(n / 10) + [DigitChar(n % 10)]
  }

  /** `n.toString()` for an integer. */
  function IntToString(n: int): string
  {
    if n < 0 then "-" + NatToString(-n) else NatToString(n)
  }

  /** The value of a run of decimal digits. */
  function DigitsValue(ds: string): nat
    requires AllDigits(ds)
  {
    if |ds| == 0 then 0 else DigitsValue(ds[..|ds| - 1]) * 10 + DigitValue(ds[|ds| - 1])
  }

  /** The length of the run of digits at the start of `s`. */
  function DigitRun(s: string): (n: nat)
    ensures n <= |s| && AllDigits(s[..n])
    ensures n < |s| ==> !IsDigit(s[n])
  {
    if |s| > 0 && IsDigit(s[0]) then 1 + DigitRun(s[1..]) else 0
  }

  /** `parseInt(s, 10)`: leading white space, an optional sign, then the longest
      run of digits; None (NaN) when there is no digit. */
  function ParseInt(s: string): Option<int>
  {
    var t := TrimStart(s);
    var signed := |t| > 0 && (t[0] == '-' || t[0] == '+');
    var body := if signed then t[1..] else t;
    var n := DigitRun(body);
    var v: int := if n == 0 then 0 else DigitsValue(body[..n]);
    if n == 0 then None
    else if signed && t[0] == '-' then Some(-v)
    else Some(v)
  }

  lemma {:induction false} NatToStringValue(n: nat)
    ensures DigitsValue(NatToString(n)) == n
  {
    if n >= 10 {
      NatToStringValue(n / 10);
      var r := NatToString(n);
      assert r[..|r| - 1] == NatToString(n / 10);
    }
  }

  lemma {:induction false} DigitRunAllDigits(s: string)
    requires AllDigits(s)
    ensures DigitRun(s) == |s|
  {
    if |s| > 0 {
      DigitRunAllDigits(s[1..]);
    }
  }

  /** `parseInt` reads a run of digits back as its value. */
  lemma ParseIntOfDigits(digits: string)
    requires |digits| > 0 && AllDigits(digits)
    ensures ParseInt(digits) == Some(DigitsValue(digits))
  {
    DigitRunAllDigits(digits);
    assert digits[..|digits|] == digits;
    assert !IsSpace(digits[0]) && digits[0] != '-' && digits[0] != '+';
    assert TrimStart(digits) == digits;
    assert DigitRun(digits) == |digits|;
  }

  /** `parseInt` reads a minus sign and a run of digits back as the negated value. */
  lemma ParseIntOfNegatedDigits(digits: string)
    requires |digits| > 0 && AllDigits(digits)
    ensures ParseInt("-" + digits) == Some(-(DigitsValue(digits) as int))
  {
    var s := "-" + digits;
    DigitRunAllDigits(digits);
    assert digits[..|digits|] == digits;
    assert s[0] == '-' && s[1..] == digits;
    assert TrimStart(s) == s;
  }

  /** `parseInt` reads back what `toString` wrote. */
  lemma ParseIntOfToString(n: int)
    ensures ParseInt(IntToString(n)) == Some(n)
  {
    var m: nat := if n < 0 then -n else n;
    NatToStringValue(m);
    if n < 0 {
      ParseIntOfNegatedDigits(NatToString(m));
    } else {
      ParseIntOfDigits(NatToString(m));
    }
  }
}
