/** The pieces of Python's string and list semantics that the extractor relies on:
    ASCII case mapping, substring search, slicing with negative and clamped bounds,
    `join`, `split`, `int()` and `str()` on naturals, and string ordering for `max`. */
module PyText {
  import opened Wrappers

  predicate IsUpper(c: char) { 'A' <= c <= 'Z' }
  predicate IsLower(c: char) { 'a' <= c <= 'z' }
  predicate IsDigit(c: char) { '0' <= c <= '9' }

  /** `str.lower` on one character, restricted to ASCII letters. */
  function LowerChar(c: char): char
  {
    if IsUpper(c) then (c as int + 32) as char else c
  }

  /** `str.upper` on one character, restricted to ASCII letters. */
  function UpperChar(c: char): char
  {
    if IsLower(c) then (c as int - 32) as char else c
  }

  function Lower(s: string): (r: string)
    ensures |r| == |s|
    ensures forall i :: 0 <= i < |s| ==> r[i] == LowerChar(s[i])
  {
    if |s| == 0 then [] else [LowerChar(s[0])] + Lower(s[1..])
  }

  /** `sub in s` for strings. */
  predicate Contains(s: string, sub: string)
  {
    sub <= s || (|s| > 0 && Contains(s[1..], sub))
  }

  /** Python's normalisation of one slice bound against a length `n`:
      a negative bound counts from the end, and the result is clamped to `0..n`. */
  function SliceBound(i: int, n: nat): (r: nat)
    ensures r <= n
    ensures 0 <= i <= n ==> r == i
    ensures -(n as int) <= i < 0 ==> r == i + n
    ensures i < -(n as int) ==> r == 0
    ensures n < i ==> r == n
  {
    if i < 0 then (if i + n < 0 then 0 else i + n) else if i > n then n else i
  }

  /** `xs.index(x)`: the position of the first occurrence. */
  function IndexOf<T(==)>(xs: seq<T>, x: T): (r: nat)
    requires x in xs
    ensures r < |xs| && xs[r] == x
    ensures forall j :: 0 <= j < r ==> xs[j] != x
  {
    if xs[0] == x then 0 else 1 + IndexOf(xs[1..], x)
  }

  /** Python's `s[lo:hi]`, both bounds given. */
  function Slice<T>(s: seq<T>, lo: int, hi: int): (r: seq<T>)
    ensures |r| <= |s|
    ensures SliceBound(lo, |s|) < SliceBound(hi, |s|) ==> r == s[SliceBound(lo, |s|)..SliceBound(hi, |s|)]
    ensures SliceBound(hi, |s|) <= SliceBound(lo, |s|) ==> r == []
  {
    var a, b := SliceBound(lo, |s|), SliceBound(hi, |s|);
    if a < b then s[a..b] else []
  }

  /** With non-negative bounds a slice is the ordinary subsequence, clamped to the end. */
  lemma SliceFromNonNegative<T>(s: seq<T>, lo: nat, hi: int)
    requires lo <= hi
    ensures Slice(s, lo, hi) == if lo < |s| then s[lo..if hi < |s| then hi else |s|] else []
  {
  }

  /** Python's `s.reverse()` result. */
  function Reversed<T>(s: seq<T>): (r: seq<T>)
    ensures |r| == |s|
    ensures forall k :: 0 <= k < |s| ==> r[k] == s[|s| - 1 - k]
  {
    if |s| == 0 then [] else Reversed(s[1..]) + [s[0]]
  }

  lemma ReversedTwice<T>(s: seq<T>)
    ensures Reversed(Reversed(s)) == s
  {
    assert forall k :: 0 <= k < |s| ==> Reversed(Reversed(s))[k] == s[k];
  }

  /** `sep.join(parts)`. */
  function Join(sep: string, parts: seq<string>): string
  {
    if |parts| == 0 then "" else if |parts| == 1 then parts[0] else parts[0] + sep + Join(sep, parts[1..])
  }

  /** The single blank that `' '.join` puts between words and `split(' ')` splits at. */
  predicate IsBlank(c: char) { c == ' ' }

  /** Python's `t[:-1]`: everything but the last character. */
  function DropLast(t: string): string
  {
    Slice(t, 0, -1)
  }

  predicate NoSep(s: string, isSep: char -> bool)
  {
    forall i :: 0 <= i < |s| ==> !isSep(s[i])
  }

  /** Splitting at every separator character, keeping empty parts
      (`re.split` on a one-character class, or `str.split(c)`). */
  function SplitWhere(s: string, isSep: char -> bool): (r: seq<string>)
    ensures |r| >= 1
    ensures forall k :: 0 <= k < |r| ==> NoSep(r[k], isSep)
  {
    if |s| == 0 then [""]
    else
      var rest := SplitWhere(s[1..], isSep);
      if isSep(s[0]) then [""] + rest else [[s[0]] + rest[0]] + rest[1..]
  }

  lemma {:induction false} SplitWhereNoSep(x: string, isSep: char -> bool)
    requires NoSep(x, isSep)
    ensures SplitWhere(x, isSep) == [x]
  {
    if |x| > 0 {
      SplitWhereNoSep(x[1..], isSep);
      assert [x[0]] + x[1..] == x;
    }
  }

  lemma {:induction false} SplitWhereAtSep(x: string, c: char, y: string, isSep: char -> bool)
    requires NoSep(x, isSep) && isSep(c)
    ensures SplitWhere(x + [c] + y, isSep) == [x] + SplitWhere(y, isSep)
  {
    if |x| == 0 {
      assert x + [c] + y == [c] + y;
      assert ([c] + y)[1..] == y;
    } else {
      SplitWhereAtSep(x[1..], c, y, isSep);
      assert (x + [c] + y)[1..] == x[1..] + [c] + y;
      assert [x[0]] + x[1..] == x;
    }
  }

  /** Splitting a join at a separator that occurs in no part gives the parts back. */
  lemma {:induction false} SplitJoin(parts: seq<string>, c: char, isSep: char -> bool)
    requires |parts| >= 1 && isSep(c)
    requires forall k :: 0 <= k < |parts| ==> NoSep(parts[k], isSep)
    ensures SplitWhere(Join([c], parts), isSep) == parts
  {
    if |parts| == 1 {
      SplitWhereNoSep(parts[0], isSep);
    } else {
      SplitJoin(parts[1..], c, isSep);
      SplitWhereAtSep(parts[0], c, Join([c], parts[1..]), isSep);
      assert [parts[0]] + parts[1..] == parts;
    }
  }

  /** Splitting at a single separator character gives one part more than it occurs. */
  lemma {:induction false} SplitWhereCount(s: string, c: char, isSep: char -> bool)
    requires forall x :: isSep(x) <==> x == c
    ensures |SplitWhere(s, isSep)| == CountChar(s, c) + 1
  {
    if |s| > 0 {
      SplitWhereCount(s[1..], c, isSep);
    }
  }

  /** The non-empty parts of a split list: Python drops empty strings from `str.split()`. */
  function NonEmpty(parts: seq<string>): (r: seq<string>)
    ensures forall k :: 0 <= k < |r| ==> |r[k]| > 0 && r[k] in parts
    ensures forall p :: p in parts && |p| > 0 ==> p in r
  {
    if |parts| == 0 then []
    else if |parts[0]| == 0 then NonEmpty(parts[1..])
    else [parts[0]] + NonEmpty(parts[1..])
  }

  /** The characters for which Python's `str.isspace()` holds. */
  predicate IsPySpace(c: char)
  {
    c == ' ' || '\t' <= c <= '\r' || '\U{1c}' <= c <= '\U{1f}' || c == '\U{85}' || c == '\U{a0}'
    || c == '\U{1680}' || '\U{2000}' <= c <= '\U{200a}' || c == '\U{2028}' || c == '\U{2029}'
    || c == '\U{202f}' || c == '\U{205f}' || c == '\U{3000}'
  }

  /** `s.split()` with no argument: the maximal runs of non-whitespace. */
  function SplitWhitespace(s: string): (r: seq<string>)
    ensures forall k :: 0 <= k < |r| ==> |r[k]| > 0 && NoSep(r[k], IsPySpace)
    ensures Concat(r) == Keep(s, IsPySpace)
  {
    ConcatNonEmpty(SplitWhere(s, IsPySpace));
    ConcatSplitWhere(s, IsPySpace);
    NonEmpty(SplitWhere(s, IsPySpace))
  }

  /** `''.join(parts)`. */
  function Concat(parts: seq<string>): string
  {
    if |parts| == 0 then "" else parts[0] + Concat(parts[1..])
  }

  /** The characters of `s` that are not separators, in order. */
  function Keep(s: string, isSep: char -> bool): (r: string)
    ensures NoSep(r, isSep) && |r| <= |s|
    ensures NoSep(s, isSep) ==> r == s
  {
    if |s| == 0 then ""
    else if isSep(s[0]) then Keep(s[1..], isSep)
    else [s[0]] + Keep(s[1..], isSep)
  }

  lemma {:induction false} ConcatNonEmpty(parts: seq<string>)
    ensures Concat(NonEmpty(parts)) == Concat(parts)
  {
    if |parts| > 0 {
      ConcatNonEmpty(parts[1..]);
      if |parts[0]| == 0 {
        assert parts[0] + Concat(parts[1..]) == Concat(parts[1..]);
      }
    }
  }

  /** Splitting and gluing the parts back together drops exactly the separators. */
  lemma {:induction false} ConcatSplitWhere(s: string, isSep: char -> bool)
    ensures Concat(SplitWhere(s, isSep)) == Keep(s, isSep)
  {
    if |s| > 0 {
      var rest := SplitWhere(s[1..], isSep);
      ConcatSplitWhere(s[1..], isSep);
      assert rest == [rest[0]] + rest[1..];
      ConcatCons(rest[0], rest[1..]);
      if isSep(s[0]) {
        assert SplitWhere(s, isSep) == [""] + rest;
        ConcatCons("", rest);
        assert Keep(s, isSep) == Keep(s[1..], isSep);
      } else {
        var first := [s[0]] + rest[0];
        assert SplitWhere(s, isSep) == [first] + rest[1..];
        ConcatCons(first, rest[1..]);
        assert Keep(s, isSep) == [s[0]] + Keep(s[1..], isSep);
        assert first + Concat(rest[1..]) == [s[0]] + (rest[0] + Concat(rest[1..]));
      }
    }
  }

  lemma ConcatCons(x: string, rest: seq<string>)
    ensures Concat([x] + rest) == x + Concat(rest)
  {
    assert ([x] + rest)[0] == x && ([x] + rest)[1..] == rest;
  }

  /** Words without whitespace, joined by single blanks, split back into the same words. */
  lemma SplitWhitespaceJoin(words: seq<string>)
    requires |words| >= 1
    requires forall k :: 0 <= k < |words| ==> |words[k]| > 0 && NoSep(words[k], IsPySpace)
    ensures SplitWhitespace(Join(" ", words)) == words
  {
    SplitJoin(words, ' ', IsPySpace);
    NonEmptyKeeps(words);
  }

  lemma {:induction false} NonEmptyKeeps(parts: seq<string>)
    requires forall k :: 0 <= k < |parts| ==> |parts[k]| > 0
    ensures NonEmpty(parts) == parts
  {
    if |parts| > 0 {
      NonEmptyKeeps(parts[1..]);
      assert NonEmpty(parts) == [parts[0]] + NonEmpty(parts[1..]);
      assert [parts[0]] + parts[1..] == parts;
    }
  }

  function CountChar(s: string, c: char): nat
  {
    if |s| == 0 then 0 else (if s[0] == c then 1 else 0) + CountChar(s[1..], c)
  }

  lemma {:induction false} CountCharConcat(a: string, b: string, c: char)
    ensures CountChar(a + b, c) == CountChar(a, c) + CountChar(b, c)
  {
    if |a| > 0 {
      CountCharConcat(a[1..], b, c);
      assert (a + b)[1..] == a[1..] + b;
    } else {
      assert a + b == b;
    }
  }

  predicate AllDigits(s: string)
  {
    forall i :: 0 <= i < |s| ==> IsDigit(s[i])
  }

  /** `''.join(ch for ch in s if is_strictly_numeric(ch))`: the ASCII digits of `s`, in order. */
  function Digits(s: string): (r: string)
    ensures AllDigits(r) && |r| <= |s|
  {
    if |s| == 0 then ""
    else if IsDigit(s[0]) then [s[0]] + Digits(s[1..])
    else Digits(s[1..])
  }

  /** An all-digit string is left as it is. */
  lemma {:induction false} DigitsOfAllDigits(s: string)
    requires AllDigits(s)
    ensures Digits(s) == s
  {
    if |s| > 0 {
      DigitsOfAllDigits(s[1..]);
      assert s == [s[0]] + s[1..];
    }
  }

  /** The filter keeps every digit as often as it occurs. */
  lemma {:induction false} DigitsCount(s: string, c: char)
    requires IsDigit(c)
    ensures CountChar(Digits(s), c) == CountChar(s, c)
  {
    if |s| > 0 {
      DigitsCount(s[1..], c);
      DigitsCons(s[0], s[1..]);
      assert s == [s[0]] + s[1..];
      CountCharConcat(if IsDigit(s[0]) then [s[0]] else "", Digits(s[1..]), c);
    }
  }

  lemma DigitsConcatStep(c: char, a: string, b: string)
    requires Digits(a + b) == Digits(a) + Digits(b)
    ensures Digits([c] + a + b) == Digits([c] + a) + Digits(b)
  {
    var head := if IsDigit(c) then [c] else "";
    calc {
      Digits([c] + a + b);
      { assert [c] + a + b == [c] + (a + b); }
      Digits([c] + (a + b));
      { DigitsCons(c, a + b); }
      head + Digits(a + b);
      head + (Digits(a) + Digits(b));
      (head + Digits(a)) + Digits(b);
      { DigitsCons(c, a); }
      Digits([c] + a) + Digits(b);
    }
  }

  lemma DigitsCons(c: char, rest: string)
    ensures Digits([c] + rest) == (if IsDigit(c) then [c] else "") + Digits(rest)
  {
    assert ([c] + rest)[0] == c && ([c] + rest)[1..] == rest;
  }

  /** The digit filter distributes over concatenation, so the digits keep their order. */
  lemma {:induction false} DigitsConcat(a: string, b: string)
    ensures Digits(a + b) == Digits(a) + Digits(b)
  {
    if |a| == 0 {
      assert a + b == b;
    } else {
      DigitsConcat(a[1..], b);
      DigitsConcatStep(a[0], a[1..], b);
      assert a == [a[0]] + a[1..];
    }
  }

  /** A single character is kept exactly when it is a digit. */
  lemma DigitsOfChar(c: char)
    ensures Digits([c]) == if IsDigit(c) then [c] else ""
  {
    assert [c][1..] == "";
  }

  function DigitValue(c: char): nat
    requires IsDigit(c)
  {
    c as int - '0' as int
  }

  function DigitChar(d: nat): (c: char)
    requires d < 10
    ensures IsDigit(c) && DigitValue(c) == d
  {
    ('0' as int + d) as char
  }

  function DecimalValue(s: string): nat
    requires AllDigits(s)
  {
    if |s| == 0 then 0 else DecimalValue(s[..|s| - 1]) * 10 + DigitValue(s[|s| - 1])
  }

  /** `int(s)` for decimal strings; anything else is a ValueError. */
  function ParseInt(s: string): (r: Result<nat>)
    ensures r.Ok? <==> |s| > 0 && AllDigits(s)
  {
    if |s| > 0 && AllDigits(s) then Ok(DecimalValue(s)) else Err(ValueError)
  }

  /** `str(n)` for a natural number. */
  function NatToString(n: nat): (s: string)
    ensures |s| > 0 && AllDigits(s)
    ensures |s| > 1 ==> s[0] != '0'
  {
    if n < 10 then [DigitChar(n)] else NatToString(n / 10) + [DigitChar(n % 10)]
  }

  /** `int(str(n)) == n`. */
  lemma {:induction false} ParseIntNatToString(n: nat)
    ensures ParseInt(NatToString(n)) == Ok(n)
  {
    if n < 10 {
      assert NatToString(n)[..0] == [];
    } else {
      ParseIntNatToString(n / 10);
      var s := NatToString(n);
      assert s[..|s| - 1] == NatToString(n / 10);
      assert DecimalValue(s[..|s| - 1]) == n / 10;
      assert DigitValue(s[|s| - 1]) == n % 10;
      assert DecimalValue(s) == (n / 10) * 10 + n % 10 == n;
    }
  }

  /** Python's `a < b` on strings: code-point lexicographic order, a proper prefix first. */
  predicate StrLess(a: string, b: string)
  {
    if |a| == 0 then |b| > 0
    else if |b| == 0 then false
    else if a[0] != b[0] then a[0] < b[0]
    else StrLess(a[1..], b[1..])
  }

  lemma {:induction false} StrLessIrreflexive(a: string)
    ensures !StrLess(a, a)
  {
    if |a| > 0 {
      StrLessIrreflexive(a[1..]);
    }
  }

  lemma {:induction false} StrLessTransitive(a: string, b: string, c: string)
    requires StrLess(a, b) && StrLess(b, c)
    ensures StrLess(a, c)
  {
    if |a| > 0 && |b| > 0 && |c| > 0 && a[0] == b[0] && b[0] == c[0] {
      StrLessTransitive(a[1..], b[1..], c[1..]);
    }
  }

  lemma {:induction false} StrLessTotal(a: string, b: string)
    requires a != b
    ensures StrLess(a, b) || StrLess(b, a)
  {
    if |a| > 0 && |b| > 0 && a[0] == b[0] {
      assert a == [a[0]] + a[1..] && b == [b[0]] + b[1..];
      StrLessTotal(a[1..], b[1..]);
    }
  }

  /** Python's `max(xs)` over strings: the first element no other element exceeds. */
  function MaxString(xs: seq<string>): (r: string)
    requires |xs| > 0
    ensures r in xs
    ensures forall x :: x in xs ==> !StrLess(r, x)
  {
    if |xs| == 1 then
      StrLessIrreflexive(xs[0]);
      xs[0]
    else
      var m := MaxString(xs[..|xs| - 1]);
      var last := xs[|xs| - 1];
      assert forall x :: x in xs ==> x in xs[..|xs| - 1] || x == last;
      if StrLess(m, last) then
        assert forall x :: x in xs[..|xs| - 1] && StrLess(last, x) ==> StrLess(m, x) by {
          forall x | x in xs[..|xs| - 1] && StrLess(last, x) ensures StrLess(m, x) {
            StrLessTransitive(m, last, x);
          }
        }
        StrLessIrreflexive(last);
        last
      else
        m
  }
}
