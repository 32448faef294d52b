/** Token predicates and the month tables of the extractor (extract-CFP.py:9-12, 377-390).
    A regular expression anchored with `$` also accepts one trailing newline, as Python's does. */
module Tokens {
  import opened Wrappers
  import opened PyText

  /** `re.match("[a-zA-Z0-9]+", t)`: the first character is an ASCII letter or digit. */
  predicate IsAlphanumeric(t: string)
  {
    |t| > 0 && (IsUpper(t[0]) || IsLower(t[0]) || IsDigit(t[0]))
  }

  /** `re.match("[0-9]+(st|nd|rd|th)*", t)`: the first character is a digit. */
  predicate IsNumeric(t: string)
  {
    |t| > 0 && IsDigit(t[0])
  }

  /** `re.match('^([0-9]+)$', t)`: one or more digits, optionally followed by a final newline. */
  predicate IsStrictlyNumeric(t: string)
  {
    (|t| > 0 && AllDigits(t)) || (|t| > 1 && t[|t| - 1] == '\n' && AllDigits(t[..|t| - 1]))
  }

  predicate IsYearDigits(t: string)
  {
    |t| == 4 && '1' <= t[0] <= '2' && AllDigits(t)
  }

  /** `re.match('^([1-2][0-9]{3})$', t)`: four digits starting with 1 or 2, optionally followed by a final newline. */
  predicate IsYear(t: string)
  {
    IsYearDigits(t) || (|t| == 5 && t[4] == '\n' && IsYearDigits(t[..4]))
  }

  /** How the four predicates nest. */
  lemma PredicatesNest(t: string)
    ensures IsYear(t) ==> IsStrictlyNumeric(t)
    ensures IsStrictlyNumeric(t) ==> IsNumeric(t)
    ensures IsNumeric(t) ==> IsAlphanumeric(t)
    ensures IsYear(t) ==> |t| == 4 || (|t| == 5 && t[4] == '\n')
  {
    if IsStrictlyNumeric(t) && !AllDigits(t) {
      assert IsDigit(t[..|t| - 1][0]);
    }
  }

  /** The alphanumeric tokens of a token list, in order (extract-CFP.py:219). */
  function Alphanumerics(words: seq<string>): (r: seq<string>)
    ensures |r| <= |words|
    ensures forall k :: 0 <= k < |r| ==> IsAlphanumeric(r[k])
  {
    if |words| == 0 then []
    else if IsAlphanumeric(words[0]) then [words[0]] + Alphanumerics(words[1..])
    else Alphanumerics(words[1..])
  }

  /** The filter distributes over concatenation, so it keeps the order of the tokens. */
  lemma {:induction false} AlphanumericsConcat(a: seq<string>, b: seq<string>)
    ensures Alphanumerics(a + b) == Alphanumerics(a) + Alphanumerics(b)
  {
    if |a| == 0 {
      assert a + b == b;
    } else {
      AlphanumericsConcat(a[1..], b);
      assert a + b == [a[0]] + (a[1..] + b);
      assert a == [a[0]] + a[1..];
      AlphanumericsCons(a[0], a[1..] + b);
      AlphanumericsCons(a[0], a[1..]);
      var head, x, y := if IsAlphanumeric(a[0]) then [a[0]] else [], Alphanumerics(a[1..]), Alphanumerics(b);
      assert head + (x + y) == (head + x) + y;
    }
  }

  /** The filter keeps exactly the alphanumeric tokens. */
  lemma {:induction false} AlphanumericsMembers(words: seq<string>)
    ensures forall w :: w in Alphanumerics(words) <==> w in words && IsAlphanumeric(w)
  {
    if |words| > 0 {
      AlphanumericsMembers(words[1..]);
      assert words == [words[0]] + words[1..];
      AlphanumericsCons(words[0], words[1..]);
    }
  }

  lemma AlphanumericsCons(w: string, rest: seq<string>)
    ensures Alphanumerics([w] + rest) == (if IsAlphanumeric(w) then [w] else []) + Alphanumerics(rest)
  {
    assert ([w] + rest)[0] == w && ([w] + rest)[1..] == rest;
  }

  /** A single token is kept exactly when it is alphanumeric, so every alphanumeric token is
      kept as often as it occurs. */
  lemma AlphanumericsOfToken(w: string)
    ensures Alphanumerics([w]) == if IsAlphanumeric(w) then [w] else []
  {
    assert [w][1..] == [];
  }

  /** `MONTHS`: the lower-case English month names. */
  const Months: set<string> := {"january", "february", "march", "april", "may", "june", "july",
                                 "august", "september", "october", "november", "december"}

  /** `month[0].upper() + month[1:]`. */
  function Capitalize(s: string): string
  {
    if |s| == 0 then "" else [UpperChar(s[0])] + s[1..]
  }

  /** `MONTH_ABBREVS`: the first three letters of each month name, mapped to the capitalised name. */
  const MonthAbbrevs: map<string, string> := map[
    "jan" := Capitalize("january"), "feb" := Capitalize("february"), "mar" := Capitalize("march"),
    "apr" := Capitalize("april"), "may" := Capitalize("may"), "jun" := Capitalize("june"),
    "jul" := Capitalize("july"), "aug" := Capitalize("august"), "sep" := Capitalize("september"),
    "oct" := Capitalize("october"), "nov" := Capitalize("november"), "dec" := Capitalize("december")]

  /** The table written out above is the comprehension of extract-CFP.py:12 over `Months`. */
  lemma MonthAbbrevOf(m: string)
    requires m in Months
    ensures |m| >= 3 && m[..3] in MonthAbbrevs && MonthAbbrevs[m[..3]] == Capitalize(m)
  {
    if m == "january" { assert m[..3] == "jan"; }
    else if m == "february" { assert m[..3] == "feb"; }
    else if m == "march" { assert m[..3] == "mar"; }
    else if m == "april" { assert m[..3] == "apr"; }
    else if m == "may" { assert m[..3] == "may"; }
    else if m == "june" { assert m[..3] == "jun"; }
    else if m == "july" { assert m[..3] == "jul"; }
    else if m == "august" { assert m[..3] == "aug"; }
    else if m == "september" { assert m[..3] == "sep"; }
    else if m == "october" { assert m[..3] == "oct"; }
    else if m == "november" { assert m[..3] == "nov"; }
    else { assert m[..3] == "dec"; }
  }

  lemma AbbrevIsMonthPrefix(a: string)
    requires a in MonthAbbrevs
    ensures exists m :: m in Months && m[..3] == a
  {
    var m :| m in Months && m[..3] == a by {
      if a == "jan" { assert "january"[..3] == a; }
      else if a == "feb" { assert "february"[..3] == a; }
      else if a == "mar" { assert "march"[..3] == a; }
      else if a == "apr" { assert "april"[..3] == a; }
      else if a == "may" { assert "may"[..3] == a; }
      else if a == "jun" { assert "june"[..3] == a; }
      else if a == "jul" { assert "july"[..3] == a; }
      else if a == "aug" { assert "august"[..3] == a; }
      else if a == "sep" { assert "september"[..3] == a; }
      else if a == "oct" { assert "october"[..3] == a; }
      else if a == "nov" { assert "november"[..3] == a; }
      else { assert "december"[..3] == a; }
    }
  }

  /** The month-word recognition of `normalize_date` for a lower-cased, non-numeric token
      (extract-CFP.py:101-108): an abbreviation or a full name, each possibly with one trailing character. */
  function MonthWord(t: string): (r: Option<string>)
    ensures r.Some? ==> r.value in MonthAbbrevs.Values
    ensures r.None? <==> t !in MonthAbbrevs && DropLast(t) !in MonthAbbrevs && t !in Months && DropLast(t) !in Months
  {
    if t in MonthAbbrevs then Some(MonthAbbrevs[t])
    else if DropLast(t) in MonthAbbrevs then Some(MonthAbbrevs[DropLast(t)])
    else if t in Months then
      MonthAbbrevOf(t);
      assert MonthAbbrevs[t[..3]] == Capitalize(t);
      Some(Capitalize(t))
    else if DropLast(t) in Months then
      var d := DropLast(t);
      MonthAbbrevOf(d);
      assert MonthAbbrevs[d[..3]] == Capitalize(d);
      assert Capitalize(d) == [UpperChar(t[0])] + t[1..|t| - 1];
      Some([UpperChar(t[0])] + t[1..|t| - 1])
    else None
  }

  /** A recognised word yields the capitalised name of the month it names: the word, or the
      word without its last character, is that month's name or its three-letter abbreviation. */
  lemma MonthWordNamesMonth(t: string)
    ensures MonthWord(t).Some? ==>
      exists m :: m in Months && MonthWord(t).value == Capitalize(m) &&
        (t == m || DropLast(t) == m || t == m[..3] || DropLast(t) == m[..3])
  {
    if t in MonthAbbrevs {
      AbbrevIsMonthPrefix(t);
      var m :| m in Months && m[..3] == t;
      MonthAbbrevOf(m);
    } else if DropLast(t) in MonthAbbrevs {
      AbbrevIsMonthPrefix(DropLast(t));
      var m :| m in Months && m[..3] == DropLast(t);
      MonthAbbrevOf(m);
    } else if t in Months {
      assert MonthWord(t).value == Capitalize(t);
    } else if DropLast(t) in Months {
      assert MonthWord(t).value == Capitalize(DropLast(t));
    }
  }

  lemma MonthWordAbbreviated()
    ensures MonthWord("jan") == Some("January")
    ensures MonthWord("jan.") == Some("January")
  {
    assert DropLast("jan.") == "jan";
    assert UpperChar('j') == 'J';
    assert Capitalize("january") == "January";
  }

  lemma MonthWordFullName()
    ensures MonthWord("marchs") == Some("March")
  {
    assert DropLast("marchs") == "march";
    assert "marchs" !in MonthAbbrevs && "march" !in MonthAbbrevs && "marchs" !in Months;
    assert UpperChar('m') == 'M' && "marchs"[1..5] == "arch";
    assert [UpperChar('m')] + "marchs"[1..5] == "March";
  }
}
