/** `normalize_date` (extract-CFP.py:94-146): one date mention, given as its tokens, becomes a
    partial `[month, day, year]`. */
module Normalize {
  import opened Wrappers
  import opened PyText
  import opened Tokens
  import opened Dates

  /** The loop's three running variables; the day is still text until the end. */
  datatype Fields = Fields(month: Option<string>, day: Option<string>, year: Option<string>)

  const NoFields := Fields(None, None, None)

  predicate IsDateSep(c: char) { c == '-' || c == '/' }

  /** `len([char for char in t if char in ('-', '/')])`. */
  function SepCount(t: string): nat
  {
    if |t| == 0 then 0 else (if IsDateSep(t[0]) then 1 else 0) + SepCount(t[1..])
  }

  /** The parts between separators, as `re.split('(-|/)', t)` gives them once the separators are dropped. */
  function Parts(t: string): (r: seq<string>)
    ensures |r| == SepCount(t) + 1
    ensures forall k :: 0 <= k < |r| ==> NoSep(r[k], IsDateSep)
  {
    PartsCount(t);
    SplitWhere(t, IsDateSep)
  }

  lemma {:induction false} PartsCount(t: string)
    ensures |SplitWhere(t, IsDateSep)| == SepCount(t) + 1
  {
    if |t| > 0 {
      PartsCount(t[1..]);
    }
  }

  /** The two-separator branch (extract-CFP.py:127-141). It overwrites all three fields; `int()`
      of the middle and of the left part may raise. */
  function TripleStep(l: string, m: string, r: string): Result<Fields>
  {
    if |l| == 4 then Ok(Fields(Some(m), Some(r), Some(l)))
    else if |r| == 4 then
      match ParseInt(m)
      case Err(e) => Err(e)
      case Ok(mv) =>
        if mv > 12 then Ok(Fields(Some(l), Some(m), Some(r)))
        else
          match ParseInt(l)
          case Err(e) => Err(e)
          case Ok(lv) =>
            if lv > 12 then Ok(Fields(Some(m), Some(l), Some(r)))
            else Ok(Fields(Some(l), Some(m), Some(r)))
    else Ok(Fields(Some(l), Some(m), Some(r)))
  }

  /** The branch for a numeric token without separators (extract-CFP.py:111-122). */
  function PlainStep(f: Fields, t: string): Fields
    requires IsNumeric(t)
  {
    if |t| == 4 then
      if IsNumeric(t[3..]) && f.year.None? then f.(year := Some(t))
      else if !IsNumeric(t[3..]) && f.day.None? then f.(day := Some(Digits(t)))
      else f
    else if 1 <= |t| <= 2 && f.day.None? then f.(day := Some(t))
    else if |t| == 3 && f.day.None? then
      if IsStrictlyNumeric(t[..1]) then f.(day := Some(t[..1])) else f
    else f
  }

  /** The branch for a numeric token with one separator, read as a range of days (extract-CFP.py:123-126). */
  function RangeStep(f: Fields, t: string): Fields
  {
    var first := Parts(t)[0];
    if 1 <= |first| <= 2 && IsStrictlyNumeric(first) && f.day.None? then f.(day := Some(first)) else f
  }

  /** One iteration of the loop over the tokens of the mention. */
  function Step(f: Fields, token: string): Result<Fields>
  {
    var t := Lower(token);
    if !IsNumeric(t) && f.month.None? then
      match MonthWord(t)
      case Some(m) => Ok(f.(month := Some(m)))
      case None => Ok(f)
    else if IsNumeric(t) then
      if SepCount(t) == 0 then Ok(PlainStep(f, t))
      else if SepCount(t) == 1 then Ok(RangeStep(f, t))
      else if SepCount(t) == 2 then
        var p := Parts(t);
        TripleStep(p[0], p[1], p[2])
      else Ok(f)
    else Ok(f)
  }

  /** The running variables after the first `k` tokens. */
  function FoldUpTo(tokens: seq<string>, k: nat): Result<Fields>
    requires k <= |tokens|
  {
    if k == 0 then Ok(NoFields)
    else
      match FoldUpTo(tokens, k - 1)
      case Err(e) => Err(e)
      case Ok(f) => Step(f, tokens[k - 1])
  }

  /** The final conversion: the day keeps only its digits and goes through `int()` (extract-CFP.py:143-146). */
  function Finish(f: Fields): Result<Date>
  {
    match f.day
    case None => Ok(Date(f.month, None, f.year))
    case Some(d) =>
      match ParseInt(Digits(d))
      case Err(e) => Err(e)
      case Ok(v) => Ok(Date(f.month, Some(v), f.year))
  }

  /** The whole of `normalize_date` as a function of the mention's tokens. */
  function NormalizeDate(tokens: seq<string>): Result<Date>
  {
    match FoldUpTo(tokens, |tokens|)
    case Err(e) => Err(e)
    case Ok(f) => Finish(f)
  }

  lemma {:induction false} FoldErrorSticks(tokens: seq<string>, k: nat, k': nat)
    requires k <= k' <= |tokens|
    requires FoldUpTo(tokens, k).Err?
    ensures FoldUpTo(tokens, k') == FoldUpTo(tokens, k)
  {
    if k < k' {
      FoldErrorSticks(tokens, k, k' - 1);
    }
  }

  /** The loop of extract-CFP.py:95-146. */
  method Normalize(date: seq<string>) returns (r: Result<Date>)
    ensures r == NormalizeDate(date)
  {
    var month: Option<string>, day: Option<string>, year: Option<string> := None, None, None;
    for i := 0 to |date|
      invariant FoldUpTo(date, i) == Ok(Fields(month, day, year))
    {
      var next := StepToken(Fields(month, day, year), date[i]);
      if next.Err? {
        FoldErrorSticks(date, i + 1, |date|);
        return Err(next.error);
      }
      month, day, year := next.value.month, next.value.day, next.value.year;
    }
    var dayValue: Option<nat> := None;
    if day.Some? {
      day := Some(Digits(day.value));
      var v := ParseInt(day.value);
      if v.Err? {
        return Err(v.error);
      }
      dayValue := Some(v.value);
    }
    r := Ok(Date(month, dayValue, year));
  }

  /** One pass of the loop body (extract-CFP.py:98-141), statement by statement. */
  method StepToken(f: Fields, raw: string) returns (r: Result<Fields>)
    ensures r == Step(f, raw)
  {
    var month, day, year := f.month, f.day, f.year;
    var token := Lower(raw);
    if !IsNumeric(token) && month.None? {
      if token in MonthAbbrevs {
        month := Some(MonthAbbrevs[token]);
      } else if DropLast(token) in MonthAbbrevs {
        month := Some(MonthAbbrevs[DropLast(token)]);
      } else if token in Months {
        month := Some([UpperChar(token[0])] + token[1..]);
      } else if DropLast(token) in Months {
        month := Some([UpperChar(token[0])] + token[1..|token| - 1]);
      }
      return Ok(Fields(month, day, year));
    } else if IsNumeric(token) {
      var seps := SepCount(token);
      if seps == 0 {
        if |token| == 4 {
          if IsNumeric(token[3..]) && year.None? {
            year := Some(token);
          } else if !IsNumeric(token[3..]) && day.None? {
            day := Some(Digits(token));
          }
        } else if 1 <= |token| <= 2 && day.None? {
          day := Some(token);
        } else if |token| == 3 && day.None? {
          if IsStrictlyNumeric(token[..1]) {
            day := Some(token[..1]);
          }
        }
        return Ok(Fields(month, day, year));
      } else if seps == 1 {
        token := Parts(token)[0];
        if 1 <= |token| <= 2 && IsStrictlyNumeric(token) && day.None? {
          day := Some(token);
        }
        return Ok(Fields(month, day, year));
      } else if seps == 2 {
        r := TwoSeparators(token);
        return;
      }
    }
    r := Ok(Fields(month, day, year));
  }

  /** The two-separator branch (extract-CFP.py:127-141) on the lower-cased token. */
  method TwoSeparators(token: string) returns (r: Result<Fields>)
    requires SepCount(token) == 2
    ensures var p := Parts(token); r == TripleStep(p[0], p[1], p[2])
  {
    var parts := Parts(token);
    var left, middle, right := parts[0], parts[1], parts[2];
    if |left| == 4 {
      return Ok(Fields(Some(middle), Some(right), Some(left)));
    } else if |right| == 4 {
      var mv := ParseInt(middle);
      if mv.Err? {
        return Err(mv.error);
      }
      if mv.value > 12 {
        return Ok(Fields(Some(left), Some(middle), Some(right)));
      }
      var lv := ParseInt(left);
      if lv.Err? {
        return Err(lv.error);
      }
      if lv.value > 12 {
        return Ok(Fields(Some(middle), Some(left), Some(right)));
      }
      return Ok(Fields(Some(left), Some(middle), Some(right)));
    }
    r := Ok(Fields(Some(left), Some(middle), Some(right)));
  }

  /** A token that is not of the `a/b/c` kind never changes a field that is already set, and never raises. */
  lemma StepFillsOnce(f: Fields, token: string)
    requires SepCount(Lower(token)) != 2
    ensures Step(f, token).Ok?
    ensures f.month.Some? ==> Step(f, token).value.month == f.month
    ensures f.day.Some? ==> Step(f, token).value.day == f.day
    ensures f.year.Some? ==> Step(f, token).value.year == f.year
    ensures DayReadable(f) ==> DayReadable(Step(f, token).value)
  {
    var t := Lower(token);
    if IsNumeric(t) {
      DigitsOfNumeric(t);
      if |t| == 3 && IsStrictlyNumeric(t[..1]) {
        DigitsOfNumeric(t[..1]);
      }
      if SepCount(t) == 1 {
        var first := Parts(t)[0];
        if IsStrictlyNumeric(first) {
          PredicatesNest(first);
          DigitsOfNumeric(first);
        }
      }
    }
  }

  /** A set day keeps at least one digit, so the final `int()` cannot fail on it. */
  predicate DayReadable(f: Fields)
  {
    f.day.Some? ==> |Digits(f.day.value)| > 0
  }

  lemma DigitsOfNumeric(t: string)
    requires IsNumeric(t)
    ensures |Digits(t)| > 0
  {
  }

  /** No token of the mention has exactly two separators. */
  predicate NoTriple(tokens: seq<string>)
  {
    forall k :: 0 <= k < |tokens| ==> SepCount(Lower(tokens[k])) != 2
  }

  /** Without `a/b/c` tokens every field is filled at most once: a field set after `k` tokens
      keeps its value after any later `k'` tokens. */
  lemma {:induction false} FoldFillsOnce(tokens: seq<string>, k: nat, k': nat)
    requires NoTriple(tokens) && k <= k' <= |tokens|
    ensures FoldUpTo(tokens, k).Ok? && FoldUpTo(tokens, k').Ok?
    ensures DayReadable(FoldUpTo(tokens, k').value)
    ensures FoldUpTo(tokens, k).value.month.Some? ==> FoldUpTo(tokens, k').value.month == FoldUpTo(tokens, k).value.month
    ensures FoldUpTo(tokens, k).value.day.Some? ==> FoldUpTo(tokens, k').value.day == FoldUpTo(tokens, k).value.day
    ensures FoldUpTo(tokens, k).value.year.Some? ==> FoldUpTo(tokens, k').value.year == FoldUpTo(tokens, k).value.year
  {
    if k' > 0 {
      FoldFillsOnce(tokens, if k < k' then k else k' - 1, k' - 1);
      StepFillsOnce(FoldUpTo(tokens, k' - 1).value, tokens[k' - 1]);
    }
  }

  /** Without `a/b/c` tokens normalisation never raises, and each part of the result is the
      value its field first received. */
  lemma NormalizeNoTriple(tokens: seq<string>)
    requires NoTriple(tokens)
    ensures NormalizeDate(tokens).Ok?
    ensures NormalizeDate(tokens).value.month == FoldUpTo(tokens, |tokens|).value.month
    ensures NormalizeDate(tokens).value.year == FoldUpTo(tokens, |tokens|).value.year
    ensures NormalizeDate(tokens).value.day.Some? <==> FoldUpTo(tokens, |tokens|).value.day.Some?
    ensures var d := FoldUpTo(tokens, |tokens|).value.day;
      d.Some? ==> ParseInt(Digits(d.value)).Ok? && NormalizeDate(tokens).value.day == Some(ParseInt(Digits(d.value)).value)
  {
    FoldFillsOnce(tokens, |tokens|, |tokens|);
    var f := FoldUpTo(tokens, |tokens|).value;
    FinishReadable(f);
    assert NormalizeDate(tokens) == Finish(f);
  }

  /** Finishing fields whose day holds a digit keeps month and year and parses the day's digits. */
  lemma FinishReadable(f: Fields)
    requires DayReadable(f)
    ensures Finish(f).Ok? && Finish(f).value.month == f.month && Finish(f).value.year == f.year
    ensures Finish(f).value.day.Some? <==> f.day.Some?
    ensures f.day.Some? ==> ParseInt(Digits(f.day.value)).Ok? && Finish(f).value.day == Some(ParseInt(Digits(f.day.value)).value)
  {
  }

  /** The two-separator rule for a token `left SEP middle SEP right` (after lower-casing): all three
      fields are overwritten, the month stays the raw part, and `int()` of a non-decimal middle
      (or left, when it is consulted) raises. */
  lemma TwoSeparatorRule(f: Fields, token: string, l: string, c1: char, m: string, c2: char, r: string)
    requires Lower(token) == l + [c1] + m + [c2] + r
    requires IsDateSep(c1) && IsDateSep(c2) && NoSep(l, IsDateSep) && NoSep(m, IsDateSep) && NoSep(r, IsDateSep)
    requires |l| > 0 && IsDigit(l[0])
    ensures |l| == 4 ==> Step(f, token) == Ok(Fields(Some(m), Some(r), Some(l)))
    ensures |l| != 4 && |r| != 4 ==> Step(f, token) == Ok(Fields(Some(l), Some(m), Some(r)))
    ensures |l| != 4 && |r| == 4 && ParseInt(m).Err? ==> Step(f, token) == Err(ValueError)
    ensures |l| != 4 && |r| == 4 && ParseInt(m).Ok? && ParseInt(m).value <= 12 && ParseInt(l).Err? ==>
      Step(f, token) == Err(ValueError)
    ensures |l| != 4 && |r| == 4 && ParseInt(m).Ok? && ParseInt(m).value > 12 ==>
      Step(f, token) == Ok(Fields(Some(l), Some(m), Some(r)))
    ensures |l| != 4 && |r| == 4 && ParseInt(m).Ok? && ParseInt(m).value <= 12 && ParseInt(l).Ok? && ParseInt(l).value > 12 ==>
      Step(f, token) == Ok(Fields(Some(m), Some(l), Some(r)))
    ensures |l| != 4 && |r| == 4 && ParseInt(m).Ok? && ParseInt(m).value <= 12 && ParseInt(l).Ok? && ParseInt(l).value <= 12 ==>
      Step(f, token) == Ok(Fields(Some(l), Some(m), Some(r)))
  {
    ThreeParts(Lower(token), l, c1, m, c2, r);
    assert Step(f, token) == TripleStep(l, m, r);
  }

  /** A token `l SEP m SEP r` that starts with a digit is numeric, has two separators and
      splits into `[l, m, r]`. */
  lemma ThreeParts(t: string, l: string, c1: char, m: string, c2: char, r: string)
    requires t == l + [c1] + m + [c2] + r
    requires IsDateSep(c1) && IsDateSep(c2) && NoSep(l, IsDateSep) && NoSep(m, IsDateSep) && NoSep(r, IsDateSep)
    requires |l| > 0 && IsDigit(l[0])
    ensures IsNumeric(t) && SepCount(t) == 2 && Parts(t) == [l, m, r]
  {
    SplitWhereAtSep(l, c1, m + [c2] + r, IsDateSep);
    assert t == l + [c1] + (m + [c2] + r);
    SplitWhereAtSep(m, c2, r, IsDateSep);
    SplitWhereNoSep(r, IsDateSep);
    assert Parts(t) == [l, m, r];
    assert t[0] == l[0];
  }

  lemma LowerOfLower(s: string)
    requires forall i :: 0 <= i < |s| ==> !IsUpper(s[i])
    ensures Lower(s) == s
  {
  }

  lemma TwoDigitValue(s: string)
    requires |s| == 2 && AllDigits(s)
    ensures ParseInt(s) == Ok(DigitValue(s[0]) * 10 + DigitValue(s[1]))
  {
    assert s[..1][..0] == [] && s[..1][0] == s[0];
    assert DecimalValue(s[..1]) == DigitValue(s[0]);
  }

  lemma NormalizeOneToken(t: string)
    ensures NormalizeDate([t]) == match Step(NoFields, t) case Err(e) => Err(e) case Ok(f) => Finish(f)
  {
    assert FoldUpTo([t], 1) == Step(NoFields, t);
  }

  /** `["Jan", "15", "2020"]` gives `["January", 15, "2020"]`. */
  lemma NormalizeMonthDayYear()
    ensures NormalizeDate(["Jan", "15", "2020"]) == Ok(Date(Some("January"), Some(15), Some("2020")))
  {
    var tokens := ["Jan", "15", "2020"];
    assert LowerChar('J') == 'j';
    assert Lower("Jan") == "jan";
    MonthWordAbbreviated();
    assert FoldUpTo(tokens, 1) == Ok(Fields(Some("January"), None, None));
    LowerOfLower("15");
    assert SepCount("15") == 0;
    assert FoldUpTo(tokens, 2) == Ok(Fields(Some("January"), Some("15"), None));
    LowerOfLower("2020");
    assert SepCount("2020") == 0;
    assert FoldUpTo(tokens, 3) == Ok(Fields(Some("January"), Some("15"), Some("2020")));
    assert Digits("15") == "15";
    TwoDigitValue("15");
  }

  /** `["03/14/2021"]` gives `["03", 14, "2021"]`: the month is left as the numeric string. */
  lemma NormalizeSlashDate(token: string)
    requires token == "03/14/2021"
    ensures NormalizeDate([token]) == Ok(Date(Some("03"), Some(14), Some("2021")))
  {
    NormalizeOneToken(token);
    SlashDateParts(token);
    TwoSeparatorRule(NoFields, token, "03", '/', "14", '/', "2021");
    var f := Fields(Some("03"), Some("14"), Some("2021"));
    assert Step(NoFields, token) == Ok(f);
    assert Finish(f) == Ok(Date(Some("03"), Some(14), Some("2021"))) by {
      assert Digits("14") == "14";
    }
  }

  /** `"12-Mar-2020"` lower-cases to `"12-mar-2020"`, whose middle part is not a number. */
  lemma NamedMonthParts(token: string)
    requires token == "12-Mar-2020"
    ensures Lower(token) == "12" + ['-'] + "mar" + ['-'] + "2020"
    ensures ParseInt("mar") == Err(ValueError)
    ensures NoSep("12", IsDateSep) && NoSep("mar", IsDateSep) && NoSep("2020", IsDateSep)
  {
    LowerNamedMonth(token);
    assert "12-mar-2020" == "12" + ['-'] + "mar" + ['-'] + "2020";
    assert "mar"[0] == 'm' && !IsDigit('m') && !AllDigits("mar");
  }

  /** Lower-casing changes only the capital of the month name. */
  lemma LowerNamedMonth(token: string)
    requires token == "12-Mar-2020"
    ensures Lower(token) == "12-mar-2020"
  {
    assert LowerChar('M') == 'm';
  }

  /** `"03/14/2021"` is already lower case and splits at its two slashes into digit runs. */
  lemma SlashDateParts(token: string)
    requires token == "03/14/2021"
    ensures Lower(token) == "03" + ['/'] + "14" + ['/'] + "2021"
    ensures ParseInt("14") == Ok(14)
    ensures NoSep("03", IsDateSep) && NoSep("14", IsDateSep) && NoSep("2021", IsDateSep)
  {
    LowerSlashDate(token);
    assert "03/14/2021" == "03" + ['/'] + "14" + ['/'] + "2021";
    TwoDigitValue("14");
  }

  /** A token without capitals is its own lower-case form. */
  lemma LowerSlashDate(token: string)
    requires token == "03/14/2021"
    ensures Lower(token) == "03/14/2021"
  {
    LowerOfLower(token);
  }

  /** A month name between the separators makes `int()` raise: `["12-Mar-2020"]` is a ValueError. */
  lemma NormalizeNamedMonthRaises(token: string)
    requires token == "12-Mar-2020"
    ensures NormalizeDate([token]) == Err(ValueError)
  {
    NormalizeOneToken(token);
    NamedMonthParts(token);
    TwoSeparatorRule(NoFields, token, "12", '-', "mar", '-', "2020");
  }
}
