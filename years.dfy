/** Year back-fill (`update_years`, extract-CFP.py:242-250): a date found without a year gets
    the most recent year in the e-mail, by Python's string `max`. */
module Years {
  import opened Wrappers
  import opened PyText
  import opened Tokens
  import opened Dates
  import opened Slots

  predicate HasYear(slot: Option<Date>)
  {
    slot.Some? && slot.value.year.Some?
  }

  /** `[date[2] for date in conf_dates if date is not None and date[2] is not None]`. */
  function SlotYears(slots: seq<Option<Date>>): (r: seq<string>)
    ensures forall y :: y in r <==> exists k :: 0 <= k < |slots| && HasYear(slots[k]) && slots[k].value.year.value == y
  {
    if |slots| == 0 then []
    else
      var init := slots[..|slots| - 1];
      var last := slots[|slots| - 1];
      assert forall k :: 0 <= k < |init| ==> init[k] == slots[k];
      SlotYears(init) + if HasYear(last) then [last.value.year.value] else []
  }

  /** `[year for year in alphanumerics if is_year(year)]`. */
  function YearTokens(words: seq<string>): (r: seq<string>)
    ensures forall y :: y in r <==> y in words && IsYear(y)
  {
    if |words| == 0 then []
    else
      var init := words[..|words| - 1];
      var last := words[|words| - 1];
      assert words == init + [last];
      YearTokens(init) + if IsYear(last) then [last] else []
  }

  /** `most_recent_year`: the string-max of the slot years, or of the year tokens when no
      slot has a year; `None` when both are empty. */
  function MostRecentYear(slots: seq<Option<Date>>, words: seq<string>): Option<string>
  {
    var years := if |SlotYears(slots)| == 0 then YearTokens(words) else SlotYears(slots);
    if |years| > 0 then Some(MaxString(years)) else None
  }

  /** One slot after the back-fill. */
  function FillSlot(slot: Option<Date>, year: Option<string>): Option<Date>
  {
    match slot
    case None => None
    case Some(d) => if d.year.None? then Some(d.(year := year)) else slot
  }

  /** The slots after `update_years(slots, words)`. */
  function FillYears(slots: seq<Option<Date>>, words: seq<string>): (r: seq<Option<Date>>)
    ensures |r| == |slots|
  {
    var year := MostRecentYear(slots, words);
    seq(|slots|, k requires 0 <= k < |slots| => FillSlot(slots[k], year))
  }

  /** `update_years`: writes the year of every slot that has a date but no year. */
  method UpdateYears(conf: array<Option<Date>>, alphanumerics: seq<string>)
    requires conf.Length == SlotCount
    modifies conf
    ensures conf[..] == FillYears(old(conf[..]), alphanumerics)
  {
    var years := SlotYears(conf[..]);
    if |years| == 0 {
      years := YearTokens(alphanumerics);
    }
    var mostRecentYear := if |years| > 0 then Some(MaxString(years)) else None;
    ghost var slots := conf[..];
    assert mostRecentYear == MostRecentYear(slots, alphanumerics);
    for k := 0 to conf.Length
      invariant forall j :: 0 <= j < k ==> conf[j] == FillSlot(slots[j], mostRecentYear)
      invariant forall j :: k <= j < conf.Length ==> conf[j] == slots[j]
    {
      if conf[k].Some? && conf[k].value.year.None? {
        conf[k] := Some(conf[k].value.(year := mostRecentYear));
      }
    }
  }

  /** Only missing years change: empty slots stay empty, months and days are untouched, a
      present year is kept, and every missing year gets the same value. */
  lemma FillYearsChangesOnlyMissingYears(slots: seq<Option<Date>>, words: seq<string>)
    ensures var r := FillYears(slots, words);
      forall k :: 0 <= k < |slots| ==>
        r[k].Some? == slots[k].Some? &&
        (slots[k].Some? ==>
          r[k].value.month == slots[k].value.month && r[k].value.day == slots[k].value.day &&
          (slots[k].value.year.Some? ==> r[k].value.year == slots[k].value.year) &&
          (slots[k].value.year.None? ==> r[k].value.year == MostRecentYear(slots, words)))
  {
  }

  /** When some slot has a year, the filled-in year is one of the slot years and no slot year
      is greater. */
  lemma MostRecentFromSlots(slots: seq<Option<Date>>, words: seq<string>, k: nat)
    requires k < |slots| && HasYear(slots[k])
    ensures var y := MostRecentYear(slots, words);
      y.Some? &&
      (exists j :: 0 <= j < |slots| && HasYear(slots[j]) && slots[j].value.year == y) &&
      forall j :: 0 <= j < |slots| && HasYear(slots[j]) ==> !StrLess(y.value, slots[j].value.year.value)
  {
    var ys := SlotYears(slots);
    assert slots[k].value.year.value in ys;
    var y := MaxString(ys);
    assert y in ys;
    forall j | 0 <= j < |slots| && HasYear(slots[j])
      ensures !StrLess(y, slots[j].value.year.value)
    {
      assert slots[j].value.year.value in ys;
    }
  }

  /** Only when no slot has a year do the year tokens of the text count: then the filled-in
      year is the greatest of them, or `None` when there is none. */
  lemma MostRecentFromTokens(slots: seq<Option<Date>>, words: seq<string>)
    requires forall k :: 0 <= k < |slots| ==> !HasYear(slots[k])
    ensures var y := MostRecentYear(slots, words);
      (y.Some? <==> exists w :: w in words && IsYear(w)) &&
      (y.Some? ==>
        y.value in words && IsYear(y.value) && forall w :: w in words && IsYear(w) ==> !StrLess(y.value, w))
  {
    var ys := SlotYears(slots);
    var ts := YearTokens(words);
    if exists w :: w in words && IsYear(w) {
      var w :| w in words && IsYear(w);
      assert w in ts;
    }
  }

  /** Python's `max` is lexicographic: a two-digit year such as "21" (the right part of a
      token like "03/14/21") beats "2020". */
  lemma MaxIsLexicographic(a: string, b: string)
    requires a == "2020" && b == "21"
    ensures MaxString([a, b]) == b
  {
    assert a[1] < b[1];
    assert StrLess(a[1..], b[1..]);
    assert a[0] == b[0];
    assert StrLess(a, b);
    assert [a, b][..1] == [a];
  }
}
