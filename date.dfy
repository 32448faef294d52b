/** The partial date triple `[month, day, year]` of the extractor, its completeness measure
    and its rendering (extract-CFP.py:369-374). */
module Dates {
  import opened Wrappers
  import opened PyText

  /** A month is a name string (or the raw numeric part of an `a/b/c` token), a day an integer,
      a year a string; each may be absent (`None`). */
  datatype Date = Date(month: Option<string>, day: Option<nat>, year: Option<string>)

  /** `missing_component_count`: how many of the three parts are `None`. */
  function MissingCount(d: Date): (r: nat)
    ensures r <= 3
    ensures r == 0 <==> d.month.Some? && d.day.Some? && d.year.Some?
    ensures r == 3 <==> d.month.None? && d.day.None? && d.year.None?
  {
    (if d.month.None? then 1 else 0) + (if d.day.None? then 1 else 0) + (if d.year.None? then 1 else 0)
  }

  /** `str(x)` of an optional string: `None` is rendered as the text "None". */
  function RenderText(o: Option<string>): string
  {
    match o
    case None => "None"
    case Some(s) => s
  }

  /** `str(x)` of an optional integer. */
  function RenderDay(o: Option<nat>): string
  {
    match o
    case None => "None"
    case Some(n) => NatToString(n)
  }

  /** `format_date`: `'{} {}, {}'.format(month, day, year)`. */
  function FormatDate(d: Date): string
  {
    RenderText(d.month) + " " + RenderDay(d.day) + ", " + RenderText(d.year)
  }

  /** Absent parts are written out literally as "None". */
  lemma FormatDateAbsentParts()
    ensures FormatDate(Date(None, None, None)) == "None None, None"
    ensures FormatDate(Date(Some("March"), None, Some("2020"))) == "March None, 2020"
  {
  }

  /** A rendered date always carries one comma of its own, besides any inside the month or year text. */
  lemma FormatDateCommas(d: Date)
    ensures CountChar(FormatDate(d), ',') == 1 + CountChar(RenderText(d.month), ',') + CountChar(RenderText(d.year), ',')
  {
    var m, dy, y := RenderText(d.month), RenderDay(d.day), RenderText(d.year);
    CountCharConcat(m, " ", ',');
    CountCharConcat(m + " ", dy, ',');
    CountCharConcat(m + " " + dy, ", ", ',');
    CountCharConcat(m + " " + dy + ", ", y, ',');
    assert CountChar(" ", ',') == 0;
    assert CountChar(", ", ',') == 1;
    assert CountChar(dy, ',') == 0 by {
      match d.day
      case None => AbsentChar("None", ',');
      case Some(n) => AbsentChar(dy, ',');
    }
  }

  lemma {:induction false} AbsentChar(s: string, c: char)
    requires forall i :: 0 <= i < |s| ==> s[i] != c
    ensures CountChar(s, c) == 0
  {
    if |s| > 0 {
      AbsentChar(s[1..], c);
    }
  }

  /** A complete date whose month and year contain no blank reads back from its rendering:
      splitting at blanks gives the month, the day followed by a comma, and the year. */
  lemma FormatDateReadBack(m: string, day: nat, y: string)
    requires NoSep(m, IsBlank) && NoSep(y, IsBlank)
    ensures SplitWhere(FormatDate(Date(Some(m), Some(day), Some(y))), IsBlank) == [m, NatToString(day) + ",", y]
    ensures ParseInt(DropLast(NatToString(day) + ",")) == Ok(day)
  {
    var ds := NatToString(day);
    assert FormatDate(Date(Some(m), Some(day), Some(y))) == m + [' '] + ((ds + ",") + [' '] + y);
    SplitWhereAtSep(m, ' ', (ds + ",") + [' '] + y, IsBlank);
    assert NoSep(ds + ",", IsBlank) by {
      assert forall i :: 0 <= i < |ds| ==> IsDigit(ds[i]);
    }
    SplitWhereAtSep(ds + ",", ' ', y, IsBlank);
    SplitWhereNoSep(y, IsBlank);
    assert DropLast(ds + ",") == ds;
    ParseIntNatToString(day);
  }
}
