/** The extracted record and its text form (extract-CFP.py:15-28), and `get_CFP`
    (extract-CFP.py:472-478), which runs the three extractors over one e-mail's content. */
module Cfp {
  import opened Wrappers
  import opened PyText
  import opened Tokens
  import opened Dates
  import opened Names
  import opened Location
  import opened ConfDates

  /** The five fields of `CFP`; each defaults to `None`. */
  datatype CFP = CFP(event: Option<string>, location: Option<string>, eventDate: Option<string>,
                     submissionDeadline: Option<string>, notificationDeadline: Option<string>)

  /** `CFP.__str__`: the five fields, `None` written as "None", joined with ", ". */
  function Str(c: CFP): string
  {
    RenderText(c.event) + ", " + RenderText(c.location) + ", " + RenderText(c.eventDate) + ", " +
    RenderText(c.submissionDeadline) + ", " + RenderText(c.notificationDeadline)
  }

  /** The text form of an empty record. */
  lemma StrOfEmpty(c: CFP)
    requires c == CFP(None, None, None, None, None)
    ensures Str(c) == "None, None, None, None, None"
  {
  }

  /** The text form has four separating commas besides those inside the fields. */
  lemma StrCommas(c: CFP)
    ensures CountChar(Str(c), ',') ==
      4 + CountChar(RenderText(c.event), ',') + CountChar(RenderText(c.location), ',') +
      CountChar(RenderText(c.eventDate), ',') + CountChar(RenderText(c.submissionDeadline), ',') +
      CountChar(RenderText(c.notificationDeadline), ',')
  {
    var a, b, d, e, f := RenderText(c.event), RenderText(c.location), RenderText(c.eventDate),
      RenderText(c.submissionDeadline), RenderText(c.notificationDeadline);
    assert CountChar(", ", ',') == 1;
    CountCharConcat(a, ", ", ',');
    CountCharConcat(a + ", ", b, ',');
    CountCharConcat(a + ", " + b, ", ", ',');
    CountCharConcat(a + ", " + b + ", ", d, ',');
    CountCharConcat(a + ", " + b + ", " + d, ", ", ',');
    CountCharConcat(a + ", " + b + ", " + d + ", ", e, ',');
    CountCharConcat(a + ", " + b + ", " + d + ", " + e, ", ", ',');
    CountCharConcat(a + ", " + b + ", " + d + ", " + e + ", ", f, ',');
  }

  /** Every formatted date carries a comma of its own, so a record with a date has more than
      four commas and does not split back into five comma-separated fields. */
  lemma StrWithDate(c: CFP, d: Date)
    requires c.eventDate == Some(FormatDate(d))
    ensures CountChar(Str(c), ',') >= 5
    ensures |SplitWhere(Str(c), IsComma)| > 5
  {
    StrCommas(c);
    FormatDateCommas(d);
    SplitWhereCount(Str(c), ',', IsComma);
  }

  predicate IsComma(ch: char) { ch == ',' }

  /** `get_CFP`: `sentences` are the word-tokenised sentences of the content, `mentions` its
      word-tokenised date entities, `ents` its entities. */
  function CfpOf(sentences: seq<seq<string>>, mentions: seq<seq<string>>, ents: seq<Entity>, ner: Recogniser,
                 isAcronym: AcronymTest, midHigh: MidHighTest): Result<CFP>
  {
    var alphanumerics := Alphanumerics(Flatten(sentences));
    var name := ConfName(alphanumerics, isAcronym, midHigh);
    var location := LocationOf(alphanumerics, ents);
    match ConfDatesOf(mentions, sentences, ner)
    case Err(e) => Err(e)
    case Ok(dates) =>
      assert |dates| == 3;
      Ok(CFP(Some(name), Some(location), dates[0], dates[1], dates[2]))
  }

  /** `get_CFP`. */
  method GetCFP(sentences: seq<seq<string>>, mentions: seq<seq<string>>, ents: seq<Entity>, ner: Recogniser,
                isAcronym: AcronymTest, midHigh: MidHighTest) returns (r: Result<CFP>)
    ensures r == CfpOf(sentences, mentions, ents, ner, isAcronym, midHigh)
  {
    var words := Flatten(sentences);
    var alphanumerics := Alphanumerics(words);
    var name := GetConfName(alphanumerics, isAcronym, midHigh);
    var location := GetLocation(alphanumerics, ents);
    var dates := GetConfDates(mentions, sentences, ner);
    if dates.Err? {
      return Err(dates.error);
    }
    assert |dates.value| == 3;
    r := Ok(CFP(Some(name), Some(location), dates.value[0], dates.value[1], dates.value[2]));
  }
}
