/** `parse_date` and `get_conf_dates` (extract-CFP.py:181-232): each date mention is located in
    the token stream, its two context windows are classified, the format state is updated and
    the normalised date is merged into the three slots; when a slot is still empty after
    that, a fallback pass processes every primitive bundle (the test is made once), and
    missing years are filled in at the end. */
module ConfDates {
  import opened Wrappers
  import opened PyText
  import opened Tokens
  import opened Dates
  import opened Normalize
  import opened Context
  import opened Classify
  import opened Slots
  import opened Years
  import opened Primitive

  /** `n` of `parse_date`: the size of both context windows. */
  const ContextSize: nat := 10

  /** The entity recogniser, applied to the space-joined words of a context window; it yields
      the labels of the entities found. */
  type Recogniser = string -> seq<string>

  /** `[word for sentence in sentences for word in sentence]`. */
  function Flatten(sentences: seq<seq<string>>): (r: seq<string>)
    ensures forall w :: w in r <==> exists s :: s in sentences && w in s
  {
    if |sentences| == 0 then []
    else
      var rest := Flatten(sentences[1..]);
      assert forall s :: s in sentences <==> s == sentences[0] || s in sentences[1..];
      sentences[0] + rest
  }

  /** Flattening appends each sentence's words after those of the sentences before it. */
  lemma {:induction false} FlattenAppend(sentences: seq<seq<string>>, sentence: seq<string>)
    ensures Flatten(sentences + [sentence]) == Flatten(sentences) + sentence
  {
    if |sentences| == 0 {
      assert sentences + [sentence] == [sentence];
      assert Flatten([sentence][1..]) == [];
    } else {
      FlattenAppend(sentences[1..], sentence);
      assert (sentences + [sentence])[1..] == sentences[1..] + [sentence];
    }
  }

  /** The right window of extract-CFP.py:185-187: it starts `n + len(date)` tokens after the
      start of the left window, not after the mention itself. */
  function LaterWords(alphanumerics: seq<string>, index: nat, date: seq<string>): (r: seq<string>)
    ensures |r| <= ContextSize
  {
    var i := index + ContextSize + |date|;
    if i < |alphanumerics| then Slice(alphanumerics, i, i + ContextSize) else []
  }

  function Min(a: int, b: int): int { if a < b then a else b }

  /** Where the right window sits for a mention at position `p`: with ten tokens before the
      mention it is the up to ten tokens right after it; nearer the start the left window
      starts at 0, so the right window starts at `10 + len(date)`, `10 - p` tokens past the
      mention's end. */
  lemma LaterWordsAt(alphanumerics: seq<string>, date: seq<string>, p: nat)
    requires p + |date| < |alphanumerics|
    ensures var index := if ContextSize < p then p - ContextSize else 0;
      var start := if ContextSize <= p then p + |date| else ContextSize + |date|;
      LaterWords(alphanumerics, index, date) ==
        if start < |alphanumerics| then alphanumerics[start..Min(start + ContextSize, |alphanumerics|)] else []
  {
  }

  /** `parse_date(date, slots, alphanumerics, state)`: the new slots and the new state, or the
      error raised by the window search or by `normalize_date` (the slots are then unchanged). */
  function ParseStep(slots: seq<Option<Date>>, date: seq<string>, alphanumerics: seq<string>, state: State,
                     ner: Recogniser): (r: Result<(seq<Option<Date>>, State)>)
    requires |slots| == SlotCount
    ensures r.Ok? ==> |r.value.0| == SlotCount
  {
    match PreviousWords(date, alphanumerics, ContextSize)
    case Err(e) => Err(e)
    case Ok(found) =>
      var previousWords := found.0;
      var laterWords := LaterWords(alphanumerics, found.1, date);
      var left := ClassifyDate(previousWords, ner(Join(" ", previousWords)), Reverse);
      var right := ClassifyDate(laterWords, ner(Join(" ", laterWords)), Forward);
      var s := NextState(state, left, right);
      match NormalizeDate(date)
      case Err(e) => Err(e)
      case Ok(d) => Ok((MergeDate(slots, d, UsedClass(s, left, right)), s))
  }

  /** The loop of extract-CFP.py:221-224 (and 229-230) over a list of dates: the first error
      aborts the whole extraction. */
  function ParseAll(slots: seq<Option<Date>>, dates: seq<seq<string>>, alphanumerics: seq<string>, state: State,
                    ner: Recogniser): (r: Result<(seq<Option<Date>>, State)>)
    requires |slots| == SlotCount
    ensures r.Ok? ==> |r.value.0| == SlotCount
    decreases |dates|
  {
    if |dates| == 0 then Ok((slots, state))
    else
      var step := ParseStep(slots, dates[0], alphanumerics, state, ner);
      if step.Err? then Err(step.error)
      else ParseAll(step.value.0, dates[1..], alphanumerics, step.value.1, ner)
  }

  predicate HasEmptySlot(slots: seq<Option<Date>>)
    requires |slots| == SlotCount
  {
    slots[0].None? || slots[1].None? || slots[2].None?
  }

  /** The returned list: each slot formatted by `format_date`, `None` where it stayed empty. */
  function Rendered(slots: seq<Option<Date>>): (r: seq<Option<string>>)
    ensures |r| == |slots|
    ensures forall k :: 0 <= k < |slots| ==> (r[k].None? <==> slots[k].None?)
  {
    seq(|slots|, k requires 0 <= k < |slots| => if slots[k].Some? then Some(FormatDate(slots[k].value)) else None)
  }

  function EmptySlots(): (r: seq<Option<Date>>)
    ensures |r| == SlotCount
  {
    [None, None, None]
  }

  /** `get_conf_dates`: `mentions` are the word-tokenised date entities of the content and
      `sentences` its word-tokenised sentences. */
  function ConfDatesOf(mentions: seq<seq<string>>, sentences: seq<seq<string>>, ner: Recogniser): (r: Result<seq<Option<string>>>)
    ensures r.Ok? ==> |r.value| == SlotCount
  {
    var alphanumerics := Alphanumerics(Flatten(sentences));
    var dates := seq(|mentions|, k requires 0 <= k < |mentions| => Alphanumerics(mentions[k]));
    match ParseAll(EmptySlots(), dates, alphanumerics, Unknown, ner)
    case Err(e) => Err(e)
    case Ok(first) =>
      var second :=
        if HasEmptySlot(first.0) then ParseAll(first.0, PrimitiveUpTo(alphanumerics, |alphanumerics|), alphanumerics, first.1, ner)
        else Ok(first);
      match second
      case Err(e) => Err(e)
      case Ok(last) => Ok(Rendered(FillYears(last.0, alphanumerics)))
  }

  /** `parse_date`: updates the slot array in place and returns the new state. */
  method ParseDate(date: seq<string>, conf: array<Option<Date>>, alphanumerics: seq<string>, state: State,
                   ner: Recogniser) returns (r: Result<State>)
    requires conf.Length == SlotCount
    modifies conf
    ensures var step := ParseStep(old(conf[..]), date, alphanumerics, state, ner);
      (step.Ok? ==> r.Ok? && step.value == (conf[..], r.value)) &&
      (step.Err? ==> r.Err? && r.error == step.error && conf[..] == old(conf[..]))
  {
    var found := GetNPreviousWords(date, alphanumerics, ContextSize);
    if found.Err? {
      return Err(found.error);
    }
    var s, classification := ClassifyMention(date, alphanumerics, found.value, state, ner);
    var normalized := Normalize.Normalize(date);
    if normalized.Err? {
      return Err(normalized.error);
    }
    UpdateConfDates(normalized.value, classification, conf);
    r := Ok(s);
  }

  /** The middle of `parse_date` (extract-CFP.py:182-206): given the left window and its start,
      both windows are classified and the state is updated; the classification of the state's
      side is the one used. */
  method ClassifyMention(date: seq<string>, alphanumerics: seq<string>, found: (seq<string>, nat), state: State,
                         ner: Recogniser) returns (s: State, classification: string)
    ensures var laterWords := LaterWords(alphanumerics, found.1, date);
      var left := ClassifyDate(found.0, ner(Join(" ", found.0)), Reverse);
      var right := ClassifyDate(laterWords, ner(Join(" ", laterWords)), Forward);
      s == NextState(state, left, right) && classification == UsedClass(s, left, right)
  {
    var n := ContextSize;
    var previousWords := found.0;
    var laterWords: seq<string> := [];
    var index := found.1 + n + |date|;
    if index < |alphanumerics| {
      laterWords := Slice(alphanumerics, index, index + n);
    }
    assert laterWords == LaterWords(alphanumerics, found.1, date);
    var leftClassification := ClassifyContext(previousWords, ner(Join(" ", previousWords)), Reverse);
    var rightClassification := ClassifyContext(laterWords, ner(Join(" ", laterWords)), Forward);
    s := state;
    if s.Unknown? {
      s := GetState(leftClassification, rightClassification);
    }
    if (s.Left? && !IsKey(leftClassification)) || (s.Right? && !IsKey(rightClassification)) {
      s := GetState(leftClassification, rightClassification);
    }
    classification := if s.Right? then rightClassification else leftClassification;
  }

  /** `ParseAll` one date at a time. */
  lemma ParseAllStep(slots: seq<Option<Date>>, dates: seq<seq<string>>, k: nat, alphanumerics: seq<string>,
                     state: State, ner: Recogniser)
    requires |slots| == SlotCount && k < |dates|
    ensures var step := ParseStep(slots, dates[k], alphanumerics, state, ner);
      (step.Err? ==> ParseAll(slots, dates[k..], alphanumerics, state, ner) == Err(step.error)) &&
      (step.Ok? ==> ParseAll(slots, dates[k..], alphanumerics, state, ner) ==
                    ParseAll(step.value.0, dates[k + 1..], alphanumerics, step.value.1, ner))
  {
    assert dates[k..][0] == dates[k];
    assert dates[k..][1..] == dates[k + 1..];
  }

  /** The loop over one list of dates, threading the state. */
  method ParseDates(dates: seq<seq<string>>, conf: array<Option<Date>>, alphanumerics: seq<string>, state: State,
                    ner: Recogniser) returns (r: Result<State>)
    requires conf.Length == SlotCount
    modifies conf
    ensures var all := ParseAll(old(conf[..]), dates, alphanumerics, state, ner);
      (all.Ok? ==> r.Ok? && all.value == (conf[..], r.value)) &&
      (all.Err? ==> r.Err? && r.error == all.error)
  {
    var s := state;
    ghost var start := conf[..];
    for k := 0 to |dates|
      invariant ParseAll(start, dates, alphanumerics, state, ner) == ParseAll(conf[..], dates[k..], alphanumerics, s, ner)
    {
      ParseAllStep(conf[..], dates, k, alphanumerics, s, ner);
      var next := ParseDate(dates[k], conf, alphanumerics, s, ner);
      if next.Err? {
        return Err(next.error);
      }
      s := next.value;
    }
    assert dates[|dates|..] == [];
    r := Ok(s);
  }

  /** `get_conf_dates`. */
  method GetConfDates(mentions: seq<seq<string>>, sentences: seq<seq<string>>, ner: Recogniser)
    returns (r: Result<seq<Option<string>>>)
    ensures r == ConfDatesOf(mentions, sentences, ner)
  {
    var conf := new Option<Date>[SlotCount](_ => None);
    assert conf[..] == EmptySlots();
    var words := Flatten(sentences);
    var alphanumerics := Alphanumerics(words);
    var dates := seq(|mentions|, k requires 0 <= k < |mentions| => Alphanumerics(mentions[k]));
    var state := ParseDates(dates, conf, alphanumerics, Unknown, ner);
    if state.Err? {
      return Err(state.error);
    }
    if conf[0].None? || conf[1].None? || conf[2].None? {
      var primitives := GetDatesPrimitive(alphanumerics);
      state := ParseDates(primitives, conf, alphanumerics, state.value, ner);
      if state.Err? {
        return Err(state.error);
      }
    }
    UpdateYears(conf, alphanumerics);
    r := Ok(Rendered(conf[..]));
  }

  /** Slot `a` is never emptied nor made less complete on the way to `b`. */
  predicate NoWorse(a: seq<Option<Date>>, b: seq<Option<Date>>)
    requires |a| == SlotCount && |b| == SlotCount
  {
    forall k :: 0 <= k < SlotCount && a[k].Some? ==> b[k].Some? && MissingCount(b[k].value) <= MissingCount(a[k].value)
  }

  lemma ParseStepNoWorse(slots: seq<Option<Date>>, date: seq<string>, alphanumerics: seq<string>, state: State,
                         ner: Recogniser)
    requires |slots| == SlotCount
    ensures var r := ParseStep(slots, date, alphanumerics, state, ner);
      r.Ok? ==> |r.value.0| == SlotCount && NoWorse(slots, r.value.0)
  {
    var r := ParseStep(slots, date, alphanumerics, state, ner);
    if r.Ok? {
      var found := PreviousWords(date, alphanumerics, ContextSize).value;
      var laterWords := LaterWords(alphanumerics, found.1, date);
      var left := ClassifyDate(found.0, ner(Join(" ", found.0)), Reverse);
      var right := ClassifyDate(laterWords, ner(Join(" ", laterWords)), Forward);
      var s := NextState(state, left, right);
      MergeNeverWorsens(slots, NormalizeDate(date).value, UsedClass(s, left, right));
    }
  }

  /** Across a whole pass, slots only fill up and become more complete. */
  lemma {:induction false} ParseAllNoWorse(slots: seq<Option<Date>>, dates: seq<seq<string>>, alphanumerics: seq<string>,
                                           state: State, ner: Recogniser)
    requires |slots| == SlotCount
    ensures var r := ParseAll(slots, dates, alphanumerics, state, ner);
      r.Ok? ==> NoWorse(slots, r.value.0)
    decreases |dates|
  {
    if |dates| > 0 {
      var step := ParseStep(slots, dates[0], alphanumerics, state, ner);
      if step.Ok? {
        ParseStepNoWorse(slots, dates[0], alphanumerics, state, ner);
        ParseAllNoWorse(step.value.0, dates[1..], alphanumerics, step.value.1, ner);
      }
    }
  }

  /** The state left by a step is sound for the classification it used: Left or Right means
      that side held a key classification, and the used one is the right one exactly in Right. */
  lemma ParseStepState(slots: seq<Option<Date>>, date: seq<string>, alphanumerics: seq<string>, state: State,
                       ner: Recogniser)
    requires |slots| == SlotCount
    ensures var r := ParseStep(slots, date, alphanumerics, state, ner);
      r.Ok? ==>
        var found := PreviousWords(date, alphanumerics, ContextSize).value;
        var laterWords := LaterWords(alphanumerics, found.1, date);
        var left := ClassifyDate(found.0, ner(Join(" ", found.0)), Reverse);
        var right := ClassifyDate(laterWords, ner(Join(" ", laterWords)), Forward);
        (r.value.1 == Left ==> IsKey(left)) && (r.value.1 == Right ==> IsKey(right)) &&
        r.value.0 == MergeDate(slots, NormalizeDate(date).value, if r.value.1 == Right then right else left)
  {
  }

  /** The window search error reaches the caller of `get_conf_dates`. */
  lemma ParseStepRaises(slots: seq<Option<Date>>, date: seq<string>, alphanumerics: seq<string>, state: State,
                        ner: Recogniser)
    requires |slots| == SlotCount
    requires forall q :: 0 <= q < |alphanumerics| ==> !OccursAt(date, alphanumerics, q)
    requires exists q :: 0 <= q < |alphanumerics| && TailBegins(date, alphanumerics, q)
    ensures ParseStep(slots, date, alphanumerics, state, ner) == Err(IndexError)
  {
    PreviousWordsRaises(date, alphanumerics, ContextSize);
  }
}
