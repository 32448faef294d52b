/** Date classification from context words (extract-CFP.py:58-91) and the three-state
    format detector of `get_state` and `parse_date` (extract-CFP.py:171-206). */
module Classify {
  import opened Wrappers
  import opened PyText

  /** The `order` argument of `classify_date`: 'reverse' scans the words back to front. */
  datatype Order = Forward | Reverse

  /** The words in the order the scans of `classify_date` visit them, lower-cased. */
  function Scanned(words: seq<string>, order: Order): (r: seq<string>)
    ensures |r| == |words|
    ensures order == Forward ==> forall k :: 0 <= k < |words| ==> r[k] == Lower(words[k])
    ensures order == Reverse ==> forall k :: 0 <= k < |words| ==> r[k] == Lower(words[|words| - 1 - k])
  {
    var lowered := seq(|words|, k requires 0 <= k < |words| => Lower(words[k]));
    if order == Reverse then Reversed(lowered) else lowered
  }

  /** The key-word table, in its insertion order: the first stem contained in a lower-cased
      word decides its class. */
  function StemClass(word: string): Option<string>
  {
    if Contains(word, "submis") || Contains(word, "submit") then Some("submission")
    else if Contains(word, "notifi") || Contains(word, "notify") then Some("notification")
    else None
  }

  /** A submission stem gives "submission"; otherwise a notification stem gives
      "notification"; there is no other class. */
  lemma StemClassCases(word: string)
    ensures StemClass(word) == Some("submission") <==> Contains(word, "submis") || Contains(word, "submit")
    ensures StemClass(word) == Some("notification") <==>
      !(Contains(word, "submis") || Contains(word, "submit")) &&
      (Contains(word, "notifi") || Contains(word, "notify"))
    ensures StemClass(word).Some? ==> StemClass(word) == Some("submission") || StemClass(word) == Some("notification")
  {
  }

  /** The key-word pass: the class of the first word (in scan order) holding a stem. */
  function FirstStem(ws: seq<string>): (r: Option<string>)
    ensures r.None? <==> forall k :: 0 <= k < |ws| ==> StemClass(ws[k]).None?
    ensures r.Some? ==>
      exists k :: 0 <= k < |ws| && r == StemClass(ws[k]) && forall j :: 0 <= j < k ==> StemClass(ws[j]).None?
  {
    if |ws| == 0 then None
    else if StemClass(ws[0]).Some? then StemClass(ws[0])
    else
      var r := FirstStem(ws[1..]);
      assert forall k :: 1 <= k < |ws| ==> ws[k] == ws[1..][k - 1];
      r
  }

  predicate IsEventLabel(l: string)
  {
    l == "ORG" || l == "EVENT" || l == "GPE"
  }

  /** Position of the first ORG, EVENT or GPE label. */
  function FirstEventLabel(labels: seq<string>): (r: Option<nat>)
    ensures r.None? <==> forall k :: 0 <= k < |labels| ==> !IsEventLabel(labels[k])
    ensures r.Some? ==>
      r.value < |labels| && IsEventLabel(labels[r.value]) && forall j :: 0 <= j < r.value ==> !IsEventLabel(labels[j])
  {
    if |labels| == 0 then None
    else if IsEventLabel(labels[0]) then Some(0)
    else
      match FirstEventLabel(labels[1..])
      case None => None
      case Some(k) => Some(k + 1)
  }

  /** The label fallback of extract-CFP.py:79-89. */
  function LabelClass(labels: seq<string>): (r: string)
    ensures |labels| == 0 ==> r == "unknown"
    ensures forall k ::
      (0 <= k < |labels| && IsEventLabel(labels[k]) && forall j :: 0 <= j < k ==> !IsEventLabel(labels[j])) ==>
      r == Lower(labels[k])
    ensures |labels| > 0 && (forall k :: 0 <= k < |labels| ==> !IsEventLabel(labels[k])) ==>
      r == Lower(labels[0])
  {
    if |labels| == 0 then "unknown"
    else match FirstEventLabel(labels)
      case Some(k) => Lower(labels[k])
      case None => Lower(labels[0])
  }

  /** `classify_date(context_words, order)` where `labels` are the entity labels the
      recogniser finds in the space-joined context words. */
  function ClassifyDate(contextWords: seq<string>, labels: seq<string>, order: Order): (r: string)
  {
    var ws := Scanned(contextWords, order);
    match FirstStem(ws)
    case Some(c) => c
    case None => if "deadline" in ws then "deadline" else LabelClass(labels)
  }

  /** The inner loop over the key-word table, in its insertion order. */
  method MatchStem(word: string) returns (r: Option<string>)
    ensures r == StemClass(word)
  {
    var stems := ["submis", "submit", "notifi", "notify"];
    var classes := ["submission", "submission", "notification", "notification"];
    for j := 0 to |stems|
      invariant forall j' :: 0 <= j' < j ==> !Contains(word, stems[j'])
    {
      if Contains(word, stems[j]) {
        assert stems[0] == "submis" && stems[1] == "submit" && stems[2] == "notifi" && stems[3] == "notify";
        return Some(classes[j]);
      }
    }
    assert stems[0] == "submis" && stems[1] == "submit" && stems[2] == "notifi" && stems[3] == "notify";
    r := None;
  }

  /** `classify_date` with its two scans over the lower-cased words. */
  method ClassifyContext(contextWords: seq<string>, labels: seq<string>, order: Order) returns (r: string)
    ensures r == ClassifyDate(contextWords, labels, order)
  {
    var ws := Scanned(contextWords, order);
    var c := MatchWords(ws);
    if c.Some? {
      return c.value;
    }
    var deadline := FindDeadline(ws);
    if deadline {
      return "deadline";
    }
    r := LabelClass(labels);
  }

  /** The exact-word pass of `classify_date`. */
  method FindDeadline(ws: seq<string>) returns (r: bool)
    ensures r <==> "deadline" in ws
  {
    for i := 0 to |ws|
      invariant "deadline" !in ws[..i]
    {
      if ws[i] == "deadline" {
        return true;
      }
      assert ws[..i + 1] == ws[..i] + [ws[i]];
    }
    assert ws[..|ws|] == ws;
    r := false;
  }

  /** The key-word pass of `classify_date`, word by word. */
  method MatchWords(ws: seq<string>) returns (r: Option<string>)
    ensures r == FirstStem(ws)
  {
    for i := 0 to |ws|
      invariant FirstStem(ws) == FirstStem(ws[i..])
    {
      assert ws[i..][0] == ws[i] && ws[i..][1..] == ws[i + 1..];
      var c := MatchStem(ws[i]);
      if c.Some? {
        return c;
      }
    }
    r := None;
  }

  /** Forward order: the first word holding a stem decides. */
  lemma ClassifyForward(words: seq<string>, labels: seq<string>, k: nat)
    requires k < |words| && StemClass(Lower(words[k])).Some?
    requires forall j :: 0 <= j < k ==> StemClass(Lower(words[j])).None?
    ensures ClassifyDate(words, labels, Forward) == StemClass(Lower(words[k])).value
  {
    var ws := Scanned(words, Forward);
    assert ws[k] == Lower(words[k]);
    FirstStemAt(ws, k);
  }

  /** Reverse order: the last word holding a stem decides. */
  lemma ClassifyReverse(words: seq<string>, labels: seq<string>, k: nat)
    requires k < |words| && StemClass(Lower(words[k])).Some?
    requires forall j :: k < j < |words| ==> StemClass(Lower(words[j])).None?
    ensures ClassifyDate(words, labels, Reverse) == StemClass(Lower(words[k])).value
  {
    var ws := Scanned(words, Reverse);
    var m := |words| - 1 - k;
    assert ws[m] == Lower(words[k]);
    forall j | 0 <= j < m ensures StemClass(ws[j]).None? {
      assert ws[j] == Lower(words[|words| - 1 - j]);
    }
    FirstStemAt(ws, m);
  }

  /** The key-word pass stops at the first word holding a stem. */
  lemma {:induction false} FirstStemAt(ws: seq<string>, m: nat)
    requires m < |ws| && StemClass(ws[m]).Some?
    requires forall j :: 0 <= j < m ==> StemClass(ws[j]).None?
    ensures FirstStem(ws) == StemClass(ws[m])
  {
    if m > 0 {
      FirstStemAt(ws[1..], m - 1);
    }
  }

  /** Without a stem, an exact (case-insensitive) `deadline` anywhere gives "deadline". */
  lemma ClassifyDeadline(words: seq<string>, labels: seq<string>, order: Order, k: nat)
    requires forall j :: 0 <= j < |words| ==> StemClass(Lower(words[j])).None?
    requires k < |words| && Lower(words[k]) == "deadline"
    ensures ClassifyDate(words, labels, order) == "deadline"
  {
    var ws := Scanned(words, order);
    var m := if order == Forward then k else |words| - 1 - k;
    assert ws[m] == "deadline";
    forall i | 0 <= i < |ws| ensures StemClass(ws[i]).None? {
      var j := if order == Forward then i else |words| - 1 - i;
      assert ws[i] == Lower(words[j]);
    }
  }

  /** With neither a stem nor `deadline`, the labels decide, whatever the order. */
  lemma ClassifyByLabels(words: seq<string>, labels: seq<string>, order: Order)
    requires forall j :: 0 <= j < |words| ==> StemClass(Lower(words[j])).None?
    requires forall j :: 0 <= j < |words| ==> Lower(words[j]) != "deadline"
    ensures ClassifyDate(words, labels, order) == LabelClass(labels)
  {
    var ws := Scanned(words, order);
    forall i | 0 <= i < |ws| ensures StemClass(ws[i]).None? && ws[i] != "deadline" {
      var j := if order == Forward then i else |words| - 1 - i;
      assert ws[i] == Lower(words[j]);
    }
  }

  /** The result is a key-word class, "deadline", "unknown", or a lower-cased label. */
  lemma ClassifyRange(words: seq<string>, labels: seq<string>, order: Order)
    ensures var r := ClassifyDate(words, labels, order);
      r in {"submission", "notification", "deadline", "unknown"} ||
      exists k :: 0 <= k < |labels| && r == Lower(labels[k])
  {
    var ws := Scanned(words, order);
    if FirstStem(ws).Some? {
      var i :| 0 <= i < |ws| && FirstStem(ws) == StemClass(ws[i]) &&
        forall j :: 0 <= j < i ==> StemClass(ws[j]).None?;
    } else if "deadline" !in ws && |labels| > 0 {
      match FirstEventLabel(labels)
      case Some(k) => assert LabelClass(labels) == Lower(labels[k]);
      case None => assert LabelClass(labels) == Lower(labels[0]);
    }
  }

  /** The format detector: whether the key word of a date came before or after it. */
  datatype State = Unknown | Left | Right

  /** The classifications that settle a state. */
  predicate IsKey(c: string)
  {
    c == "submission" || c == "notification" || c == "deadline"
  }

  /** `get_state(left, right)`: the left side wins when both are key classifications. */
  function GetState(left: string, right: string): (r: State)
    ensures r == Left <==> IsKey(left)
    ensures r == Right <==> !IsKey(left) && IsKey(right)
  {
    if IsKey(left) then Left
    else if IsKey(right) then Right
    else Unknown
  }

  /** The state update of extract-CFP.py:192-201: an unknown state is settled, and a settled
      state whose side no longer holds a key classification is settled afresh. */
  function NextState(state: State, left: string, right: string): (r: State)
    ensures r == Left ==> IsKey(left)
    ensures r == Right ==> IsKey(right)
    ensures r == Unknown <==> !IsKey(left) && !IsKey(right)
    ensures r == Left <==> IsKey(left) && !(state == Right && IsKey(right))
    ensures r == Right <==> IsKey(right) && (state == Right || !IsKey(left))
    ensures state == Unknown ==> r == GetState(left, right)
    ensures state != Unknown && (state == Left ==> IsKey(left)) && (state == Right ==> IsKey(right)) ==> r == state
  {
    var s := if state.Unknown? then GetState(left, right) else state;
    if (s.Left? && !IsKey(left)) || (s.Right? && !IsKey(right)) then GetState(left, right)
    else s
  }

  /** The classification `parse_date` passes on: the right one exactly in state Right. */
  function UsedClass(state: State, left: string, right: string): string
  {
    if state == Right then right else left
  }

  /** After the update, the classification passed on is a key one exactly when the state is
      settled, and it is the left one when the state stays unknown. */
  lemma UsedClassSettled(state: State, left: string, right: string)
    ensures var s := NextState(state, left, right);
      (s != Unknown <==> IsKey(UsedClass(s, left, right))) &&
      (s == Unknown ==> UsedClass(s, left, right) == left)
  {
  }
}
