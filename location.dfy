/** The location heuristic `get_location` (extract-CFP.py:448-469): the first place entity is
    looked up in the token stream and the three tokens around its last matching token are
    returned. */
module Location {
  import opened PyText

  /** An entity of the recogniser: its text and its label (`label_`). */
  datatype Entity = Entity(text: string, tag: string)

  /** The "arbitrary large number" that stands for no match. */
  const NoMatch: int := 999999999999

  /** At most this many place entities are kept. */
  const MaxLocations: nat := 3

  /** The fallback when the content names no place at all. */
  const DefaultLocation: string := "Las Vegas"

  /** `pos_locs`: the texts of the first three GPE entities, in order. */
  function GpeTexts(ents: seq<Entity>): (r: seq<string>)
    ensures |r| <= MaxLocations
    ensures |r| == 0 <==> forall k :: 0 <= k < |ents| ==> ents[k].tag != "GPE"
    ensures forall t :: t in r ==> exists k :: 0 <= k < |ents| && ents[k].tag == "GPE" && ents[k].text == t
  {
    if |ents| == 0 then []
    else
      var init := ents[..|ents| - 1];
      var last := ents[|ents| - 1];
      var texts := GpeTexts(init);
      assert forall k :: 0 <= k < |init| ==> init[k] == ents[k];
      if last.tag == "GPE" && |texts| < MaxLocations then texts + [last.text] else texts
  }

  /** The first kept text is that of the first GPE entity. */
  lemma {:induction false} GpeTextsFirst(ents: seq<Entity>, k: nat)
    requires k < |ents| && ents[k].tag == "GPE"
    requires forall j :: 0 <= j < k ==> ents[j].tag != "GPE"
    ensures |GpeTexts(ents)| > 0 && GpeTexts(ents)[0] == ents[k].text
    decreases |ents|
  {
    var init := ents[..|ents| - 1];
    if k < |ents| - 1 {
      GpeTextsFirst(init, k);
    } else {
      assert GpeTexts(init) == [];
    }
  }

  /** The scan of extract-CFP.py:460-464 from token `i` on: each token equal to a word of the
      place text sets `first` to the index of that token's first occurrence. */
  function LastMatchFrom(alphanumerics: seq<string>, tryloc: seq<string>, i: nat, first: int): int
    decreases |alphanumerics| - i
  {
    if i >= |alphanumerics| then first
    else
      var next := if alphanumerics[i] in tryloc then IndexOf(alphanumerics, alphanumerics[i]) else first;
      LastMatchFrom(alphanumerics, tryloc, i + 1, next)
  }

  /** `get_location(alphanumerics, content)` with the recogniser's entities given. */
  function LocationOf(alphanumerics: seq<string>, ents: seq<Entity>): string
  {
    var posLocs := GpeTexts(ents);
    if |posLocs| == 0 then DefaultLocation
    else
      LocationAt(alphanumerics, LastMatchFrom(alphanumerics, SplitWhitespace(posLocs[0]), 0, NoMatch), posLocs[0])
  }

  /** The answer for a scan that ended at `first`: the window `[first-1:first+2]` when the
      guard of extract-CFP.py:466 holds, else the entity text. */
  function LocationAt(alphanumerics: seq<string>, first: int, text: string): string
  {
    if |alphanumerics| > first + 2 then Join(" ", Slice(alphanumerics, first - 1, first + 2)) else text
  }

  /** `get_location`. */
  method GetLocation(alphanumerics: seq<string>, ents: seq<Entity>) returns (r: string)
    ensures r == LocationOf(alphanumerics, ents)
  {
    var posLocs, count := CollectPlaces(ents);
    if |posLocs| > 0 {
      var tryloc := SplitWhitespace(posLocs[0]);
      var first;
      first, count := LastMatch(alphanumerics, tryloc, count);
      if |alphanumerics| > first + 2 {
        return Join(" ", Slice(alphanumerics, first - 1, first + 2));
      }
      return posLocs[0];
    }
    r := DefaultLocation;
  }

  /** The entity loop of `get_location`: the texts of the first place entities. */
  method CollectPlaces(ents: seq<Entity>) returns (posLocs: seq<string>, count: nat)
    ensures posLocs == GpeTexts(ents) && count == |posLocs|
  {
    posLocs := [];
    count := 0;
    for k := 0 to |ents|
      invariant posLocs == GpeTexts(ents[..k]) && count == |posLocs|
    {
      assert ents[..k + 1][..k] == ents[..k];
      if ents[k].tag == "GPE" {
        if count < MaxLocations {
          count := count + 1;
          posLocs := posLocs + [ents[k].text];
        }
      }
    }
    assert ents[..|ents|] == ents;
  }

  /** The token loop of `get_location`, counting the tokens on from `count`. */
  method LastMatch(alphanumerics: seq<string>, tryloc: seq<string>, count: nat) returns (first: int, count': nat)
    ensures first == LastMatchFrom(alphanumerics, tryloc, 0, NoMatch)
    ensures count' == count + |alphanumerics|
  {
    first := NoMatch;
    count' := count;
    for i := 0 to |alphanumerics|
      invariant LastMatchFrom(alphanumerics, tryloc, 0, NoMatch) == LastMatchFrom(alphanumerics, tryloc, i, first)
      invariant count' == count + i
    {
      first := ScanWord(alphanumerics, i, tryloc, first);
      count' := count' + 1;
    }
  }

  /** The inner loop of extract-CFP.py:461-463 for token `i`. */
  method ScanWord(alphanumerics: seq<string>, i: nat, tryloc: seq<string>, first: int) returns (r: int)
    requires i < |alphanumerics|
    ensures r == if alphanumerics[i] in tryloc then IndexOf(alphanumerics, alphanumerics[i]) else first
  {
    r := first;
    for j := 0 to |tryloc|
      invariant r == if alphanumerics[i] in tryloc[..j] then IndexOf(alphanumerics, alphanumerics[i]) else first
    {
      assert tryloc[..j + 1] == tryloc[..j] + [tryloc[j]];
      if alphanumerics[i] == tryloc[j] {
        r := IndexOf(alphanumerics, alphanumerics[i]);
      }
    }
    assert tryloc[..|tryloc|] == tryloc;
  }

  /** Without a place entity the answer is "Las Vegas". */
  lemma NoPlace(alphanumerics: seq<string>, ents: seq<Entity>)
    requires forall k :: 0 <= k < |ents| ==> ents[k].tag != "GPE"
    ensures LocationOf(alphanumerics, ents) == DefaultLocation
  {
  }

  /** The scan ends with the first-occurrence index of the last matching token, or with the
      value it started from when no token from `i` on matches. */
  lemma {:induction false} LastMatchIsLast(alphanumerics: seq<string>, tryloc: seq<string>, i: nat, first: int)
    ensures var r := LastMatchFrom(alphanumerics, tryloc, i, first);
      ((forall q :: i <= q < |alphanumerics| ==> alphanumerics[q] !in tryloc) ==> r == first) &&
      (forall q ::
        (i <= q < |alphanumerics| && alphanumerics[q] in tryloc &&
         forall q' :: q < q' < |alphanumerics| ==> alphanumerics[q'] !in tryloc) ==>
        r == IndexOf(alphanumerics, alphanumerics[q]))
    decreases |alphanumerics| - i
  {
    if i < |alphanumerics| {
      var next := if alphanumerics[i] in tryloc then IndexOf(alphanumerics, alphanumerics[i]) else first;
      LastMatchIsLast(alphanumerics, tryloc, i + 1, next);
    }
  }

  /** A match at `first` with a token before it and two after it gives the three tokens around it. */
  lemma WindowAroundMatch(alphanumerics: seq<string>, ents: seq<Entity>, first: nat)
    requires |GpeTexts(ents)| > 0
    requires LastMatchFrom(alphanumerics, SplitWhitespace(GpeTexts(ents)[0]), 0, NoMatch) == first
    requires 1 <= first && first + 2 < |alphanumerics|
    ensures LocationOf(alphanumerics, ents) ==
      alphanumerics[first - 1] + " " + alphanumerics[first] + " " + alphanumerics[first + 1]
  {
    assert LocationOf(alphanumerics, ents) == LocationAt(alphanumerics, first, GpeTexts(ents)[0]);
    WindowAt(alphanumerics, first, GpeTexts(ents)[0]);
  }

  lemma WindowAt(alphanumerics: seq<string>, first: nat, text: string)
    requires 1 <= first && first + 2 < |alphanumerics|
    ensures LocationAt(alphanumerics, first, text) ==
      alphanumerics[first - 1] + " " + alphanumerics[first] + " " + alphanumerics[first + 1]
  {
    var w := Slice(alphanumerics, first - 1, first + 2);
    assert w == [alphanumerics[first - 1], alphanumerics[first], alphanumerics[first + 1]];
    JoinThree(alphanumerics[first - 1], alphanumerics[first], alphanumerics[first + 1]);
  }

  lemma JoinThree(a: string, b: string, c: string)
    ensures Join(" ", [a, b, c]) == a + " " + b + " " + c
  {
    assert [a, b, c][1..] == [b, c];
    assert [b, c][1..] == [c];
    assert Join(" ", [b, c]) == b + " " + c;
    assert Join(" ", [a, b, c]) == a + " " + (b + " " + c);
  }

  /** A match at index 0 makes the window `alphanumerics[-1:2]`, which is empty: the answer is
      the empty string. */
  lemma MatchAtStart(alphanumerics: seq<string>, ents: seq<Entity>)
    requires |GpeTexts(ents)| > 0 && |alphanumerics| > 2
    requires LastMatchFrom(alphanumerics, SplitWhitespace(GpeTexts(ents)[0]), 0, NoMatch) == 0
    ensures LocationOf(alphanumerics, ents) == ""
  {
    assert Slice(alphanumerics, -1, 2) == [];
  }

  /** The guard asks for two tokens after the match although the window needs one: a match
      on the second-to-last token returns the raw entity text. */
  lemma MatchNearEnd(alphanumerics: seq<string>, ents: seq<Entity>)
    requires |GpeTexts(ents)| > 0 && |alphanumerics| >= 2
    requires LastMatchFrom(alphanumerics, SplitWhitespace(GpeTexts(ents)[0]), 0, NoMatch) == |alphanumerics| - 2
    ensures LocationOf(alphanumerics, ents) == GpeTexts(ents)[0]
  {
  }

  /** With no token of the place text in the stream, the raw entity text is returned. */
  lemma NoMatchGivesText(alphanumerics: seq<string>, ents: seq<Entity>)
    requires |GpeTexts(ents)| > 0 && |alphanumerics| <= NoMatch + 2
    requires forall q :: 0 <= q < |alphanumerics| ==> alphanumerics[q] !in SplitWhitespace(GpeTexts(ents)[0])
    ensures LocationOf(alphanumerics, ents) == GpeTexts(ents)[0]
  {
    LastMatchIsLast(alphanumerics, SplitWhitespace(GpeTexts(ents)[0]), 0, NoMatch);
  }
}
