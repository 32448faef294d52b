/** The conference-name heuristics (extract-CFP.py:270-324, 393-403, 427-446): find an
    acronym-like token, take a span around it that starts at a "the", then trim the span with
    the key-word rule of `LowPri` and join it with spaces. */
module Names {
  import opened Wrappers
  import opened PyText

  /** `splash`: how many tokens before and after the acronym are searched. */
  const Splash: int := 15

  /** Only the first hundred tokens are searched for an acronym. */
  const HeadSize: int := 100

  /** A name span and its priority: 12 (start and end known), 10 (start known), 8 (end only),
      11 (trimmed at a key word), 0 (nothing found). */
  datatype Candidate = Candidate(name: seq<string>, priority: int)

  /** The acronym pattern of extract-CFP.py:273-276, supplied by the caller. */
  type AcronymTest = string -> bool

  /** `re.search("^[Tt]{1}he$", t)`: exactly "the" or "The", optionally followed by a final newline. */
  predicate IsExactThe(t: string)
  {
    t == "the" || t == "The" || t == "the\n" || t == "The\n"
  }

  /** `re.search("[Tt]he", t)`: "the" or "The" anywhere in the token. */
  predicate HasThe(t: string)
  {
    Contains(t, "the") || Contains(t, "The")
  }

  /** `alphanumerics[(ind-splash):ind]`, a negative start counting from the end. */
  function LeftWindow(alphanumerics: seq<string>, ind: nat): seq<string>
  {
    Slice(alphanumerics, ind - Splash, ind)
  }

  /** `alphanumerics[ind:ind+splash]`. */
  function RightWindow(alphanumerics: seq<string>, ind: nat): (r: seq<string>)
    ensures |r| <= Splash
    ensures |r| == if ind + Splash <= |alphanumerics| then Splash else if ind <= |alphanumerics| then |alphanumerics| - ind else 0
    ensures forall k :: 0 <= k < |r| ==> ind + k < |alphanumerics| && r[k] == alphanumerics[ind + k]
  {
    Slice(alphanumerics, ind, ind + Splash)
  }

  /** The backward scan from its `k`-th token on: the `k`-th token of the left window sits
      `splash - k` before `ind` and an exact "the" there yields `alphanumerics[ind-splash+k:ind]`. */
  function LeftScan(alphanumerics: seq<string>, ind: nat, k: nat): (r: Option<Candidate>)
    ensures r.Some? ==> r.value.priority == 12
    decreases |LeftWindow(alphanumerics, ind)| - k
  {
    var window := LeftWindow(alphanumerics, ind);
    if k >= |window| then None
    else if IsExactThe(window[k]) then Some(Candidate(Slice(alphanumerics, ind - Splash + k, ind), 12))
    else LeftScan(alphanumerics, ind, k + 1)
  }

  /** The forward scan from its `k`-th token on: a token containing "the" at `ind + k` yields the
      `splash` tokens starting there. */
  function RightScan(alphanumerics: seq<string>, ind: nat, k: nat): (r: Option<Candidate>)
    ensures r.Some? ==> r.value.priority == 10
    ensures r.Some? ==> 0 < |r.value.name| <= Splash && HasThe(r.value.name[0])
    decreases |RightWindow(alphanumerics, ind)| - k
  {
    var window := RightWindow(alphanumerics, ind);
    if k >= |window| then None
    else if HasThe(window[k]) then
      var name := Slice(alphanumerics, ind + k, ind + k + Splash);
      assert name[0] == alphanumerics[ind + k];
      Some(Candidate(name, 10))
    else RightScan(alphanumerics, ind, k + 1)
  }

  /** Both scans around an acronym at `ind`, the left one first. */
  function SearchAround(alphanumerics: seq<string>, ind: nat): Option<Candidate>
  {
    match LeftScan(alphanumerics, ind, 0)
    case Some(c) => Some(c)
    case None => RightScan(alphanumerics, ind, 0)
  }

  /** `alphanumerics[0:100]`. */
  function Head(alphanumerics: seq<string>): (r: seq<string>)
    ensures |r| <= HeadSize && |r| <= |alphanumerics|
    ensures forall k :: 0 <= k < |r| ==> r[k] == alphanumerics[k]
    ensures |alphanumerics| <= HeadSize ==> r == alphanumerics
  {
    Slice(alphanumerics, 0, HeadSize)
  }

  /** A longer list keeps exactly its first hundred tokens. */
  lemma HeadLength(alphanumerics: seq<string>)
    requires |alphanumerics| > HeadSize
    ensures Head(alphanumerics) == alphanumerics[..HeadSize]
  {
  }

  /** The single-token pass from the `p`-th head token on: an acronym token is looked up by
      `alphanumerics.index`, and when neither scan finds a "the" the pass goes on. */
  function TokenSearch(alphanumerics: seq<string>, isAcronym: AcronymTest, p: nat): (r: Option<Candidate>)
    ensures r.Some? ==> r.value.priority == 12 || r.value.priority == 10
    decreases |Head(alphanumerics)| - p
  {
    var head := Head(alphanumerics);
    if p >= |head| then None
    else if isAcronym(head[p]) && TokenSpan(alphanumerics, p).Some? then TokenSpan(alphanumerics, p)
    else TokenSearch(alphanumerics, isAcronym, p + 1)
  }

  /** `[" ".join(b) for b in nltk.bigrams(xs)]`. */
  function Bigrams(xs: seq<string>): (r: seq<string>)
    ensures |r| == if |xs| == 0 then 0 else |xs| - 1
  {
    seq(if |xs| == 0 then 0 else |xs| - 1, i requires 0 <= i < |xs| - 1 => xs[i] + " " + xs[i + 1])
  }

  /** The `i`-th bigram is the `i`-th word and the next one joined with a space. */
  lemma BigramsPairs(xs: seq<string>)
    ensures forall i :: 0 <= i < |Bigrams(xs)| ==> Bigrams(xs)[i] == xs[i] + " " + xs[i + 1]
  {
  }

  /** The bigram pass: the first acronym bigram always ends the search; its index among the
      bigrams is used as a token index. */
  function BigramSearch(alphanumerics: seq<string>, isAcronym: AcronymTest, p: nat): (r: Option<Candidate>)
    ensures r.Some? ==> r.value.priority in {8, 10, 12}
    decreases |Bigrams(Head(alphanumerics))| - p
  {
    var bigrams := Bigrams(Head(alphanumerics));
    if p >= |bigrams| then None
    else if isAcronym(bigrams[p]) then Some(BigramOutcome(alphanumerics, IndexOf(bigrams, bigrams[p])))
    else BigramSearch(alphanumerics, isAcronym, p + 1)
  }

  /** What an acronym bigram whose first occurrence is at `ind` yields: a span around it, or
      failing that the `splash` tokens from `ind` with priority 8. */
  function BigramOutcome(alphanumerics: seq<string>, ind: nat): (r: Candidate)
    ensures r.priority in {8, 10, 12}
    ensures r.priority == 8 <==> SearchAround(alphanumerics, ind).None?
    ensures r.priority == 8 ==> r.name == RightWindow(alphanumerics, ind)
    ensures r.priority != 8 ==> Some(r) == SearchAround(alphanumerics, ind)
  {
    match SearchAround(alphanumerics, ind)
    case Some(c) => c
    case None => Candidate(Slice(alphanumerics, ind, ind + Splash), 8)
  }

  /** `get_name_method1(alphanumerics)`. */
  function NameMethod1(alphanumerics: seq<string>, isAcronym: AcronymTest): Candidate
  {
    match TokenSearch(alphanumerics, isAcronym, 0)
    case Some(c) => c
    case None =>
      match BigramSearch(alphanumerics, isAcronym, 0)
      case Some(c) => c
      case None => Candidate([], 0)
  }

  /** The backward scan with its counter `hm`. */
  method SearchLeft(alphanumerics: seq<string>, ind: nat) returns (r: Option<Candidate>)
    ensures r == LeftScan(alphanumerics, ind, 0)
  {
    var hm := Splash + 1;
    var window := Slice(alphanumerics, ind - Splash, ind);
    for k := 0 to |window|
      invariant hm == Splash + 1 - k
      invariant LeftScan(alphanumerics, ind, 0) == LeftScan(alphanumerics, ind, k)
    {
      hm := hm - 1;
      if IsExactThe(window[k]) {
        var num := ind - hm;
        return Some(Candidate(Slice(alphanumerics, num, ind), 12));
      }
    }
    r := None;
  }

  /** The forward scan with its counter `hm`. */
  method SearchRight(alphanumerics: seq<string>, ind: nat) returns (r: Option<Candidate>)
    ensures r == RightScan(alphanumerics, ind, 0)
  {
    var hm := -1;
    var window := Slice(alphanumerics, ind, ind + Splash);
    for k := 0 to |window|
      invariant hm == k - 1
      invariant RightScan(alphanumerics, ind, 0) == RightScan(alphanumerics, ind, k)
    {
      hm := hm + 1;
      if HasThe(window[k]) {
        var num := ind + hm;
        return Some(Candidate(Slice(alphanumerics, num, num + Splash), 10));
      }
    }
    r := None;
  }

  /** The single-token pass of `get_name_method1`. */
  method SearchTokens(alphanumerics: seq<string>, isAcronym: AcronymTest) returns (r: Option<Candidate>)
    ensures r == TokenSearch(alphanumerics, isAcronym, 0)
  {
    var head := Slice(alphanumerics, 0, HeadSize);
    for p := 0 to |head|
      invariant TokenSearch(alphanumerics, isAcronym, 0) == TokenSearch(alphanumerics, isAcronym, p)
    {
      if isAcronym(head[p]) {
        assert head[p] == alphanumerics[p];
        var ind := IndexOf(alphanumerics, head[p]);
        var left := SearchLeft(alphanumerics, ind);
        if left.Some? {
          return left;
        }
        var right := SearchRight(alphanumerics, ind);
        if right.Some? {
          return right;
        }
      }
    }
    r := None;
  }

  /** The bigram pass of `get_name_method1`, building the bigram list first. */
  method SearchBigrams(alphanumerics: seq<string>, isAcronym: AcronymTest) returns (r: Option<Candidate>)
    ensures r == BigramSearch(alphanumerics, isAcronym, 0)
  {
    var head := Slice(alphanumerics, 0, HeadSize);
    var bigrams: seq<string> := [];
    var i := 0;
    while i + 1 < |head|
      invariant i <= |head| && (|head| > 0 ==> i < |head|)
      invariant bigrams == Bigrams(head)[..i]
    {
      bigrams := bigrams + [head[i] + " " + head[i + 1]];
      i := i + 1;
    }
    assert bigrams == Bigrams(head);
    r := FirstBigramOutcome(alphanumerics, isAcronym, bigrams);
  }

  /** The acronym test over the bigram list, stopping at the first acronym bigram. */
  method FirstBigramOutcome(alphanumerics: seq<string>, isAcronym: AcronymTest, bigrams: seq<string>)
    returns (r: Option<Candidate>)
    requires bigrams == Bigrams(Head(alphanumerics))
    ensures r == BigramSearch(alphanumerics, isAcronym, 0)
  {
    for p := 0 to |bigrams|
      invariant BigramSearch(alphanumerics, isAcronym, 0) == BigramSearch(alphanumerics, isAcronym, p)
    {
      if isAcronym(bigrams[p]) {
        var ind := IndexOf(bigrams, bigrams[p]);
        var left := SearchLeft(alphanumerics, ind);
        if left.Some? {
          return left;
        }
        var right := SearchRight(alphanumerics, ind);
        if right.Some? {
          return right;
        }
        return Some(Candidate(Slice(alphanumerics, ind, ind + Splash), 8));
      }
    }
    r := None;
  }

  /** `get_name_method1`. */
  method GetNameMethod1(alphanumerics: seq<string>, isAcronym: AcronymTest) returns (r: Candidate)
    ensures r == NameMethod1(alphanumerics, isAcronym)
  {
    var single := SearchTokens(alphanumerics, isAcronym);
    if single.Some? {
      return single.value;
    }
    var double := SearchBigrams(alphanumerics, isAcronym);
    if double.Some? {
      return double.value;
    }
    r := Candidate([], 0);
  }

  /** The priority is one of 0, 8, 10 and 12; it is 0, with an empty name, exactly when no
      acronym token has a "the" around it and no bigram is an acronym. */
  lemma NameMethod1Outcome(alphanumerics: seq<string>, isAcronym: AcronymTest)
    ensures var c := NameMethod1(alphanumerics, isAcronym);
      c.priority in {0, 8, 10, 12} &&
      (c.priority == 10 ==> 0 < |c.name| && HasThe(c.name[0])) &&
      (c.priority == 0 <==>
        (forall p :: 0 <= p < |Head(alphanumerics)| ==> !TokenSettles(alphanumerics, isAcronym, p)) &&
        forall p :: 0 <= p < |Bigrams(Head(alphanumerics))| ==> !isAcronym(Bigrams(Head(alphanumerics))[p])) &&
      (c.priority == 0 ==> c.name == [])
  {
    BigramSearchNone(alphanumerics, isAcronym, 0);
    TokenSearchFirst(alphanumerics, isAcronym, 0);
    var c := NameMethod1(alphanumerics, isAcronym);
    if c.priority == 10 {
      match TokenSearch(alphanumerics, isAcronym, 0)
      case Some(t) => TokenSearchRight(alphanumerics, isAcronym, 0);
      case None => BigramSearchRight(alphanumerics, isAcronym, 0);
    }
  }

  /** The head token at `p` ends the single-token pass: it is an acronym and one of the two
      scans around its first occurrence finds a "the". */
  predicate TokenSettles(alphanumerics: seq<string>, isAcronym: AcronymTest, p: nat)
  {
    p < |Head(alphanumerics)| && isAcronym(Head(alphanumerics)[p]) && TokenSpan(alphanumerics, p).Some?
  }

  /** The first head token from `p` on that settles the single-token pass, or the head's
      length when there is none. */
  function FirstSettling(alphanumerics: seq<string>, isAcronym: AcronymTest, p: nat): (q: nat)
    requires p <= |Head(alphanumerics)|
    ensures p <= q <= |Head(alphanumerics)|
    ensures q < |Head(alphanumerics)| ==> TokenSettles(alphanumerics, isAcronym, q)
    ensures forall q' :: p <= q' < q ==> !TokenSettles(alphanumerics, isAcronym, q')
    decreases |Head(alphanumerics)| - p
  {
    if p == |Head(alphanumerics)| || TokenSettles(alphanumerics, isAcronym, p) then p
    else FirstSettling(alphanumerics, isAcronym, p + 1)
  }

  /** The single-token pass skips every acronym token without a "the" around it and returns
      the span of the first one that has one; it finds nothing exactly when none has. */
  lemma {:induction false} TokenSearchFirst(alphanumerics: seq<string>, isAcronym: AcronymTest, p: nat)
    requires p <= |Head(alphanumerics)|
    ensures var q := FirstSettling(alphanumerics, isAcronym, p);
      TokenSearch(alphanumerics, isAcronym, p) == if q < |Head(alphanumerics)| then TokenSpan(alphanumerics, q) else None
    ensures TokenSearch(alphanumerics, isAcronym, p).None? <==>
      forall q :: p <= q < |Head(alphanumerics)| ==> !TokenSettles(alphanumerics, isAcronym, q)
    decreases |Head(alphanumerics)| - p
  {
    if p < |Head(alphanumerics)| && !TokenSettles(alphanumerics, isAcronym, p) {
      TokenSearchFirst(alphanumerics, isAcronym, p + 1);
    }
  }

  /** The span the scans give around the first occurrence of the `q`-th head token. */
  function TokenSpan(alphanumerics: seq<string>, q: nat): Option<Candidate>
    requires q < |Head(alphanumerics)|
  {
    SearchAround(alphanumerics, IndexOf(alphanumerics, Head(alphanumerics)[q]))
  }

  /** The first bigram from `p` on that the acronym test accepts, or the number of bigrams
      when there is none. */
  function FirstAcronymBigram(bigrams: seq<string>, isAcronym: AcronymTest, p: nat): (q: nat)
    requires p <= |bigrams|
    ensures p <= q <= |bigrams|
    ensures q < |bigrams| ==> isAcronym(bigrams[q])
    ensures forall q' :: p <= q' < q ==> !isAcronym(bigrams[q'])
    decreases |bigrams| - p
  {
    if p == |bigrams| || isAcronym(bigrams[p]) then p else FirstAcronymBigram(bigrams, isAcronym, p + 1)
  }

  /** The bigram pass returns at the first acronym bigram, whatever the scans around it find. */
  lemma {:induction false} BigramSearchFirst(alphanumerics: seq<string>, isAcronym: AcronymTest, p: nat)
    requires p <= |Bigrams(Head(alphanumerics))|
    ensures var q := FirstAcronymBigram(Bigrams(Head(alphanumerics)), isAcronym, p);
      BigramSearch(alphanumerics, isAcronym, p) ==
        if q < |Bigrams(Head(alphanumerics))| then Some(BigramAt(alphanumerics, q)) else None
    decreases |Bigrams(Head(alphanumerics))| - p
  {
    var bigrams := Bigrams(Head(alphanumerics));
    if p < |bigrams| && !isAcronym(bigrams[p]) {
      BigramSearchFirst(alphanumerics, isAcronym, p + 1);
    }
  }

  /** The outcome of the `q`-th bigram, looked up by its first occurrence. */
  function BigramAt(alphanumerics: seq<string>, q: nat): Candidate
    requires q < |Bigrams(Head(alphanumerics))|
  {
    var bigrams := Bigrams(Head(alphanumerics));
    BigramOutcome(alphanumerics, IndexOf(bigrams, bigrams[q]))
  }

  /** The bigram pass finds nothing exactly when no bigram is an acronym. */
  lemma {:induction false} BigramSearchNone(alphanumerics: seq<string>, isAcronym: AcronymTest, p: nat)
    ensures var bigrams := Bigrams(Head(alphanumerics));
      BigramSearch(alphanumerics, isAcronym, p).None? <==> forall q :: p <= q < |bigrams| ==> !isAcronym(bigrams[q])
    decreases |Bigrams(Head(alphanumerics))| - p
  {
    var bigrams := Bigrams(Head(alphanumerics));
    if p < |bigrams| && !isAcronym(bigrams[p]) {
      BigramSearchNone(alphanumerics, isAcronym, p + 1);
    }
  }

  /** A priority-10 span of the single-token pass comes from the right scan. */
  lemma {:induction false} TokenSearchRight(alphanumerics: seq<string>, isAcronym: AcronymTest, p: nat)
    ensures var r := TokenSearch(alphanumerics, isAcronym, p);
      r.Some? && r.value.priority == 10 ==> 0 < |r.value.name| && HasThe(r.value.name[0])
    decreases |Head(alphanumerics)| - p
  {
    var head := Head(alphanumerics);
    if p < |head| {
      TokenSearchRight(alphanumerics, isAcronym, p + 1);
    }
  }

  /** A priority-10 span of the bigram pass comes from the right scan. */
  lemma {:induction false} BigramSearchRight(alphanumerics: seq<string>, isAcronym: AcronymTest, p: nat)
    ensures var r := BigramSearch(alphanumerics, isAcronym, p);
      r.Some? && r.value.priority == 10 ==> 0 < |r.value.name| && HasThe(r.value.name[0])
    decreases |Bigrams(Head(alphanumerics))| - p
  {
    var bigrams := Bigrams(Head(alphanumerics));
    if p < |bigrams| && !isAcronym(bigrams[p]) {
      BigramSearchRight(alphanumerics, isAcronym, p + 1);
    }
  }

  /** Where the left window starts: `ind - splash` read as a Python slice bound. */
  function LeftStart(alphanumerics: seq<string>, ind: nat): nat
  {
    SliceBound(ind - Splash, |alphanumerics|)
  }

  /** The left window `alphanumerics[ind-splash:ind]` in its regimes: the `splash` tokens before
      the acronym; nothing, when the acronym is among the first `splash` tokens of a list of at
      least `splash` tokens (the negative start counts from the end and lands at or after `ind`);
      and on a shorter list the tokens from `len + ind - splash` on, or from 0 when that is
      negative. */
  lemma LeftWindowShape(alphanumerics: seq<string>, ind: nat)
    requires ind <= |alphanumerics|
    ensures Splash <= ind ==> LeftWindow(alphanumerics, ind) == alphanumerics[ind - Splash..ind]
    ensures ind < Splash <= |alphanumerics| ==> LeftWindow(alphanumerics, ind) == []
    ensures |alphanumerics| < Splash <= |alphanumerics| + ind ==>
      LeftWindow(alphanumerics, ind) == alphanumerics[|alphanumerics| + ind - Splash..ind]
    ensures |alphanumerics| + ind < Splash ==> LeftWindow(alphanumerics, ind) == alphanumerics[..ind]
  {
  }

  /** In a list of at least `splash` tokens an acronym among the first `splash` has an empty
      left window, so it never gets a left span: only the right scan can find one. */
  lemma EarlyAcronymNoLeftSpan(alphanumerics: seq<string>, ind: nat)
    requires ind < Splash <= |alphanumerics|
    ensures LeftWindow(alphanumerics, ind) == []
    ensures LeftScan(alphanumerics, ind, 0).None?
    ensures SearchAround(alphanumerics, ind) == RightScan(alphanumerics, ind, 0)
  {
  }

  /** Unless the list is so short that the window start is clamped to 0, a left-scan span runs
      from the earliest exact "the" of the window up to, and without, the acronym. */
  lemma {:induction false} LeftScanSpan(alphanumerics: seq<string>, ind: nat, k: nat)
    requires ind <= |alphanumerics| && Splash <= |alphanumerics| + ind
    requires k <= |LeftWindow(alphanumerics, ind)|
    requires var s := LeftStart(alphanumerics, ind);
      forall q :: s <= q < s + k ==> !IsExactThe(alphanumerics[q])
    ensures var r := LeftScan(alphanumerics, ind, k);
      var s := LeftStart(alphanumerics, ind);
      (r.None? <==> forall q :: s <= q < ind ==> !IsExactThe(alphanumerics[q])) &&
      (r.Some? ==>
        exists q :: s + k <= q < ind && IsExactThe(alphanumerics[q]) &&
          r.value.name == alphanumerics[q..ind] &&
          forall q' :: s <= q' < q ==> !IsExactThe(alphanumerics[q']))
    decreases |LeftWindow(alphanumerics, ind)| - k
  {
    var window := LeftWindow(alphanumerics, ind);
    var s := LeftStart(alphanumerics, ind);
    if s < ind {
      assert window == alphanumerics[s..ind];
      assert forall j :: 0 <= j < |window| ==> window[j] == alphanumerics[s + j];
      if k < |window| {
        if !IsExactThe(window[k]) {
          LeftScanSpan(alphanumerics, ind, k + 1);
        } else {
          assert SliceBound(ind - Splash + k, |alphanumerics|) == s + k;
          assert LeftScan(alphanumerics, ind, k).value.name == alphanumerics[s + k..ind];
        }
      }
    }
  }

  /** On a list so short that `len + ind < splash`, the window is the whole prefix before the
      acronym and a span starts `splash - len - ind` tokens before its "the", or at 0. */
  lemma {:induction false} LeftScanClamped(alphanumerics: seq<string>, ind: nat, k: nat)
    requires ind <= |alphanumerics| && |alphanumerics| + ind < Splash && k <= ind
    requires forall q :: 0 <= q < k ==> !IsExactThe(alphanumerics[q])
    ensures var r := LeftScan(alphanumerics, ind, k);
      (r.None? <==> forall q :: 0 <= q < ind ==> !IsExactThe(alphanumerics[q])) &&
      (r.Some? ==>
        exists q :: k <= q < ind && IsExactThe(alphanumerics[q]) &&
          r.value.name == alphanumerics[ClampedStart(alphanumerics, ind, q)..ind] &&
          forall q' :: 0 <= q' < q ==> !IsExactThe(alphanumerics[q']))
    decreases ind - k
  {
    var window := LeftWindow(alphanumerics, ind);
    assert window == alphanumerics[..ind];
    if k < ind {
      assert window[k] == alphanumerics[k];
      if !IsExactThe(window[k]) {
        LeftScanClamped(alphanumerics, ind, k + 1);
      } else {
        assert SliceBound(ind - Splash + k, |alphanumerics|) == ClampedStart(alphanumerics, ind, k);
      }
    }
  }

  /** The start of the span for an exact "the" at `q` on a clamped short list. */
  function ClampedStart(alphanumerics: seq<string>, ind: nat, q: nat): nat
  {
    if q + |alphanumerics| + ind < Splash then 0 else q + |alphanumerics| + ind - Splash
  }

  /** A right-scan span is the `splash` tokens (fewer at the end of the list) from the first
      token of the right window that contains "the"; there is none exactly when no token of the
      window contains one. */
  lemma {:induction false} RightScanSpan(alphanumerics: seq<string>, ind: nat, k: nat)
    requires ind <= |alphanumerics| && k <= |RightWindow(alphanumerics, ind)|
    requires forall q :: ind <= q < ind + k ==> !HasThe(alphanumerics[q])
    ensures var r := RightScan(alphanumerics, ind, k);
      var end := ind + |RightWindow(alphanumerics, ind)|;
      (r.None? <==> forall q :: ind <= q < end ==> !HasThe(alphanumerics[q])) &&
      (r.Some? ==>
        exists q :: ind + k <= q < end && HasThe(alphanumerics[q]) &&
          r.value == Candidate(alphanumerics[q..if q + Splash <= |alphanumerics| then q + Splash else |alphanumerics|], 10) &&
          forall q' :: ind <= q' < q ==> !HasThe(alphanumerics[q']))
    decreases |RightWindow(alphanumerics, ind)| - k
  {
    var window := RightWindow(alphanumerics, ind);
    if k < |window| {
      if !HasThe(window[k]) {
        RightScanSpan(alphanumerics, ind, k + 1);
      } else {
        var q := ind + k;
        assert RightScan(alphanumerics, ind, k).value.name ==
          alphanumerics[q..if q + Splash <= |alphanumerics| then q + Splash else |alphanumerics|];
      }
    }
  }

  /** Near the start of a short token list the left window wraps: the span of
      `["x", "the", "ICML20"]` around the acronym is `["x", "the"]`, not `["the"]`, because its
      start `ind - splash + k` is negative again. */
  lemma ShortListSpan(alphanumerics: seq<string>)
    requires alphanumerics == ["x", "the", "ICML20"]
    ensures SearchAround(alphanumerics, 2) == Some(Candidate(["x", "the"], 12))
  {
    assert LeftWindow(alphanumerics, 2) == ["x", "the"];
    assert !IsExactThe("x");
    assert LeftScan(alphanumerics, 2, 1) == Some(Candidate(alphanumerics[0..2], 12));
    assert alphanumerics[0..2] == ["x", "the"];
  }

  /** The key words of `LowPri`, in their list order. */
  const Keywords: seq<string> := ["International", "World", "Symposium", "Annual", "Congress"]

  /** `del name[:name.index(kw) - 1]`: keep from the word before the key word on; a key word in
      front (index 0) keeps only the last word. */
  function TrimAt(name: seq<string>, kw: string): (r: seq<string>)
    requires kw in name
    ensures 0 < |r| <= |name| && r == name[|name| - |r|..]
  {
    var yup := IndexOf(name, kw);
    Slice(name, yup - 1, |name|)
  }

  /** Which suffix `TrimAt` keeps: from the word before the first occurrence of the key word,
      which is then kept too, or only the last word when the key word comes first. */
  lemma TrimAtFrom(name: seq<string>, kw: string)
    requires kw in name
    ensures var y := IndexOf(name, kw);
      (y >= 1 ==> TrimAt(name, kw) == name[y - 1..] && kw in TrimAt(name, kw)) &&
      (y == 0 ==> TrimAt(name, kw) == [name[|name| - 1]])
  {
    var y := IndexOf(name, kw);
    if y >= 1 {
      assert TrimAt(name, kw)[1] == kw;
    }
  }

  /** `LowPri` from the `k`-th key word on. */
  function LowPriFrom(name: seq<string>, priority: int, k: nat): Candidate
    requires k <= |Keywords|
    decreases |Keywords| - k
  {
    if k == |Keywords| then Candidate(name, priority)
    else if Keywords[k] in name then LowPriFrom(TrimAt(name, Keywords[k]), 11, k + 1)
    else LowPriFrom(name, priority, k + 1)
  }

  /** `LowPri(name, priority)`: trims the name list in place. */
  method LowPri(name: seq<string>, priority: int) returns (r: Candidate)
    ensures r == LowPriFrom(name, priority, 0)
  {
    var n := name;
    var p := priority;
    for k := 0 to |Keywords|
      invariant LowPriFrom(name, priority, 0) == LowPriFrom(n, p, k)
    {
      var kw := Keywords[k];
      if kw in n {
        var yup: int := IndexOf(n, kw);
        n := Slice(n, yup - 1, |n|);
        p := 11;
      }
    }
    r := Candidate(n, p);
  }

  /** `LowPri` returns a suffix of its input. */
  lemma {:induction false} LowPriSuffix(name: seq<string>, priority: int, k: nat)
    requires k <= |Keywords|
    ensures IsSuffix(LowPriFrom(name, priority, k).name, name)
    decreases |Keywords| - k
  {
    if k < |Keywords| {
      if Keywords[k] in name {
        LowPriSuffix(TrimAt(name, Keywords[k]), 11, k + 1);
        TrimAtSuffix(name, Keywords[k], LowPriFrom(TrimAt(name, Keywords[k]), 11, k + 1).name);
      } else {
        LowPriSuffix(name, priority, k + 1);
      }
    }
  }

  /** `b` is a suffix of `a`. */
  predicate IsSuffix(b: seq<string>, a: seq<string>)
  {
    |b| <= |a| && b == a[|a| - |b|..]
  }

  /** A suffix of what `TrimAt` keeps is a suffix of the untrimmed name. */
  lemma TrimAtSuffix(name: seq<string>, kw: string, c: seq<string>)
    requires kw in name && IsSuffix(c, TrimAt(name, kw))
    ensures IsSuffix(c, name)
  {
    SuffixOfSuffix(name, TrimAt(name, kw), c);
  }

  /** A suffix of a suffix is a suffix. */
  lemma SuffixOfSuffix(a: seq<string>, b: seq<string>, c: seq<string>)
    requires IsSuffix(b, a) && IsSuffix(c, b)
    ensures IsSuffix(c, a)
  {
    assert b[|b| - |c|..] == a[|a| - |c|..];
  }

  /** The priority becomes 11 exactly when the input holds a key word, and is kept otherwise:
      trimming keeps the key word that caused it. */
  lemma {:induction false} LowPriPriority(name: seq<string>, priority: int, k: nat)
    requires k <= |Keywords|
    ensures LowPriFrom(name, priority, k).priority ==
      if exists i :: k <= i < |Keywords| && Keywords[i] in name then 11 else priority
    decreases |Keywords| - k
  {
    if k < |Keywords| {
      if Keywords[k] in name {
        var t := TrimAt(name, Keywords[k]);
        LowPriPriority(t, 11, k + 1);
        assert LowPriFrom(name, priority, k) == LowPriFrom(t, 11, k + 1);
        assert k <= k < |Keywords| && Keywords[k] in name;
      } else {
        LowPriPriority(name, priority, k + 1);
        assert (exists i :: k <= i < |Keywords| && Keywords[i] in name) <==>
               (exists i :: k + 1 <= i < |Keywords| && Keywords[i] in name);
      }
    }
  }

  /** A leading key word deletes all but the last word. */
  lemma LeadingKeyword(name: seq<string>)
    requires name == ["International", "Conference", "on", "Robotics"]
    ensures LowPriFrom(name, 0, 0) == Candidate(["Robotics"], 11)
  {
    var t := TrimAt(name, "International");
    assert IndexOf(name, "International") == 0;
    assert t == ["Robotics"];
    assert forall i :: 1 <= i < |Keywords| ==> Keywords[i] !in t;
    assert LowPriFrom(t, 11, 1) == Candidate(t, 11);
  }

  /** `MidHighPri`, which rests on the entity recogniser, supplied by the caller. */
  type MidHighTest = Candidate -> Candidate

  /** `prioritizer`: priorities 9 to 11 go to `MidHighPri`, priorities below 9 to `LowPri`. */
  function Prioritize(c: Candidate, midHigh: MidHighTest): (r: Candidate)
    ensures 8 < c.priority < 12 ==> r == midHigh(c)
    ensures c.priority < 9 ==> r == LowPriFrom(c.name, c.priority, 0)
    ensures c.priority < 9 ==> |r.name| <= |c.name| && r.name == c.name[|c.name| - |r.name|..]
    ensures c.priority < 9 ==> r.priority == if exists i :: 0 <= i < |Keywords| && Keywords[i] in c.name then 11 else c.priority
    ensures c.priority >= 12 ==> r == c
  {
    if 12 > c.priority > 8 then midHigh(c)
    else if c.priority < 9 then
      LowPriSuffix(c.name, c.priority, 0);
      LowPriPriority(c.name, c.priority, 0);
      LowPriFrom(c.name, c.priority, 0)
    else c
  }

  /** `get_conf_name`: the prioritised name joined with spaces. */
  function ConfName(alphanumerics: seq<string>, isAcronym: AcronymTest, midHigh: MidHighTest): string
  {
    Join(" ", Prioritize(NameMethod1(alphanumerics, isAcronym), midHigh).name)
  }

  /** `get_conf_name`, through the loops of `get_name_method1` and `LowPri`. */
  method GetConfName(alphanumerics: seq<string>, isAcronym: AcronymTest, midHigh: MidHighTest) returns (r: string)
    ensures r == ConfName(alphanumerics, isAcronym, midHigh)
  {
    var c := GetNameMethod1(alphanumerics, isAcronym);
    var name, priority := c.name, c.priority;
    if 12 > priority > 8 {
      c := midHigh(c);
    }
    if priority < 9 {
      c := LowPri(name, priority);
    }
    r := Join(" ", c.name);
  }

  /** A non-empty name whose words hold no space is read back from the joined name by
      splitting it at spaces. */
  lemma ConfNameSplits(alphanumerics: seq<string>, isAcronym: AcronymTest, midHigh: MidHighTest)
    ensures var c := Prioritize(NameMethod1(alphanumerics, isAcronym), midHigh);
      |c.name| >= 1 && (forall k :: 0 <= k < |c.name| ==> NoSep(c.name[k], IsBlank)) ==>
      SplitWhere(ConfName(alphanumerics, isAcronym, midHigh), IsBlank) == c.name
  {
    var c := Prioritize(NameMethod1(alphanumerics, isAcronym), midHigh);
    if |c.name| >= 1 && (forall k :: 0 <= k < |c.name| ==> NoSep(c.name[k], IsBlank)) {
      SplitJoin(c.name, ' ', IsBlank);
    }
  }
}
