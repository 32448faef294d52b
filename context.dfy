/** The context of a date mention and its classification (extract-CFP.py:32-91, 171-178):
    the first exact occurrence of the mention in the alphanumeric token stream, the tokens
    before it, keyword scans over a window, and the three-state format detector. */
module Context {
  import opened Wrappers
  import opened PyText

  /** What the search loop of `get_n_previous_words` ends with at some start position. */
  datatype Scan = FoundAt(pos: nat) | NotFound | Overrun

  /** `needles` occurs at position `i` of `haystack`, and `i` is a position the loop visits. */
  predicate OccursAt(needles: seq<string>, haystack: seq<string>, i: nat)
  {
    i < |haystack| && needles <= haystack[i..]
  }

  /** The outer loop from position `i`: a full match stops it; running off the end of the
      haystack while still matching (`haystack[i + j]` out of range) is an IndexError. */
  function ScanFrom(needles: seq<string>, haystack: seq<string>, i: nat): (r: Scan)
    ensures r.FoundAt? ==> i <= r.pos && OccursAt(needles, haystack, r.pos)
    decreases |haystack| - i
  {
    if i >= |haystack| then NotFound
    else if needles <= haystack[i..] then FoundAt(i)
    else if haystack[i..] <= needles then Overrun
    else ScanFrom(needles, haystack, i + 1)
  }

  /** `get_n_previous_words(needles, haystack, n)`: the up to `n` tokens before the first
      occurrence and the index where they start; `([], len(haystack))` without an occurrence. */
  function PreviousWords(needles: seq<string>, haystack: seq<string>, n: nat): Result<(seq<string>, nat)>
  {
    match ScanFrom(needles, haystack, 0)
    case FoundAt(p) =>
      var start := if n < p then p - n else 0;
      Ok((haystack[start..p], start))
    case NotFound => Ok(([], |haystack|))
    case Overrun => Err(IndexError)
  }

  lemma {:induction false} ScanFindsFirst(needles: seq<string>, haystack: seq<string>, i: nat, p: nat)
    requires i <= p && OccursAt(needles, haystack, p)
    requires forall q :: i <= q < p ==> !OccursAt(needles, haystack, q)
    ensures ScanFrom(needles, haystack, i) == FoundAt(p)
    decreases p - i
  {
    if i < p {
      assert !OccursAt(needles, haystack, i);
      assert |needles| < |haystack[i..]|;
      ScanFindsFirst(needles, haystack, i + 1, p);
    }
  }

  lemma {:induction false} ScanFoundIsFirst(needles: seq<string>, haystack: seq<string>, i: nat)
    requires ScanFrom(needles, haystack, i).FoundAt?
    ensures forall q :: i <= q < ScanFrom(needles, haystack, i).pos ==> !OccursAt(needles, haystack, q)
    decreases |haystack| - i
  {
    if !(needles <= haystack[i..]) {
      ScanFoundIsFirst(needles, haystack, i + 1);
    }
  }

  /** The tail of `haystack` from `q` is a proper beginning of `needles` or equal to it. */
  predicate TailBegins(needles: seq<string>, haystack: seq<string>, q: nat)
  {
    q < |haystack| && haystack[q..] <= needles
  }

  predicate NoOccurrenceFrom(needles: seq<string>, haystack: seq<string>, i: nat)
  {
    forall q :: i <= q < |haystack| ==> !OccursAt(needles, haystack, q)
  }

  predicate SomeTailBeginsFrom(needles: seq<string>, haystack: seq<string>, i: nat)
  {
    exists q :: i <= q < |haystack| && TailBegins(needles, haystack, q)
  }

  lemma {:induction false} ScanOverrun(needles: seq<string>, haystack: seq<string>, i: nat)
    ensures ScanFrom(needles, haystack, i).Overrun? <==>
      NoOccurrenceFrom(needles, haystack, i) && SomeTailBeginsFrom(needles, haystack, i)
    decreases |haystack| - i
  {
    if i < |haystack| {
      if needles <= haystack[i..] {
        assert OccursAt(needles, haystack, i);
      } else if haystack[i..] <= needles {
        assert TailBegins(needles, haystack, i);
        forall q | i <= q < |haystack| ensures !OccursAt(needles, haystack, q) {
          assert |haystack[q..]| <= |haystack[i..]| < |needles|;
        }
      } else {
        ScanOverrun(needles, haystack, i + 1);
        assert !OccursAt(needles, haystack, i) && !TailBegins(needles, haystack, i);
        assert NoOccurrenceFrom(needles, haystack, i) <==> NoOccurrenceFrom(needles, haystack, i + 1);
        assert SomeTailBeginsFrom(needles, haystack, i) <==> SomeTailBeginsFrom(needles, haystack, i + 1) by {
          if SomeTailBeginsFrom(needles, haystack, i) {
            var q :| i <= q < |haystack| && TailBegins(needles, haystack, q);
            assert q != i;
          }
        }
      }
    }
  }

  /** With an occurrence, the result is the up to `n` tokens just before the first one, in order,
      and the index of the first of them. */
  lemma PreviousWordsFound(needles: seq<string>, haystack: seq<string>, n: nat, p: nat)
    requires OccursAt(needles, haystack, p)
    requires forall q :: 0 <= q < p ==> !OccursAt(needles, haystack, q)
    ensures var m := if n < p then n else p;
      PreviousWords(needles, haystack, n) == Ok((haystack[p - m..p], p - m))
  {
    ScanFindsFirst(needles, haystack, 0, p);
  }

  /** Without an occurrence and without a suffix of the haystack that begins the needles,
      the result is `([], len(haystack))`. */
  lemma PreviousWordsNotFound(needles: seq<string>, haystack: seq<string>, n: nat)
    requires forall q :: 0 <= q < |haystack| ==> !OccursAt(needles, haystack, q)
    requires forall q :: 0 <= q < |haystack| ==> !TailBegins(needles, haystack, q)
    ensures PreviousWords(needles, haystack, n).Ok? && PreviousWords(needles, haystack, n).value == ([], |haystack|)
  {
    ScanOverrun(needles, haystack, 0);
  }

  /** The IndexError of extract-CFP.py:39 happens exactly when there is no occurrence and some
      non-empty tail of the haystack is a proper beginning of the needles. */
  lemma PreviousWordsRaises(needles: seq<string>, haystack: seq<string>, n: nat)
    ensures PreviousWords(needles, haystack, n).Err? <==>
      (forall q :: 0 <= q < |haystack| ==> !OccursAt(needles, haystack, q)) &&
      (exists q :: 0 <= q < |haystack| && TailBegins(needles, haystack, q))
  {
    ScanOverrun(needles, haystack, 0);
  }

  /** The inner loop of extract-CFP.py:38-40 at start position `i`: Ok(true) on a full match,
      Ok(false) on a mismatch, IndexError when the haystack ends first. */
  method MatchAt(needles: seq<string>, haystack: seq<string>, i: nat) returns (r: Result<bool>)
    requires i < |haystack|
    ensures r == if needles <= haystack[i..] then Ok(true)
                 else if haystack[i..] <= needles then Err(IndexError)
                 else Ok(false)
  {
    var j := 0;
    while j < |needles|
      invariant j <= |needles| && i + j <= |haystack|
      invariant needles[..j] == haystack[i..i + j]
    {
      if i + j >= |haystack| {
        assert haystack[i..] == haystack[i..i + j];
        assert !(needles <= haystack[i..]);
        return Err(IndexError);
      }
      if needles[j] != haystack[i + j] {
        assert !(needles <= haystack[i..]) && !(haystack[i..] <= needles);
        return Ok(false);
      }
      assert needles[..j + 1] == needles[..j] + [needles[j]];
      assert haystack[i..i + j + 1] == haystack[i..i + j] + [haystack[i + j]];
      j := j + 1;
    }
    assert needles[..j] == needles;
    r := Ok(true);
  }

  /** The loops of extract-CFP.py:32-55. */
  method GetNPreviousWords(needles: seq<string>, haystack: seq<string>, n: nat) returns (r: Result<(seq<string>, nat)>)
    ensures r == PreviousWords(needles, haystack, n)
  {
    var found := false;
    var i := 0;
    while i < |haystack| && !found
      invariant i <= |haystack|
      invariant found ==> i < |haystack| && ScanFrom(needles, haystack, 0) == FoundAt(i)
      invariant !found ==> ScanFrom(needles, haystack, 0) == ScanFrom(needles, haystack, i)
      decreases |haystack| - i, if found then 0 else 1
    {
      var m := MatchAt(needles, haystack, i);
      if m.Err? {
        assert ScanFrom(needles, haystack, i) == Overrun;
        return Err(m.error);
      }
      if m.value {
        found := true;
      } else {
        i := i + 1;
      }
    }
    if found {
      var prevWords, start := TakeBefore(haystack, i, n);
      r := Ok((prevWords, start));
    } else {
      assert ScanFrom(needles, haystack, i) == NotFound;
      r := Ok(([], i));
    }
  }

  /** The countdown of extract-CFP.py:46-52: walk back from the occurrence at `p` collecting
      at most `n` tokens, then reverse them into reading order. */
  method TakeBefore(haystack: seq<string>, p: nat, n: nat) returns (words: seq<string>, start: nat)
    requires p <= |haystack|
    ensures start == if n < p then p - n else 0
    ensures words == haystack[start..p]
  {
    var prevWords: seq<string> := [];
    var i := p;
    var left := n;
    while i > 0 && left > 0
      invariant 0 <= i <= p && 0 <= left <= n && p - i == n - left
      invariant prevWords == Reversed(haystack[i..p])
    {
      i := i - 1;
      left := left - 1;
      assert haystack[i..p] == [haystack[i]] + haystack[i + 1..p];
      prevWords := prevWords + [haystack[i]];
    }
    ReversedTwice(haystack[i..p]);
    words := Reversed(prevWords);
    start := i;
  }
}
