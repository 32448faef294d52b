/** The fallback date finder `get_dates_primitive` (extract-CFP.py:330-350): every token that
    looks like a year or a month name yields a bundle of it and its immediate neighbours. */
module Primitive {
  import opened PyText
  import opened Tokens

  /** The test of extract-CFP.py:336-342 on the lower-cased token and on it without its last
      character. */
  predicate IsDateWord(w: string)
  {
    var word := Lower(w);
    var shortened := DropLast(word);
    IsYear(word) || word in Months || word in MonthAbbrevs || shortened in Months || shortened in MonthAbbrevs
  }

  /** The bundle for position `i`: the original tokens at `i - 1`, `i` and `i + 1` where they
      exist. */
  function Bundle(words: seq<string>, i: nat): (r: seq<string>)
    requires i < |words|
    ensures r == words[if i > 0 then i - 1 else 0..if i + 2 <= |words| then i + 2 else |words|]
  {
    (if i > 0 then [words[i - 1]] else []) + [words[i]] + (if i < |words| - 1 then [words[i + 1]] else [])
  }

  /** The positions below `k` whose token qualifies, in increasing order. */
  function QualifyingUpTo(words: seq<string>, k: nat): (r: seq<nat>)
    requires k <= |words|
    ensures forall j :: 0 <= j < |r| ==> r[j] < k && IsDateWord(words[r[j]])
    ensures forall j, l :: 0 <= j < l < |r| ==> r[j] < r[l]
    ensures forall i :: 0 <= i < k && IsDateWord(words[i]) ==> i in r
  {
    if k == 0 then []
    else QualifyingUpTo(words, k - 1) + if IsDateWord(words[k - 1]) then [k - 1] else []
  }

  /** The bundles the loop has appended after its first `k` rounds. */
  function PrimitiveUpTo(words: seq<string>, k: nat): seq<seq<string>>
    requires k <= |words|
  {
    if k == 0 then []
    else PrimitiveUpTo(words, k - 1) + if IsDateWord(words[k - 1]) then [Bundle(words, k - 1)] else []
  }

  /** `get_dates_primitive(words)`. */
  method GetDatesPrimitive(words: seq<string>) returns (dates: seq<seq<string>>)
    ensures dates == PrimitiveUpTo(words, |words|)
  {
    dates := [];
    for i := 0 to |words|
      invariant dates == PrimitiveUpTo(words, i)
    {
      var date: seq<string> := [];
      var word := Lower(words[i]);
      var shortenedWord := DropLast(word);
      assert IsDateWord(words[i]) == (IsYear(word) || word in Months || word in MonthAbbrevs ||
        shortenedWord in Months || shortenedWord in MonthAbbrevs);
      if IsYear(word) || word in Months || word in MonthAbbrevs ||
         shortenedWord in Months || shortenedWord in MonthAbbrevs {
        if i > 0 {
          date := date + [words[i - 1]];
        }
        date := date + [words[i]];
        if i < |words| - 1 {
          date := date + [words[i + 1]];
        }
        assert date == Bundle(words, i);
        dates := dates + [date];
      }
    }
  }

  /** One bundle per qualifying token, in token order. */
  lemma {:induction false} PrimitiveBundles(words: seq<string>, k: nat)
    requires k <= |words|
    ensures var q := QualifyingUpTo(words, k);
      |PrimitiveUpTo(words, k)| == |q| &&
      forall j :: 0 <= j < |q| ==> PrimitiveUpTo(words, k)[j] == Bundle(words, q[j])
  {
    if k > 0 {
      PrimitiveBundles(words, k - 1);
      var q, b := QualifyingUpTo(words, k - 1), PrimitiveUpTo(words, k - 1);
      if IsDateWord(words[k - 1]) {
        assert QualifyingUpTo(words, k) == q + [k - 1];
        assert PrimitiveUpTo(words, k) == b + [Bundle(words, k - 1)];
      } else {
        assert QualifyingUpTo(words, k) == q;
        assert PrimitiveUpTo(words, k) == b;
      }
    }
  }

  /** A bundle has one token for a one-token list, two at either end, three inside. */
  lemma BundleLength(words: seq<string>, i: nat)
    requires i < |words|
    ensures |words| == 1 ==> |Bundle(words, i)| == 1
    ensures |words| > 1 && (i == 0 || i == |words| - 1) ==> |Bundle(words, i)| == 2
    ensures 0 < i < |words| - 1 ==> |Bundle(words, i)| == 3
    ensures words[i] in Bundle(words, i)
  {
  }

  /** `"Jan."` qualifies through its shortened form, as does a year. */
  lemma DateWordExamples(abbrev: string, year: string)
    requires abbrev == "Jan." && year == "2021"
    ensures IsDateWord(abbrev) && IsDateWord(year)
  {
    assert Lower(abbrev) == "jan.";
    assert DropLast(Lower(abbrev)) == "jan";
    assert Lower(year) == year;
    assert IsYearDigits(year);
  }
}
