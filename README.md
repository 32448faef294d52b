# Conference call-for-papers extractor, modelled in Dafny

`extract-CFP.py` reads one call-for-papers e-mail and produces a `CFP` record with five fields:
- the conference name;
- its location;
- the event date;
- the submission deadline;
- the notification deadline.

The core of the extractor is a set of token-level heuristics:

- **Dates.**
  - Each date mention is found in the stream of alphanumeric tokens.
  - The ten tokens before it and a ten-token window after it are classified by key-word stems ("submis", "submit", "notifi", "notify"), by the word "deadline", or by the entity labels found in the window.
  - A three-state detector (`unknown`, `left`, `right`) remembers on which side of a date its key word usually stands.
  - The normalised `[month, day, year]` goes into one of three slots (event, submission, notification) when it fills an empty slot or is more complete than the date already there.
  - If a slot is still empty once every mention has been processed, a fallback pass runs over every year-like or month-like token, taken with its neighbours. The test is made once, and the pass then processes every such token.
  - Afterwards, a date without a year gets the string-greatest year among the slots' own years. Only when no slot has a year is it the string-greatest year token of the e-mail.
- **Name.**
  - The name comes from an acronym-like token among the first hundred tokens, or failing that from an acronym-like bigram.
  - The span carries a priority. With priority 12 it ends just before the acronym and begins at an exact "the" in the fifteen tokens before it; on a very short list it begins earlier, because the slice start is clamped to 0. With priority 10 it is the fifteen tokens from the first token that contains "the", counting from the acronym itself, so the span can start at the acronym. With priority 8 it is the fifteen tokens from the acronym and holds no "the".
  - A span with a priority below 9 is then trimmed at a key word (`International`, `World`, …). Priorities 9 to 11 go to `MidHighPri` instead, and 12 or more are kept. The result is joined with spaces.
- **Location.**
  - The stream is scanned for tokens that equal a word of the first place (GPE) entity. The last such token is looked up with `index`, so the position kept is that token's first occurrence.
  - The location is the three tokens around that position.
  - It is empty when the position is 0, because the slice then starts at -1.
  - It is the entity's raw text when no token matches or the position is among the last two tokens.
  - Without a place entity it is "Las Vegas".

The model is split by concern, one module per file:

- `PyText`: the bits of Python string and list behaviour the code depends on:
  - slicing, where negative bounds count from the end and bounds are clamped;
  - `index`, `join`, `split`, `int()`, `str()`;
  - the lexicographic string order used by `max`;
  - ASCII case mapping.
- `Tokens`: the regular-expression predicates and the month tables.
- `Dates`: the partial date triple and how it is written out.
- `Context`: `get_n_previous_words`.
- `Classify`: `classify_date`, `get_state` and the state update in `parse_date`.
- `Normalize`: `normalize_date`.
- `Slots`: `update_conf_dates`.
- `Years`: `update_years`.
- `Primitive`: `get_dates_primitive`.
- `ConfDates`: `parse_date` and `get_conf_dates`.
- `Names`: `get_name_method1`, `prioritizer`, `LowPri` and `get_conf_name`.
- `Location`: `get_location`.
- `Cfp`: the record, its `__str__` and `get_CFP`.

Each loop of the source is a `method` with invariants, and each method is proved equal to a recursive specification function. For example, the two scans of `classify_date` are the methods `MatchWords` and `FindDeadline`, which `ClassifyContext` calls; `ClassifyContext` is specified by the function `ClassifyDate`. The lemmas state the promised properties of those functions. The three-slot `conf_dates` list that the source changes in place is an `array` in `ParseDate`, `UpdateConfDates` and `UpdateYears`. Each of those methods is specified by a function of the old array contents.

Python exceptions that the core can raise become `Result` values:
- `IndexError` from the haystack lookup in `get_n_previous_words`;
- `ValueError` from `int()` in `normalize_date`.

In an `a/b/c` token the month stays the numeric text. So `"03/14/2021"` gives month `"03"`, day 14 and year `"2021"` (`Normalize.NormalizeSlashDate`).

## Model

| member | source | states |
|---|---|---|
| PyText.Lower | extract-CFP.py:63 | lower-casing keeps the length and maps each character by the ASCII case table |
| PyText.SliceBound | extract-CFP.py:282 | a slice bound lands in `0..len`: negative bounds count from the end, and out-of-range bounds are clamped |
| PyText.Slice | extract-CFP.py:282 | a Python slice is the subsequence between the normalised bounds, or empty when they cross |
| PyText.SliceFromNonNegative | extract-CFP.py:187 | with non-negative bounds a slice is the ordinary subsequence clamped at the end |
| PyText.IndexOf | extract-CFP.py:280 | `list.index` returns a position holding the value, with no earlier occurrence |
| PyText.Reversed | extract-CFP.py:53 | `reverse` puts element `k` at position `len-1-k`, keeping the length |
| PyText.ReversedTwice | extract-CFP.py:53 | reversing twice gives the list back |
| PyText.SplitWhere | extract-CFP.py:128 | splitting at separator characters gives at least one part, and no part holds a separator |
| PyText.SplitJoin | extract-CFP.py:444 | splitting a join at a separator found in no part returns the parts |
| PyText.SplitWhitespace | extract-CFP.py:460 | `str.split()` yields non-empty parts free of whitespace, and glued together they are the non-whitespace characters of the input, in order |
| PyText.SplitWhitespaceJoin | extract-CFP.py:460 | words without whitespace, joined by single blanks, split back into the same words |
| PyText.Keep | extract-CFP.py:460 | the kept characters hold no separator, never lengthen the text, and leave a separator-free text as it is |
| PyText.ConcatSplitWhere | extract-CFP.py:128 | gluing the parts of a split back together drops exactly the separators |
| PyText.SplitWhereCount | extract-CFP.py:444 | splitting at one separator character gives one part more than it occurs |
| PyText.Digits | extract-CFP.py:144 | the digit filter yields only digits and never lengthens |
| PyText.DigitsOfAllDigits | extract-CFP.py:144 | an all-digit string is left as it is |
| PyText.DigitsCount | extract-CFP.py:144 | every digit is kept as often as it occurs |
| PyText.DigitsCons | extract-CFP.py:144 | the filter of a string is that of its first character followed by that of the rest |
| PyText.DigitsConcatStep | extract-CFP.py:144 | the concatenation rule extends from a string to the string with one more character in front |
| PyText.DigitsConcat | extract-CFP.py:144 | the digit filter distributes over concatenation, so the digits keep their order |
| PyText.DigitsOfChar | extract-CFP.py:144 | one character is kept exactly when it is a digit |
| PyText.ParseInt | extract-CFP.py:146 | `int()` succeeds exactly on a non-empty string of decimal digits; anything else is a ValueError |
| PyText.NatToString | extract-CFP.py:374 | `str(n)` is a non-empty digit string without a leading zero |
| PyText.ParseIntNatToString | extract-CFP.py:374 | `int(str(n)) == n` |
| PyText.StrLessIrreflexive | extract-CFP.py:246 | no string is less than itself |
| PyText.StrLessTransitive | extract-CFP.py:246 | the string order is transitive |
| PyText.StrLessTotal | extract-CFP.py:246 | of two different strings, one is less than the other |
| PyText.MaxString | extract-CFP.py:246 | `max` of a non-empty list is one of its elements, and no element is greater |
| PyText.CountCharConcat | extract-CFP.py:25 | the count of a character in a concatenation is the sum of the counts |
| Tokens.PredicatesNest | extract-CFP.py:377-390 | a year is strictly numeric, strictly numeric is numeric, and numeric is alphanumeric; a year has four characters or five with a final newline |
| Tokens.Alphanumerics | extract-CFP.py:219 | the filter keeps only alphanumeric tokens and never lengthens the list |
| Tokens.AlphanumericsConcat | extract-CFP.py:219 | the filter distributes over concatenation, so it keeps the order of the tokens |
| Tokens.AlphanumericsOfToken | extract-CFP.py:219 | one token is kept exactly when it is alphanumeric |
| Tokens.AlphanumericsMembers | extract-CFP.py:219 | a token is in the result exactly when it is an alphanumeric token of the input |
| Tokens.AlphanumericsCons | extract-CFP.py:219 | the filter of a list is that of its first token followed by that of the rest |
| Tokens.MonthAbbrevOf | extract-CFP.py:9-12 | every month's three-letter prefix is in the abbreviation table and maps to the capitalised month name |
| Tokens.AbbrevIsMonthPrefix | extract-CFP.py:12 | every abbreviation is the prefix of a month name |
| Tokens.MonthWord | extract-CFP.py:101-108 | a recognised month word always yields a capitalised month name, and none is recognised exactly when the token is neither an abbreviation nor a month name, with or without one trailing character |
| Tokens.MonthWordNamesMonth | extract-CFP.py:101-108 | a recognised word yields the capitalised name of the month it names: the word, or the word without its last character, is that month's name or its three-letter abbreviation |
| Tokens.MonthWordAbbreviated | extract-CFP.py:101-104 | "jan" and "jan." both give "January" |
| Tokens.MonthWordFullName | extract-CFP.py:107-108 | a full month name with one trailing character, "marchs", gives "March" |
| Dates.MissingCount | extract-CFP.py:369-370 | the count is at most 3, zero exactly for a complete date, three exactly for an empty one |
| Dates.FormatDateAbsentParts | extract-CFP.py:373-374 | absent parts are written as the text "None" |
| Dates.FormatDateCommas | extract-CFP.py:373-374 | a formatted date holds exactly one comma besides any in the month or year text |
| Dates.FormatDateReadBack | extract-CFP.py:373-374 | a complete date whose month and year hold no blank splits back into month, day with comma, and year, and the day reads back with `int()` |
| Context.ScanFrom | extract-CFP.py:37-45 | a found position is one where the needles occur, at or after the starting position |
| Context.ScanFindsFirst | extract-CFP.py:37-45 | the search stops at the first occurrence |
| Context.ScanFoundIsFirst | extract-CFP.py:37-45 | there is no occurrence before the position found |
| Context.ScanOverrun | extract-CFP.py:39 | the search raises exactly when there is no occurrence and some tail of the haystack is a beginning of the needles |
| Context.PreviousWordsFound | extract-CFP.py:47-55 | with an occurrence, the result is the up to `n` tokens right before the first one, in reading order, and the index where they start |
| Context.PreviousWordsNotFound | extract-CFP.py:47-55 | without an occurrence (and no overrun), the result is the empty list and the length of the haystack |
| Context.PreviousWordsRaises | extract-CFP.py:39 | the function raises IndexError exactly when there is no occurrence and some non-empty tail of the haystack begins the needles |
| Context.MatchAt | extract-CFP.py:38-40 | the inner loop reports a full match, a mismatch or an index overrun, matching `ScanFrom` |
| Context.GetNPreviousWords | extract-CFP.py:32-55 | the loops compute `PreviousWords`, including the IndexError |
| Context.TakeBefore | extract-CFP.py:47-53 | the countdown collects exactly the `min(n, p)` tokens before position `p`, in reading order after the reversal |
| Classify.Scanned | extract-CFP.py:63-68 | the scan visits every word lower-cased, back to front in reverse order |
| Classify.StemClassCases | extract-CFP.py:59-71 | a word holding a submission stem is "submission"; otherwise a notification stem gives "notification"; otherwise no class |
| Classify.FirstStem | extract-CFP.py:68-71 | no class exactly when no word holds a stem; otherwise the class of the first word in scan order that holds one |
| Classify.FirstEventLabel | extract-CFP.py:84-85 | the position of the first ORG, EVENT or GPE label, or none exactly when there is none |
| Classify.LabelClass | extract-CFP.py:83-91 | "unknown" without labels; the first event label lower-cased when there is one; otherwise the first label lower-cased |
| Classify.ClassifyForward | extract-CFP.py:67-71 | in forward order the first word holding a stem decides the class |
| Classify.ClassifyReverse | extract-CFP.py:67-71 | in reverse order the last word holding a stem decides the class |
| Classify.FirstStemAt | extract-CFP.py:67-71 | the key-word pass returns the class of a word holding a stem when no word before it in scan order holds one |
| Classify.ClassifyDeadline | extract-CFP.py:76-78 | without stems, a word "deadline" in any case gives "deadline" |
| Classify.ClassifyByLabels | extract-CFP.py:80-91 | without stems or "deadline", the labels decide, whatever the order |
| Classify.ClassifyRange | extract-CFP.py:58-91 | the class is "submission", "notification", "deadline", "unknown" or a lower-cased label |
| Classify.GetState | extract-CFP.py:171-178 | left exactly when the left class is a key class; right exactly when only the right class is |
| Classify.NextState | extract-CFP.py:192-201 | a settled side always holds a key class; the state is unknown exactly when neither side does; an unknown state is settled by `get_state`; a still-valid state is kept |
| Classify.UsedClassSettled | extract-CFP.py:192-206 | after the state update the classification passed on is a key one exactly when the state is settled, and an unknown state passes on the left one |
| Classify.MatchStem | extract-CFP.py:68-70 | the inner loop over the stem table gives the class of the first stem the word contains |
| Classify.MatchWords | extract-CFP.py:67-71 | the word loop computes `FirstStem` |
| Classify.FindDeadline | extract-CFP.py:76-78 | the second loop finds a word "deadline" exactly when the scanned words hold one |
| Classify.ClassifyContext | extract-CFP.py:57-91 | the two scans and the label fallback compute `ClassifyDate` |
| Normalize.Parts | extract-CFP.py:110-129 | the parts number one more than the separators, and none holds a separator |
| Normalize.StepFillsOnce | extract-CFP.py:100-126 | a token without exactly two separators never raises and never overwrites a field that is set |
| Normalize.DigitsOfNumeric | extract-CFP.py:143-144 | a numeric token keeps at least one digit |
| Normalize.FoldErrorSticks | extract-CFP.py:134-137 | once `int()` has raised, the whole normalisation is that error |
| Normalize.FoldFillsOnce | extract-CFP.py:97-126 | without `a/b/c` tokens every field keeps the first value it receives, and a set day keeps a digit |
| Normalize.NormalizeNoTriple | extract-CFP.py:94-146 | without `a/b/c` tokens normalisation never raises; the month and year are the fields the loop set, and the day is the `int()` of the digits of the day field |
| Normalize.FinishReadable | extract-CFP.py:146 | when the day field holds a digit the final conversion succeeds, keeps month and year, and makes the day the `int()` of its digits |
| Normalize.TwoSeparatorRule | extract-CFP.py:127-141 | a `l/m/r` token overwrites all three fields by the year-first, day-first or month-first rule, and a non-decimal middle (or left, when consulted) raises ValueError |
| Normalize.ThreeParts | extract-CFP.py:109-129 | a token `l SEP m SEP r` that starts with a digit is numeric, has two separators and splits into `[l, m, r]` |
| Normalize.Normalize | extract-CFP.py:94-146 | the loop computes `NormalizeDate`, including the ValueError of `int()` |
| Normalize.StepToken | extract-CFP.py:98-141 | one pass of the loop body computes `Step`: the month, plain-number, range and two-separator branches |
| Normalize.TwoSeparators | extract-CFP.py:127-141 | the two-separator branch computes `TripleStep` of the three parts, including the ValueError of `int()` |
| Normalize.NormalizeOneToken | extract-CFP.py:97-146 | a one-token mention is one step followed by the final conversion |
| Normalize.NormalizeMonthDayYear | extract-CFP.py:94-146 | `["Jan", "15", "2020"]` gives January 15 2020 |
| Normalize.NormalizeSlashDate | extract-CFP.py:127-135 | `"03/14/2021"` gives month "03", day 14, year "2021" |
| Normalize.NormalizeNamedMonthRaises | extract-CFP.py:133-134 | `"12-Mar-2020"` raises ValueError |
| Slots.SlotOf | extract-CFP.py:150-157 | event, org, gpe and unknown feed slot 0, submission slot 1, notification slot 2, anything else no slot |
| Slots.MergeDate | extract-CFP.py:156-161 | only the classification's slot can change, and it takes the date exactly when it is empty or strictly less complete |
| Slots.UpdateConfDates | extract-CFP.py:149-161 | the array after the update is `MergeDate` of its old contents |
| Slots.MergeUnmapped | extract-CFP.py:156 | a classification outside the table changes nothing |
| Slots.MergeDeadline | extract-CFP.py:156 | a "deadline" date is dropped |
| Slots.MergeNeverWorsens | extract-CFP.py:158-161 | a filled slot is never emptied or made less complete |
| Slots.MergeKeepsComplete | extract-CFP.py:158-161 | a complete slot is never replaced |
| Slots.MergeIdempotent | extract-CFP.py:156-161 | merging the same date twice is the same as merging it once |
| Years.SlotYears | extract-CFP.py:243 | exactly the years of the slots that have one |
| Years.YearTokens | extract-CFP.py:245 | exactly the tokens that are years |
| Years.FillYears | extract-CFP.py:248-250 | the back-fill keeps the number of slots |
| Years.UpdateYears | extract-CFP.py:242-250 | the array after the loop is `FillYears` of its old contents |
| Years.FillYearsChangesOnlyMissingYears | extract-CFP.py:248-250 | empty slots stay empty, months and days are kept, present years are kept, and every missing year becomes the most recent year |
| Years.MostRecentFromSlots | extract-CFP.py:243-246 | when a slot has a year, the chosen year is one of the slot years and no slot year is greater |
| Years.MostRecentFromTokens | extract-CFP.py:244-246 | when no slot has a year, a year is chosen exactly when the text has year tokens, and it is the greatest of them |
| Years.MaxIsLexicographic | extract-CFP.py:246 | string `max` ranks "21" above "2020" |
| Primitive.Bundle | extract-CFP.py:342-346 | a bundle is the token with its neighbours where they exist |
| Primitive.QualifyingUpTo | extract-CFP.py:333-341 | exactly the qualifying positions, in increasing order |
| Primitive.GetDatesPrimitive | extract-CFP.py:330-350 | the loop computes one bundle per qualifying token, in order |
| Primitive.PrimitiveBundles | extract-CFP.py:333-348 | there is one bundle for each qualifying position, and it is that position's bundle |
| Primitive.BundleLength | extract-CFP.py:342-346 | a bundle has one token for a one-token list, two at either end, three inside, and it holds the token itself |
| Primitive.DateWordExamples | extract-CFP.py:335-341 | "Jan." qualifies through its shortened form, and "2021" as a year |
| ConfDates.Flatten | extract-CFP.py:218 | the flattened list holds exactly the words of the sentences |
| ConfDates.FlattenAppend | extract-CFP.py:218 | each sentence's words follow those of the sentences before it, in order |
| ConfDates.LaterWords | extract-CFP.py:184-187 | the right window has at most ten tokens |
| ConfDates.LaterWordsAt | extract-CFP.py:183-187 | with ten tokens before a mention, the right window is the up to ten tokens right after it; nearer the start it begins at `10 + len(date)`, not at the mention's end |
| ConfDates.ParseStep | extract-CFP.py:181-211 | a successful step keeps three slots |
| ConfDates.ParseAll | extract-CFP.py:222-225 | a successful pass keeps three slots |
| ConfDates.Rendered | extract-CFP.py:236-237 | one entry per slot, absent exactly where the slot is empty |
| ConfDates.ConfDatesOf | extract-CFP.py:214-237 | a successful extraction yields three entries |
| ConfDates.ParseDate | extract-CFP.py:181-211 | the array and returned state are those of `ParseStep`; on an error the array is unchanged |
| ConfDates.ClassifyMention | extract-CFP.py:182-206 | the state after the two windows are classified is `NextState` of the old state, and the class used is the one of the state's side |
| ConfDates.ParseAllStep | extract-CFP.py:222-225 | a pass is its first step followed by the pass over the rest, and an error in the first step ends it |
| ConfDates.ParseDates | extract-CFP.py:222-225 | the loop computes `ParseAll` over the array |
| ConfDates.GetConfDates | extract-CFP.py:214-237 | the method computes `ConfDatesOf`, including the fallback pass and the year back-fill |
| ConfDates.ParseStepNoWorse | extract-CFP.py:208-209 | a step never empties a slot or makes it less complete |
| ConfDates.ParseAllNoWorse | extract-CFP.py:222-232 | a whole pass never empties a slot or makes it less complete |
| ConfDates.ParseStepState | extract-CFP.py:192-209 | after a step, state left or right means that side held a key class, and the slots are the merge of the normalised date under the class of the state's side |
| ConfDates.ParseStepRaises | extract-CFP.py:183 | a mention that overruns the token stream aborts the step with IndexError |
| Names.RightWindow | extract-CFP.py:289 | the right window holds exactly `min(len - ind, 15)` tokens, each the token at the same offset from the acronym, the acronym itself first |
| Names.LeftScan | extract-CFP.py:282-287 | a left-scan result has priority 12 |
| Names.RightScan | extract-CFP.py:289-294 | a right-scan result has priority 10, at most fifteen tokens, and starts with a token containing "the" |
| Names.Head | extract-CFP.py:277 | the head is the first tokens of the list, at most a hundred, and the whole list when it is shorter |
| Names.HeadLength | extract-CFP.py:277 | a list longer than a hundred tokens keeps exactly its first hundred |
| Names.TokenSearch | extract-CFP.py:277-294 | a single-token result has priority 12 or 10 |
| Names.TokenSearchFirst | extract-CFP.py:277-294 | the pass skips every acronym token without a "the" around it; it returns the span of the first one with one (`FirstSettling`), and nothing exactly when there is none |
| Names.FirstSettling | extract-CFP.py:277-294 | the first head token from a position on that is an acronym with a "the" around it, with none before it, or the head's length when there is none |
| Names.Bigrams | extract-CFP.py:296-298 | one bigram per adjacent pair of words, none for an empty list |
| Names.BigramsPairs | extract-CFP.py:296-298 | each bigram is its pair of words joined with a space |
| Names.BigramSearch | extract-CFP.py:301-322 | a bigram result has priority 8, 10 or 12 |
| Names.BigramOutcome | extract-CFP.py:303-322 | an acronym bigram yields the span the scans find around it, with priority 12 or 10; priority 8 exactly when they find none, and then the right window, the fifteen tokens from it |
| Names.BigramSearchFirst | extract-CFP.py:301-322 | the pass returns the outcome of the first bigram the acronym test accepts (`FirstAcronymBigram`), whatever the scans around it find, and nothing when there is none |
| Names.FirstAcronymBigram | extract-CFP.py:301-302 | the first bigram from a position on that the acronym test accepts, with none before it, or the number of bigrams when there is none |
| Names.FirstBigramOutcome | extract-CFP.py:301-322 | the loop over the built bigram list computes `BigramSearch` |
| Names.SearchLeft | extract-CFP.py:281-287 | the loop with its counter computes `LeftScan` |
| Names.SearchRight | extract-CFP.py:288-294 | the loop with its counter computes `RightScan` |
| Names.SearchTokens | extract-CFP.py:277-294 | the loop computes `TokenSearch` |
| Names.SearchBigrams | extract-CFP.py:296-322 | the loops compute `BigramSearch` |
| Names.GetNameMethod1 | extract-CFP.py:270-324 | the method computes `NameMethod1` |
| Names.NameMethod1Outcome | extract-CFP.py:270-324 | the priority is 0, 8, 10 or 12; a priority-10 name starts with a "the" token; priority 0 with an empty name happens exactly when no head token settles the single-token pass (no acronym token has a "the" around it) and no bigram is an acronym |
| Names.BigramSearchNone | extract-CFP.py:301-324 | the bigram pass finds nothing exactly when no bigram is an acronym |
| Names.TokenSearchRight | extract-CFP.py:289-294 | a priority-10 result of the token pass starts with a "the" token |
| Names.BigramSearchRight | extract-CFP.py:316-321 | a priority-10 result of the bigram pass starts with a "the" token |
| Names.LeftWindowShape | extract-CFP.py:282 | the left window is the fifteen tokens before the acronym; it is empty for an acronym among the first fifteen of a list of at least fifteen; on a shorter list it starts at `len + ind - 15`, or at 0 when that is negative |
| Names.EarlyAcronymNoLeftSpan | extract-CFP.py:282-287 | in a list of at least fifteen tokens an acronym among the first fifteen never gets a left span; only the right scan can find one |
| Names.LeftScanSpan | extract-CFP.py:282-287 | unless the window start is clamped to 0, the left scan finds nothing exactly when the window has no exact "the"; otherwise the span runs from the earliest one up to the acronym |
| Names.LeftScanClamped | extract-CFP.py:282-287 | when `len + ind < 15` the window is the whole prefix; the scan finds nothing exactly when it has no exact "the", and otherwise the span starts `15 - len - ind` tokens before the earliest one, or at 0 |
| Names.RightScanSpan | extract-CFP.py:288-294 | the right scan finds nothing exactly when no token of the right window contains "the"; otherwise the span is the fifteen tokens (fewer at the end) from the first one that does |
| Names.ShortListSpan | extract-CFP.py:282-287 | on a very short list the span starts before its "the": `["x", "the", "ICML20"]` gives `["x", "the"]` |
| Names.TrimAt | extract-CFP.py:433-434 | deleting before the word in front of a key word leaves a non-empty suffix |
| Names.TrimAtFrom | extract-CFP.py:433-434 | the suffix kept starts at the word before the key word's first occurrence and keeps the key word; a key word in front keeps only the last word |
| Names.LowPri | extract-CFP.py:427-436 | the loop computes `LowPriFrom` |
| Names.LowPriSuffix | extract-CFP.py:431-434 | the trimmed name is a suffix of the input name |
| Names.TrimAtSuffix | extract-CFP.py:433-434 | a suffix of the trimmed name is a suffix of the untrimmed one |
| Names.LowPriPriority | extract-CFP.py:427-436 | the priority becomes 11 exactly when a key word is in the name, and is kept otherwise |
| Names.LeadingKeyword | extract-CFP.py:433-434 | a leading "International" keeps only the last word |
| Names.Prioritize | extract-CFP.py:393-403 | priorities 9 to 11 go to `MidHighPri`, and 12 or more are kept; below 9 the name becomes a suffix of itself, with priority 11 exactly when it holds a key word and its old priority otherwise |
| Names.GetConfName | extract-CFP.py:438-446 | the method computes `ConfName` |
| Names.ConfNameSplits | extract-CFP.py:444 | a name whose words hold no space is read back by splitting at spaces |
| Location.GpeTexts | extract-CFP.py:449-456 | at most three texts, none exactly when there is no GPE entity, and each the text of a GPE entity |
| Location.GpeTextsFirst | extract-CFP.py:452-456 | the first kept text is the first GPE entity's |
| Location.GetLocation | extract-CFP.py:448-469 | the loops compute `LocationOf` |
| Location.CollectPlaces | extract-CFP.py:449-456 | the entity loop keeps the texts `GpeTexts` gives and counts them |
| Location.LastMatch | extract-CFP.py:458-465 | the token loop computes `LastMatchFrom` from the large start value, counting one per token |
| Location.ScanWord | extract-CFP.py:462-464 | the inner loop moves `first` to the first occurrence of the token exactly when it matches a word of the place text |
| Location.NoPlace | extract-CFP.py:469 | without a GPE entity the location is "Las Vegas" |
| Location.LastMatchIsLast | extract-CFP.py:461-464 | the scan ends at the first-occurrence index of the last matching token, or where it started when nothing matches |
| Location.WindowAroundMatch | extract-CFP.py:466-467 | a match with a token before it and two after gives the three tokens around it |
| Location.WindowAt | extract-CFP.py:466-467 | a window inside the list is joined as its three tokens with single spaces |
| Location.MatchAtStart | extract-CFP.py:466-467 | a match at index 0 gives the empty window `[-1:2]`, so the empty string |
| Location.MatchNearEnd | extract-CFP.py:466-468 | a match at the second-to-last token gives the raw entity text |
| Location.NoMatchGivesText | extract-CFP.py:458-468 | without a matching token, the raw entity text is returned |
| Cfp.StrOfEmpty | extract-CFP.py:24-28 | an empty record prints as five "None" |
| Cfp.StrCommas | extract-CFP.py:24-28 | the text form has four separating commas besides those inside the fields |
| Cfp.StrWithDate | extract-CFP.py:24-28 | a record with an event date holds at least five commas, so splitting it at commas gives more than five parts |
| Cfp.GetCFP | extract-CFP.py:472-478 | the method computes `CfpOf`: name, location and the three slot dates, or the error of the date extraction |

The specification functions carry no contract of their own. Each is stated by the rows above: by the method proved equal to it, and by the lemmas about it.

- `Context.PreviousWords`: `get_n_previous_words` (extract-CFP.py:32-55).
- `Classify.ClassifyDate`: `classify_date` (extract-CFP.py:58-91).
- `Normalize.NormalizeDate`: `normalize_date` (extract-CFP.py:94-146).
- `Dates.FormatDate`: `format_date` (extract-CFP.py:373-374).
- `Tokens.IsAlphanumeric`, `Tokens.IsNumeric`, `Tokens.IsStrictlyNumeric` and `Tokens.IsYear`: the `is_*` predicates (extract-CFP.py:377-390).
- `Years.MostRecentYear`: the `max` of extract-CFP.py:243-246.
- `Names.NameMethod1`: `get_name_method1` (extract-CFP.py:270-324).
- `Names.ConfName`: `get_conf_name` (extract-CFP.py:438-446).
- `Location.LocationOf`: `get_location` (extract-CFP.py:448-469).
- `Cfp.Str`: `CFP.__str__` (extract-CFP.py:24-28).
- `Cfp.CfpOf`: `get_CFP` (extract-CFP.py:472-478).

## Left out

- Reading and parsing the e-mail (`parse_email`, `parse_content` in parser.py) and the command line (`main`) are file and console I/O. `GetCFP` starts from the content's tokens.
- Sentence and word tokenisation (NLTK punkt and `word_tokenize`) are external libraries. The model takes the word-tokenised sentences and date mentions as inputs.
- The spaCy entity recogniser is an external model. `get_dates` becomes the `mentions` input, `get_ents` becomes the `ents` input, and classifying a context window takes a `Recogniser` function from the joined text to its labels.
- The acronym regular expression of `get_name_method1` is taken as a caller-supplied `AcronymTest`. Its character classes (`[A-z]`, `\d`) are not modelled.
- `MidHighPri` rests on the recogniser and on accidental Python scoping (`label` after the loop; `max` of a possibly empty dict). It is taken as a caller-supplied `MidHighTest`. Its possible NameError or ValueError is therefore not modelled.
- `classify_name` and `classify_location` are not called on the path from `get_CFP` to its result. `get_everything_else` is called only by `MidHighPri`, and is left out with it.
- Names.Prioritize: `MidHighPri` is a parameter, so nothing is stated about priorities 9 to 11 beyond handing them to it.
- Case mapping (`lower`, `upper`) covers ASCII letters only; other characters are left unchanged.
- PyText.ParseInt: accepts only ASCII decimal digits. Python's `int()` also accepts surrounding whitespace, a sign, underscores and other Unicode digits, none of which the day filter lets through. They could reach the middle or left part of an `a/b/c` token.
- The `ValueError` that `alphanumerics.index` could raise never happens. The looked-up token is always taken from the list itself, so `IndexOf` requires membership.
- Tokens.Alphanumerics: its own contract states only the length bound and that every kept token is alphanumeric. Order, multiplicity and membership are stated by `AlphanumericsConcat`, `AlphanumericsOfToken` and `AlphanumericsMembers`.
- ConfDates.Flatten: its own contract states membership only. The order and multiplicity of the words are stated by `FlattenAppend`.
- ConfDates.LaterWords: its own contract states only the length bound. Where the window sits is stated by `LaterWordsAt`.
- Names.TrimAt: its own contract states only that a non-empty suffix is kept. Which suffix is stated by `TrimAtFrom`.
- Names.TokenSearch and Names.BigramSearch: their own contracts state only the possible priorities. Which token or bigram decides is stated by `TokenSearchFirst` and `BigramSearchFirst`.
- Context.ScanFrom states only where the search stops. The lemmas `ScanFindsFirst`, `ScanFoundIsFirst` and `ScanOverrun` state that it is the first occurrence, and when the search raises.
- ConfDates.ParseStep, ConfDates.ParseAll and ConfDates.ConfDatesOf: their own contracts state only the number of slots. What the slots hold is stated by `ParseStepNoWorse`, `ParseAllNoWorse` and `ParseStepState`.
