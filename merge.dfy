/** The three date slots of `get_conf_dates` (event, submission deadline, notification
    deadline) and how `update_conf_dates` merges a normalised date into them
    (extract-CFP.py:149-161). */
module Slots {
  import opened Wrappers
  import opened Dates

  /** Slot 0 holds the event date, slot 1 the submission deadline, slot 2 the notification. */
  const SlotCount: nat := 3

  /** The `indices` table: which slot a classification feeds, if any. */
  function SlotOf(c: string): (r: Option<nat>)
    ensures r.Some? ==> r.value < SlotCount
    ensures r == Some(0) <==> c == "event" || c == "org" || c == "gpe" || c == "unknown"
    ensures r == Some(1) <==> c == "submission"
    ensures r == Some(2) <==> c == "notification"
  {
    if c == "event" || c == "org" || c == "gpe" || c == "unknown" then Some(0)
    else if c == "submission" then Some(1)
    else if c == "notification" then Some(2)
    else None
  }

  /** A new date replaces a slot that is empty or strictly less complete. */
  predicate Improves(d: Date, slot: Option<Date>)
  {
    slot.None? || MissingCount(slot.value) > MissingCount(d)
  }

  /** The slots after `update_conf_dates(d, c, slots)`. */
  function MergeDate(slots: seq<Option<Date>>, d: Date, c: string): (r: seq<Option<Date>>)
    requires |slots| == SlotCount
    ensures |r| == SlotCount
    ensures forall k :: 0 <= k < SlotCount && SlotOf(c) != Some(k) ==> r[k] == slots[k]
    ensures forall k :: 0 <= k < SlotCount && SlotOf(c) == Some(k) ==>
      r[k] == if Improves(d, slots[k]) then Some(d) else slots[k]
  {
    match SlotOf(c)
    case None => slots
    case Some(k) => if Improves(d, slots[k]) then slots[k := Some(d)] else slots
  }

  /** `update_conf_dates`: writes at most the classification's slot of the array. */
  method UpdateConfDates(date: Date, classification: string, conf: array<Option<Date>>)
    requires conf.Length == SlotCount
    modifies conf
    ensures conf[..] == MergeDate(old(conf[..]), date, classification)
  {
    var index := SlotOf(classification);
    if index.Some? {
      var k := index.value;
      if conf[k].None? || MissingCount(conf[k].value) > MissingCount(date) {
        conf[k] := Some(date);
      }
    }
  }

  /** A classification outside the table, such as "deadline", changes nothing. */
  lemma MergeUnmapped(slots: seq<Option<Date>>, d: Date, c: string)
    requires |slots| == SlotCount
    requires SlotOf(c).None?
    ensures MergeDate(slots, d, c) == slots
  {
  }

  /** "deadline" is one such classification. */
  lemma MergeDeadline(slots: seq<Option<Date>>, d: Date)
    requires |slots| == SlotCount
    ensures MergeDate(slots, d, "deadline") == slots
  {
    assert SlotOf("deadline").None?;
  }

  /** A filled slot is never emptied nor made less complete. */
  lemma MergeNeverWorsens(slots: seq<Option<Date>>, d: Date, c: string)
    requires |slots| == SlotCount
    ensures var r := MergeDate(slots, d, c);
      forall k :: 0 <= k < SlotCount && slots[k].Some? ==>
        r[k].Some? && MissingCount(r[k].value) <= MissingCount(slots[k].value)
  {
  }

  /** A complete slot (no missing part) is never replaced. */
  lemma MergeKeepsComplete(slots: seq<Option<Date>>, d: Date, c: string, k: nat)
    requires |slots| == SlotCount && k < SlotCount
    requires slots[k].Some? && MissingCount(slots[k].value) == 0
    ensures MergeDate(slots, d, c)[k] == slots[k]
  {
  }

  /** Merging the same date twice is merging it once. */
  lemma MergeIdempotent(slots: seq<Option<Date>>, d: Date, c: string)
    requires |slots| == SlotCount
    ensures MergeDate(MergeDate(slots, d, c), d, c) == MergeDate(slots, d, c)
  {
  }
}
