/** The log of decisions a node serves: appended in any order, kept sorted, read in pages. */
module DecisionFeed {
  import opened Types

  /** Slots are 64-bit, and counting stops at the last one. */
  const LAST_SLOT: nat := 0xFFFF_FFFF_FFFF_FFFF

  type Slot = s: nat | s <= LAST_SLOT

  datatype Entry = Entry(slot: Slot, payload: Value)

  function Bump(s: Slot): Slot { if s == LAST_SLOT then s else s + 1 }

  ghost predicate Rising(entries: seq<Entry>) {
    forall i, j :: 0 <= i < j < |entries| ==> entries[i].slot < entries[j].slot
  }

  ghost predicate Holds(entries: seq<Entry>, slot: Slot) {
    exists i :: 0 <= i < |entries| && entries[i].slot == slot
  }

  // ---------- Append ----------

  /** The log after a decision arrives: placed by slot, unless the slot is taken. */
  ghost predicate Appended(before: seq<Entry>, d: Entry, after: seq<Entry>) {
    && Rising(after)
    && if Holds(before, d.slot) then after == before else forall x :: x in after <==> x == d || x in before
  }

  /** What any sequence of appends leaves: one entry per slot, the first one that came. */
  ghost function FirstOf(arrivals: seq<Entry>, slot: Slot): Option<Value> {
    if arrivals == [] then None
    else
      var earlier := FirstOf(arrivals[..|arrivals| - 1], slot);
      if earlier.Some? then earlier
      else if arrivals[|arrivals| - 1].slot == slot then Some(arrivals[|arrivals| - 1].payload)
      else None
  }

  ghost predicate KeepsFirst(entries: seq<Entry>, arrivals: seq<Entry>) {
    Rising(entries) && forall s: Slot, p: Value :: Entry(s, p) in entries <==> FirstOf(arrivals, s) == Some(p)
  }

  lemma AppendKeepsFirst(before: seq<Entry>, arrivals: seq<Entry>, d: Entry, after: seq<Entry>)
    requires KeepsFirst(before, arrivals) && Appended(before, d, after)
    ensures KeepsFirst(after, arrivals + [d])
  {
    assert (arrivals + [d])[..|arrivals|] == arrivals;
    if Holds(before, d.slot) {
      var i :| 0 <= i < |before| && before[i].slot == d.slot;
      assert Entry(before[i].slot, before[i].payload) in before;
    }
  }

  /** A log fed one arrival after another, from empty. */
  ghost predicate Fed(logs: seq<seq<Entry>>, arrivals: seq<Entry>) {
    && |logs| == |arrivals| + 1 && logs[0] == []
    && forall i :: 0 <= i < |arrivals| ==> Appended(logs[i], arrivals[i], logs[i + 1])
  }

  /** After any arrivals, out of order or repeated, the log is rising and keeps for each slot the first value that came. */
  lemma {:induction false} FirstArrivalsStay(logs: seq<seq<Entry>>, arrivals: seq<Entry>, i: nat)
    requires Fed(logs, arrivals) && i < |logs|
    ensures KeepsFirst(logs[i], arrivals[..i])
  {
    if i > 0 {
      FirstArrivalsStay(logs, arrivals, i - 1);
      AppendKeepsFirst(logs[i - 1], arrivals[..i - 1], arrivals[i - 1], logs[i]);
      assert arrivals[..i - 1] + [arrivals[i - 1]] == arrivals[..i];
    }
  }

  // ---------- Range ----------

  ghost predicate Consecutive(run: seq<Entry>, start: nat) {
    forall i :: 0 <= i < |run| ==> run[i].slot == start + i
  }

  /** The slots count up from the start, and the last slot repeats. */
  ghost predicate Counted(run: seq<Entry>, start: nat) {
    forall i :: 0 <= i < |run| ==> run[i].slot == Min(start + i, LAST_SLOT)
  }

  /** Such a run has neither gap nor repeat exactly as long as it has not passed the last slot. */
  lemma CountedConsecutive(run: seq<Entry>, start: Slot)
    requires Counted(run, start)
    ensures Consecutive(run, start) <==> start + |run| <= LAST_SLOT + 1
  {
    if start + |run| > LAST_SLOT + 1 { assert run[|run| - 1].slot == LAST_SLOT < start + |run| - 1; }
  }

  /** A page is the longest gap-free run from its start that the limit admits. */
  ghost predicate PageOf(entries: seq<Entry>, start: Slot, limit: nat, run: seq<Entry>, next: Slot) {
    && |run| <= limit && Consecutive(run, start) && (forall d :: d in run ==> d in entries)
    && next == Min(start + |run|, LAST_SLOT)
    && (|run| < limit && start + |run| <= LAST_SLOT ==> !Holds(entries, start + |run|))
  }

  lemma SameSlotSame(entries: seq<Entry>, x: Entry, y: Entry)
    requires Rising(entries) && x in entries && y in entries && x.slot == y.slot
    ensures x == y
  {
    var i :| 0 <= i < |entries| && entries[i] == x;
    var j :| 0 <= j < |entries| && entries[j] == y;
  }

  lemma RunsAgree(entries: seq<Entry>, start: nat, a: seq<Entry>, b: seq<Entry>)
    requires Rising(entries) && Consecutive(a, start) && Consecutive(b, start) && |a| <= |b|
    requires (forall d :: d in a ==> d in entries) && (forall d :: d in b ==> d in entries)
    ensures a <= b
  {
    forall i | 0 <= i < |a| ensures a[i] == b[i] {
      assert a[i] in a && b[i] in b;
      SameSlotSame(entries, a[i], b[i]);
    }
  }

  lemma HoldsNext(entries: seq<Entry>, start: nat, run: seq<Entry>, k: nat)
    requires Consecutive(run, start) && k < |run| && forall d :: d in run ==> d in entries
    ensures start + k <= LAST_SLOT && Holds(entries, start + k)
  {
    assert run[k] in run;
    var i :| 0 <= i < |entries| && entries[i] == run[k];
    assert entries[i].slot == start + k;
  }

  /** A page that falls short of its limit is all there is: a larger limit gives the same. */
  lemma ShortPageIsAll(entries: seq<Entry>, start: Slot, a: nat, ra: seq<Entry>, na: Slot, b: nat, rb: seq<Entry>, nb: Slot)
    requires Rising(entries) && PageOf(entries, start, a, ra, na) && PageOf(entries, start, b, rb, nb) && |ra| < a <= b
    ensures ra == rb && na == nb
  {
    if |ra| < |rb| { HoldsNext(entries, start, rb, |ra|); }
    if |rb| < |ra| { HoldsNext(entries, start, ra, |rb|); }
    RunsAgree(entries, start, ra, rb);
  }

  /** A page and the page after it are one page, unless the first ends at the last slot and the second is asked for anything. */
  lemma PageThenPage(entries: seq<Entry>, start: Slot, a: nat, ra: seq<Entry>, na: Slot, b: nat, rb: seq<Entry>, nb: Slot)
    requires Rising(entries) && PageOf(entries, start, a, ra, na) && PageOf(entries, na, b, rb, nb)
    ensures PageOf(entries, start, a + b, ra + rb, nb) <==> b == 0 || start + |ra| <= LAST_SLOT
  {
    var r := ra + rb;
    if start + |ra| <= LAST_SLOT {
      assert na == start + |ra|;
      if |ra| < a && rb != [] { HoldsNext(entries, na, rb, 0); }
      forall d | d in r ensures d in entries { }
    } else {
      assert na == LAST_SLOT && start + |ra| == LAST_SLOT + 1 by { HoldsNext(entries, start, ra, |ra| - 1); }
      if b > 0 {
        HoldsNext(entries, start, ra, |ra| - 1);
        assert rb != [] && r[|ra|] == rb[0];
      } else {
        assert r == ra;
      }
    }
  }

  // ---------- Paging ----------

  function Total(limits: seq<nat>): nat { if limits == [] then 0 else limits[0] + Total(limits[1..]) }

  function Flatten(runs: seq<seq<Entry>>): seq<Entry> { if runs == [] then [] else runs[0] + Flatten(runs[1..]) }

  /** Pages fetched one after another, each from where the one before says to go on. */
  ghost predicate Paged(entries: seq<Entry>, start: Slot, limits: seq<nat>, runs: seq<seq<Entry>>, nexts: seq<Slot>)
    decreases |limits|
  {
    && |runs| == |limits| && |nexts| == |limits|
    && (limits != [] ==>
          PageOf(entries, start, limits[0], runs[0], nexts[0]) && Paged(entries, nexts[0], limits[1..], runs[1..], nexts[1..]))
  }

  function LastNext(start: Slot, nexts: seq<Slot>): Slot { if nexts == [] then start else nexts[|nexts| - 1] }

  /** Whatever the limits, the pages count up from the start, with the log's values, and the cursor keeps the count. */
  lemma {:induction false} PagesCount(entries: seq<Entry>, start: Slot, limits: seq<nat>, runs: seq<seq<Entry>>, nexts: seq<Slot>)
    requires Paged(entries, start, limits, runs, nexts)
    ensures Counted(Flatten(runs), start) && (forall d :: d in Flatten(runs) ==> d in entries)
    ensures LastNext(start, nexts) == Min(start + |Flatten(runs)|, LAST_SLOT)
    decreases |limits|
  {
    if limits != [] {
      PagesCount(entries, nexts[0], limits[1..], runs[1..], nexts[1..]);
      if runs[0] != [] { assert runs[0][|runs[0]| - 1].slot == start + |runs[0]| - 1; }
    }
  }

  lemma PageStays(entries: seq<Entry>, start: Slot, limit: nat, run: seq<Entry>, next: Slot)
    requires PageOf(entries, start, limit, run, next)
    ensures start + |run| <= LAST_SLOT + 1
  {
    if run != [] { assert run[|run| - 1].slot == start + |run| - 1; }
  }

  lemma {:induction false} PagesJoin(entries: seq<Entry>, start: Slot, limits: seq<nat>, runs: seq<seq<Entry>>, nexts: seq<Slot>)
    requires Rising(entries) && Paged(entries, start, limits, runs, nexts) && start + |Flatten(runs)| <= LAST_SLOT + 1
    ensures PageOf(entries, start, Total(limits), Flatten(runs), LastNext(start, nexts))
    decreases |limits|
  {
    if limits != [] {
      var rest := Flatten(runs[1..]);
      PageStays(entries, start, limits[0], runs[0], nexts[0]);
      PagesJoin(entries, nexts[0], limits[1..], runs[1..], nexts[1..]);
      if start + |runs[0]| > LAST_SLOT { HoldsNext(entries, start, runs[0], |runs[0]| - 1); }
      PageThenPage(entries, start, limits[0], runs[0], nexts[0], Total(limits[1..]), rest, LastNext(nexts[0], nexts[1..]));
    }
  }

  /** Following the cursor gives the same run as one page with the sum of the limits, exactly if it has not passed the last slot. */
  lemma PagingIsRange(entries: seq<Entry>, start: Slot, limits: seq<nat>, runs: seq<seq<Entry>>, nexts: seq<Slot>)
    requires Rising(entries) && Paged(entries, start, limits, runs, nexts)
    ensures PageOf(entries, start, Total(limits), Flatten(runs), LastNext(start, nexts)) <==> start + |Flatten(runs)| <= LAST_SLOT + 1
  {
    if start + |Flatten(runs)| <= LAST_SLOT + 1 {
      PagesJoin(entries, start, limits, runs, nexts);
    } else {
      PagesCount(entries, start, limits, runs, nexts);
      CountedConsecutive(Flatten(runs), start);
    }
  }

  /** Pages that fall short of their limits are all one unlimited range returns, exactly if they have not passed the last slot. */
  lemma PagingIsComplete(entries: seq<Entry>, start: Slot, limits: seq<nat>, runs: seq<seq<Entry>>, nexts: seq<Slot>,
      unlimited: nat, run: seq<Entry>, next: Slot)
    requires Rising(entries) && Paged(entries, start, limits, runs, nexts)
    requires |Flatten(runs)| < Total(limits) <= unlimited && PageOf(entries, start, unlimited, run, next)
    ensures Flatten(runs) == run <==> start + |Flatten(runs)| <= LAST_SLOT + 1
  {
    PagingIsRange(entries, start, limits, runs, nexts);
    if start + |Flatten(runs)| <= LAST_SLOT + 1 {
      ShortPageIsAll(entries, start, Total(limits), Flatten(runs), LastNext(start, nexts), unlimited, run, next);
    } else {
      PageStays(entries, start, unlimited, run, next);
    }
  }

  /** At the last slot the cursor stops moving, and paging returns that decision again and again. */
  lemma PagingRepeatsLast(payload: Value)
    ensures var e := Entry(LAST_SLOT, payload); Paged([e], LAST_SLOT, [1, 1], [[e], [e]], [LAST_SLOT, LAST_SLOT])
  {
    var e := Entry(LAST_SLOT, payload);
    var entries, limits, runs, nexts := [e], [1, 1], [[e], [e]], [LAST_SLOT, LAST_SLOT];
    assert PageOf(entries, LAST_SLOT, 1, [e], LAST_SLOT);
    assert limits[1..] == [1] && runs[1..] == [[e]] && nexts[1..] == [LAST_SLOT];
    assert Paged(entries, LAST_SLOT, [], [], []);
    assert Paged(entries, LAST_SLOT, [1], [[e]], [LAST_SLOT]);
  }

  /** The log and the broadcast channel it feeds. */
  class DecisionLog {
    var entries: seq<Entry>
    var channel: seq<Entry>

    ghost predicate Valid()
      reads this
    {
      Rising(entries)
    }

    constructor ()
      ensures Valid() && entries == [] && channel == []
    {
      entries, channel := [], [];
    }

    /** Binary search by slot: the position of the slot, or where it belongs. */
    method Search(slot: Slot) returns (found: bool, pos: nat)
      requires Valid()
      ensures pos <= |entries|
      ensures found ==> pos < |entries| && entries[pos].slot == slot
      ensures !found ==>
        (forall i :: 0 <= i < pos ==> entries[i].slot < slot) && (forall i :: pos <= i < |entries| ==> slot < entries[i].slot)
      ensures found <==> Holds(entries, slot)
    {
      var lo, hi := 0, |entries|;
      while lo < hi
        invariant 0 <= lo <= hi <= |entries|
        invariant forall i :: 0 <= i < lo ==> entries[i].slot < slot
        invariant forall i :: hi <= i < |entries| ==> slot < entries[i].slot
      {
        var mid := (lo + hi) / 2;
        if entries[mid].slot == slot { return true, mid; }
        if entries[mid].slot < slot { lo := mid + 1; } else { hi := mid; }
      }
      return false, lo;
    }

    /** Inserts a decision at a new slot and then broadcasts it; a known slot is ignored and not broadcast. */
    method Append(d: Entry)
      requires Valid()
      modifies this
      ensures Valid() && Appended(old(entries), d, entries)
      ensures channel == if Holds(old(entries), d.slot) then old(channel) else old(channel) + [d]
    {
      var found, pos := Search(d.slot);
      if found { return; }
      ghost var before := entries;
      entries := entries[..pos] + [d] + entries[pos..];
      forall x ensures x in entries <==> x == d || x in before { InsertedHolds(before, pos, d, x); }
      channel := channel + [d];
    }

    /** One page of decisions from a slot on, and the slot to ask for next. */
    method Range(start: Slot, limit: nat) returns (out: seq<Entry>, next: Slot)
      requires Valid()
      ensures PageOf(entries, start, limit, out, next)
    {
      out, next := [], start;
      var found, pos := Search(start);
      if !found { return; }
      var i := pos;
      while i < |entries| && |out| < limit && entries[i].slot == next
        invariant pos <= i <= |entries| && |out| <= limit && |out| == i - pos && out == entries[pos..i]
        invariant Consecutive(out, start) && next == Min(start + |out|, LAST_SLOT)
        invariant i < |entries| ==> entries[i].slot >= start + |out|
      {
        out := out + [entries[i]];
        next := Bump(next);
        i := i + 1;
      }
      if |out| < limit && start + |out| <= LAST_SLOT && Holds(entries, start + |out|) {
        var k :| 0 <= k < |entries| && entries[k].slot == start + |out|;
        assert k >= i;
      }
    }
  }

  lemma InsertedHolds(before: seq<Entry>, pos: nat, d: Entry, x: Entry)
    requires pos <= |before|
    ensures x in before[..pos] + [d] + before[pos..] <==> x == d || x in before
  {
    assert before == before[..pos] + before[pos..];
  }
}
