/**
 The stream of decisions a watcher gets. The server subscribes to the broadcast channel, then
 replays a snapshot of the log, then follows the channel, holding back what comes ahead of its
 turn. The client reconnects from where it stopped.
 */
module Watch {
  import opened Types
  import opened DecisionFeed

  /** A watch from `start`: the next slot due, what came early, and what has been yielded. */
  datatype Watch = Watch(start: Slot, next: Slot, early: map<Slot, Value>, out: seq<Entry>)

  function Opened(start: Slot): Watch { Watch(start, start, map[], []) }

  /** Yields what is due from among the early ones. */
  function Released(w: Watch): Watch
    decreases |w.early|
  {
    if w.next !in w.early then w
    else
      assert |w.early - {w.next}| < |w.early| by {
        assert (w.early - {w.next}).Keys == w.early.Keys - {w.next};
        assert |w.early.Keys - {w.next}| < |w.early.Keys|;
      }
      Released(Watch(w.start, Bump(w.next), w.early - {w.next}, w.out + [Entry(w.next, w.early[w.next])]))
  }

  function Offered(w: Watch, d: Entry): Watch {
    if d.slot < w.next then w
    else if d.slot == w.next then Released(w.(next := Bump(w.next), out := w.out + [d]))
    else if d.slot in w.early then w
    else w.(early := w.early[d.slot := d.payload])
  }

  function OfferedAll(w: Watch, ds: seq<Entry>): Watch {
    if ds == [] then w else Offered(OfferedAll(w, ds[..|ds| - 1]), ds[|ds| - 1])
  }

  /** The server's side of one stream. */
  class Watcher {
    const start: Slot
    var next: Slot
    var early: map<Slot, Value>
    var out: seq<Entry>

    ghost function Value(): Watch
      reads this
    {
      Watch(start, next, early, out)
    }

    constructor (start: Slot)
      ensures Value() == Opened(start)
    {
      this.start, next, early, out := start, start, map[], [];
    }

    method Offer(d: Entry)
      modifies this
      ensures Value() == Offered(old(Value()), d)
    {
      if d.slot < next { return; }
      if d.slot == next {
        next := Bump(next);
        out := out + [d];
        while next in early
          invariant Released(Value()) == Offered(old(Value()), d)
          decreases |early|
        {
          ghost var was := early;
          var payload := early[next];
          early := early - {next};
          assert |early| < |was| by { assert early.Keys == was.Keys - {next}; assert |was.Keys - {next}| < |was.Keys|; }
          out := out + [Entry(next, payload)];
          next := Bump(next);
        }
      } else if d.slot !in early {
        early := early[d.slot := d.payload];
      }
    }

    method Replay(snapshot: seq<Entry>)
      modifies this
      ensures Value() == OfferedAll(old(Value()), snapshot)
    {
      for i := 0 to |snapshot|
        invariant Value() == OfferedAll(old(Value()), snapshot[..i])
      {
        assert snapshot[..i + 1][..i] == snapshot[..i];
        Offer(snapshot[i]);
      }
      assert snapshot[..|snapshot|] == snapshot;
    }
  }

  // ---------- What a watch knows of the log ----------

  /** The stream so far counts up from its start, and what is early lies further on. */
  ghost predicate InLine(w: Watch) {
    && w.next == Min(w.start + |w.out|, LAST_SLOT) && Counted(w.out, w.start)
    && forall s: Slot :: s in w.early ==> w.start + |w.out| <= s
  }

  /** Everything yielded or held back is the log's. */
  ghost predicate Faithful(w: Watch, entries: seq<Entry>) {
    && InLine(w)
    && (forall d :: d in w.out ==> d in entries)
    && (forall s: Slot :: s in w.early ==> Entry(s, w.early[s]) in entries)
  }

  /** The decision has been yielded, precedes the start, or is held back. */
  ghost predicate Seen(w: Watch, d: Entry) { d.slot < w.start + |w.out| || d.slot in w.early }

  /** Nothing that is due is held back. */
  ghost predicate Drained(w: Watch) { w.next !in w.early }

  lemma {:induction false} ReleasedFaithful(w: Watch, entries: seq<Entry>)
    requires Faithful(w, entries)
    ensures Faithful(Released(w), entries) && Drained(Released(w)) && Released(w).start == w.start && w.out <= Released(w).out
    ensures forall d :: Seen(w, d) ==> Seen(Released(w), d)
    decreases |w.early|
  {
    if w.next in w.early {
      var d := Entry(w.next, w.early[w.next]);
      var v := Watch(w.start, Bump(w.next), w.early - {w.next}, w.out + [d]);
      assert |v.early| < |w.early| by {
        assert v.early.Keys == w.early.Keys - {w.next};
        assert |w.early.Keys - {w.next}| < |w.early.Keys|;
      }
      assert Faithful(v, entries);
      ReleasedFaithful(v, entries);
    }
  }

  /** An offered decision of the log keeps the stream in line with the log, and nothing seen is forgotten. */
  lemma OfferedFaithful(w: Watch, entries: seq<Entry>, d: Entry)
    requires Faithful(w, entries) && d in entries && Drained(w)
    ensures var v := Offered(w, d); Faithful(v, entries) && Drained(v) && v.start == w.start && w.out <= v.out
    ensures Seen(Offered(w, d), d) && forall e :: Seen(w, e) ==> Seen(Offered(w, d), e)
  {
    if d.slot == w.next {
      var v := w.(next := Bump(w.next), out := w.out + [d]);
      assert Faithful(v, entries);
      ReleasedFaithful(v, entries);
    }
  }

  lemma {:induction false} OfferedAllFaithful(w: Watch, entries: seq<Entry>, ds: seq<Entry>)
    requires Faithful(w, entries) && Drained(w) && forall d :: d in ds ==> d in entries
    ensures var v := OfferedAll(w, ds); Faithful(v, entries) && Drained(v) && v.start == w.start
    ensures forall d :: d in ds ==> Seen(OfferedAll(w, ds), d)
    decreases |ds|
  {
    if ds != [] {
      var k := |ds| - 1;
      OfferedAllFaithful(w, entries, ds[..k]);
      OfferedFaithful(OfferedAll(w, ds[..k]), entries, ds[k]);
      forall d | d in ds ensures Seen(OfferedAll(w, ds), d) {
        if d != ds[k] { assert d in ds[..k]; }
      }
    }
  }

  /** An offer keeps a stream free of gaps and repeats if and only if it is not the last slot coming again after it was yielded. */
  lemma OfferExactly(w: Watch, d: Entry)
    requires InLine(w) && Drained(w) && Consecutive(w.out, w.start)
    ensures Consecutive(Offered(w, d).out, w.start) <==> d.slot < LAST_SLOT || w.start + |w.out| <= LAST_SLOT
  {
    if d.slot == w.next {
      var v := w.(next := Bump(w.next), out := w.out + [d]);
      if w.start + |w.out| <= LAST_SLOT {
        ReleasedConsecutive(v);
      } else {
        assert Offered(w, d) == v && v.out[|w.out|] == d;
      }
    }
  }

  lemma {:induction false} ReleasedConsecutive(w: Watch)
    requires InLine(w) && Consecutive(w.out, w.start)
    ensures Consecutive(Released(w).out, w.start)
    decreases |w.early|
  {
    if w.next in w.early {
      var v := Watch(w.start, Bump(w.next), w.early - {w.next}, w.out + [Entry(w.next, w.early[w.next])]);
      assert |v.early| < |w.early| by {
        assert v.early.Keys == w.early.Keys - {w.next};
        assert |w.early.Keys - {w.next}| < |w.early.Keys|;
      }
      ReleasedConsecutive(v);
    }
  }
}
