/**
 The feed end to end: decisions are inserted and then broadcast, a client's stream is served by
 subscribing and then taking a snapshot, connections break at any time and are reopened from the
 client's cursor. The steps of these parties interleave in any way.
 */
module WatchTheorems {
  import opened Types
  import opened DecisionFeed
  import opened Watch

  // ---------- The client ----------

  /** The status codes of gRPC, and any error that is none. */
  datatype Code =
    | Ok | Canceled | Unknown | InvalidArgument | DeadlineExceeded | NotFound | AlreadyExists | PermissionDenied | ResourceExhausted
    | FailedPrecondition | Aborted | OutOfRange | Unimplemented | Internal | Unavailable | DataLoss | Unauthenticated | NotRpc

  predicate IsTransient(code: Code) { code.Unavailable? || code.ResourceExhausted? || code.DeadlineExceeded? }

  /** One attempt to watch: refused at once, or a stream of decisions that closes or fails. */
  datatype Session = Refused(code: Code) | Stream(items: seq<Entry>, failure: Option<Code>)

  /** The index the client asks for next. */
  function Cursor(start: Slot, got: seq<Entry>): Slot { if got == [] then start else Bump(got[|got| - 1].slot) }

  /** The error a session ends with. */
  function Ends(s: Session): Option<Code> { if s.Refused? then Some(s.code) else s.failure }

  function Items(s: Session): seq<Entry> { if s.Refused? then [] else s.items }

  /** Everything the sessions yield. */
  function Received(sessions: seq<Session>): seq<Entry> {
    if sessions == [] then [] else Received(sessions[..|sessions| - 1]) + Items(sessions[|sessions| - 1])
  }

  /** The client goes on after a session that closed, or failed in one of three ways. */
  ghost predicate GoesOn(s: Session) { Ends(s) in {None, Some(Unavailable), Some(ResourceExhausted), Some(DeadlineExceeded)} }

  class Client {
    const start: Slot
    var last: Option<Slot>
    var got: seq<Entry>

    ghost predicate Valid()
      reads this
    {
      last == if got == [] then None else Some(got[|got| - 1].slot)
    }

    constructor (start: Slot)
      ensures Valid() && this.start == start && got == []
    {
      this.start, last, got := start, None, [];
    }

    method NextIndex() returns (i: Slot)
      requires Valid()
      ensures i == Cursor(start, got)
    {
      i := if last.Some? then Bump(last.value) else start;
    }

    method Consume(items: seq<Entry>)
      requires Valid()
      modifies this
      ensures Valid() && got == old(got) + items
    {
      for i := 0 to |items|
        invariant Valid() && got == old(got) + items[..i]
      {
        last := Some(items[i].slot);
        got := got + [items[i]];
      }
    }

    /** Session after session, until one ends in an error that is not transient, which is passed on. */
    method Follow(sessions: seq<Session>) returns (error: Option<Code>, ghost used: nat)
      requires Valid()
      modifies this
      ensures Valid() && used <= |sessions| && got == old(got) + Received(sessions[..used])
      ensures error.None? ==> used == |sessions| && forall j :: 0 <= j < used ==> GoesOn(sessions[j])
      ensures error.Some? ==>
        0 < used && Ends(sessions[used - 1]) == error && !GoesOn(sessions[used - 1]) && forall j :: 0 <= j < used - 1 ==> GoesOn(sessions[j])
    {
      var i := 0;
      error, used := None, 0;
      while i < |sessions|
        invariant i == used <= |sessions| && Valid() && error == None
        invariant got == old(got) + Received(sessions[..i])
        invariant forall j :: 0 <= j < i ==> GoesOn(sessions[j])
      {
        assert sessions[..i + 1][..i] == sessions[..i];
        var s := sessions[i];
        Consume(Items(s));
        i, used := i + 1, used + 1;
        if Ends(s).Some? && !IsTransient(Ends(s).value) { return Ends(s), used; }
      }
      assert sessions[..|sessions|] == sessions;
    }
  }

  // ---------- The whole system ----------

  datatype Link = Down | Subscribed(start: Slot, pos: nat) | Live(pos: nat, watch: Watch, taken: nat)

  /**
   `inflight` has been inserted and not yet broadcast, `channel` is all that has been broadcast,
   `got` is what the client has yielded since it first asked for `start`.
   */
  datatype Feed = Feed(entries: seq<Entry>, inflight: set<Entry>, channel: seq<Entry>, link: Link, start: Slot, got: seq<Entry>)

  datatype Step = Insert(d: Entry) | Send(d: Entry) | Connect | Snapshot | Receive | Take | Disconnect

  ghost predicate Next(f: Feed, step: Step, g: Feed) {
    match step
    case Insert(d) =>
      Appended(f.entries, d, g.entries) && g == (if Holds(f.entries, d.slot) then f else f.(entries := g.entries, inflight := f.inflight + {d}))
    case Send(d) => d in f.inflight && g == f.(inflight := f.inflight - {d}, channel := f.channel + [d])
    case Connect => f.link.Down? && g == f.(link := Subscribed(Cursor(f.start, f.got), |f.channel|))
    case Snapshot => f.link.Subscribed? && g == f.(link := Live(f.link.pos, OfferedAll(Opened(f.link.start), f.entries), 0))
    case Receive =>
      f.link.Live? && f.link.pos < |f.channel|
      && g == f.(link := Live(f.link.pos + 1, Offered(f.link.watch, f.channel[f.link.pos]), f.link.taken))
    case Take =>
      f.link.Live? && f.link.taken < |f.link.watch.out|
      && g == f.(link := f.link.(taken := f.link.taken + 1), got := f.got + [f.link.watch.out[f.link.taken]])
    case Disconnect => g == f.(link := Down)
  }

  ghost predicate Init(f: Feed) { f == Feed([], {}, [], Down, f.start, []) }

  /** Any interleaving of the parties' steps. */
  ghost predicate Run(feeds: seq<Feed>, steps: seq<Step>) {
    && |feeds| == |steps| + 1 && Init(feeds[0])
    && forall i :: 0 <= i < |steps| ==> Next(feeds[i], steps[i], feeds[i + 1])
  }

  // ---------- The invariant ----------

  /** Every decision in the log has been or will be broadcast, and nothing else is. */
  ghost predicate LogOk(f: Feed) {
    && Rising(f.entries)
    && (forall d :: d in f.entries <==> d in f.inflight || d in f.channel)
  }

  ghost predicate ClientOk(f: Feed) {
    Counted(f.got, f.start) && forall d :: d in f.got ==> d in f.entries
  }

  /** What the stream has not seen is still to come on its channel. */
  ghost predicate LinkOk(f: Feed) {
    && (f.link.Subscribed? ==> f.link.start == Min(f.start + |f.got|, LAST_SLOT) && f.link.pos <= |f.channel|)
    && (f.link.Live? ==>
          && Faithful(f.link.watch, f.entries) && Drained(f.link.watch)
          && f.link.pos <= |f.channel| && f.link.taken <= |f.link.watch.out|
          && f.link.taken <= |f.got| && f.link.watch.start == Min(f.start + |f.got| - f.link.taken, LAST_SLOT)
          && forall d :: d in f.entries ==> Seen(f.link.watch, d) || d in f.inflight || d in f.channel[f.link.pos..])
  }

  ghost predicate Inv(f: Feed) { LogOk(f) && ClientOk(f) && LinkOk(f) }

  lemma CursorIs(f: Feed)
    requires ClientOk(f)
    ensures Cursor(f.start, f.got) == Min(f.start + |f.got|, LAST_SLOT)
  {
  }

  lemma InsertInv(f: Feed, d: Entry, g: Feed)
    requires Inv(f) && Next(f, Insert(d), g)
    ensures Inv(g)
  {
  }

  lemma SendInv(f: Feed, d: Entry, g: Feed)
    requires Inv(f) && Next(f, Send(d), g)
    ensures Inv(g)
  {
    if g.link.Live? {
      var pos := g.link.pos;
      assert g.channel[pos..] == f.channel[pos..] + [d];
    }
  }

  lemma SnapshotInv(f: Feed, g: Feed)
    requires Inv(f) && Next(f, Snapshot, g)
    ensures Inv(g)
  {
    OfferedAllFaithful(Opened(f.link.start), f.entries, f.entries);
  }

  lemma ReceiveInv(f: Feed, g: Feed)
    requires Inv(f) && Next(f, Receive, g)
    ensures Inv(g)
  {
    var pos := f.link.pos;
    var d := f.channel[pos];
    assert d in f.channel;
    OfferedFaithful(f.link.watch, f.entries, d);
    assert f.channel[pos..] == [d] + f.channel[pos + 1..];
  }

  lemma TakeInv(f: Feed, g: Feed)
    requires Inv(f) && Next(f, Take, g)
    ensures Inv(g)
  {
    var d := f.link.watch.out[f.link.taken];
    assert d in f.link.watch.out && d.slot == Min(f.link.watch.start + f.link.taken, LAST_SLOT);
  }

  lemma StepInv(f: Feed, step: Step, g: Feed)
    requires Inv(f) && Next(f, step, g)
    ensures Inv(g)
  {
    match step
    case Insert(d) => InsertInv(f, d, g);
    case Send(d) => SendInv(f, d, g);
    case Connect => CursorIs(f);
    case Snapshot => SnapshotInv(f, g);
    case Receive => ReceiveInv(f, g);
    case Take => TakeInv(f, g);
    case Disconnect =>
  }

  lemma {:induction false} RunInv(feeds: seq<Feed>, steps: seq<Step>, i: nat)
    requires Run(feeds, steps) && i < |feeds|
    ensures Inv(feeds[i])
  {
    if i > 0 {
      RunInv(feeds, steps, i - 1);
      StepInv(feeds[i - 1], steps[i - 1], feeds[i]);
    }
  }

  // ---------- The theorems ----------

  /**
   Over any number of disconnections, lags and reconnections, what the client has yielded counts up
   from the slot it asked for, with the log's values. It is one sequence without gap or repeat
   exactly as long as it has not passed the last slot.
   */
  lemma EndToEnd(feeds: seq<Feed>, steps: seq<Step>, i: nat)
    requires Run(feeds, steps) && i < |feeds|
    ensures Counted(feeds[i].got, feeds[i].start) && forall d :: d in feeds[i].got ==> d in feeds[i].entries
    ensures Consecutive(feeds[i].got, feeds[i].start) <==> feeds[i].start + |feeds[i].got| <= LAST_SLOT + 1
  {
    RunInv(feeds, steps, i);
    CountedConsecutive(feeds[i].got, feeds[i].start);
  }

  /**
   Every live stream has yielded exactly the log's decisions from its start up to its count, in
   order, and each once exactly as long as it has not passed the last slot.
   */
  lemma StreamsExactly(feeds: seq<Feed>, steps: seq<Step>, i: nat)
    requires Run(feeds, steps) && i < |feeds| && feeds[i].link.Live?
    ensures var w := feeds[i].link.watch; forall d :: d in w.out <==> d in feeds[i].entries && w.start <= d.slot < w.start + |w.out|
    ensures var w := feeds[i].link.watch; Counted(w.out, w.start) && (Consecutive(w.out, w.start) <==> w.start + |w.out| <= LAST_SLOT + 1)
  {
    RunInv(feeds, steps, i);
    var w, entries := feeds[i].link.watch, feeds[i].entries;
    CountedConsecutive(w.out, w.start);
    forall d | d in entries && w.start <= d.slot < w.start + |w.out| ensures d in w.out {
      var e := w.out[d.slot - w.start];
      assert e in w.out;
      SameSlotSame(entries, d, e);
    }
  }

  /** A stream that has consumed every broadcast stands at the first slot the log lacks, and so does a client that has taken all of it. */
  lemma MissesNothing(feeds: seq<Feed>, steps: seq<Step>, i: nat)
    requires Run(feeds, steps) && i < |feeds| && feeds[i].link.Live?
    requires feeds[i].inflight == {} && feeds[i].link.pos == |feeds[i].channel|
    ensures var w := feeds[i].link.watch; forall d :: d in feeds[i].entries ==> d.slot != w.start + |w.out|
    ensures feeds[i].link.taken == |feeds[i].link.watch.out| && feeds[i].start + |feeds[i].got| <= LAST_SLOT ==>
      forall d :: d in feeds[i].entries ==> d.slot != feeds[i].start + |feeds[i].got|
  {
    RunInv(feeds, steps, i);
    var w, entries := feeds[i].link.watch, feeds[i].entries;
    forall d | d in entries ensures d.slot != w.start + |w.out| { assert Seen(w, d); }
  }

  /** At the last slot the guarantee ends: a decision inserted between subscribing and the snapshot is yielded twice. */
  lemma LastSlotTwice(payload: Value)
    ensures var d := Entry(LAST_SLOT, payload);
            var w := OfferedAll(Opened(LAST_SLOT), [d]);
            w.out == [d] && Offered(w, d).out == [d, d]
  {
    var d := Entry(LAST_SLOT, payload);
    assert [d][..0] == [];
    assert OfferedAll(Opened(LAST_SLOT), []) == Opened(LAST_SLOT);
  }
}
