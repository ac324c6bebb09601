/**
 Delivery of decisions: every committed slot once, in order, with the log's value. Storage
 holds the decisions of a prefix of the committed log; the rest wait in memory, and a restart
 emits exactly the missing ones again.
 */
module Delivery {
  import opened Types
  import opened RaftNode
  import opened Persistence

  /** The decisions of the first k slots of a log. */
  ghost function FirstValues(log: Log, k: nat): (r: map<nat, Value>)
    requires k <= |log|
    ensures |r| == k
  {
    var r := map i | 0 <= i < k :: log[i].value;
    assert r.Keys == Below(k);
    assert |r| == |r.Keys|;
    r
  }

  /** Stored decisions are those of a prefix of the committed part of the stored log. */
  ghost predicate Stored(d: Disk) {
    |d.decisions| <= Length(d.commit) <= |d.log| && d.decisions == FirstValues(d.log, |d.decisions|)
  }

  /** Slots k up to the commit index wait to be delivered, in order, with the log's values. */
  ghost predicate Awaiting(n: Node, k: nat) {
    && Length(n.applied) == Length(n.commit) <= |n.log|
    && k + |n.decided| == Length(n.commit)
    && forall i :: 0 <= i < |n.decided| ==> n.decided[i].slot == k + i && n.decided[i].value.value == n.log[k + i].value.value
  }

  // ---------- Handlers only add the slots they commit ----------

  ghost predicate Grown(n: Node, f: Node) {
    || (f.commit == n.commit && f.applied == n.applied && f.decided == n.decided)
    || (&& Length(n.commit) < Length(f.commit) <= |f.log| && f.applied == f.commit
        && f.decided == n.decided + Decisions(f.log, Length(n.commit), Length(f.commit)))
  }

  lemma TryAdvanceGrown(n: Node)
    requires Length(n.applied) == Length(n.commit)
    ensures Grown(n, TryAdvance(n))
  {
  }

  /** Only the commit index, what was applied and what waits matter. */
  lemma GrownFrom(n: Node, m: Node, f: Node)
    requires Grown(m, f) && m.commit == n.commit && m.applied == n.applied && m.decided == n.decided
    ensures Grown(n, f)
  {
  }

  lemma TakeInGrown(n: Node, values: seq<Pending>)
    requires Length(n.applied) == Length(n.commit) && values != []
    ensures Grown(n, TakeIn(n, values))
  {
    TryAdvanceGrown(TakenIn(n, values));
    GrownFrom(n, TakenIn(n, values), TakeIn(n, values));
  }

  lemma BecomeLeaderGrown(n: Node)
    requires Length(n.applied) == Length(n.commit)
    ensures Grown(n, BecomeLeader(n).node)
  {
    if n.buffered != [] { TakeInGrown(Crowned(n), n.buffered); }
  }

  lemma ProposeGrown(n: Node, value: Pending)
    requires Length(n.applied) == Length(n.commit)
    ensures Grown(n, Propose(n, value).node)
  {
    if n.role.Leader? {
      TakeInGrown(n, [value]);
      assert Propose(n, value).node == TakeIn(n, [value]);
    } else {
      GrownFrom(n, n, Propose(n, value).node);
    }
  }

  lemma AcceptGrown(n: Node, prevIndex: Option<nat>, entries: LiveLog, leaderCommit: Option<nat>)
    requires Length(n.applied) == Length(n.commit) && Length(prevIndex) <= |n.log|
    ensures Grown(n, Accept(n, prevIndex, entries, leaderCommit))
  {
    LearnGrown(Place(n, Length(prevIndex), entries), leaderCommit, Length(prevIndex) + |entries|);
  }

  lemma LearnGrown(n: Node, leaderCommit: Option<nat>, end: nat)
    requires Length(n.applied) == Length(n.commit) && end <= |n.log|
    ensures Grown(n, LearnCommit(n, leaderCommit, end).(buffered := []))
  {
  }

  lemma AppendGrown(n: Node, from: NodeId, m: Message)
    requires Length(n.applied) == Length(n.commit) && m.AppendEntries?
    ensures Grown(n, Dispatch(n, from, m).node)
  {
    if PrevOk(n.log, m.prevIndex, m.prevTerm) {
      AcceptGrown(Loyal(n, m.leader), m.prevIndex, m.entries, m.leaderCommit);
    }
  }

  lemma AckGrown(n: Node, from: NodeId, i: nat)
    requires Length(n.applied) == Length(n.commit)
    ensures Grown(n, Acknowledge(n, from, i))
  {
    var m := n.(matched := n.matched[from := Some(i)], next := n.next[from := i + 1]);
    TryAdvanceGrown(m);
    GrownFrom(n, m, TryAdvance(m));
  }

  lemma ResponseGrown(n: Node, from: NodeId, m: Message)
    requires Length(n.applied) == Length(n.commit) && m.AppendEntriesResponse?
    ensures Grown(n, Dispatch(n, from, m).node)
  {
    if m.matchIndex.Some? { AckGrown(n, from, m.matchIndex.value); }
  }

  lemma DispatchGrown(n: Node, from: NodeId, m: Message)
    requires Length(n.applied) == Length(n.commit)
    ensures Grown(n, Dispatch(n, from, m).node)
  {
    match m
    case RequestVoteResponse(_, _) => BecomeLeaderGrown(n.(votes := n.votes + {from}));
    case AppendEntries(_, _, _, _, _, _) => AppendGrown(n, from, m);
    case AppendEntriesResponse(_, _, _, _, _) => ResponseGrown(n, from, m);
    case Forward(value, _) => ProposeGrown(n, value);
    case RequestVote(_, _, _, _) =>
  }

  lemma ElectionGrown(n: Node)
    requires Length(n.applied) == Length(n.commit)
    ensures Grown(n, StartElection(n).node)
  {
    BecomeLeaderGrown(Standing(n));
    GrownFrom(n, Standing(n), BecomeLeader(Standing(n)).node);
  }

  /** An event queues for delivery exactly the slots it commits. */
  lemma HandleGrown(n: Node, e: Event)
    requires Length(n.applied) == Length(n.commit)
    ensures Grown(n, Handle(n, e).node)
  {
    match e
    case Tick(due) => ElectionGrown(n);
    case Submit(value) => ProposeGrown(n, value);
    case Receive(from, message) =>
      DispatchGrown(Observe(n, message), from, message);
      GrownFrom(n, Observe(n, message), Handle(n, e).node);
  }

  lemma GrownAwaits(n: Node, f: Node, k: nat)
    requires Awaiting(n, k) && Grown(n, f) && Strip(n.log)[..Length(n.commit)] <= Strip(f.log)
    ensures Awaiting(f, k)
  {
    forall i | 0 <= i < |n.decided| ensures k + i < |f.log| && n.decided[i].value.value == f.log[k + i].value.value {
      assert Strip(n.log)[..Length(n.commit)][k + i] == Strip(f.log)[k + i];
    }
  }

  // ---------- Storing decisions ----------

  lemma StoreOne(d: Disk, log: Log, k: nat)
    requires k < |log|
    ensures WriteAll(d.(decisions := FirstValues(log, k)), [SaveDecision(k, log[k].value)]) == d.(decisions := FirstValues(log, k + 1))
  {
    var op := SaveDecision(k, log[k].value);
    assert [op][1..] == [];
    assert WriteAll(Write(d.(decisions := FirstValues(log, k)), op), []) == Write(d.(decisions := FirstValues(log, k)), op);
    assert FirstValues(log, k + 1) == FirstValues(log, k)[k := log[k].value];
  }

  lemma {:induction false} DrainStores(d: Disk, ds: seq<Decision>, k: nat, p: nat)
    requires p <= |ds| && k + |ds| <= |d.log| && d.decisions == FirstValues(d.log, k)
    requires forall i :: 0 <= i < |ds| ==> ds[i].slot == k + i && ds[i].value.value == d.log[k + i].value
    ensures WriteAll(d, DecisionOps(ds)[..p]) == d.(decisions := FirstValues(d.log, k + p))
  {
    var ops := DecisionOps(ds);
    if p == 0 {
      assert ops[..p] == [];
      assert d.(decisions := FirstValues(d.log, k)) == d;
    } else {
      DrainStores(d, ds, k, p - 1);
      var at := k + p - 1;
      var e, op := d.(decisions := FirstValues(d.log, at)), SaveDecision(at, d.log[at].value);
      assert ops[..p] == ops[..p - 1] + [op];
      WriteAllConcat(d, ops[..p - 1], [op]);
      assert WriteAll(d, ops[..p]) == WriteAll(e, [op]);
      StoreOne(d, d.log, at);
    }
  }

  // ---------- Restarting ----------

  lemma LastOfFirst(log: Log, k: nat)
    requires k <= |log|
    ensures LastSlot(FirstValues(log, k)) == Index(k)
  {
    var m := FirstValues(log, k);
    if k > 0 { assert k - 1 in m; }
  }

  lemma LoadedExact(id: NodeId, size: nat, d: Disk)
    requires Stored(d)
    ensures var r := Loaded(id, size, d);
      Clean(r) && Synced(r, d) && r.decided == [] && Length(r.applied) == |d.decisions| && r.commit == d.commit
  {
    LastOfFirst(d.log, |d.decisions|);
    assert Strip(Wrap(d.log)) == d.log;
  }

  lemma ApplyExact(n: Node)
    requires n.decided == [] && Length(n.applied) <= Length(n.commit) <= |n.log|
    ensures var r := ApplyCommitted(n);
      && r == n.(decided := Decisions(n.log, Length(n.applied), Length(n.commit)), applied := r.applied)
      && Length(r.applied) == Length(n.commit)
  {
  }

  /** A restart stands exactly where storage does, and emits exactly the committed slots not yet stored. */
  lemma RestoreExact(id: NodeId, size: nat, d: Disk)
    requires Stored(d)
    ensures var r := Restore(id, size, d); Clean(r) && Synced(r, d) && Awaiting(r, |d.decisions|)
    ensures Restore(id, size, d).decided == Decisions(Wrap(d.log), |d.decisions|, Length(d.commit))
  {
    LoadedExact(id, size, d);
    ApplyExact(Loaded(id, size, d));
  }
}
