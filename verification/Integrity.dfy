/** Integrity: no node ever logs, sends, delivers or stores a value that no client proposed. */
module Integrity {
  import opened Types
  import opened RaftNode
  import opened Persistence
  import opened Cluster
  import opened RunTheorems

  ghost predicate ValueFrom(v: Value, subs: set<Pending>) { exists q :: q in subs && q.value == v }

  /** A proposal some client made, nonce and all, or one whose nonce was lost in storage. */
  ghost predicate From(p: Pending, subs: set<Pending>) { p in subs || (p.nonce == 0 && ValueFrom(p.value, subs)) }

  ghost predicate AllFrom(ps: seq<Pending>, subs: set<Pending>) { forall i :: 0 <= i < |ps| ==> From(ps[i], subs) }

  ghost predicate LogFrom(log: LiveLog, subs: set<Pending>) { forall i :: 0 <= i < |log| ==> From(log[i].value, subs) }

  ghost predicate DecidedFrom(ds: seq<Decision>, subs: set<Pending>) { forall i :: 0 <= i < |ds| ==> From(ds[i].value, subs) }

  ghost predicate NodeFrom(n: Node, subs: set<Pending>) {
    LogFrom(n.log, subs) && AllFrom(n.buffered, subs) && AllFrom(n.lost, subs) && DecidedFrom(n.decided, subs)
  }

  ghost predicate MsgFrom(m: Message, subs: set<Pending>) {
    (m.AppendEntries? ==> LogFrom(m.entries, subs)) && (m.Forward? ==> From(m.value, subs))
  }

  ghost predicate OutFrom(out: seq<Outgoing>, subs: set<Pending>) { forall i :: 0 <= i < |out| ==> MsgFrom(out[i].message, subs) }

  ghost predicate EffectFrom(r: Effect, subs: set<Pending>) { NodeFrom(r.node, subs) && OutFrom(r.out, subs) }

  ghost predicate EventFrom(e: Event, subs: set<Pending>) {
    (e.Submit? ==> From(e.value, subs)) && (e.Receive? ==> MsgFrom(e.message, subs))
  }

  ghost predicate DiskFrom(d: Disk, subs: set<Pending>) {
    && (forall i :: 0 <= i < |d.log| ==> ValueFrom(d.log[i].value, subs))
    && (forall s :: s in d.decisions ==> ValueFrom(d.decisions[s], subs))
  }

  // ---------- Handlers pass on only what they have ----------

  lemma ApplyFrom(n: Node, subs: set<Pending>)
    requires NodeFrom(n, subs) && Length(n.commit) <= |n.log|
    ensures NodeFrom(ApplyCommitted(n), subs)
  {
  }

  lemma TryAdvanceFrom(n: Node, subs: set<Pending>)
    requires NodeFrom(n, subs)
    ensures NodeFrom(TryAdvance(n), subs)
  {
  }

  lemma PublishFrom(n: Node, values: seq<Pending>, subs: set<Pending>)
    requires NodeFrom(n, subs) && AllFrom(values, subs) && values != []
    ensures EffectFrom(Publish(n, values), subs)
  {
    TryAdvanceFrom(TakenIn(n, values), subs);
  }

  lemma BecomeLeaderFrom(n: Node, subs: set<Pending>)
    requires NodeFrom(n, subs)
    ensures EffectFrom(BecomeLeader(n), subs)
  {
    if n.buffered != [] { PublishFrom(Crowned(n), n.buffered, subs); }
  }

  lemma ProposeFrom(n: Node, value: Pending, subs: set<Pending>)
    requires NodeFrom(n, subs) && From(value, subs)
    ensures EffectFrom(Propose(n, value), subs)
  {
    if n.role.Leader? { PublishFrom(n, [value], subs); }
  }

  lemma PlaceFrom(n: Node, start: nat, entries: LiveLog, subs: set<Pending>)
    requires NodeFrom(n, subs) && LogFrom(entries, subs) && start <= |n.log|
    ensures NodeFrom(Place(n, start, entries), subs)
  {
  }

  lemma AcceptFrom(n: Node, prevIndex: Option<nat>, entries: LiveLog, leaderCommit: Option<nat>, subs: set<Pending>)
    requires NodeFrom(n, subs) && LogFrom(entries, subs) && Length(prevIndex) <= |n.log|
    ensures NodeFrom(Accept(n, prevIndex, entries, leaderCommit), subs)
  {
    PlaceFrom(n, Length(prevIndex), entries, subs);
    var p := Place(n, Length(prevIndex), entries);
    var end := Length(prevIndex) + |entries|;
    if leaderCommit.Some? && end > 0 { ApplyFrom(p.(commit := Some(Min(leaderCommit.value, end - 1)), saveCommit := true), subs); }
  }

  lemma AppendFrom(n: Node, from: NodeId, m: Message, subs: set<Pending>)
    requires NodeFrom(n, subs) && MsgFrom(m, subs) && m.AppendEntries?
    ensures EffectFrom(Dispatch(n, from, m), subs)
  {
    if PrevOk(n.log, m.prevIndex, m.prevTerm) { AcceptFrom(Loyal(n, m.leader), m.prevIndex, m.entries, m.leaderCommit, subs); }
  }

  lemma ResponseFrom(n: Node, from: NodeId, m: Message, subs: set<Pending>)
    requires NodeFrom(n, subs) && m.AppendEntriesResponse?
    ensures EffectFrom(Dispatch(n, from, m), subs)
  {
    if m.matchIndex.Some? {
      TryAdvanceFrom(n.(matched := n.matched[from := m.matchIndex], next := n.next[from := m.matchIndex.value + 1]), subs);
    }
  }

  lemma VoteFrom(n: Node, from: NodeId, term: nat, granted: bool, subs: set<Pending>)
    requires NodeFrom(n, subs)
    ensures EffectFrom(HandleRequestVoteResponse(n, from, term, granted), subs)
  {
    var m := n.(votes := n.votes + {from});
    if n.role.Candidate? && term == n.term && granted && |m.votes| >= Quorum(n.size) { BecomeLeaderFrom(m, subs); }
  }

  lemma GrantFrom(n: Node, from: NodeId, m: Message, subs: set<Pending>)
    requires NodeFrom(n, subs) && m.RequestVote?
    ensures EffectFrom(Dispatch(n, from, m), subs)
  {
  }

  lemma DispatchFrom(n: Node, from: NodeId, m: Message, subs: set<Pending>)
    requires NodeFrom(n, subs) && MsgFrom(m, subs)
    ensures EffectFrom(Dispatch(n, from, m), subs)
  {
    match m
    case AppendEntries(_, _, _, _, _, _) => AppendFrom(n, from, m, subs);
    case AppendEntriesResponse(_, _, _, _, _) => ResponseFrom(n, from, m, subs);
    case Forward(value, hops) => ProposeFrom(n, value, subs);
    case RequestVoteResponse(term, granted) => VoteFrom(n, from, term, granted, subs);
    case RequestVote(_, _, _, _) => GrantFrom(n, from, m, subs);
  }

  lemma ElectionFrom(n: Node, subs: set<Pending>)
    requires NodeFrom(n, subs)
    ensures EffectFrom(StartElection(n), subs)
  {
    if 1 >= Quorum(n.size) { BecomeLeaderFrom(Standing(n), subs); }
  }

  lemma TickFrom(n: Node, due: bool, subs: set<Pending>)
    requires NodeFrom(n, subs)
    ensures EffectFrom(OnTick(n, due), subs)
  {
    if due && !n.role.Leader? { ElectionFrom(n, subs); }
  }

  lemma HandleFrom(n: Node, e: Event, subs: set<Pending>)
    requires NodeFrom(n, subs) && EventFrom(e, subs)
    ensures EffectFrom(Handle(n, e), subs)
  {
    match e
    case Tick(due) => TickFrom(n, due, subs);
    case Submit(value) => ProposeFrom(n, value, subs);
    case Receive(from, m) => DispatchFrom(Observe(n, m), from, m, subs);
  }

  // ---------- Storage ----------

  ghost predicate OpFrom(op: Op, subs: set<Pending>) {
    && (op.AppendLog? ==> forall i :: 0 <= i < |op.entries| ==> ValueFrom(op.entries[i].value, subs))
    && (op.SaveDecision? ==> ValueFrom(op.value, subs))
  }

  lemma {:induction false} WritesFrom(d: Disk, ops: seq<Op>, subs: set<Pending>)
    requires DiskFrom(d, subs) && forall i :: 0 <= i < |ops| ==> OpFrom(ops[i], subs)
    ensures DiskFrom(WriteAll(d, ops), subs)
    decreases |ops|
  {
    if ops != [] {
      assert OpFrom(ops[0], subs);
      WritesFrom(Write(d, ops[0]), ops[1..], subs);
    }
  }

  lemma StrippedFrom(log: LiveLog, subs: set<Pending>)
    requires LogFrom(log, subs)
    ensures forall i :: 0 <= i < |log| ==> ValueFrom(Strip(log)[i].value, subs)
  {
  }

  lemma {:induction false} KindsFrom(n: Node, j: nat, subs: set<Pending>)
    requires Flushable(n) && LogFrom(n.log, subs)
    ensures forall i :: 0 <= i < |Kinds(n, j)| ==> OpFrom(Kinds(n, j)[i], subs)
  {
    if j > 0 {
      KindsFrom(n, j - 1, subs);
      if n.appendFrom.Some? { StrippedFrom(n.log[n.appendFrom.value..], subs); }
    }
  }

  lemma DecisionOpsFrom(ds: seq<Decision>, subs: set<Pending>)
    requires DecidedFrom(ds, subs)
    ensures forall i :: 0 <= i < |ds| ==> OpFrom(DecisionOps(ds)[i], subs)
  {
  }

  lemma RestoreFrom(id: NodeId, size: nat, d: Disk, subs: set<Pending>)
    requires DiskFrom(d, subs)
    ensures NodeFrom(Restore(id, size, d), subs)
  {
    assert LogFrom(Wrap(d.log), subs);
  }

  lemma WritesOfEventFrom(n: Node, d: Disk, e: Event, subs: set<Pending>)
    requires Clean(n) && Synced(n, d) && NodeFrom(n, subs) && EventFrom(e, subs)
    ensures forall i :: 0 <= i < |Writes(n, d, e)| ==> OpFrom(Writes(n, d, e)[i], subs)
  {
    HandleTracks(n, d, e);
    HandleFrom(n, e, subs);
    KindsFrom(Handle(n, e).node, 5, subs);
    DecisionOpsFrom(Handle(n, e).node.decided, subs);
  }

  lemma ProcessFrom(n: Node, d: Disk, e: Event, crash: Option<nat>, subs: set<Pending>)
    requires Clean(n) && Synced(n, d) && Length(crash) <= |Writes(n, d, e)| + 1
    requires NodeFrom(n, subs) && DiskFrom(d, subs) && EventFrom(e, subs)
    ensures var o := Process(n, d, e, crash); NodeFrom(o.node, subs) && DiskFrom(o.disk, subs) && OutFrom(o.sent, subs)
  {
    HandleFrom(n, e, subs);
    WritesOfEventFrom(n, d, e, subs);
    var ops := Writes(n, d, e);
    if crash.None? {
      WritesFrom(d, ops, subs);
    } else {
      WritesFrom(d, ops[..crash.value], subs);
      RestoreFrom(n.id, n.size, WriteAll(d, ops[..crash.value]), subs);
    }
  }

  // ---------- Runs ----------

  ghost predicate StateFrom(s: State, subs: set<Pending>) {
    && |s.nodes| == |s.disks|
    && (forall v :: 0 <= v < |s.nodes| ==> NodeFrom(s.nodes[v], subs) && DiskFrom(s.disks[v], subs))
    && (forall i :: 0 <= i < |s.net| ==> MsgFrom(s.net[i].message, subs))
  }

  /** The proposals clients make in these steps. */
  ghost function Proposed(steps: seq<Step>): set<Pending> {
    set k | 0 <= k < |steps| && steps[k].Act? && steps[k].cause.Client? :: steps[k].cause.value
  }

  lemma NodeFromMore(n: Node, subs: set<Pending>, more: set<Pending>)
    requires NodeFrom(n, subs) && subs <= more
    ensures NodeFrom(n, more)
  {
  }

  lemma StateFromMore(s: State, subs: set<Pending>, more: set<Pending>)
    requires StateFrom(s, subs) && subs <= more
    ensures StateFrom(s, more)
  {
    forall v | 0 <= v < |s.nodes| ensures NodeFrom(s.nodes[v], more) && DiskFrom(s.disks[v], more) { NodeFromMore(s.nodes[v], subs, more); }
  }

  lemma PostedFrom(v: NodeId, size: nat, out: seq<Outgoing>, subs: set<Pending>)
    requires OutFrom(out, subs)
    ensures forall i :: 0 <= i < |PostAll(v, size, out)| ==> MsgFrom(PostAll(v, size, out)[i].message, subs)
  {
    var posted := PostAll(v, size, out);
    forall i | 0 <= i < |posted| ensures MsgFrom(posted[i].message, subs) { var k := PostAllLooks(v, size, out, i); }
  }

  lemma StepFrom(s: State, step: Step, subs: set<Pending>)
    requires Ready(s) && Possible(s, step) && StateFrom(s, subs) && (step.Act? && step.cause.Client? ==> step.cause.value in subs)
    ensures StateFrom(Perform(s, step), subs)
  {
    var v := step.node;
    if step.Restart? {
      RestoreFrom(s.nodes[v].id, s.nodes[v].size, s.disks[v], subs);
    } else {
      var e := EventOf(s, step.cause);
      ProcessFrom(s.nodes[v], s.disks[v], e, step.crash, subs);
      PostedFrom(v, |s.nodes|, Process(s.nodes[v], s.disks[v], e, step.crash).sent, subs);
    }
  }

  lemma ProposedMore(steps: seq<Step>, j: nat)
    requires 0 < j <= |steps|
    ensures Proposed(steps[..j - 1]) <= Proposed(steps[..j])
  {
    forall p | p in Proposed(steps[..j - 1]) ensures p in Proposed(steps[..j]) {
      var k :| 0 <= k < j - 1 && steps[k].Act? && steps[k].cause.Client? && steps[k].cause.value == p;
      assert steps[..j][k] == steps[k];
    }
  }

  lemma LastProposed(steps: seq<Step>, j: nat)
    requires j < |steps| && steps[j].Act? && steps[j].cause.Client?
    ensures steps[j].cause.value in Proposed(steps[..j + 1])
  {
    assert steps[..j + 1][j] == steps[j];
  }

  lemma {:induction false} RunFrom(states: seq<State>, steps: seq<Step>, j: nat)
    requires Run(states, steps) && j < |states|
    ensures StateFrom(states[j], Proposed(steps[..j]))
  {
    if j > 0 {
      RunFrom(states, steps, j - 1);
      ProposedMore(steps, j);
      StateFromMore(states[j - 1], Proposed(steps[..j - 1]), Proposed(steps[..j]));
      if steps[j - 1].Act? && steps[j - 1].cause.Client? { LastProposed(steps, j - 1); }
      StepAt(states, steps, j - 1);
      StepFrom(states[j - 1], steps[j - 1], Proposed(steps[..j]));
    }
  }

  /** Whatever is decided, anywhere and at any moment of any run, some client proposed before. */
  lemma DecidedWasProposed(states: seq<State>, steps: seq<Step>, j: nat, v: NodeId, slot: nat) returns (k: nat)
    requires Run(states, steps) && Reached(states, j, v) && slot in states[j].disks[v].decisions
    ensures k < j && steps[k].Act? && steps[k].cause.Client? && steps[k].cause.value.value == states[j].disks[v].decisions[slot]
  {
    RunFrom(states, steps, j);
    assert DiskFrom(states[j].disks[v], Proposed(steps[..j]));
    var q :| q in Proposed(steps[..j]) && q.value == states[j].disks[v].decisions[slot];
    k :| 0 <= k < |steps[..j]| && steps[..j][k].Act? && steps[..j][k].cause.Client? && steps[..j][k].cause.value == q;
  }
}
