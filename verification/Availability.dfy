/**
 A majority is enough: from any reached state, with any nodes down, a proposal made at any node of a
 majority can be decided and stored by all of them, by steps of that majority alone.
 */
module Availability {
  import opened Types
  import opened RaftNode
  import opened Cluster
  import opened RunTheorems
  import opened CommitRule
  import opened LeaderTheorems
  import opened RaftRules
  import opened Progress
  import opened RepairRuns
  import opened Elections

  /** Node v leads and the nodes of q are in its term. */
  ghost predicate Office(s: State, q: set<NodeId>, v: NodeId) {
    && v in q && |s.nodes| == |s.disks| && (forall w :: w in q ==> w < |s.nodes|)
    && s.nodes[v].role.Leader? && s.nodes[v].id == v && (forall w :: w in q ==> s.nodes[w].term == s.nodes[v].term)
  }

  // ---------- Bringing one node in line ----------

  lemma OfficeStays(s: State, t: State, q: set<NodeId>, v: NodeId, w: NodeId, a: nat)
    requires Office(s, q, v) && w in q && w != v && Repaired(s, t, v, w, a)
    ensures Office(t, q, v)
  {
  }

  lemma Reach(states: seq<State>, steps: seq<Step>, q: set<NodeId>, v: NodeId, w: NodeId) returns (ss: seq<State>, ts: seq<Step>, a: nat)
    requires Run(states, steps) && Office(states[|steps|], q, v) && w in q && w != v
    ensures Continues(states, steps, ss, ts) && Among(ts, |steps|, q) && Repaired(states[|steps|], ss[|ts|], v, w, a) && Office(ss[|ts|], q, v)
  {
    ss, ts, a := BringInLine(states, steps, v, w);
    forall j | |steps| <= j < |ts| ensures ts[j].node in q && (ts[j].Act? ==> ts[j].crash.None? && !ts[j].cause.Client?) {
      if j == |steps| { assert ts[j] == (steps + [Act(v, Timer(true), None)])[j]; }
    }
    OfficeStays(states[|steps|], ss[|ts|], q, v, w, a);
  }

  // ---------- The proposal ----------

  /** The leader's log ends with this value in its term, and it counts itself. */
  ghost predicate Logged(n: Node, p: Pending) {
    && n.log != [] && n.log[|n.log| - 1] == LogEntry(n.term, p) && n.id in n.matched && n.matched[n.id] == Some(|n.log| - 1)
  }

  lemma LeaderLogs(n: Node, p: Pending)
    requires n.role.Leader?
    ensures var f := Rested(Publish(n, [p]).node);
      Logged(f, p) && f.role.Leader? && f.id == n.id && f.term == n.term && f.decided == []
  {
  }

  lemma ProposeHere(states: seq<State>, steps: seq<Step>, q: set<NodeId>, v: NodeId, p: Pending) returns (ss: seq<State>, ts: seq<Step>)
    requires Run(states, steps) && Office(states[|steps|], q, v)
    ensures Continues(states, steps, ss, ts) && ts == steps + [Act(v, Client(p), None)]
    ensures Office(ss[|ts|], q, v) && Logged(ss[|ts|].nodes[v], p) && ss[|ts|].nodes[v].decided == []
  {
    var s, step := states[|steps|], Act(v, Client(p), None);
    WriteBack(states, steps);
    Acted(s, v, Client(p));
    LeaderLogs(s.nodes[v], p);
    ss, ts := StepOn(states, steps, step, Perform(s, step));
  }

  /** A follower that knows its leader sends the proposal there. */
  lemma ForwardThere(states: seq<State>, steps: seq<Step>, q: set<NodeId>, v: NodeId, u: NodeId, p: Pending) returns (ss: seq<State>, ts: seq<Step>)
    requires Run(states, steps) && Office(states[|steps|], q, v) && u in q && u != v
    requires states[|steps|].nodes[u].role.Follower? && states[|steps|].nodes[u].leader == Some(v)
    ensures Continues(states, steps, ss, ts) && ts == steps + [Act(u, Client(p), None)]
    ensures Office(ss[|ts|], q, v) && ss[|ts|].net == states[|steps|].net + [Envelope(u, v, Forward(p, 0))]
  {
    var s, step := states[|steps|], Act(u, Client(p), None);
    WriteBack(states, steps);
    Acted(s, u, Client(p));
    ProposesExactly(s.nodes[u], p);
    PostOne(u, |s.nodes|, v, Forward(p, 0));
    ss, ts := StepOn(states, steps, step, Perform(s, step));
  }

  lemma TakeForward(states: seq<State>, steps: seq<Step>, q: set<NodeId>, v: NodeId, u: NodeId, p: Pending) returns (ss: seq<State>, ts: seq<Step>)
    requires Run(states, steps) && Office(states[|steps|], q, v)
    requires var net := states[|steps|].net; net != [] && net[|net| - 1] == Envelope(u, v, Forward(p, 0))
    ensures Continues(states, steps, ss, ts) && Among(ts, |steps|, q)
    ensures Office(ss[|ts|], q, v) && Logged(ss[|ts|].nodes[v], p) && ss[|ts|].nodes[v].decided == []
  {
    var s := states[|steps|];
    var step := Act(v, Packet(|s.net| - 1), None);
    WriteBack(states, steps);
    Acted(s, v, step.cause);
    LeaderLogs(s.nodes[v], p);
    ss, ts := StepOn(states, steps, step, Perform(s, step));
  }

  // ---------- Replication ----------

  /** The leader knows the nodes of `done` to hold its whole log, which ends with p. */
  ghost predicate Spread(s: State, q: set<NodeId>, v: NodeId, p: Pending, done: set<NodeId>) {
    && Office(s, q, v) && Logged(s.nodes[v], p)
    && forall w :: w in done ==> w in s.nodes[v].matched && s.nodes[v].matched[w] == Some(|s.nodes[v].log| - 1)
  }

  lemma Confirms(n: Node, w: NodeId)
    requires n.role.Leader? && n.log != []
    ensures var f := Rested(Handle(n, Event.Receive(w, Confirmation(n))).node);
      f.matched == n.matched[w := Some(|n.log| - 1)] && f.log == n.log && f.role == n.role && f.id == n.id && f.term == n.term && f.decided == []
  {
  }

  lemma SpreadStays(s: State, t: State, q: set<NodeId>, v: NodeId, p: Pending, done: set<NodeId>, w: NodeId, a: nat)
    requires Spread(s, q, v, p, done) && w in q && w != v && Repaired(s, t, v, w, a)
    ensures Spread(t, q, v, p, done) && t.net[a] == Envelope(w, v, Confirmation(t.nodes[v]))
  {
  }

  lemma ConfirmStep(s: State, q: set<NodeId>, v: NodeId, p: Pending, done: set<NodeId>, w: NodeId, a: nat) returns (t: State)
    requires Ready(s) && Spread(s, q, v, p, done) && a < |s.net| && s.net[a] == Envelope(w, v, Confirmation(s.nodes[v]))
    ensures Possible(s, Act(v, Packet(a), None)) && t == Perform(s, Act(v, Packet(a), None))
    ensures Spread(t, q, v, p, done + {w}) && t.nodes[v].decided == []
  {
    t := Perform(s, Act(v, Packet(a), None));
    Acted(s, v, Packet(a));
    Confirms(s.nodes[v], w);
    SpreadMore(s, t, q, v, p, done, w);
  }

  lemma SpreadMore(s: State, t: State, q: set<NodeId>, v: NodeId, p: Pending, done: set<NodeId>, w: NodeId)
    requires Spread(s, q, v, p, done) && |t.nodes| == |t.disks| == |s.nodes| && t.nodes == s.nodes[v := t.nodes[v]]
    requires var n, f := s.nodes[v], t.nodes[v];
      f.matched == n.matched[w := Some(|n.log| - 1)] && f.log == n.log && f.role == n.role && f.id == n.id && f.term == n.term
    ensures Spread(t, q, v, p, done + {w})
  {
  }

  lemma SpreadOne(states: seq<State>, steps: seq<Step>, q: set<NodeId>, v: NodeId, p: Pending, done: set<NodeId>, w: NodeId)
      returns (ss: seq<State>, ts: seq<Step>)
    requires Run(states, steps) && Spread(states[|steps|], q, v, p, done) && w in q && w != v
    ensures Continues(states, steps, ss, ts) && Among(ts, |steps|, q) && Spread(ss[|ts|], q, v, p, done + {w}) && ss[|ts|].nodes[v].decided == []
  {
    var s := states[|steps|];
    var ms, ns, a := Reach(states, steps, q, v, w);
    SpreadStays(s, ms[|ns|], q, v, p, done, w, a);
    WriteBack(ms, ns);
    var t := ConfirmStep(ms[|ns|], q, v, p, done, w, a);
    ss, ts := StepOn(ms, ns, Act(v, Packet(a), None), t);
    ContinuesOn(states, steps, ms, ns, ss, ts);
    AmongMore(ns, ts, |steps|, q, q, q);
  }

  lemma {:induction false} SpreadAll(states: seq<State>, steps: seq<Step>, q: set<NodeId>, v: NodeId, p: Pending, rest: set<NodeId>)
      returns (ss: seq<State>, ts: seq<Step>)
    requires Run(states, steps) && Spread(states[|steps|], q, v, p, q - rest) && rest <= q && v !in rest && states[|steps|].nodes[v].decided == []
    ensures Continues(states, steps, ss, ts) && Among(ts, |steps|, q) && Spread(ss[|ts|], q, v, p, q) && ss[|ts|].nodes[v].decided == []
    decreases |rest|
  {
    if rest == {} {
      ss, ts := states, steps;
      assert q - rest == q;
    } else {
      var w :| w in rest;
      var ms, ns := SpreadOne(states, steps, q, v, p, q - rest, w);
      assert q - rest + {w} == q - (rest - {w});
      ss, ts := SpreadAll(ms, ns, q, v, p, rest - {w});
      ContinuesOn(states, steps, ms, ns, ss, ts);
      AmongMore(ns, ts, |steps|, q, q, q);
    }
  }

  /** What a majority is known to hold is committed. */
  lemma SpreadCommits(states: seq<State>, steps: seq<Step>, q: set<NodeId>, v: NodeId, p: Pending)
    requires Run(states, steps) && Spread(states[|steps|], q, v, p, q) && 2 * |q| > |states[|steps|].nodes| > 1
    ensures var n := states[|steps|].nodes[v]; |n.log| <= Length(n.commit)
  {
    var n := states[|steps|].nodes[v];
    Basics(states, steps, v);
    NothingLeftToCommit(states, steps, |steps|, v);
    assert q <= Holders(n.matched, |n.log|);
    SubsetSize(q, Holders(n.matched, |n.log|));
    assert !Committable(n, |n.log|);
  }

  // ---------- Announcing ----------

  /** The leader has committed its whole log, and the nodes of `done` have stored what it ends with. */
  ghost predicate Announced(s: State, q: set<NodeId>, v: NodeId, log: LiveLog, done: set<NodeId>) {
    && Office(s, q, v) && log != [] && s.nodes[v].log == log && |log| <= Length(s.nodes[v].commit)
    && forall w :: w in done ==> Has(s, w, |log| - 1, log[|log| - 1].value.value)
  }

  ghost predicate Has(s: State, w: NodeId, slot: nat, value: Value) {
    w < |s.disks| && slot in s.disks[w].decisions && s.disks[w].decisions[slot] == value
  }

  lemma AnnounceOne(states: seq<State>, steps: seq<Step>, q: set<NodeId>, v: NodeId, log: LiveLog, done: set<NodeId>, w: NodeId)
      returns (ss: seq<State>, ts: seq<Step>)
    requires Run(states, steps) && Announced(states[|steps|], q, v, log, done) && w in q && w != v
    ensures Continues(states, steps, ss, ts) && Among(ts, |steps|, q) && Announced(ss[|ts|], q, v, log, done + {w})
  {
    var a;
    ss, ts, a := Reach(states, steps, q, v, w);
    AllStored(ss, ts, |ts|, w);
    forall x | x in done + {w} ensures Has(ss[|ts|], x, |log| - 1, log[|log| - 1].value.value) {
      if x in done { HasStays(states, steps, ss, ts, x, |log| - 1, log[|log| - 1].value.value); }
    }
  }

  lemma HasStays(states: seq<State>, steps: seq<Step>, ss: seq<State>, ts: seq<Step>, x: NodeId, slot: nat, value: Value)
    requires Run(states, steps) && Continues(states, steps, ss, ts) && Has(states[|steps|], x, slot, value)
    ensures Has(ss[|ts|], x, slot, value)
  {
    assert ss[|steps|] == states[|steps|];
    WriteBack(states, steps);
    SameSize(states, steps, ss, ts);
    DecisionsPersist(ss, ts, |steps|, |ts|, x, slot);
  }

  lemma {:induction false} AnnounceAll(states: seq<State>, steps: seq<Step>, q: set<NodeId>, v: NodeId, log: LiveLog, rest: set<NodeId>)
      returns (ss: seq<State>, ts: seq<Step>)
    requires Run(states, steps) && Announced(states[|steps|], q, v, log, q - rest) && rest <= q && v !in rest
    ensures Continues(states, steps, ss, ts) && Among(ts, |steps|, q) && Announced(ss[|ts|], q, v, log, q)
    decreases |rest|
  {
    if rest == {} {
      ss, ts := states, steps;
      assert q - rest == q;
    } else {
      var w :| w in rest;
      var ms, ns := AnnounceOne(states, steps, q, v, log, q - rest, w);
      assert q - rest + {w} == q - (rest - {w});
      ss, ts := AnnounceAll(ms, ns, q, v, log, rest - {w});
      ContinuesOn(states, steps, ms, ns, ss, ts);
      AmongMore(ns, ts, |steps|, q, q, q);
    }
  }

  // ---------- The whole way ----------

  /** A lone leader commits what it logs. */
  lemma LoneCommits(states: seq<State>, steps: seq<Step>, v: NodeId, p: Pending)
    requires Run(states, steps) && steps != [] && steps[|steps| - 1] == Act(v, Client(p), None)
    requires Reached(states, |steps| - 1, v) && states[|steps| - 1].nodes[v].role.Leader? && |states[|steps|].nodes| == 1
    ensures Reached(states, |steps|, v)
    ensures var n := states[|steps|].nodes[v]; |n.log| <= Length(n.commit)
  {
    var i := |steps| - 1;
    StepAt(states, steps, i);
    Acted(states[i], v, Client(p));
    CommitsExactly(states, steps, i);
    Basics(states[..|steps|], steps[..i], v);
    var m := TakenIn(states[i].nodes[v], [p]);
    LoneHolder(m);
  }

  lemma LoneHolder(m: Node)
    requires m.size == 1 && m.log != [] && Logged(m, m.log[|m.log| - 1].value)
    ensures Length(m.commit) < |m.log| ==> Committable(m, |m.log|)
  {
    assert m.id in Holders(m.matched, |m.log|);
    SubsetSize({m.id}, Holders(m.matched, |m.log|));
  }

  /** From step k on the nodes of q take ticks, deliveries and restarts, and node u is given p, once. */
  ghost predicate AmongBut(steps: seq<Step>, k: nat, q: set<NodeId>, c: nat, u: NodeId, p: Pending) {
    && k <= c < |steps| && steps[c] == Act(u, Client(p), None) && u in q
    && Among(steps[..c], k, q) && Among(steps, c + 1, q)
  }

  /** The proposal is in the leader's log, and the leader has committed it if it is alone. */
  ghost predicate Submitted(s: State, q: set<NodeId>, v: NodeId, p: Pending) {
    && Office(s, q, v) && Logged(s.nodes[v], p) && s.nodes[v].decided == []
    && (|s.nodes| == 1 ==> |s.nodes[v].log| <= Length(s.nodes[v].commit))
  }

  lemma SubmitAtLeader(states: seq<State>, steps: seq<Step>, q: set<NodeId>, v: NodeId, p: Pending)
      returns (ss: seq<State>, ts: seq<Step>, c: nat)
    requires Run(states, steps) && Office(states[|steps|], q, v)
    ensures Continues(states, steps, ss, ts) && AmongBut(ts, |steps|, q, c, v, p) && Submitted(ss[|ts|], q, v, p)
  {
    ss, ts := ProposeHere(states, steps, q, v, p);
    c := |steps|;
    if |ss[|ts|].nodes| == 1 {
      SameSize(states, steps, ss, ts);
      assert ss[|steps|] == states[|steps|];
      LoneCommits(ss, ts, v, p);
    }
  }

  lemma SubmitElsewhere(states: seq<State>, steps: seq<Step>, q: set<NodeId>, v: NodeId, u: NodeId, p: Pending)
      returns (ss: seq<State>, ts: seq<Step>, c: nat)
    requires Run(states, steps) && Office(states[|steps|], q, v) && u in q && u != v
    ensures Continues(states, steps, ss, ts) && AmongBut(ts, |steps|, q, c, u, p) && Submitted(ss[|ts|], q, v, p)
  {
    var ks, ls, a := Reach(states, steps, q, v, u);
    c := |ls|;
    var ms, ns := ForwardThere(ks, ls, q, v, u, p);
    ss, ts := TakeForward(ms, ns, q, v, u, p);
    ContinuesOn(states, steps, ks, ls, ms, ns);
    ContinuesOn(states, steps, ms, ns, ss, ts);
    assert ts[..c] == ls && ts[c] == ns[c];
  }

  lemma Submit(states: seq<State>, steps: seq<Step>, q: set<NodeId>, v: NodeId, u: NodeId, p: Pending)
      returns (ss: seq<State>, ts: seq<Step>, c: nat)
    requires Run(states, steps) && Office(states[|steps|], q, v) && u in q
    ensures Continues(states, steps, ss, ts) && AmongBut(ts, |steps|, q, c, u, p) && Submitted(ss[|ts|], q, v, p)
  {
    if u == v { ss, ts, c := SubmitAtLeader(states, steps, q, v, p); } else { ss, ts, c := SubmitElsewhere(states, steps, q, v, u, p); }
  }

  /** Once submitted, the proposal is replicated, committed and announced. */
  lemma Deliver(states: seq<State>, steps: seq<Step>, q: set<NodeId>, v: NodeId, p: Pending)
      returns (ss: seq<State>, ts: seq<Step>, slot: nat)
    requires Run(states, steps) && Submitted(states[|steps|], q, v, p) && 2 * |q| > |states[|steps|].nodes|
    ensures Continues(states, steps, ss, ts) && Among(ts, |steps|, q) && forall w :: w in q ==> Has(ss[|ts|], w, slot, p.value)
  {
    var ms, ns := Replicate(states, steps, q, v, p);
    var log := ms[|ns|].nodes[v].log;
    LeaderAnnounced(ms, ns, q, v, log);
    ss, ts := AnnounceAll(ms, ns, q, v, log, q - {v});
    ContinuesOn(states, steps, ms, ns, ss, ts);
    AmongMore(ns, ts, |steps|, q, q, q);
    slot := |log| - 1;
  }

  lemma LeaderAnnounced(states: seq<State>, steps: seq<Step>, q: set<NodeId>, v: NodeId, log: LiveLog)
    requires Run(states, steps) && Office(states[|steps|], q, v) && states[|steps|].nodes[v].log == log != []
    requires states[|steps|].nodes[v].decided == [] && |log| <= Length(states[|steps|].nodes[v].commit)
    ensures Announced(states[|steps|], q, v, log, q - (q - {v}))
  {
    AllStored(states, steps, |steps|, v);
    assert Strip(log)[|log| - 1].value == log[|log| - 1].value.value;
    assert q - (q - {v}) == {v};
  }

  lemma Replicate(states: seq<State>, steps: seq<Step>, q: set<NodeId>, v: NodeId, p: Pending) returns (ss: seq<State>, ts: seq<Step>)
    requires Run(states, steps) && Submitted(states[|steps|], q, v, p) && 2 * |q| > |states[|steps|].nodes|
    ensures Continues(states, steps, ss, ts) && Among(ts, |steps|, q)
    ensures Office(ss[|ts|], q, v) && Logged(ss[|ts|].nodes[v], p) && ss[|ts|].nodes[v].decided == []
    ensures |ss[|ts|].nodes[v].log| <= Length(ss[|ts|].nodes[v].commit)
  {
    if |states[|steps|].nodes| == 1 {
      ss, ts := states, steps;
    } else {
      assert q - (q - {v}) == {v};
      ss, ts := SpreadAll(states, steps, q, v, p, q - {v});
      SameSize(states, steps, ss, ts);
      SpreadCommits(ss, ts, q, v, p);
    }
  }

  lemma AmongThrough(steps: seq<Step>, ms: seq<Step>, ns: seq<Step>, ts: seq<Step>, q: set<NodeId>, c: nat, u: NodeId, p: Pending)
    requires steps <= ms <= ns <= ts && Among(ms, |steps|, q) && AmongBut(ns, |ms|, q, c, u, p) && Among(ts, |ns|, q)
    ensures AmongBut(ts, |steps|, q, c, u, p)
  {
    forall j | |steps| <= j < c ensures ts[..c][j].node in q && (ts[..c][j].Act? ==> ts[..c][j].crash.None? && !ts[..c][j].cause.Client?) {
      if j < |ms| { assert ts[j] == ms[j]; } else { assert ts[j] == ns[..c][j]; }
    }
    forall j | c < j < |ts| ensures ts[j].node in q && (ts[j].Act? ==> ts[j].crash.None? && !ts[j].cause.Client?) {
      if j < |ns| { assert ts[j] == ns[j]; }
    }
  }

  /**
   From any reached state, whatever has become of the other nodes, a proposal given to any node of a
   majority can be decided: the run goes on, by steps of that majority alone, to where every one of
   its nodes has stored the proposed value in one and the same slot.
   */
  lemma MajorityDecides(states: seq<State>, steps: seq<Step>, q: set<NodeId>, u: NodeId, p: Pending)
      returns (ss: seq<State>, ts: seq<Step>, c: nat, slot: nat)
    requires Run(states, steps) && (forall w :: w in q ==> w < |states[|steps|].nodes|) && 2 * |q| > |states[|steps|].nodes| && u in q
    ensures Continues(states, steps, ss, ts) && AmongBut(ts, |steps|, q, c, u, p)
    ensures forall w :: w in q ==> Has(ss[|ts|], w, slot, p.value)
  {
    WriteBack(states, steps);
    var v := MajorityHasBest(states[|steps|], q);
    var ks, ls := MajorityElects(states, steps, q, v);
    SameSize(states, steps, ks, ls);
    Basics(ks, ls, v);
    var ms, ns;
    ms, ns, c := Submit(ks, ls, q, v, u, p);
    SameSize(ks, ls, ms, ns);
    ss, ts, slot := Deliver(ms, ns, q, v, p);
    ContinuesOn(states, steps, ks, ls, ms, ns);
    ContinuesOn(states, steps, ms, ns, ss, ts);
    AmongThrough(steps, ls, ns, ts, q, c, u, p);
  }
}
