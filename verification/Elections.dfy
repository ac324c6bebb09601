/** Elections as part of a run: from any reached state, a node of a majority whose log is no worse than theirs can win them over. */
module Elections {
  import opened Types
  import RaftCore
  import opened RaftNode
  import opened Persistence
  import opened Cluster
  import opened Safety
  import opened RunTheorems
  import opened RaftRules
  import opened Progress
  import opened RepairRuns

  // ---------- Continuations ----------

  /** From step k on only nodes of q take steps: ticks, deliveries and restarts. */
  ghost predicate Among(steps: seq<Step>, k: nat, q: set<NodeId>) {
    forall j :: k <= j < |steps| ==> steps[j].node in q && (steps[j].Act? ==> steps[j].crash.None? && !steps[j].cause.Client?)
  }

  /** Log p is no worse than log q: the last term decides, then the length. */
  predicate AsGood(p: LiveLog, q: LiveLog) { NoWorse(if p == [] then 0 else p[|p| - 1].term, |p|, q) }

  lemma AsGoodStripped(p: LiveLog, p': LiveLog, q: LiveLog, q': LiveLog)
    requires Strip(p) == Strip(p') && Strip(q) == Strip(q') && AsGood(p, q)
    ensures AsGood(p', q')
  {
    if p != [] { assert Strip(p)[|p| - 1].term == Strip(p')[|p| - 1].term; }
    if q != [] { assert Strip(q)[|q| - 1].term == Strip(q')[|q| - 1].term; }
  }

  /** Of some nodes, one has a log no worse than any. */
  lemma {:induction false} BestOf(nodes: seq<Node>, q: set<NodeId>) returns (v: NodeId)
    requires q != {} && forall w :: w in q ==> w < |nodes|
    ensures v in q && forall w :: w in q ==> AsGood(nodes[v].log, nodes[w].log)
    decreases |q|
  {
    var u :| u in q;
    v := u;
    var rest := q - {u};
    if rest != {} {
      var b := BestOf(nodes, rest);
      v := if AsGood(nodes[u].log, nodes[b].log) then u else b;
      forall w | w in q ensures AsGood(nodes[v].log, nodes[w].log) {
        assert w == u || w in rest;
      }
    }
  }

  // ---------- Standing ----------

  /** What a candidate asks of the others. */
  function Bid(n: Node): Message { RequestVote(n.term, n.id, Index(|n.log|), LastTerm(n.log)) }

  ghost predicate Asked(s: State, v: NodeId, w: NodeId, m: Message) { Envelope(v, w, m) in s.net }

  /** Node v stands in the term, has only its own vote, and has asked all others; nothing else has changed. */
  ghost predicate StandsIn(s: State, t: State, v: NodeId, term: nat) {
    && |t.nodes| == |s.nodes| && v < |s.nodes| && (forall u :: 0 <= u < |s.nodes| && u != v ==> t.nodes[u] == s.nodes[u])
    && t.nodes[v].role.Candidate? && t.nodes[v].term == term && t.nodes[v].votes == {v} && t.nodes[v].log == s.nodes[v].log
    && t.nodes[v].id == v && t.nodes[v].size == s.nodes[v].size
    && forall u :: 0 <= u < |s.nodes| && u != v ==> Asked(t, v, u, Bid(t.nodes[v]))
  }

  lemma StandsOut(n: Node)
    requires n.size > 1 && !n.role.Leader?
    ensures var r := Handle(n, Tick(true));
      && r.out == [Outgoing(Broadcast, Bid(r.node))] && r.node.role.Candidate? && r.node.term == n.term + 1 && r.node.votes == {n.id}
      && r.node.log == n.log && r.node.id == n.id && r.node.size == n.size
  {
    StandsExactly(n);
  }

  lemma TickStands(s: State, v: NodeId) returns (t: State)
    requires Ready(s) && v < |s.nodes| && s.nodes[v].id == v && s.nodes[v].size > 1 && !s.nodes[v].role.Leader?
    ensures Possible(s, Act(v, Timer(true), None)) && t == Perform(s, Act(v, Timer(true), None)) && StandsIn(s, t, v, s.nodes[v].term + 1)
  {
    var f := Handle(s.nodes[v], Tick(true)).node;
    var m := Bid(f);
    StandsOut(s.nodes[v]);
    t := TickTells(s, v, f, m);
    forall u | 0 <= u < |s.nodes| && u != v ensures Asked(t, v, u, m) {
      var k := CopyTo(v, |s.nodes|, m, u);
      assert t.net[|s.net| + k] == Envelope(v, u, m);
    }
  }

  lemma StandsOn(s: State, t: State, u: State, v: NodeId, a: nat, b: nat)
    requires StandsIn(s, t, v, a) && StandsIn(t, u, v, b)
    ensures StandsIn(s, u, v, b)
  {
  }

  /** Ticks bring a node to stand in any later term. */
  lemma {:induction false} StandAt(states: seq<State>, steps: seq<Step>, v: NodeId, term: nat) returns (ss: seq<State>, ts: seq<Step>)
    requires Run(states, steps) && Reached(states, |steps|, v)
    requires var n := states[|steps|].nodes[v]; n.size > 1 && !n.role.Leader? && n.term < term && n.id == v
    ensures Continues(states, steps, ss, ts) && Among(ts, |steps|, {v}) && StandsIn(states[|steps|], ss[|ts|], v, term)
    decreases term - states[|steps|].nodes[v].term
  {
    var s, step := states[|steps|], Act(v, Timer(true), None);
    WriteBack(states, steps);
    var t := TickStands(s, v);
    ss, ts := StepOn(states, steps, step, t);
    if s.nodes[v].term + 1 < term {
      var ms, ns := ss, ts;
      ss, ts := StandAt(ms, ns, v, term);
      ContinuesOn(states, steps, ms, ns, ss, ts);
      StandsOn(s, t, ss[|ts|], v, s.nodes[v].term + 1, term);
    }
  }

  // ---------- Gathering votes ----------

  /** The candidate has the votes of `done` and no majority yet, or it leads. */
  ghost predicate Ahead(n: Node, done: set<NodeId>, log: LiveLog) {
    || (n.role.Candidate? && n.log == log && done <= n.votes && 2 * |n.votes| <= n.size)
    || (n.role.Leader? && log <= n.log && n.leader == Some(n.id))
  }

  /** A node that has been asked, is in an earlier term, and has no better log. */
  ghost predicate Willing(s: State, v: NodeId, w: NodeId, term: nat, log: LiveLog) {
    && w < |s.nodes| && w != v && s.nodes[w].term < term && AsGood(log, s.nodes[w].log)
    && Asked(s, v, w, RequestVote(term, v, Index(|log|), LastTerm(log)))
  }

  /** Node v stands or leads in the term; the nodes of `done` have come over, those of `rest` are willing. */
  ghost predicate Gathering(s: State, v: NodeId, term: nat, log: LiveLog, done: set<NodeId>, rest: set<NodeId>) {
    && v < |s.nodes| && s.nodes[v].id == v && s.nodes[v].term == term && Ahead(s.nodes[v], done, log)
    && (forall w :: w in done ==> w < |s.nodes| && s.nodes[w].term == term)
    && (forall w :: w in rest ==> Willing(s, v, w, term, log))
  }

  /** A willing node, once the request is delivered, votes. */
  lemma Votes(s: State, v: NodeId, w: NodeId, term: nat, log: LiveLog) returns (t: State, i: nat)
    requires Ready(s) && v < |s.nodes| && Willing(s, v, w, term, log)
    ensures Possible(s, Act(w, Packet(i), None)) && t == Perform(s, Act(w, Packet(i), None))
    ensures Elsewhere(s, t, w, w) && t.nodes[w].term == term && s.net < t.net
    ensures t.net == s.net + [Envelope(w, v, RequestVoteResponse(term, true))]
  {
    var m := RequestVote(term, v, Index(|log|), LastTerm(log));
    i :| 0 <= i < |s.net| && s.net[i] == Envelope(v, w, m);
    t := Perform(s, Act(w, Packet(i), None));
    Acted(s, w, Packet(i));
    VotesExactly(s.nodes[w], v, term, v, Index(|log|), LastTerm(log));
    PostOne(w, |s.nodes|, v, RequestVoteResponse(term, true));
  }

  /** What a vote does to a node that stands or leads. */
  lemma VoteCounts(n: Node, w: NodeId, done: set<NodeId>, log: LiveLog)
    requires Ahead(n, done, log)
    ensures var f := Rested(Handle(n, Event.Receive(w, RequestVoteResponse(n.term, true))).node);
      Ahead(f, done + {w}, log) && f.term == n.term && f.id == n.id
  {
    if n.role.Candidate? {
      WinsExactly(n, w, n.term, true);
      IdKept(n, Event.Receive(w, RequestVoteResponse(n.term, true)));
    }
  }

  lemma IdKept(n: Node, e: Event)
    requires e.Receive? && e.message.RequestVoteResponse?
    ensures Handle(n, e).node.id == n.id && Handle(n, e).node.size == n.size
    ensures !Handle(n, e).node.role.Leader? && n.term >= e.message.term ==> Handle(n, e).node.log == n.log && Handle(n, e).node.term == n.term
  {
  }

  lemma Counted(s: State, v: NodeId, w: NodeId, term: nat, log: LiveLog, done: set<NodeId>) returns (t: State)
    requires Ready(s) && v < |s.nodes| && s.nodes[v].id == v && s.nodes[v].term == term && Ahead(s.nodes[v], done, log)
    requires s.net != [] && s.net[|s.net| - 1] == Envelope(w, v, RequestVoteResponse(term, true))
    ensures Possible(s, Act(v, Packet(|s.net| - 1), None)) && t == Perform(s, Act(v, Packet(|s.net| - 1), None))
    ensures Elsewhere(s, t, v, v) && s.net <= t.net
    ensures t.nodes[v].id == v && t.nodes[v].term == term && Ahead(t.nodes[v], done + {w}, log)
  {
    t := Perform(s, Act(v, Packet(|s.net| - 1), None));
    Acted(s, v, Packet(|s.net| - 1));
    VoteCounts(s.nodes[v], w, done, log);
  }

  lemma OneMore(s: State, t: State, u: State, v: NodeId, w: NodeId, term: nat, log: LiveLog, done: set<NodeId>, rest: set<NodeId>)
    requires Gathering(s, v, term, log, done, rest) && w in rest
    requires Elsewhere(s, t, w, w) && t.nodes[w].term == term && s.net <= t.net && Elsewhere(t, u, v, v) && t.net <= u.net
    requires u.nodes[v].id == v && u.nodes[v].term == term && Ahead(u.nodes[v], done + {w}, log)
    ensures Gathering(u, v, term, log, done + {w}, rest - {w})
  {
    forall x | x in rest - {w} ensures Willing(u, v, x, term, log) {
      assert Willing(s, v, x, term, log);
    }
  }

  /** One willing node's vote, asked for and counted. */
  lemma GatherOne(states: seq<State>, steps: seq<Step>, v: NodeId, w: NodeId, term: nat, log: LiveLog, done: set<NodeId>, rest: set<NodeId>)
      returns (ss: seq<State>, ts: seq<Step>)
    requires Run(states, steps) && Gathering(states[|steps|], v, term, log, done, rest) && w in rest
    ensures Continues(states, steps, ss, ts) && Among(ts, |steps|, {v, w})
    ensures Gathering(ss[|ts|], v, term, log, done + {w}, rest - {w})
  {
    var s := states[|steps|];
    WriteBack(states, steps);
    var t, i := Votes(s, v, w, term, log);
    var ms, ns := StepOn(states, steps, Act(w, Packet(i), None), t);
    ss, ts := CountOne(ms, ns, s, v, w, term, log, done, rest);
    ContinuesOn(states, steps, ms, ns, ss, ts);
  }

  lemma CountOne(states: seq<State>, steps: seq<Step>, s: State, v: NodeId, w: NodeId, term: nat, log: LiveLog, done: set<NodeId>,
      rest: set<NodeId>) returns (ss: seq<State>, ts: seq<Step>)
    requires Run(states, steps) && Ready(states[|steps|]) && Gathering(s, v, term, log, done, rest) && w in rest
    requires var t := states[|steps|];
      Elsewhere(s, t, w, w) && t.nodes[w].term == term && t.net == s.net + [Envelope(w, v, RequestVoteResponse(term, true))]
    ensures Continues(states, steps, ss, ts) && |ts| == |steps| + 1 && Among(ts, |steps|, {v})
    ensures Gathering(ss[|ts|], v, term, log, done + {w}, rest - {w})
  {
    var t := states[|steps|];
    var u := Counted(t, v, w, term, log, done);
    ss, ts := StepOn(states, steps, Act(v, Packet(|t.net| - 1), None), u);
    OneMore(s, t, u, v, w, term, log, done, rest);
  }

  lemma AmongMore(steps: seq<Step>, ts: seq<Step>, k: nat, q: set<NodeId>, r: set<NodeId>, p: set<NodeId>)
    requires Among(steps, k, q) && steps <= ts && Among(ts, |steps|, r) && q <= p && r <= p
    ensures Among(ts, k, p)
  {
  }

  lemma SameSets(s: State, v: NodeId, term: nat, log: LiveLog, done: set<NodeId>, done': set<NodeId>)
    requires Gathering(s, v, term, log, done, {}) && done == done'
    ensures Gathering(s, v, term, log, done', {})
  {
  }

  lemma {:induction false} GatherAll(states: seq<State>, steps: seq<Step>, v: NodeId, term: nat, log: LiveLog, done: set<NodeId>,
      rest: set<NodeId>, q: set<NodeId>) returns (ss: seq<State>, ts: seq<Step>)
    requires Run(states, steps) && Gathering(states[|steps|], v, term, log, done, rest) && done + rest == q && v in q
    ensures Continues(states, steps, ss, ts) && Among(ts, |steps|, q) && Gathering(ss[|ts|], v, term, log, q, {})
    decreases |rest|
  {
    if rest == {} {
      ss, ts := states, steps;
      SameSets(ss[|ts|], v, term, log, done, q);
    } else {
      var w :| w in rest;
      var ms, ns := GatherOne(states, steps, v, w, term, log, done, rest);
      assert done + {w} + (rest - {w}) == q;
      ss, ts := GatherAll(ms, ns, v, term, log, done + {w}, rest - {w}, q);
      ContinuesOn(states, steps, ms, ns, ss, ts);
      AmongMore(ns, ts, |steps|, {v, w}, q, q);
    }
  }

  /** With a majority behind it, the candidate leads. */
  lemma MajorityLeads(s: State, v: NodeId, term: nat, log: LiveLog, q: set<NodeId>)
    requires Gathering(s, v, term, log, q, {}) && 2 * |q| > s.nodes[v].size
    ensures s.nodes[v].role.Leader? && log <= s.nodes[v].log
  {
    if s.nodes[v].role.Candidate? { SubsetSize(q, s.nodes[v].votes); }
  }

  // ---------- The election ----------

  lemma {:induction false} TermAbove(nodes: seq<Node>, q: set<NodeId>) returns (term: nat)
    requires forall w :: w in q ==> w < |nodes|
    ensures forall w :: w in q ==> nodes[w].term < term
    decreases |q|
  {
    term := 0;
    if q != {} {
      var u :| u in q;
      term := TermAbove(nodes, q - {u});
      term := Max(term, nodes[u].term + 1);
    }
  }

  lemma Basics(states: seq<State>, steps: seq<Step>, v: NodeId)
    requires Run(states, steps) && Reached(states, |steps|, v)
    ensures var n := states[|steps|].nodes[v]; n.id == v && n.size == |states[|steps|].nodes| && Ready(states[|steps|])
    ensures states[|steps|].disks[v].log == Strip(states[|steps|].nodes[v].log)
  {
    var cores := RunLinked(states, steps);
    NodeOkAt(states, cores, |steps|, v);
    assert Linked(states[|steps|], cores[|steps|]);
    WriteBack(states, steps);
  }

  /** A run never gains or loses a node. */
  lemma SameSize(states: seq<State>, steps: seq<Step>, ss: seq<State>, ts: seq<Step>)
    requires Run(states, steps) && Continues(states, steps, ss, ts)
    ensures |ss[|ts|].nodes| == |ss[|ts|].disks| == |states[|steps|].nodes|
  {
    var cores := RunLinked(ss, ts);
    assert ss[|steps|] == states[|steps|];
    assert Linked(ss[|steps|], cores[|steps|]) && Linked(ss[|ts|], cores[|ts|]) && RaftCore.Extends(cores[|steps|], cores[|ts|]);
  }

  /** Node v is no leader, and has what it had. */
  ghost predicate Deposed(s: State, t: State, v: NodeId) {
    && |t.nodes| == |s.nodes| == |t.disks| && v < |s.nodes| && (forall u :: 0 <= u < |s.nodes| && u != v ==> t.nodes[u] == s.nodes[u])
    && !t.nodes[v].role.Leader? && Strip(t.nodes[v].log) == Strip(s.nodes[v].log) && t.nodes[v].term == s.nodes[v].term
    && t.nodes[v].id == s.nodes[v].id && t.nodes[v].size == s.nodes[v].size
  }

  lemma RestoredLog(id: NodeId, size: nat, d: Disk)
    requires size > 1
    ensures var n := Restore(id, size, d); n.role.Follower? && Strip(n.log) == d.log && n.term == d.term && n.id == id && n.size == size
  {
  }

  /** A leader of a cluster is none after a restart. */
  lemma OutOfOffice(states: seq<State>, steps: seq<Step>, v: NodeId) returns (ss: seq<State>, ts: seq<Step>)
    requires Run(states, steps) && Reached(states, |steps|, v) && |states[|steps|].nodes| > 1
    ensures Continues(states, steps, ss, ts) && Among(ts, |steps|, {v}) && Deposed(states[|steps|], ss[|ts|], v)
  {
    var s := states[|steps|];
    Basics(states, steps, v);
    if s.nodes[v].role.Leader? {
      RestoredLog(v, |s.nodes|, s.disks[v]);
      ss, ts := StepOn(states, steps, Restart(v), Perform(s, Restart(v)));
    } else {
      ss, ts := states, steps;
    }
  }

  /** The nodes of q are reached, and none has a better log than v. */
  ghost predicate Backs(s: State, q: set<NodeId>, v: NodeId) {
    && v in q && |s.nodes| == |s.disks| && (forall w :: w in q ==> w < |s.nodes|)
    && forall w :: w in q ==> AsGood(s.nodes[v].log, s.nodes[w].log)
  }

  lemma StartGathering(s: State, t: State, u: State, q: set<NodeId>, v: NodeId, term: nat)
    requires Backs(s, q, v) && Deposed(s, t, v) && StandsIn(t, u, v, term) && t.nodes[v].size > 1
    requires forall w :: w in q ==> s.nodes[w].term < term
    ensures Gathering(u, v, term, t.nodes[v].log, {v}, q - {v})
  {
    forall w | w in q - {v} ensures Willing(u, v, w, term, t.nodes[v].log) {
      AsGoodStripped(s.nodes[v].log, t.nodes[v].log, s.nodes[w].log, s.nodes[w].log);
      assert Asked(u, v, w, Bid(u.nodes[v]));
    }
  }

  /** What the election brings about. */
  ghost predicate Elected(s: State, t: State, q: set<NodeId>, v: NodeId) {
    && |t.nodes| == |s.nodes| && v < |s.nodes| && t.nodes[v].role.Leader? && Strip(s.nodes[v].log) <= Strip(t.nodes[v].log)
    && forall w :: w in q ==> w < |t.nodes| && t.nodes[w].term == t.nodes[v].term
  }

  lemma PrefixStripped(p: LiveLog, q: LiveLog)
    requires p <= q
    ensures Strip(p) <= Strip(q)
  {
  }

  lemma ElectsMany(states: seq<State>, steps: seq<Step>, q: set<NodeId>, v: NodeId) returns (ss: seq<State>, ts: seq<Step>)
    requires Run(states, steps) && Backs(states[|steps|], q, v) && 2 * |q| > |states[|steps|].nodes| > 1
    ensures Continues(states, steps, ss, ts) && Among(ts, |steps|, q) && Elected(states[|steps|], ss[|ts|], q, v)
  {
    var s := states[|steps|];
    Basics(states, steps, v);
    var term := TermAbove(s.nodes, q);
    var ms, ns := OutOfOffice(states, steps, v);
    ss, ts := StandsAndGathers(ms, ns, s, q, v, term);
    ContinuesOn(states, steps, ms, ns, ss, ts);
    AmongMore(ns, ts, |steps|, {v}, q, q);
  }

  lemma StandsAndGathers(states: seq<State>, steps: seq<Step>, s: State, q: set<NodeId>, v: NodeId, term: nat)
      returns (ss: seq<State>, ts: seq<Step>)
    requires Run(states, steps) && Backs(s, q, v) && Deposed(s, states[|steps|], v) && 2 * |q| > |s.nodes| > 1
    requires (forall w :: w in q ==> s.nodes[w].term < term) && s.nodes[v].id == v && s.nodes[v].size == |s.nodes|
    ensures Continues(states, steps, ss, ts) && Among(ts, |steps|, q) && Elected(s, ss[|ts|], q, v)
  {
    var t := states[|steps|];
    var ms, ns := StandAt(states, steps, v, term);
    StartGathering(s, t, ms[|ns|], q, v, term);
    assert {v} + (q - {v}) == q;
    ss, ts := GatherAll(ms, ns, v, term, t.nodes[v].log, {v}, q - {v}, q);
    ContinuesOn(states, steps, ms, ns, ss, ts);
    AmongMore(ns, ts, |steps|, {v}, q, q);
    SameSize(states, steps, ss, ts);
    Basics(ss, ts, v);
    ElectedAtLast(s, t, ss[|ts|], q, v, term);
  }

  lemma ElectedAtLast(s: State, t: State, u: State, q: set<NodeId>, v: NodeId, term: nat)
    requires Deposed(s, t, v) && Gathering(u, v, term, t.nodes[v].log, q, {}) && |u.nodes| == |s.nodes| == u.nodes[v].size < 2 * |q|
    ensures Elected(s, u, q, v)
  {
    MajorityLeads(u, v, term, t.nodes[v].log, q);
    PrefixStripped(t.nodes[v].log, u.nodes[v].log);
  }

  lemma ElectsOne(states: seq<State>, steps: seq<Step>, v: NodeId) returns (ss: seq<State>, ts: seq<Step>)
    requires Run(states, steps) && Reached(states, |steps|, v) && |states[|steps|].nodes| == 1
    ensures Continues(states, steps, ss, ts) && Among(ts, |steps|, {v}) && Elected(states[|steps|], ss[|ts|], {v}, v)
  {
    var s := states[|steps|];
    Basics(states, steps, v);
    if s.nodes[v].role.Leader? {
      ss, ts := states, steps;
    } else {
      var step := Act(v, Timer(true), None);
      Acted(s, v, Timer(true));
      TakesOffice(Standing(s.nodes[v]));
      PrefixStripped(s.nodes[v].log, s.nodes[v].log + Entries(s.nodes[v].term + 1, s.nodes[v].buffered));
      ss, ts := StepOn(states, steps, step, Perform(s, step));
    }
  }

  lemma OnlyOne(q: set<NodeId>, v: NodeId)
    requires v in q && forall w :: w in q ==> w < 1
    ensures q == {v}
  {
  }

  /**
   From any reached state, any node of a majority whose log is no worse than theirs can be elected by
   them: the run goes on, by steps of that majority alone, to where it leads and all of them are in
   its term, with its log still there. (If it is in office already, it steps down first.)
   */
  lemma MajorityElects(states: seq<State>, steps: seq<Step>, q: set<NodeId>, v: NodeId) returns (ss: seq<State>, ts: seq<Step>)
    requires Run(states, steps) && Backs(states[|steps|], q, v) && 2 * |q| > |states[|steps|].nodes|
    ensures Continues(states, steps, ss, ts) && Among(ts, |steps|, q) && Elected(states[|steps|], ss[|ts|], q, v)
  {
    if |states[|steps|].nodes| == 1 {
      OnlyOne(q, v);
      ss, ts := ElectsOne(states, steps, v);
    } else {
      ss, ts := ElectsMany(states, steps, q, v);
    }
  }

  /** Every majority has such a node. */
  lemma MajorityHasBest(s: State, q: set<NodeId>) returns (v: NodeId)
    requires q != {} && |s.nodes| == |s.disks| && forall w :: w in q ==> w < |s.nodes|
    ensures Backs(s, q, v)
  {
    v := BestOf(s.nodes, q);
  }
}
