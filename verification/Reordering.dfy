/**
 Why AppendEntries have to arrive in order: a run of three nodes in which one heartbeat is
 overtaken, and two nodes store different values for one slot.
 */
module Reordering {
  import opened Types
  import opened RaftNode
  import opened Persistence
  import opened Cluster
  import opened CommitRule
  import opened RepairRuns

  /** No crash, and the packets delivered are among `used`, each once. */
  ghost predicate Tidy(steps: seq<Step>, used: set<nat>) {
    && (forall i :: 0 <= i < |steps| ==> steps[i].Act? && steps[i].crash.None? && (steps[i].cause.Packet? ==> steps[i].cause.index in used))
    && (forall i, j :: 0 <= i < j < |steps| && steps[i].Act? && steps[j].Act? && steps[i].cause.Packet? && steps[j].cause.Packet? ==>
          steps[i].cause.index != steps[j].cause.index)
  }

  /** A run without the assumption on the network: packets may be delivered in any order, but none twice, and no node goes down. */
  ghost predicate LooseRun(states: seq<State>, steps: seq<Step>, used: set<nat>) {
    && |states| == |steps| + 1 && Init(states[0]) && Tidy(steps, used)
    && forall i :: 0 <= i < |steps| ==> Ready(states[i]) && Doable(states[i], steps[i]) && states[i + 1] == Perform(states[i], steps[i])
  }

  // Stated behind `Looked`, which is always true, so that a proof that only adds to a run need not
  // look at all of it.
  ghost predicate Looked(steps: seq<Step>, k: nat) { true }

  ghost predicate Played(states: seq<State>, steps: seq<Step>, used: set<nat>) {
    |states| == |steps| + 1 && forall k: nat {:trigger Looked(steps, k)} :: Looked(steps, k) ==> LooseRun(states, steps, used)
  }

  ghost predicate Within(used: set<nat>, n: nat) { forall i :: i in used ==> i < n }

  function Using(used: set<nat>, cause: Cause): set<nat> { if cause.Packet? then used + {cause.index} else used }

  // ---------- Steps without a crash ----------

  /** The decisions of a disk after more have been stored. */
  function Delivered(decisions: map<nat, Value>, ds: seq<Decision>): map<nat, Value> {
    if ds == [] then decisions else Delivered(decisions, ds[..|ds| - 1])[ds[|ds| - 1].slot := ds[|ds| - 1].value.value]
  }

  lemma {:induction false} DeliveredWrites(d: Disk, ds: seq<Decision>)
    ensures WriteAll(d, DecisionOps(ds)).decisions == Delivered(d.decisions, ds)
    decreases |ds|
  {
    if ds != [] {
      var k := |ds| - 1;
      var op := SaveDecision(ds[k].slot, ds[k].value.value);
      assert DecisionOps(ds) == DecisionOps(ds[..k]) + [op];
      WriteAllConcat(d, DecisionOps(ds[..k]), [op]);
      assert [op][1..] == [];
      assert WriteAll(WriteAll(d, DecisionOps(ds[..k])), [op]) == Write(WriteAll(d, DecisionOps(ds[..k])), op);
      DeliveredWrites(d, ds[..k]);
    }
  }

  lemma ProcessKeeps(n: Node, d: Disk, e: Event)
    requires Clean(n) && Synced(n, d)
    ensures var o := Process(n, d, e, None);
      Clean(o.node) && Synced(o.node, o.disk) && o.disk.decisions == Delivered(d.decisions, Handle(n, e).node.decided)
  {
    HandleTracks(n, d, e);
    EventSyncs(n, d, e);
    var f := Handle(n, e).node;
    var flushed := WriteAll(d, FlushOps(f));
    WriteAllConcat(d, FlushOps(f), DecisionOps(f.decided));
    DecisionOpsOnly(flushed, f.decided);
    DeliveredWrites(flushed, f.decided);
    KindsReachStage(f, d, 5);
  }

  /** All of a state but the disks, of which only the decisions matter. */
  ghost predicate At(s: State, nodes: seq<Node>, decisions: seq<map<nat, Value>>, net: seq<Envelope>) {
    && Ready(s) && s.nodes == nodes && |s.disks| == |decisions| && s.net == net
    && forall v :: 0 <= v < |s.disks| ==> s.disks[v].decisions == decisions[v]
  }

  predicate Causes(cause: Cause, v: NodeId, net: seq<Envelope>, e: Event) {
    match cause
    case Timer(due) => e == Tick(due)
    case Client(value) => e == Submit(value)
    case Packet(i) => i < |net| && net[i].dst == v && e == Event.Receive(net[i].src, net[i].message)
  }

  lemma ActedDisks(s: State, v: NodeId, cause: Cause)
    requires Ready(s) && Doable(s, Act(v, cause, None))
    ensures var t, e := Perform(s, Act(v, cause, None)), EventOf(s, cause);
      && Ready(t) && |t.disks| == |s.disks| && (forall u :: 0 <= u < |s.disks| && u != v ==> t.disks[u] == s.disks[u])
      && t.disks[v].decisions == Delivered(s.disks[v].decisions, Handle(s.nodes[v], e).node.decided)
  {
    ProcessKeeps(s.nodes[v], s.disks[v], EventOf(s, cause));
  }

  lemma CausesEvent(s: State, v: NodeId, cause: Cause, e: Event)
    requires Ready(s) && v < |s.nodes| && Causes(cause, v, s.net, e)
    ensures Doable(s, Act(v, cause, None)) && EventOf(s, cause) == e
  {
  }

  lemma ActedAt(s: State, nodes: seq<Node>, decisions: seq<map<nat, Value>>, net: seq<Envelope>, v: NodeId, cause: Cause, e: Event)
    requires At(s, nodes, decisions, net) && v < |nodes| == |decisions| && Causes(cause, v, net, e)
    ensures Doable(s, Act(v, cause, None))
    ensures At(Perform(s, Act(v, cause, None)), nodes[v := Rested(Handle(nodes[v], e).node)],
               decisions[v := Delivered(decisions[v], Handle(nodes[v], e).node.decided)], net + PostAll(v, |nodes|, Handle(nodes[v], e).out))
  {
    CausesEvent(s, v, cause, e);
    ActedDisks(s, v, cause);
    Acted(s, v, cause);
  }

  lemma LooseExtends(states: seq<State>, steps: seq<Step>, used: set<nat>, v: NodeId, cause: Cause)
    requires LooseRun(states, steps, used) && Ready(states[|steps|]) && Doable(states[|steps|], Act(v, cause, None))
    requires cause.Packet? ==> cause.index !in used
    ensures LooseRun(states + [Perform(states[|steps|], Act(v, cause, None))], steps + [Act(v, cause, None)], Using(used, cause))
  {
    var ss, ts := states + [Perform(states[|steps|], Act(v, cause, None))], steps + [Act(v, cause, None)];
    forall i | 0 <= i < |ts| ensures Ready(ss[i]) && Doable(ss[i], ts[i]) && ss[i + 1] == Perform(ss[i], ts[i]) {
      if i < |steps| { assert ss[i] == states[i] && ss[i + 1] == states[i + 1]; }
    }
  }

  /** One event more. */
  lemma Go(states: seq<State>, steps: seq<Step>, used: set<nat>, nodes: seq<Node>, decisions: seq<map<nat, Value>>, net: seq<Envelope>,
      v: NodeId, cause: Cause, e: Event) returns (ss: seq<State>, ts: seq<Step>)
    requires Played(states, steps, used) && At(states[|steps|], nodes, decisions, net) && v < |nodes| == |decisions|
    requires Causes(cause, v, net, e)
    requires cause.Packet? ==> cause.index !in used
    ensures Played(ss, ts, Using(used, cause))
    ensures At(ss[|ts|], nodes[v := Rested(Handle(nodes[v], e).node)],
               decisions[v := Delivered(decisions[v], Handle(nodes[v], e).node.decided)], net + PostAll(v, |nodes|, Handle(nodes[v], e).out))
  {
    ActedAt(states[|steps|], nodes, decisions, net, v, cause, e);
    assert Looked(steps, 0);
    LooseExtends(states, steps, used, v, cause);
    ss, ts := states + [Perform(states[|steps|], Act(v, cause, None))], steps + [Act(v, cause, None)];
  }

  // ---------- The nodes ----------

  function Entry(term: nat, p: Pending): LogEntry<Pending> { LogEntry(term, p) }

  /** A node of three that has voted in a term, follows a leader or none, and has a log. */
  function Follower(id: NodeId, term: nat, vote: Option<NodeId>, leader: Option<NodeId>, log: LiveLog): Node {
    Fresh(id, 3).(term := term, vote := vote, leader := leader, log := log)
  }

  function Candidate(id: NodeId, term: nat, log: LiveLog): Node {
    Fresh(id, 3).(term := term, role := Role.Candidate, vote := Some(id), votes := {id}, log := log)
  }

  function Leader(id: NodeId, term: nat, votes: set<NodeId>, log: LiveLog): Node {
    Fresh(id, 3).(term := term, role := Role.Leader, vote := Some(id), votes := votes, leader := Some(id), log := log,
                  matched := if log == [] then map[] else map[id := Some(|log| - 1)])
  }

  lemma Stands(n: Node, term: nat)
    requires n == Follower(n.id, term, n.vote, n.leader, n.log)
    ensures var f := Handle(n, Tick(true));
      Rested(f.node) == Candidate(n.id, term + 1, n.log) && f.node.decided == []
      && f.out == [Outgoing(Broadcast, RequestVote(term + 1, n.id, Index(|n.log|), LastTerm(n.log)))]
  {
  }

  lemma Votes(n: Node, term: nat, candidate: NodeId)
    requires n == Follower(n.id, n.term, n.vote, n.leader, n.log) && n.term < term
    ensures var m := RequestVote(term, candidate, Index(|n.log|), LastTerm(n.log));
      var f := Handle(n, Event.Receive(candidate, m));
      Rested(f.node) == Follower(n.id, term, Some(candidate), None, n.log) && f.node.decided == []
      && f.out == [Outgoing(Peer(candidate), RequestVoteResponse(term, true))]
  {
  }

  lemma Wins(id: NodeId, term: nat, log: LiveLog, from: NodeId)
    requires from != id
    ensures var f := Handle(Candidate(id, term, log), Event.Receive(from, RequestVoteResponse(term, true)));
      && Rested(f.node) == Leader(id, term, {id, from}, log) && f.node.decided == []
      && f.out == [Outgoing(Broadcast, Heartbeat(Leader(id, term, {id, from}, log)))]
  {
    assert {id} + {from} == {id, from} && |{id, from}| == 2;
  }

  /** A leader of three that counts itself alone commits nothing. */
  lemma Publishes(id: NodeId, term: nat, votes: set<NodeId>, log: LiveLog, p: Pending)
    ensures var n := Leader(id, term, votes, log);
      var f := Handle(n, Submit(p));
      Rested(f.node) == Leader(id, term, votes, log + [Entry(term, p)]) && f.node.decided == []
      && f.out == [Outgoing(Broadcast, AppendEntries(term, id, Index(|log|), LastTerm(log), [Entry(term, p)], None))]
  {
    var n := Leader(id, term, votes, log);
    var m := TakenIn(n, [p]);
    assert Entries(term, [p]) == [Entry(term, p)];
    assert m.matched == map[id := Some(|log|)];
    assert |m.matched| == 1;
    assert m.log[..|log|] == log;
  }

  lemma Beats(id: NodeId, term: nat, votes: set<NodeId>, log: LiveLog)
    ensures var n := Leader(id, term, votes, log);
      var f := Handle(n, Tick(true)); Rested(f.node) == n && f.node.decided == [] && f.out == [Outgoing(Broadcast, Heartbeat(n))]
  {
  }

  lemma Takes(n: Node, term: nat, leader: NodeId, entries: LiveLog)
    requires n == Follower(n.id, n.term, n.vote, n.leader, n.log) && n.term <= term && entries != []
    ensures var m := AppendEntries(term, leader, Index(|n.log|), LastTerm(n.log), entries, None);
      var f := Handle(n, Event.Receive(leader, m));
      Rested(f.node) == Follower(n.id, term, if n.term < term then None else n.vote, Some(leader), n.log + entries) && f.node.decided == []
      && f.out == [Outgoing(Peer(leader), AppendEntriesResponse(term, true, Some(|n.log| + |entries| - 1), None, None))]
  {
    assert Matching(n.log, |n.log|, entries) == 0;
    assert n.log[..|n.log|] == n.log && entries[0..] == entries;
    assert ForwardAll(leader, []) == [];
  }

  /** A heartbeat from when the leader's log was shorter cuts the follower's log back. */
  lemma Cuts(n: Node, leader: NodeId, k: nat)
    requires n == Follower(n.id, n.term, n.vote, n.leader, n.log) && 0 < k < |n.log|
    ensures var m := AppendEntries(n.term, leader, Index(k), LastTerm(n.log[..k]), [], None);
      var f := Handle(n, Event.Receive(leader, m));
      Rested(f.node) == Follower(n.id, n.term, n.vote, Some(leader), n.log[..k]) && f.node.decided == []
  {
    assert Matching(n.log, k, []) == 0;
  }

  lemma TwoHold(id: NodeId, from: NodeId)
    requires from != id
    ensures |map[id := Some(1), from := Some(1)]| == 2 && HeldBy(map[id := Some(1), from := Some(1)], 2) == 2
  {
    var matched: map<NodeId, Option<nat>> := map[id := Some(1), from := Some(1)];
    assert matched.Keys == {id, from};
    assert Holders(matched, 2) == {id, from};
    assert Holders(matched, 3) == {};
    HeldByMeans(matched, 2);
    MostHeldUnique(matched, 2, 2, HeldBy(matched, 2));
  }

  /** A leader with two entries, the second of its term, decides both when one other node has confirmed them. */
  lemma Decides(id: NodeId, term: nat, votes: set<NodeId>, log: LiveLog, from: NodeId)
    requires from != id && |log| == 2 && log[1].term == term
    ensures var f := Handle(Leader(id, term, votes, log), Event.Receive(from, AppendEntriesResponse(term, true, Some(1), None, None)));
      f.node.decided == [Decision(0, log[0].value), Decision(1, log[1].value)] && f.out == []
  {
    var n := Leader(id, term, votes, log);
    var m := n.(matched := n.matched[from := Some(1)], next := n.next[from := 2]);
    assert m.matched == map[id := Some(1), from := Some(1)];
    TwoHold(id, from);
    assert Decisions(log, 0, 2) == [Decision(0, log[0].value), Decision(1, log[1].value)];
  }

  lemma Two(id: NodeId, m: Message)
    requires id < 2
    ensures PostAll(id, 3, [Outgoing(Broadcast, m)]) == [Envelope(id, 1 - id, m), Envelope(id, 2, m)]
  {
    PostBroadcast(id, 3, m);
    assert Copies(id, 0, m) == [];
    assert Copies(id, 1, m) == if id == 0 then [] else [Envelope(id, 0, m)];
    assert Copies(id, 2, m) == [Envelope(id, 1 - id, m)];
  }

  lemma DeliveredTwo(p: Decision, q: Decision)
    requires p.slot != q.slot
    ensures var m := Delivered(map[], [p, q]); q.slot in m && m[q.slot] == q.value.value
  {
    assert [p, q][..1] == [p] && [p][..0] == [];
  }

  // ---------- The run ----------

  const NONE: seq<map<nat, Value>> := [map[], map[], map[]]

  lemma Start() returns (ss: seq<State>, ts: seq<Step>, used: set<nat>)
    ensures Played(ss, ts, used) && used == {} && At(ss[|ts|], [Fresh(0, 3), Fresh(1, 3), Fresh(2, 3)], NONE, [])
  {
    ss, ts, used := [State([Fresh(0, 3), Fresh(1, 3), Fresh(2, 3)], [Empty(), Empty(), Empty()], [], map[])], [], {};
  }

  /** Node 0 stands in term 1. */
  lemma FirstStands() returns (ss: seq<State>, ts: seq<Step>, used: set<nat>, net: seq<Envelope>)
    ensures Played(ss, ts, used) && used == {} && |net| == 2 && net[0] == Envelope(0, 1, RequestVote(1, 0, None, 0))
    ensures At(ss[|ts|], [Candidate(0, 1, []), Fresh(1, 3), Fresh(2, 3)], NONE, net)
  {
    ss, ts, used := Start();
    var nodes := [Fresh(0, 3), Fresh(1, 3), Fresh(2, 3)];
    Stands(nodes[0], 0);
    Two(0, RequestVote(1, 0, None, 0));
    ss, ts := Go(ss, ts, used, nodes, NONE, [], 0, Timer(true), Tick(true));
    net := [Envelope(0, 1, RequestVote(1, 0, None, 0)), Envelope(0, 2, RequestVote(1, 0, None, 0))];
  }

  /** Node 1 votes for node 0. */
  lemma FirstVote() returns (ss: seq<State>, ts: seq<Step>, used: set<nat>, net: seq<Envelope>)
    ensures Played(ss, ts, used) && used == {0} && |net| == 3 && net[2] == Envelope(1, 0, RequestVoteResponse(1, true))
    ensures At(ss[|ts|], [Candidate(0, 1, []), Follower(1, 1, Some(0), None, []), Fresh(2, 3)], NONE, net)
  {
    ss, ts, used, net := FirstStands();
    var nodes := [Candidate(0, 1, []), Fresh(1, 3), Fresh(2, 3)];
    Votes(nodes[1], 1, 0);
    PostOne(1, 3, 0, RequestVoteResponse(1, true));
    ss, ts := Go(ss, ts, used, nodes, NONE, net, 1, Packet(0), Event.Receive(0, RequestVote(1, 0, None, 0)));
    used, net := Using(used, Packet(0)), net + [Envelope(1, 0, RequestVoteResponse(1, true))];
  }

  /** Node 0 leads in term 1. */
  lemma FirstLeader() returns (ss: seq<State>, ts: seq<Step>, used: set<nat>, net: seq<Envelope>)
    ensures Played(ss, ts, used) && Within(used, |net|)
    ensures At(ss[|ts|], [Leader(0, 1, {0, 1}, []), Follower(1, 1, Some(0), None, []), Fresh(2, 3)], NONE, net)
  {
    ss, ts, used, net := FirstVote();
    var nodes := [Candidate(0, 1, []), Follower(1, 1, Some(0), None, []), Fresh(2, 3)];
    Wins(0, 1, [], 1);
    ss, ts := Go(ss, ts, used, nodes, NONE, net, 0, Packet(2), Event.Receive(1, RequestVoteResponse(1, true)));
    used, net := Using(used, Packet(2)), ss[|ts|].net;
  }

  /** Packet i is this one. */
  predicate Has(net: seq<Envelope>, i: nat, src: NodeId, dst: NodeId, m: Message) { i < |net| && net[i] == Envelope(src, dst, m) }

  function First(term: nat, p: Pending): Message { AppendEntries(term, 0, None, 0, [Entry(term, p)], None) }
  function Second(term: nat, leader: NodeId, p: Pending): Message { AppendEntries(term, leader, Some(0), 1, [Entry(term, p)], None) }
  function Late(p: Pending): Message { Heartbeat(Leader(0, 1, {0, 1}, [Entry(1, p)])) }
  function Confirm(term: nat): Message { AppendEntriesResponse(term, true, Some(1), None, None) }

  /** Node 0 sends its first entry. */
  lemma SendsFirst(a: Pending) returns (ss: seq<State>, ts: seq<Step>, used: set<nat>, net: seq<Envelope>, i: nat)
    ensures Played(ss, ts, used) && Within(used, i) && i + 2 == |net| && Has(net, i, 0, 1, First(1, a))
    ensures Has(net, i + 1, 0, 2, First(1, a))
    ensures At(ss[|ts|], [Leader(0, 1, {0, 1}, [Entry(1, a)]), Follower(1, 1, Some(0), None, []), Fresh(2, 3)], NONE, net)
  {
    ss, ts, used, net := FirstLeader();
    i := |net|;
    var nodes := [Leader(0, 1, {0, 1}, []), Follower(1, 1, Some(0), None, []), Fresh(2, 3)];
    Publishes(0, 1, {0, 1}, [], a);
    assert [] + [Entry(1, a)] == [Entry(1, a)];
    Two(0, First(1, a));
    ss, ts := Go(ss, ts, used, nodes, NONE, net, 0, Client(a), Submit(a));
    net := net + [Envelope(0, 1, First(1, a)), Envelope(0, 2, First(1, a))];
  }

  /** Node 0 sends a heartbeat. */
  lemma SendsBeat(a: Pending) returns (ss: seq<State>, ts: seq<Step>, used: set<nat>, net: seq<Envelope>, i: nat)
    ensures Played(ss, ts, used) && Within(used, i) && i + 4 == |net|
    ensures Has(net, i, 0, 1, First(1, a)) && Has(net, i + 1, 0, 2, First(1, a)) && Has(net, i + 2, 0, 1, Late(a))
    ensures At(ss[|ts|], [Leader(0, 1, {0, 1}, [Entry(1, a)]), Follower(1, 1, Some(0), None, []), Fresh(2, 3)], NONE, net)
  {
    ss, ts, used, net, i := SendsFirst(a);
    var nodes := [Leader(0, 1, {0, 1}, [Entry(1, a)]), Follower(1, 1, Some(0), None, []), Fresh(2, 3)];
    Beats(0, 1, {0, 1}, [Entry(1, a)]);
    Two(0, Late(a));
    ss, ts := Go(ss, ts, used, nodes, NONE, net, 0, Timer(true), Tick(true));
    assert nodes[0 := nodes[0]] == nodes;
    net := net + [Envelope(0, 1, Late(a)), Envelope(0, 2, Late(a))];
  }

  /** Node 0 sends its second entry. */
  lemma Sends(a: Pending, b: Pending) returns (ss: seq<State>, ts: seq<Step>, used: set<nat>, net: seq<Envelope>, i: nat)
    ensures Played(ss, ts, used) && Within(used, i) && i + 6 == |net|
    ensures Has(net, i, 0, 1, First(1, a)) && Has(net, i + 1, 0, 2, First(1, a)) && Has(net, i + 2, 0, 1, Late(a))
    ensures Has(net, i + 4, 0, 1, Second(1, 0, b))
    ensures At(ss[|ts|], [Leader(0, 1, {0, 1}, [Entry(1, a), Entry(1, b)]), Follower(1, 1, Some(0), None, []), Fresh(2, 3)], NONE, net)
  {
    ss, ts, used, net, i := SendsBeat(a);
    var nodes := [Leader(0, 1, {0, 1}, [Entry(1, a)]), Follower(1, 1, Some(0), None, []), Fresh(2, 3)];
    Publishes(0, 1, {0, 1}, [Entry(1, a)], b);
    Two(0, Second(1, 0, b));
    ss, ts := Go(ss, ts, used, nodes, NONE, net, 0, Client(b), Submit(b));
    assert [Entry(1, a)] + [Entry(1, b)] == [Entry(1, a), Entry(1, b)];
    net := net + [Envelope(0, 1, Second(1, 0, b)), Envelope(0, 2, Second(1, 0, b))];
  }

  /** Node 1 gets the first entry. */
  lemma TakesOne(a: Pending, b: Pending) returns (ss: seq<State>, ts: seq<Step>, used: set<nat>, net: seq<Envelope>, i: nat)
    ensures Played(ss, ts, used) && Within(used, i + 1) && Has(net, i + 1, 0, 2, First(1, a)) && Has(net, i + 2, 0, 1, Late(a))
    ensures Has(net, i + 4, 0, 1, Second(1, 0, b))
    ensures At(ss[|ts|], [Leader(0, 1, {0, 1}, [Entry(1, a), Entry(1, b)]), Follower(1, 1, Some(0), Some(0), [Entry(1, a)]), Fresh(2, 3)], NONE, net)
  {
    ss, ts, used, net, i := Sends(a, b);
    var ack := AppendEntriesResponse(1, true, Some(0), None, None);
    var nodes := [Leader(0, 1, {0, 1}, [Entry(1, a), Entry(1, b)]), Follower(1, 1, Some(0), None, []), Fresh(2, 3)];
    assert [] + [Entry(1, a)] == [Entry(1, a)];
    Takes(nodes[1], 1, 0, [Entry(1, a)]);
    PostOne(1, 3, 0, ack);
    ss, ts := Go(ss, ts, used, nodes, NONE, net, 1, Packet(i), Event.Receive(0, First(1, a)));
    used, net := Using(used, Packet(i)), net + [Envelope(1, 0, ack)];
  }

  /** Node 2 gets the first entry. */
  lemma TakesFirst(a: Pending, b: Pending) returns (ss: seq<State>, ts: seq<Step>, used: set<nat>, net: seq<Envelope>, i: nat)
    ensures Played(ss, ts, used) && Within(used, i + 2) && Has(net, i + 2, 0, 1, Late(a)) && Has(net, i + 4, 0, 1, Second(1, 0, b))
    ensures At(ss[|ts|], [Leader(0, 1, {0, 1}, [Entry(1, a), Entry(1, b)]), Follower(1, 1, Some(0), Some(0), [Entry(1, a)]),
                          Follower(2, 1, None, Some(0), [Entry(1, a)])], NONE, net)
  {
    ss, ts, used, net, i := TakesOne(a, b);
    var ack := AppendEntriesResponse(1, true, Some(0), None, None);
    var nodes := [Leader(0, 1, {0, 1}, [Entry(1, a), Entry(1, b)]), Follower(1, 1, Some(0), Some(0), [Entry(1, a)]), Fresh(2, 3)];
    assert [] + [Entry(1, a)] == [Entry(1, a)];
    Takes(nodes[2], 1, 0, [Entry(1, a)]);
    PostOne(2, 3, 0, ack);
    ss, ts := Go(ss, ts, used, nodes, NONE, net, 2, Packet(i + 1), Event.Receive(0, First(1, a)));
    used, net := Using(used, Packet(i + 1)), net + [Envelope(2, 0, ack)];
  }

  /** Node 1 gets the second entry, and its confirmation is on its way. */
  lemma Confirmed(a: Pending, b: Pending) returns (ss: seq<State>, ts: seq<Step>, used: set<nat>, net: seq<Envelope>, late: nat, ack: nat)
    ensures Played(ss, ts, used) && Within(used, ack) && late !in used && late < ack && Has(net, late, 0, 1, Late(a))
    ensures Has(net, ack, 1, 0, Confirm(1))
    ensures At(ss[|ts|], [Leader(0, 1, {0, 1}, [Entry(1, a), Entry(1, b)]), Follower(1, 1, Some(0), Some(0), [Entry(1, a), Entry(1, b)]),
                          Follower(2, 1, None, Some(0), [Entry(1, a)])], NONE, net)
  {
    var i;
    ss, ts, used, net, i := TakesFirst(a, b);
    var nodes := [Leader(0, 1, {0, 1}, [Entry(1, a), Entry(1, b)]), Follower(1, 1, Some(0), Some(0), [Entry(1, a)]),
                  Follower(2, 1, None, Some(0), [Entry(1, a)])];
    Takes(nodes[1], 1, 0, [Entry(1, b)]);
    PostOne(1, 3, 0, Confirm(1));
    ss, ts := Go(ss, ts, used, nodes, NONE, net, 1, Packet(i + 4), Event.Receive(0, Second(1, 0, b)));
    used := Using(used, Packet(i + 4));
    assert [Entry(1, a)] + [Entry(1, b)] == [Entry(1, a), Entry(1, b)];
    late, ack := i + 2, |net|;
    net := net + [Envelope(1, 0, Confirm(1))];
  }

  /** Node 0 decides both entries; then the heartbeat arrives and node 1 drops the second. */
  lemma Overtaken(a: Pending, b: Pending) returns (ss: seq<State>, ts: seq<Step>, used: set<nat>, net: seq<Envelope>,
      n: Node, stored: map<nat, Value>)
    ensures Played(ss, ts, used) && Within(used, |net|) && 1 in stored && stored[1] == b.value
    ensures At(ss[|ts|], [n, Follower(1, 1, Some(0), Some(0), [Entry(1, a)]), Follower(2, 1, None, Some(0), [Entry(1, a)])], NONE[0 := stored], net)
  {
    var late, ack;
    ss, ts, used, net, late, ack := Confirmed(a, b);
    var log := [Entry(1, a), Entry(1, b)];
    var nodes := [Leader(0, 1, {0, 1}, log), Follower(1, 1, Some(0), Some(0), log), Follower(2, 1, None, Some(0), [Entry(1, a)])];
    Decides(0, 1, {0, 1}, log, 1);
    ss, ts := Go(ss, ts, used, nodes, NONE, net, 0, Packet(ack), Event.Receive(1, Confirm(1)));
    used := Using(used, Packet(ack));
    DeliveredTwo(Decision(0, a), Decision(1, b));
    n, stored := ss[|ts|].nodes[0], Delivered(map[], [Decision(0, a), Decision(1, b)]);
    nodes := nodes[0 := n];
    assert PostAll(0, 3, []) == [] && net + [] == net;
    assert At(ss[|ts|], nodes, NONE[0 := stored], net);
    assert log[..1] == [Entry(1, a)];
    Cuts(nodes[1], 0, 1);
    ss, ts := Go(ss, ts, used, nodes, NONE[0 := stored], net, 1, Packet(late), Event.Receive(0, Late(a)));
    used := Using(used, Packet(late));
    net := ss[|ts|].net;
  }

  /** Node 1 stands in term 2. */
  lemma SecondStands(a: Pending, b: Pending)
      returns (ss: seq<State>, ts: seq<Step>, used: set<nat>, net: seq<Envelope>, n: Node, stored: map<nat, Value>)
    ensures Played(ss, ts, used) && 1 in stored && stored[1] == b.value
    ensures 0 < |net| && Within(used, |net| - 1) && Has(net, |net| - 1, 1, 2, RequestVote(2, 1, Some(0), 1))
    ensures At(ss[|ts|], [n, Candidate(1, 2, [Entry(1, a)]), Follower(2, 1, None, Some(0), [Entry(1, a)])], NONE[0 := stored], net)
  {
    ss, ts, used, net, n, stored := Overtaken(a, b);
    var log, ask := [Entry(1, a)], RequestVote(2, 1, Some(0), 1);
    var nodes := [n, Follower(1, 1, Some(0), Some(0), log), Follower(2, 1, None, Some(0), log)];
    Stands(nodes[1], 1);
    Two(1, ask);
    ss, ts := Go(ss, ts, used, nodes, NONE[0 := stored], net, 1, Timer(true), Tick(true));
    net := net + [Envelope(1, 0, ask), Envelope(1, 2, ask)];
  }

  /** Node 2 votes for node 1. */
  lemma SecondVote(a: Pending, b: Pending)
      returns (ss: seq<State>, ts: seq<Step>, used: set<nat>, net: seq<Envelope>, n: Node, stored: map<nat, Value>)
    ensures Played(ss, ts, used) && 1 in stored && stored[1] == b.value
    ensures 0 < |net| && Within(used, |net| - 1) && Has(net, |net| - 1, 2, 1, RequestVoteResponse(2, true))
    ensures At(ss[|ts|], [n, Candidate(1, 2, [Entry(1, a)]), Follower(2, 2, Some(1), None, [Entry(1, a)])], NONE[0 := stored], net)
  {
    ss, ts, used, net, n, stored := SecondStands(a, b);
    var log := [Entry(1, a)];
    var nodes := [n, Candidate(1, 2, log), Follower(2, 1, None, Some(0), log)];
    Votes(nodes[2], 2, 1);
    PostOne(2, 3, 1, RequestVoteResponse(2, true));
    ss, ts := Go(ss, ts, used, nodes, NONE[0 := stored], net, 2, Packet(|net| - 1), Event.Receive(1, RequestVote(2, 1, Some(0), 1)));
    used, net := Using(used, Packet(|net| - 1)), net + [Envelope(2, 1, RequestVoteResponse(2, true))];
  }

  /** Node 1 leads in term 2. */
  lemma SecondLeader(a: Pending, b: Pending)
      returns (ss: seq<State>, ts: seq<Step>, used: set<nat>, net: seq<Envelope>, n: Node, stored: map<nat, Value>)
    ensures Played(ss, ts, used) && Within(used, |net|) && 1 in stored && stored[1] == b.value
    ensures At(ss[|ts|], [n, Leader(1, 2, {1, 2}, [Entry(1, a)]), Follower(2, 2, Some(1), None, [Entry(1, a)])], NONE[0 := stored], net)
  {
    ss, ts, used, net, n, stored := SecondVote(a, b);
    var log := [Entry(1, a)];
    var nodes := [n, Candidate(1, 2, log), Follower(2, 2, Some(1), None, log)];
    Wins(1, 2, log, 2);
    ss, ts := Go(ss, ts, used, nodes, NONE[0 := stored], net, 1, Packet(|net| - 1), Event.Receive(2, RequestVoteResponse(2, true)));
    used, net := Using(used, Packet(|net| - 1)), ss[|ts|].net;
  }

  /** Node 1 sends its own second entry. */
  lemma SendsAgain(a: Pending, b: Pending, c: Pending)
      returns (ss: seq<State>, ts: seq<Step>, used: set<nat>, net: seq<Envelope>, n: Node, stored: map<nat, Value>)
    ensures Played(ss, ts, used) && 1 in stored && stored[1] == b.value
    ensures 0 < |net| && Within(used, |net| - 1) && Has(net, |net| - 1, 1, 2, Second(2, 1, c))
    ensures At(ss[|ts|], [n, Leader(1, 2, {1, 2}, [Entry(1, a), Entry(2, c)]), Follower(2, 2, Some(1), None, [Entry(1, a)])], NONE[0 := stored], net)
  {
    ss, ts, used, net, n, stored := SecondLeader(a, b);
    var log := [Entry(1, a)];
    var nodes := [n, Leader(1, 2, {1, 2}, log), Follower(2, 2, Some(1), None, log)];
    Publishes(1, 2, {1, 2}, log, c);
    Two(1, Second(2, 1, c));
    assert log + [Entry(2, c)] == [Entry(1, a), Entry(2, c)];
    ss, ts := Go(ss, ts, used, nodes, NONE[0 := stored], net, 1, Client(c), Submit(c));
    net := net + [Envelope(1, 0, Second(2, 1, c)), Envelope(1, 2, Second(2, 1, c))];
  }

  /** Node 2 takes it, and the confirmation is on its way. */
  lemma ConfirmedAgain(a: Pending, b: Pending, c: Pending)
      returns (ss: seq<State>, ts: seq<Step>, used: set<nat>, net: seq<Envelope>, n: Node, m: Node, stored: map<nat, Value>)
    ensures Played(ss, ts, used) && 1 in stored && stored[1] == b.value
    ensures 0 < |net| && Within(used, |net| - 1) && Has(net, |net| - 1, 2, 1, Confirm(2))
    ensures At(ss[|ts|], [n, Leader(1, 2, {1, 2}, [Entry(1, a), Entry(2, c)]), m], NONE[0 := stored], net)
  {
    ss, ts, used, net, n, stored := SendsAgain(a, b, c);
    var nodes := [n, Leader(1, 2, {1, 2}, [Entry(1, a), Entry(2, c)]), Follower(2, 2, Some(1), None, [Entry(1, a)])];
    Takes(nodes[2], 2, 1, [Entry(2, c)]);
    PostOne(2, 3, 1, Confirm(2));
    ss, ts := Go(ss, ts, used, nodes, NONE[0 := stored], net, 2, Packet(|net| - 1), Event.Receive(1, Second(2, 1, c)));
    used, m, net := Using(used, Packet(|net| - 1)), ss[|ts|].nodes[2], net + [Envelope(2, 1, Confirm(2))];
  }

  /**
   State Machine Safety fails if AppendEntries may overtake each other: there is a run, with no crash
   and no packet delivered twice, in which node 0 stores b for slot 1 and node 1 stores c.
   */
  lemma SafetyNeedsOrder(a: Pending, b: Pending, c: Pending) returns (states: seq<State>, steps: seq<Step>, used: set<nat>)
    ensures LooseRun(states, steps, used) && |states[|steps|].disks| == 3
    ensures var d := states[|steps|].disks[0].decisions; 1 in d && d[1] == b.value
    ensures var d := states[|steps|].disks[1].decisions; 1 in d && d[1] == c.value
  {
    var net, n, m, stored;
    states, steps, used, net, n, m, stored := ConfirmedAgain(a, b, c);
    var log := [Entry(1, a), Entry(2, c)];
    Decides(1, 2, {1, 2}, log, 2);
    DeliveredTwo(Decision(0, a), Decision(1, c));
    var nodes := [n, Leader(1, 2, {1, 2}, log), m];
    states, steps := Go(states, steps, used, nodes, NONE[0 := stored], net, 1, Packet(|net| - 1), Event.Receive(2, Confirm(2)));
    used := Using(used, Packet(|net| - 1));
    assert Looked(steps, 0);
  }
}
