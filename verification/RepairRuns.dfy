/** Log repair as part of a run: from any reached state, deliveries alone bring a follower's log and decisions in line. */
module RepairRuns {
  import opened Types
  import opened RaftCore
  import opened RaftNode
  import opened Persistence
  import opened Cluster
  import opened Safety
  import opened RunTheorems
  import opened LeaderTheorems
  import opened Repair
  import opened RaftRules
  import opened Progress

  // ---------- One step ----------

  /** A node after its event has been flushed and its decisions delivered. */
  function Rested(f: Node): Node { Drained(f).(decided := []) }

  lemma Acted(s: State, v: NodeId, cause: Cause)
    requires Ready(s) && Doable(s, Act(v, cause, None))
    ensures var t, e := Perform(s, Act(v, cause, None)), EventOf(s, cause);
      && t.nodes == s.nodes[v := Rested(Handle(s.nodes[v], e).node)] && t.handled == Note(s, v, cause)
      && t.net == s.net + PostAll(v, |s.nodes|, Handle(s.nodes[v], e).out)
      && |t.disks| == |s.disks| && forall u :: 0 <= u < |s.disks| && u != v ==> t.disks[u] == s.disks[u]
  {
  }

  /** The first message of an event is the first that is sent. */
  lemma {:induction false} PostFirst(src: NodeId, n: nat, out: seq<Outgoing>)
    requires out != []
    ensures Post(src, n, out[0]) <= PostAll(src, n, out)
    decreases |out|
  {
    if |out| == 1 {
      assert PostAll(src, n, out[..0]) == [];
    } else {
      PostFirst(src, n, out[..|out| - 1]);
    }
  }

  lemma PostOne(src: NodeId, n: nat, id: NodeId, m: Message)
    requires id < n && id != src
    ensures PostAll(src, n, [Outgoing(Peer(id), m)]) == [Envelope(src, id, m)]
  {
    var out := [Outgoing(Peer(id), m)];
    assert out[..0] == [];
    assert PostAll(src, n, []) == [];
  }

  lemma {:induction false} CopyTo(src: NodeId, n: nat, m: Message, w: NodeId) returns (k: nat)
    requires w < n && w != src
    ensures k < |Copies(src, n, m)| && Copies(src, n, m)[k] == Envelope(src, w, m)
  {
    if w == n - 1 { k := |Copies(src, n - 1, m)|; } else { k := CopyTo(src, n - 1, m, w); }
  }

  lemma PostBroadcast(src: NodeId, n: nat, m: Message)
    ensures PostAll(src, n, [Outgoing(Broadcast, m)]) == Copies(src, n, m)
  {
    var out := [Outgoing(Broadcast, m)];
    assert out[..0] == [];
    assert PostAll(src, n, []) == [];
  }

  /** A tick that makes a node tell all others one thing. */
  lemma TickTells(s: State, v: NodeId, f: Node, m: Message) returns (t: State)
    requires Ready(s) && v < |s.nodes| && Handle(s.nodes[v], Tick(true)) == Effect(f, [Outgoing(Broadcast, m)])
    ensures Possible(s, Act(v, Timer(true), None)) && t == Perform(s, Act(v, Timer(true), None))
    ensures t.nodes == s.nodes[v := Rested(f)] && t.net == s.net + Copies(v, |s.nodes|, m) && t.handled == s.handled
    ensures |t.disks| == |s.disks| && forall u :: 0 <= u < |s.disks| && u != v ==> t.disks[u] == s.disks[u]
  {
    t := Perform(s, Act(v, Timer(true), None));
    Acted(s, v, Timer(true));
    PostBroadcast(v, |s.nodes|, m);
  }

  // ---------- What was handled lies in the past ----------

  ghost predicate HandledPast(s: State) { forall k :: k in s.handled ==> s.handled[k] < |s.net| }

  lemma StepPast(s: State, step: Step)
    requires Ready(s) && Doable(s, step) && HandledPast(s)
    ensures HandledPast(Perform(s, step)) && |s.net| <= |Perform(s, step).net|
  {
  }

  lemma {:induction false} RunPast(states: seq<State>, steps: seq<Step>, i: nat)
    requires Run(states, steps) && i < |states|
    ensures HandledPast(states[i])
  {
    if i > 0 {
      RunPast(states, steps, i - 1);
      StepAt(states, steps, i - 1);
      StepPast(states[i - 1], steps[i - 1]);
    }
  }

  // ---------- The exchange ----------

  /** The repair of w by v under way: packet i carries the leader's log from some point on, and is the latest for w. */
  ghost predicate Underway(s: State, v: NodeId, w: NodeId, i: nat, won: map<nat, Reign>) {
    && v < |s.nodes| && w < |s.nodes| && v != w && i < |s.net| && s.nodes[v].id == v && s.nodes[w].id == w
    && s.net[i].src == v && s.net[i].dst == w && Carries(s.nodes[v], s.net[i].message) && Paired(won, s.nodes[v], s.nodes[w])
    && ((s.nodes[v].term, w) in s.handled ==> s.handled[(s.nodes[v].term, w)] <= i)
    && Length(s.nodes[v].commit) <= |s.nodes[v].log|
  }

  lemma Deliverable(s: State, v: NodeId, w: NodeId, i: nat, won: map<nat, Reign>)
    requires Ready(s) && Underway(s, v, w, i, won)
    ensures Possible(s, Act(w, Packet(i), None)) && s.net[i].message.AppendEntries?
    ensures Handle(s.nodes[w], EventOf(s, Packet(i))) == Repair.Receive(s.nodes[w], s.net[i].message)
  {
  }

  /** What the exchange reads of a leader and a follower. */
  ghost predicate Alike(a: Node, b: Node) { 
    a.log == b.log && a.role == b.role && a.term == b.term && a.id == b.id && a.commit == b.commit && a.matched == b.matched
  }

  lemma CarriesAlike(l: Node, l': Node, f: Node, f': Node, m: Message, won: map<nat, Reign>)
    requires Alike(l, l') && Alike(f, f') && Carries(l, m) && Paired(won, l, f)
    ensures Carries(l', m) && Paired(won, l', f')
  {
  }

  lemma RestedLog(f: Node)
    ensures Alike(f, Rested(f))
  {
  }

  /** Only the nodes v and w, and their storage, differ. */
  ghost predicate Elsewhere(s: State, t: State, v: NodeId, w: NodeId) {
    && |t.nodes| == |s.nodes| && |t.disks| == |s.disks|
    && (forall u :: 0 <= u < |s.nodes| && u != v && u != w ==> t.nodes[u] == s.nodes[u])
    && (forall u :: 0 <= u < |s.disks| && u != v && u != w ==> t.disks[u] == s.disks[u])
  }

  /** What follower f becomes once it has taken over what leader l has, at rest. */
  ghost predicate InLine(l: Node, f: Node, g: Node) {
    && g.role.Follower? && g.term == l.term && g.leader == Some(l.id) && g.decided == [] && g.id == f.id
    && (if l.log == [] then g.log == f.log else Strip(g.log) == Strip(l.log))
    && Length(g.commit) == Max(Length(f.commit), Length(l.commit))
  }

  /** The confirmation of the leader's whole log. */
  function Confirmation(l: Node): Message { AppendEntriesResponse(l.term, true, Index(|l.log|), None, None) }

  lemma TakenInLine(l: Node, f: Node, m: Message, r: Effect)
    requires Carries(l, m) && Length(l.commit) <= |l.log| && Takes(f, m, r)
    requires r.node.term == m.term && r.node.role.Follower? && r.node.leader == Some(m.leader) && r.node.id == f.id
    requires if l.log == [] then r.node.log == f.log else Strip(r.node.log) == Strip(l.log)
    ensures InLine(l, f, Rested(r.node)) && r.out != [] && r.out[0] == Outgoing(Peer(l.id), Confirmation(l))
  {
  }

  /** The follower accepts. */
  lemma Accepts(l: Node, f: Node, m: Message, won: map<nat, Reign>)
    requires Paired(won, l, f) && Carries(l, m) && Fits(f, m) && Length(l.commit) <= |l.log|
    ensures var r := Repair.Receive(f, m); InLine(l, f, Rested(r.node)) && r.out != [] && r.out[0] == Outgoing(Peer(l.id), Confirmation(l))
  {
    AcceptsAs(l, f, m);
    AcceptedLog(won, l, f, m);
    TakenInLine(l, f, m, Repair.Receive(f, m));
  }

  lemma AcceptsAs(l: Node, f: Node, m: Message)
    requires Carries(l, m) && Fits(f, m) && l.term == f.term && !f.role.Leader?
    ensures var r := Repair.Receive(f, m);
      Takes(f, m, r) && r.node.term == m.term && r.node.role.Follower? && r.node.leader == Some(m.leader) && r.node.id == f.id
  {
    AppendTaken(f, l.id, m);
    assert Handle(f, Event.Receive(l.id, m)) == Repair.Receive(f, m);
  }

  lemma AcceptStep(s: State, v: NodeId, w: NodeId, i: nat, won: map<nat, Reign>) returns (t: State)
    requires Ready(s) && Underway(s, v, w, i, won) && Fits(s.nodes[w], s.net[i].message)
    ensures Possible(s, Act(w, Packet(i), None)) && t == Perform(s, Act(w, Packet(i), None))
    ensures Elsewhere(s, t, v, w) && t.nodes[v] == s.nodes[v] && InLine(s.nodes[v], s.nodes[w], t.nodes[w])
    ensures |s.net| < |t.net| && t.net[|s.net|] == Envelope(w, v, Confirmation(s.nodes[v]))
  {
    t := Perform(s, Act(w, Packet(i), None));
    Deliverable(s, v, w, i, won);
    Acted(s, w, Packet(i));
    Accepts(s.nodes[v], s.nodes[w], s.net[i].message, won);
    PostFirst(w, |s.nodes|, Handle(s.nodes[w], EventOf(s, Packet(i))).out);
  }

  /** State t, reached from s by a rejection, has the answer in flight. */
  ghost predicate Rejected(s: State, t: State, v: NodeId, w: NodeId, i: nat)
    requires v < |s.nodes| && w < |s.nodes| && i < |s.net| && s.net[i].message.AppendEntries?
  {
    && Elsewhere(s, t, v, w) && t.nodes[v] == s.nodes[v] && t.nodes[w] == Rested(Loyal(s.nodes[w], v))
    && t.handled == s.handled[(s.nodes[v].term, w) := i] && |t.net| == |s.net| + 1 && s.net[i].message.leader == v
    && |Repair.Receive(s.nodes[w], s.net[i].message).out| == 1
    && t.net[|s.net|] == Envelope(w, v, Repair.Receive(s.nodes[w], s.net[i].message).out[0].message)
  }

  /** The follower rejects, and its answer is on the way to the leader. */
  lemma RejectStep(s: State, v: NodeId, w: NodeId, i: nat, won: map<nat, Reign>) returns (t: State)
    requires Ready(s) && Underway(s, v, w, i, won) && !Fits(s.nodes[w], s.net[i].message)
    ensures Possible(s, Act(w, Packet(i), None)) && t == Perform(s, Act(w, Packet(i), None))
    ensures Rejected(s, t, v, w, i)
  {
    var l, f, m := s.nodes[v], s.nodes[w], s.net[i].message;
    t := Perform(s, Act(w, Packet(i), None));
    Deliverable(s, v, w, i, won);
    Acted(s, w, Packet(i));
    RejectionIsRetried(l, f, m);
    var out := Repair.Receive(f, m).out;
    assert out == [Outgoing(Peer(v), out[0].message)];
    PostOne(w, |s.nodes|, v, out[0].message);
  }

  /** The two nodes still stand where they stood, as far as the repair is concerned. */
  ghost predicate StillOut(s: State, u: State, v: NodeId, w: NodeId) {
    && Elsewhere(s, u, v, w) && v < |s.nodes| && w < |s.nodes| && Alike(s.nodes[v], u.nodes[v])
    && u.nodes[w].log == s.nodes[w].log && u.nodes[w].commit == s.nodes[w].commit && u.nodes[w].id == s.nodes[w].id
  }

  /** The next message, of a leader and a follower that differ from the last ones in nothing that matters. */
  lemma RetryCarries(l: Node, f: Node, m: Message, won: map<nat, Reign>)
    requires Paired(won, l, f) && Carries(l, m) && !Fits(f, m)
    ensures var r := Retry(l, f, m); |r.out| == 1 && r.out[0].target == Peer(f.id) && r.out[0].message.AppendEntries?
    ensures var r := Retry(l, f, m); Alike(l, Rested(r.node)) && Carries(Rested(r.node), r.out[0].message)
    ensures Paired(won, Rested(Retry(l, f, m).node), Rested(Loyal(f, m.leader)))
    ensures Length(Retry(l, f, m).out[0].message.prevIndex) < Length(m.prevIndex)
  {
    RetryLowers(won, l, f, m);
    var r := Retry(l, f, m);
    RestedLog(r.node);
    RestedLog(Loyal(f, m.leader));
    CarriesAlike(r.node, Rested(r.node), Loyal(f, m.leader), Rested(Loyal(f, m.leader)), r.out[0].message, won);
  }

  /** The rejection can be delivered, and what the leader does with it is the retry. */
  lemma RetryHandled(s: State, t: State, v: NodeId, w: NodeId, i: nat, won: map<nat, Reign>)
    requires Underway(s, v, w, i, won) && !Fits(s.nodes[w], s.net[i].message) && Ready(t) && Rejected(s, t, v, w, i)
    ensures Possible(t, Act(v, Packet(|s.net|), None))
    ensures Handle(t.nodes[v], EventOf(t, Packet(|s.net|))) == Retry(s.nodes[v], s.nodes[w], s.net[i].message)
  {
    RejectionIsRetried(s.nodes[v], s.nodes[w], s.net[i].message);
  }

  /** The leader gets the rejection and sends again, from an earlier point. */
  lemma RetryStep(s: State, t: State, v: NodeId, w: NodeId, i: nat, won: map<nat, Reign>) returns (u: State)
    requires Underway(s, v, w, i, won) && !Fits(s.nodes[w], s.net[i].message) && Ready(t) && Rejected(s, t, v, w, i)
    ensures Possible(t, Act(v, Packet(|s.net|), None)) && u == Perform(t, Act(v, Packet(|s.net|), None))
    ensures Underway(u, v, w, |t.net|, won) && StillOut(s, u, v, w)
    ensures Length(u.net[|t.net|].message.prevIndex) < Length(s.net[i].message.prevIndex)
  {
    u := RetrySent(s, t, v, w, i, won);
    RetryCarries(s.nodes[v], s.nodes[w], s.net[i].message, won);
  }

  lemma RetrySent(s: State, t: State, v: NodeId, w: NodeId, i: nat, won: map<nat, Reign>) returns (u: State)
    requires Underway(s, v, w, i, won) && !Fits(s.nodes[w], s.net[i].message) && Ready(t) && Rejected(s, t, v, w, i)
    ensures Possible(t, Act(v, Packet(|s.net|), None)) && u == Perform(t, Act(v, Packet(|s.net|), None))
    ensures var r := Retry(s.nodes[v], s.nodes[w], s.net[i].message);
      && |r.out| == 1 && u.nodes == t.nodes[v := Rested(r.node)] && u.net == t.net + [Envelope(v, w, r.out[0].message)] && u.handled == t.handled
      && Elsewhere(s, u, v, w)
  {
    var r := Retry(s.nodes[v], s.nodes[w], s.net[i].message);
    RetryHandled(s, t, v, w, i, won);
    u := Perform(t, Act(v, Packet(|s.net|), None));
    Acted(t, v, Packet(|s.net|));
    RetryLowers(won, s.nodes[v], s.nodes[w], s.net[i].message);
    assert r.out == [Outgoing(Peer(w), r.out[0].message)];
    PostOne(v, |t.nodes|, w, r.out[0].message);
  }

  // ---------- The run ----------

  /** From step k on, the run consists of packets delivered to v and w. */
  ghost predicate Deliveries(steps: seq<Step>, k: nat, v: NodeId, w: NodeId) {
    forall j :: k <= j < |steps| ==> steps[j].Act? && steps[j].cause.Packet? && steps[j].crash.None? && steps[j].node in {v, w}
  }

  /** The follower is in line with the leader, which has not changed in any way that matters, and its confirmation is packet a. */
  ghost predicate Repaired(s: State, t: State, v: NodeId, w: NodeId, a: nat) {
    && Elsewhere(s, t, v, w) && v < |s.nodes| && w < |s.nodes| && Alike(s.nodes[v], t.nodes[v]) && InLine(s.nodes[v], s.nodes[w], t.nodes[w])
    && a < |t.net| && t.net[a] == Envelope(w, v, Confirmation(s.nodes[v]))
  }

  lemma RepairedOn(s: State, u: State, t: State, v: NodeId, w: NodeId, a: nat)
    requires StillOut(s, u, v, w) && Repaired(u, t, v, w, a)
    ensures Repaired(s, t, v, w, a)
  {
  }

  lemma AcceptRun(states: seq<State>, steps: seq<Step>, v: NodeId, w: NodeId, i: nat, won: map<nat, Reign>)
      returns (ss: seq<State>, ts: seq<Step>, a: nat)
    requires Run(states, steps) && Underway(states[|steps|], v, w, i, won) && Fits(states[|steps|].nodes[w], states[|steps|].net[i].message)
    ensures Run(ss, ts) && states <= ss && steps <= ts && Deliveries(ts, |steps|, v, w) && |ts| == |steps| + 1
    ensures Repaired(states[|steps|], ss[|ts|], v, w, a)
  {
    var s := states[|steps|];
    WriteBack(states, steps);
    var t := AcceptStep(s, v, w, i, won);
    ss, ts := StepOn(states, steps, Act(w, Packet(i), None), t);
    a := |s.net|;
  }

  lemma RejectRun(states: seq<State>, steps: seq<Step>, v: NodeId, w: NodeId, i: nat, won: map<nat, Reign>)
      returns (ss: seq<State>, ts: seq<Step>, k: nat)
    requires Run(states, steps) && Underway(states[|steps|], v, w, i, won)
    requires !Fits(states[|steps|].nodes[w], states[|steps|].net[i].message)
    ensures Run(ss, ts) && states <= ss && steps <= ts && Deliveries(ts, |steps|, v, w) && |ts| == |steps| + 2
    ensures Underway(ss[|ts|], v, w, k, won) && ss[|ts|].net[k].message.AppendEntries? && states[|steps|].net[i].message.AppendEntries?
    ensures Length(ss[|ts|].net[k].message.prevIndex) < Length(states[|steps|].net[i].message.prevIndex)
    ensures StillOut(states[|steps|], ss[|ts|], v, w)
  {
    var s := states[|steps|];
    WriteBack(states, steps);
    var t := RejectStep(s, v, w, i, won);
    var ms, ns := StepOn(states, steps, Act(w, Packet(i), None), t);
    ss, ts, k := RetryRun(ms, ns, s, v, w, i, won);
    ContinuesOn(states, steps, ms, ns, ss, ts);
  }

  lemma RetryRun(states: seq<State>, steps: seq<Step>, s: State, v: NodeId, w: NodeId, i: nat, won: map<nat, Reign>)
      returns (ss: seq<State>, ts: seq<Step>, k: nat)
    requires Run(states, steps) && Underway(s, v, w, i, won) && !Fits(s.nodes[w], s.net[i].message) && Rejected(s, states[|steps|], v, w, i)
    ensures Run(ss, ts) && states <= ss && steps <= ts && Deliveries(ts, |steps|, v, w) && |ts| == |steps| + 1
    ensures Underway(ss[|ts|], v, w, k, won) && Length(ss[|ts|].net[k].message.prevIndex) < Length(s.net[i].message.prevIndex)
    ensures StillOut(s, ss[|ts|], v, w)
  {
    var t := states[|steps|];
    WriteBack(states, steps);
    var u := RetryStep(s, t, v, w, i, won);
    ss, ts := StepOn(states, steps, Act(v, Packet(|s.net|), None), u);
    k := |t.net|;
  }

  lemma {:induction false} RepairFrom(states: seq<State>, steps: seq<Step>, v: NodeId, w: NodeId, i: nat, won: map<nat, Reign>)
      returns (ss: seq<State>, ts: seq<Step>, a: nat)
    requires Run(states, steps) && Underway(states[|steps|], v, w, i, won)
    ensures Run(ss, ts) && states <= ss && steps <= ts && Deliveries(ts, |steps|, v, w)
    ensures |ts| <= |steps| + 2 * Length(states[|steps|].net[i].message.prevIndex) + 1
    ensures Repaired(states[|steps|], ss[|ts|], v, w, a)
    decreases Length(states[|steps|].net[i].message.prevIndex)
  {
    if Fits(states[|steps|].nodes[w], states[|steps|].net[i].message) {
      ss, ts, a := AcceptRun(states, steps, v, w, i, won);
    } else {
      var ms, ns, k := RejectRun(states, steps, v, w, i, won);
      ss, ts, a := RepairFrom(ms, ns, v, w, k, won);
      RepairedOn(states[|steps|], ms[|ns|], ss[|ts|], v, w, a);
    }
  }

  lemma HeartbeatCarries(l: Node, f: Node, won: map<nat, Reign>)
    requires Paired(won, l, f)
    ensures Handle(l, Tick(true)) == Effect(l, [Outgoing(Broadcast, Heartbeat(l))])
    ensures Carries(Rested(l), Heartbeat(l)) && Paired(won, Rested(l), f) && Length(Heartbeat(l).prevIndex) == |l.log|
  {
    assert l.log[..|l.log|] == l.log;
    RestedLog(l);
    CarriesAlike(l, Rested(l), f, f, Heartbeat(l), won);
  }

  /** The leader's broadcast to w is packet i. */
  lemma HeartbeatSent(s: State, v: NodeId, w: NodeId) returns (t: State, i: nat)
    requires Ready(s) && v < |s.nodes| && w < |s.nodes| && v != w && s.nodes[v].role.Leader?
    ensures Possible(s, Act(v, Timer(true), None)) && t == Perform(s, Act(v, Timer(true), None))
    ensures |s.net| <= i < |t.net| && t.net[i] == Envelope(v, w, Heartbeat(s.nodes[v])) && t.handled == s.handled
    ensures Elsewhere(s, t, v, w) && t.nodes[v] == Rested(s.nodes[v]) && t.nodes[w] == s.nodes[w]
  {
    var m := Heartbeat(s.nodes[v]);
    HeartbeatOut(s.nodes[v]);
    t := TickTells(s, v, s.nodes[v], m);
    var k := CopyTo(v, |s.nodes|, m, w);
    i := |s.net| + k;
  }

  lemma HeartbeatOut(l: Node)
    requires l.role.Leader?
    ensures Handle(l, Tick(true)) == Effect(l, [Outgoing(Broadcast, Heartbeat(l))])
  {
  }

  lemma HeartbeatStep(s: State, v: NodeId, w: NodeId, won: map<nat, Reign>) returns (t: State, i: nat)
    requires Ready(s) && HandledPast(s) && v < |s.nodes| && w < |s.nodes| && v != w && s.nodes[v].id == v && s.nodes[w].id == w
    requires Paired(won, s.nodes[v], s.nodes[w]) && Length(s.nodes[v].commit) <= |s.nodes[v].log|
    ensures Possible(s, Act(v, Timer(true), None)) && t == Perform(s, Act(v, Timer(true), None))
    ensures Underway(t, v, w, i, won) && Length(t.net[i].message.prevIndex) == |s.nodes[v].log| && StillOut(s, t, v, w)
  {
    t, i := HeartbeatSent(s, v, w);
    HeartbeatCarries(s.nodes[v], s.nodes[w], won);
    RestedLog(s.nodes[v]);
  }

  lemma StartRepair(states: seq<State>, steps: seq<Step>, v: NodeId, w: NodeId) returns (won: map<nat, Reign>)
    requires Run(states, steps) && Reached(states, |steps|, v) && Reached(states, |steps|, w) && v != w
    requires states[|steps|].nodes[v].role.Leader? && states[|steps|].nodes[w].term == states[|steps|].nodes[v].term
    ensures var s := states[|steps|];
      && Ready(s) && HandledPast(s) && s.nodes[v].id == v && s.nodes[w].id == w && Paired(won, s.nodes[v], s.nodes[w])
      && Length(s.nodes[v].commit) <= |s.nodes[v].log|
  {
    var cores := RunLinked(states, steps);
    won := cores[|steps|].won;
    PairedAt(states, cores, |steps|, v, w);
    NodeOkAt(states, cores, |steps|, v);
    NodeOkAt(states, cores, |steps|, w);
    WriteBack(states, steps);
    RunPast(states, steps, |steps|);
  }

  /** One tick of the leader and the deliveries it takes bring w in line; its confirmation is then on the way. */
  lemma BringInLine(states: seq<State>, steps: seq<Step>, v: NodeId, w: NodeId) returns (ss: seq<State>, ts: seq<Step>, a: nat)
    requires Run(states, steps) && Reached(states, |steps|, v) && Reached(states, |steps|, w) && v != w
    requires states[|steps|].nodes[v].role.Leader? && states[|steps|].nodes[w].term == states[|steps|].nodes[v].term
    ensures Run(ss, ts) && states <= ss && steps + [Act(v, Timer(true), None)] <= ts && Deliveries(ts, |steps| + 1, v, w)
    ensures Repaired(states[|steps|], ss[|ts|], v, w, a)
    ensures |ts| <= |steps| + 2 * |states[|steps|].nodes[v].log| + 2
  {
    var s := states[|steps|];
    var won := StartRepair(states, steps, v, w);
    var t, i := HeartbeatStep(s, v, w, won);
    var ms, ns := StepOn(states, steps, Act(v, Timer(true), None), t);
    ss, ts, a := RepairFrom(ms, ns, v, w, i, won);
    RepairedOn(s, t, ss[|ts|], v, w, a);
  }

  // ---------- Decisions ----------

  /** Every slot below k is stored with the value the log has there. */
  ghost predicate StoredUpTo(d: Disk, log: Log, k: nat) {
    forall x :: 0 <= x < k && x < |log| ==> x in d.decisions && d.decisions[x] == log[x].value
  }

  /** A node that has nothing left to deliver has stored all it has committed. */
  lemma AllStored(states: seq<State>, steps: seq<Step>, i: nat, v: NodeId)
    requires Run(states, steps) && Reached(states, i, v) && states[i].nodes[v].decided == []
    ensures var n := states[i].nodes[v]; Length(n.commit) <= |n.log| && StoredUpTo(states[i].disks[v], Strip(n.log), Length(n.commit))
  {
    var cores := RunLinked(states, steps);
    NodeOkAt(states, cores, i, v);
  }

  /**
   At every step of every run that handles an AppendEntries, a node commits what the leader has
   committed as far as the message reaches, if it is current and follows on, and has then stored
   all it has committed; if not, its commit index stays.
   */
  lemma FollowersCommit(states: seq<State>, steps: seq<Step>, i: nat)
    requires Run(states, steps) && i < |steps| && steps[i].Act? && steps[i].cause.Packet? && steps[i].crash.None?
    requires steps[i].cause.index < |states[i].net| && states[i].net[steps[i].cause.index].message.AppendEntries?
    ensures Reached(states, i, steps[i].node) && Reached(states, i + 1, steps[i].node)
    ensures var n, f, m := states[i].nodes[steps[i].node], states[i + 1].nodes[steps[i].node], states[i].net[steps[i].cause.index].message;
      if Current(n, m) && Follows(m, n.log)
      then Length(f.commit) == Max(Length(n.commit), Min(Length(m.leaderCommit), Length(m.prevIndex) + |m.entries|))
      else f.commit == n.commit
    ensures var f := states[i + 1].nodes[steps[i].node];
      Length(f.commit) <= |f.log| && StoredUpTo(states[i + 1].disks[steps[i].node], Strip(f.log), Length(f.commit))
  {
    var v := steps[i].node;
    StepAt(states, steps, i);
    Acted(states[i], v, steps[i].cause);
    var p := states[i].net[steps[i].cause.index];
    AppendsExactly(states[i].nodes[v], p.src, p.message);
    AllStored(states, steps, i + 1, v);
  }

  /**
   From any reached state with a leader and another node of its term, the run has a continuation of
   one tick of the leader and at most 2 * |log| + 1 deliveries between the two, after which the other
   node's log is the leader's, if and only if the leader's log has an entry or the other's has none,
   and the other node has stored every slot the leader has committed.
   */
  lemma RepairsInARun(states: seq<State>, steps: seq<Step>, v: NodeId, w: NodeId) returns (ss: seq<State>, ts: seq<Step>)
    requires Run(states, steps) && Reached(states, |steps|, v) && Reached(states, |steps|, w) && v != w
    requires states[|steps|].nodes[v].role.Leader? && states[|steps|].nodes[w].term == states[|steps|].nodes[v].term
    ensures Run(ss, ts) && states <= ss && steps + [Act(v, Timer(true), None)] <= ts && Deliveries(ts, |steps| + 1, v, w)
    ensures var s, t := states[|steps|], ss[|ts|];
      && |t.nodes| == |s.nodes| == |t.disks| && t.nodes[v].log == s.nodes[v].log && t.nodes[v].term == s.nodes[v].term && t.nodes[v].role.Leader?
      && (Strip(t.nodes[w].log) == Strip(s.nodes[v].log) <==> s.nodes[v].log != [] || s.nodes[w].log == [])
      && Length(s.nodes[v].commit) <= |s.nodes[v].log| && StoredUpTo(t.disks[w], Strip(s.nodes[v].log), Length(s.nodes[v].commit))
      && |ts| <= |steps| + 2 * |s.nodes[v].log| + 2
  {
    var s := states[|steps|];
    var won := StartRepair(states, steps, v, w);
    var a;
    ss, ts, a := BringInLine(states, steps, v, w);
    AllStored(ss, ts, |ts|, w);
    if s.nodes[w].log != [] { assert Strip(s.nodes[w].log) != []; }
  }
}
