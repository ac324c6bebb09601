/**
 The safety properties of Raft, stated on runs alone: for any number of nodes and any run.
 Two states of a run need not be the same one, so each property also relates moments far apart.
 */
module RunTheorems {
  import opened Types
  import opened RaftCore
  import opened RaftMoves
  import opened RaftNode
  import opened Persistence
  import opened Cluster
  import opened Replica
  import opened Delivery
  import opened Safety

  ghost predicate Reached(states: seq<State>, i: nat, v: NodeId) {
    i < |states| && v < |states[i].nodes| == |states[i].disks|
  }

  lemma NodeOkAt(states: seq<State>, cores: seq<Core>, i: nat, v: NodeId)
    requires Histories(states, cores) && Reached(states, i, v)
    ensures v < |cores[i].nodes| && NodeOk(states[i].nodes[v], states[i].disks[v], cores[i], v)
  {
    assert Linked(states[i], cores[i]);
  }

  /** In every reachable state every node is at rest with storage equal to memory, so every run can go on. */
  lemma WriteBack(states: seq<State>, steps: seq<Step>)
    requires Run(states, steps)
    ensures forall i :: 0 <= i < |states| ==> Ready(states[i])
    ensures forall i, v :: 0 <= i < |states| && 0 <= v < |states[i].disks| ==> Stored(states[i].disks[v])
  {
    var cores := RunLinked(states, steps);
    forall i | 0 <= i < |states| ensures Ready(states[i]) && forall v :: 0 <= v < |states[i].disks| ==> Stored(states[i].disks[v]) {
      assert Linked(states[i], cores[i]);
      LinkedReady(states[i], cores[i]);
      forall v | 0 <= v < |states[i].disks| ensures Stored(states[i].disks[v]) { NodeOkAt(states, cores, i, v); }
    }
  }

  // ---------- Elections ----------

  lemma LeaderAt(states: seq<State>, cores: seq<Core>, i: nat, j: nat, v: NodeId)
    requires Histories(states, cores) && Reached(states, i, v) && i <= j < |cores| && states[i].nodes[v].role.Leader?
    ensures var t := states[i].nodes[v].term; t in cores[j].won && cores[j].won[t].leader == v
  {
    NodeOkAt(states, cores, i, v);
    assert Extends(cores[i], cores[j]);
  }

  /** Election Safety: a term has at most one leader in the whole run, crashes and restarts included. */
  lemma ElectionSafety(states: seq<State>, steps: seq<Step>, i: nat, j: nat, v: NodeId, w: NodeId)
    requires Run(states, steps) && Reached(states, i, v) && Reached(states, j, w)
    requires states[i].nodes[v].role.Leader? && states[j].nodes[w].role.Leader?
    requires states[i].nodes[v].term == states[j].nodes[w].term
    ensures v == w
  {
    var cores := RunLinked(states, steps);
    LeaderAt(states, cores, i, Max(i, j), v);
    LeaderAt(states, cores, j, Max(i, j), w);
  }

  ghost predicate Grants(e: Envelope, t: nat) { e.message.RequestVoteResponse? && e.message.granted && e.message.term == t }

  lemma GrantAt(states: seq<State>, cores: seq<Core>, i: nat, j: nat, a: nat, t: nat)
    requires Histories(states, cores) && i <= j < |states| && a < |states[i].net| && Grants(states[i].net[a], t)
    ensures var e := states[i].net[a]; (t, e.src) in cores[j].cast && cores[j].cast[(t, e.src)].candidate == e.dst
  {
    assert Linked(states[i], cores[i]) && MsgOk(states[i].net[a], cores[i]);
    assert Extends(cores[i], cores[j]);
  }

  /** No node ever grants its vote to two candidates in one term, whatever crashes lie between. */
  lemma VotesOnce(states: seq<State>, steps: seq<Step>, i: nat, j: nat, a: nat, b: nat, t: nat)
    requires Run(states, steps) && i < |states| && j < |states| && a < |states[i].net| && b < |states[j].net|
    requires Grants(states[i].net[a], t) && Grants(states[j].net[b], t) && states[i].net[a].src == states[j].net[b].src
    ensures states[i].net[a].dst == states[j].net[b].dst
  {
    var cores := RunLinked(states, steps);
    GrantAt(states, cores, i, Max(i, j), a, t);
    GrantAt(states, cores, j, Max(i, j), b, t);
  }

  // ---------- Logs ----------

  lemma LogAt(states: seq<State>, cores: seq<Core>, i: nat, j: nat, v: NodeId)
    requires Histories(states, cores) && Reached(states, i, v) && i <= j < |cores|
    ensures OnReigns(cores[j].won, Strip(states[i].nodes[v].log))
  {
    NodeOkAt(states, cores, i, v);
    OpenSound(cores[i]);
    assert Extends(cores[i], cores[j]);
    OnReignsStable(cores[i], cores[j], Strip(states[i].nodes[v].log));
  }

  /** Log Matching: two logs with the same term at an index are the same up to it, whenever they were held. */
  lemma LogsMatch(states: seq<State>, steps: seq<Step>, i: nat, j: nat, v: NodeId, w: NodeId, k: nat)
    requires Run(states, steps) && Reached(states, i, v) && Reached(states, j, w)
    requires k < |states[i].nodes[v].log| && k < |states[j].nodes[w].log|
    requires states[i].nodes[v].log[k].term == states[j].nodes[w].log[k].term
    ensures Strip(states[i].nodes[v].log)[..k + 1] == Strip(states[j].nodes[w].log)[..k + 1]
  {
    var cores := RunLinked(states, steps);
    var top := Max(i, j);
    LogAt(states, cores, i, top, v);
    LogAt(states, cores, j, top, w);
    LogMatching(cores[top], Strip(states[i].nodes[v].log), Strip(states[j].nodes[w].log), k);
  }

  lemma LeaderLogAt(states: seq<State>, cores: seq<Core>, i: nat, v: NodeId)
    requires Histories(states, cores) && Reached(states, i, v) && states[i].nodes[v].role.Leader?
    ensures var t := states[i].nodes[v].term; t in cores[i].won && cores[i].won[t].log == Strip(states[i].nodes[v].log)
  {
    NodeOkAt(states, cores, i, v);
    OpenSound(cores[i]);
  }

  /**
   Every entry of a term lies, with all before it, on the log of that term's leader: where the leader
   at some moment has an entry at that place the two logs agree, and at that moment or later it has one.
   */
  lemma EntriesAreLeaders(states: seq<State>, steps: seq<Step>, i: nat, j: nat, v: NodeId, w: NodeId, k: nat)
    requires Run(states, steps) && Reached(states, i, v) && Reached(states, j, w)
    requires k < |states[i].nodes[v].log| && states[j].nodes[w].role.Leader? && states[i].nodes[v].log[k].term == states[j].nodes[w].term
    ensures i <= j ==> k < |states[j].nodes[w].log|
    ensures k < |states[j].nodes[w].log| ==> Strip(states[i].nodes[v].log)[..k + 1] == Strip(states[j].nodes[w].log)[..k + 1]
    ensures |states[j].nodes[w].log| <= k ==> Strip(states[j].nodes[w].log) <= Strip(states[i].nodes[v].log)
  {
    var cores := RunLinked(states, steps);
    var top := Max(i, j);
    LogAt(states, cores, i, top, v);
    LeaderLogAt(states, cores, j, w);
    ReignGrows(states, cores, j, top, states[j].nodes[w].term);
    EntryOnReign(cores[top].won, Strip(states[i].nodes[v].log), k);
    PrefixesCompare(Strip(states[i].nodes[v].log), Strip(states[j].nodes[w].log), cores[top].won[states[j].nodes[w].term].log, k);
  }

  lemma PrefixesCompare(p: Log, q: Log, l: Log, k: nat)
    requires k < |p| && p[..k + 1] <= l && q <= l
    ensures k < |q| ==> p[..k + 1] == q[..k + 1]
    ensures |q| <= k ==> q <= p
  {
    if k < |q| {
      assert forall x :: 0 <= x <= k ==> p[..k + 1][x] == l[x] == q[x];
    } else {
      assert forall x :: 0 <= x < |q| ==> q[x] == l[x] == p[..k + 1][x] == p[x];
    }
  }

  lemma EntryOnReign(won: map<nat, Reign>, p: Log, k: nat)
    requires OnReigns(won, p) && k < |p|
    ensures p[k].term in won && p[..k + 1] <= won[p[k].term].log
  {
  }

  // ---------- Commitment ----------

  lemma CommitAt(states: seq<State>, cores: seq<Core>, i: nat, j: nat, v: NodeId)
    requires Histories(states, cores) && Reached(states, i, v) && i <= j < |cores|
    ensures var n := states[i].nodes[v];
      Length(n.commit) <= |n.log| && Known(cores[j].won, cores[j].certs, Strip(n.log)[..Length(n.commit)], n.term)
  {
    NodeOkAt(states, cores, i, v);
    CommitIsKnown(cores[i], v);
    assert Extends(cores[i], cores[j]);
    var n := states[i].nodes[v];
    KnownStable(cores[i], cores[j], Strip(n.log)[..Length(n.commit)], n.term, n.term);
  }

  lemma CertOnBid(c: Core, cert: Cert, p: Log, u: nat)
    requires Inv(c) && cert in c.certs && cert.term < u && Covers(c.won, cert, p) && u in c.won
    ensures (u, c.won[u].leader) in c.bids && p <= c.bids[(u, c.won[u].leader)]
  {
    assert Chosen(c.n, c.won, c.acked, cert.term, cert.len);
    LeaderCompleteness(c, cert.term, cert.len, u);
    assert p <= c.won[cert.term].log[..cert.len];
  }

  lemma KnownOnBid(c: Core, p: Log, t: nat, u: nat)
    requires Inv(c) && Known(c.won, c.certs, p, t) && t < u && u in c.won
    ensures (u, c.won[u].leader) in c.bids && p <= c.bids[(u, c.won[u].leader)]
  {
    if p != [] {
      var cert :| cert in c.certs && cert.term <= t && Covers(c.won, cert, p);
      CertOnBid(c, cert, p, u);
    }
  }

  lemma BidOnLog(states: seq<State>, cores: seq<Core>, j: nat, top: nat, w: NodeId)
    requires Histories(states, cores) && Reached(states, j, w) && j <= top < |cores| && states[j].nodes[w].role.Leader?
    ensures var u := states[j].nodes[w].term; (u, w) in cores[top].bids && cores[top].bids[(u, w)] <= Strip(states[j].nodes[w].log)
    ensures states[j].nodes[w].term in cores[top].won && cores[top].won[states[j].nodes[w].term].leader == w
  {
    LeaderLogAt(states, cores, j, w);
    LeaderAt(states, cores, j, top, w);
    NodeOkAt(states, cores, j, w);
    OpenSound(cores[j]);
    assert Extends(cores[j], cores[top]);
  }

  /**
   Leader Completeness: whatever a node of term t knows to be committed is on the log of every
   leader of a later term, whether that leader came to office before or after.
   */
  lemma LeadersAreComplete(states: seq<State>, steps: seq<Step>, i: nat, j: nat, v: NodeId, w: NodeId)
    requires Run(states, steps) && Reached(states, i, v) && Reached(states, j, w)
    requires states[j].nodes[w].role.Leader? && states[i].nodes[v].term < states[j].nodes[w].term
    ensures var n := states[i].nodes[v]; Length(n.commit) <= |n.log| && Strip(n.log)[..Length(n.commit)] <= Strip(states[j].nodes[w].log)
  {
    var cores := RunLinked(states, steps);
    var top := Max(i, j);
    CommitAt(states, cores, i, top, v);
    BidOnLog(states, cores, j, top, w);
    assert Linked(states[top], cores[top]);
    OpenSound(cores[top]);
    var n := states[i].nodes[v];
    KnownOnBid(cores[top], Strip(n.log)[..Length(n.commit)], n.term, states[j].nodes[w].term);
  }

  lemma CommitsAgree(states: seq<State>, cores: seq<Core>, i: nat, j: nat, v: NodeId, w: NodeId)
    requires Histories(states, cores) && Reached(states, i, v) && Reached(states, j, w)
    ensures var n, m := states[i].nodes[v], states[j].nodes[w];
      Length(n.commit) <= |n.log| && Length(m.commit) <= |m.log| &&
      (Strip(n.log)[..Length(n.commit)] <= Strip(m.log)[..Length(m.commit)] || Strip(m.log)[..Length(m.commit)] <= Strip(n.log)[..Length(n.commit)])
  {
    var top := Max(i, j);
    CommitAt(states, cores, i, top, v);
    CommitAt(states, cores, j, top, w);
    assert Linked(states[top], cores[top]);
    OpenSound(cores[top]);
    var n, m := states[i].nodes[v], states[j].nodes[w];
    KnownAgree(cores[top], Strip(n.log)[..Length(n.commit)], Strip(m.log)[..Length(m.commit)], n.term, m.term);
  }

  /** State Machine Safety: no two nodes, at any two moments, have decided different values for a slot. */
  lemma StateMachineSafety(states: seq<State>, steps: seq<Step>, i: nat, j: nat, v: NodeId, w: NodeId, slot: nat)
    requires Run(states, steps) && Reached(states, i, v) && Reached(states, j, w)
    requires slot in states[i].disks[v].decisions && slot in states[j].disks[w].decisions
    ensures states[i].disks[v].decisions[slot] == states[j].disks[w].decisions[slot]
  {
    var cores := RunLinked(states, steps);
    NodeOkAt(states, cores, i, v);
    NodeOkAt(states, cores, j, w);
    CommitsAgree(states, cores, i, j, v, w);
    var n, m := states[i].nodes[v], states[j].nodes[w];
    var p, q := Strip(n.log)[..Length(n.commit)], Strip(m.log)[..Length(m.commit)];
    assert p[slot] == q[slot];
  }

  // ---------- What is committed, confirmed or decided stays ----------

  ghost predicate CommitsNoLess(ops: seq<Op>, d: Disk) {
    forall i :: 0 <= i < |ops| && ops[i].SaveCommit? ==>
      Length(d.commit) <= Length(ops[i].commit) && forall j :: 0 <= j < |ops| && ops[j].SaveCommit? ==> ops[j] == ops[i]
  }

  ghost predicate NoLess(d: Disk, d': Disk) { Length(d.commit) <= Length(d'.commit) && d.decisions.Keys <= d'.decisions.Keys }

  lemma {:induction false} WritesKeep(d: Disk, ops: seq<Op>)
    requires CommitsNoLess(ops, d)
    ensures NoLess(d, WriteAll(d, ops))
    decreases |ops|
  {
    if ops != [] {
      var e := Write(d, ops[0]);
      assert CommitsNoLess(ops[1..], e) by {
        forall i | 0 <= i < |ops[1..]| && ops[1..][i].SaveCommit?
          ensures Length(e.commit) <= Length(ops[1..][i].commit)
          ensures forall j :: 0 <= j < |ops[1..]| && ops[1..][j].SaveCommit? ==> ops[1..][j] == ops[1..][i]
        {
          assert ops[1..][i] == ops[i + 1];
          forall j | 0 <= j < |ops[1..]| && ops[1..][j].SaveCommit? ensures ops[1..][j] == ops[1..][i] { assert ops[1..][j] == ops[j + 1]; }
        }
      }
      WritesKeep(e, ops[1..]);
    }
  }

  lemma {:induction false} KindsCommit(n: Node, j: nat)
    requires Flushable(n)
    ensures forall i :: 0 <= i < |Kinds(n, j)| && Kinds(n, j)[i].SaveCommit? ==> Kinds(n, j)[i] == SaveCommit(n.commit)
  {
    if j > 0 { KindsCommit(n, j - 1); }
  }

  lemma EventKeeps(n: Node, d: Disk, e: Event, p: nat)
    requires Clean(n) && Synced(n, d) && Length(n.applied) == Length(n.commit) && p <= |Writes(n, d, e)|
    ensures NoLess(d, WriteAll(d, Writes(n, d, e)[..p]))
  {
    HandleTracks(n, d, e);
    HandleGrown(n, e);
    var f := Handle(n, e).node;
    KindsCommit(f, 5);
    var ops := Writes(n, d, e)[..p];
    forall i | 0 <= i < |ops| && ops[i].SaveCommit? ensures ops[i] == SaveCommit(f.commit) {
      if i < |FlushOps(f)| { assert ops[i] == Kinds(f, 5)[i]; }
    }
    WritesKeep(d, ops);
  }

  lemma StepKeeps(s: State, c: Core, step: Step, v: NodeId)
    requires Linked(s, c) && Ready(s) && Possible(s, step) && v < |s.disks|
    ensures |Perform(s, step).disks| == |s.disks| && NoLess(s.disks[v], Perform(s, step).disks[v])
  {
    var w := step.node;
    assert NodeOk(s.nodes[w], s.disks[w], c, w);
    if step.Act? {
      var n, d, e := s.nodes[w], s.disks[w], EventOf(s, step.cause);
      EventKeeps(n, d, e, if step.crash.Some? then step.crash.value else |Writes(n, d, e)|);
      assert Writes(n, d, e)[..|Writes(n, d, e)|] == Writes(n, d, e);
    }
  }

  lemma StepAt(states: seq<State>, steps: seq<Step>, k: nat)
    requires Run(states, steps) && k < |steps|
    ensures |states| == |steps| + 1 && Ready(states[k]) && Possible(states[k], steps[k]) && states[k + 1] == Perform(states[k], steps[k])
  {
  }

  lemma LinkedAt(states: seq<State>, cores: seq<Core>, k: nat)
    requires Histories(states, cores) && k < |states|
    ensures |cores| == |states| && Linked(states[k], cores[k])
  {
  }

  /** Each of the disks keeps at least its commit index and its decisions. */
  ghost predicate DisksNoLess(s: State, s': State) {
    |s.disks| == |s'.disks| && forall v :: 0 <= v < |s.disks| ==> NoLess(s.disks[v], s'.disks[v])
  }

  lemma StepKeepsAll(s: State, c: Core, step: Step)
    requires Linked(s, c) && Ready(s) && Possible(s, step)
    ensures DisksNoLess(s, Perform(s, step))
  {
    forall v | 0 <= v < |s.disks| ensures |Perform(s, step).disks| == |s.disks| && NoLess(s.disks[v], Perform(s, step).disks[v]) {
      StepKeeps(s, c, step, v);
    }
  }

  lemma StepKeepsAt(states: seq<State>, steps: seq<Step>, cores: seq<Core>, k: nat)
    requires Run(states, steps) && Histories(states, cores) && k < |steps|
    ensures k + 1 < |states| && DisksNoLess(states[k], states[k + 1])
  {
    StepAt(states, steps, k);
    LinkedAt(states, cores, k);
    StepKeepsAll(states[k], cores[k], steps[k]);
  }

  lemma AllStepsKeep(states: seq<State>, steps: seq<Step>, cores: seq<Core>)
    requires Run(states, steps) && Histories(states, cores)
    ensures forall k {:trigger states[k]} :: 0 <= k && k + 1 < |states| ==> DisksNoLess(states[k], states[k + 1])
  {
    forall k {:trigger states[k]} | 0 <= k && k + 1 < |states| ensures DisksNoLess(states[k], states[k + 1]) {
      StepKeepsAt(states, steps, cores, k);
    }
  }

  lemma {:induction false} ChainKeeps(states: seq<State>, i: nat, j: nat)
    requires forall k {:trigger states[k]} :: 0 <= k && k + 1 < |states| ==> DisksNoLess(states[k], states[k + 1])
    requires i <= j < |states|
    ensures DisksNoLess(states[i], states[j])
    decreases j - i
  {
    if i < j { ChainKeeps(states, i, j - 1); }
  }

  lemma RunKeeps(states: seq<State>, steps: seq<Step>, cores: seq<Core>, i: nat, j: nat, v: NodeId)
    requires Run(states, steps) && Histories(states, cores) && i <= j < |states| && v < |states[i].disks|
    ensures v < |states[j].disks| && NoLess(states[i].disks[v], states[j].disks[v])
  {
    AllStepsKeep(states, steps, cores);
    ChainKeeps(states, i, j);
  }

  lemma CommitGrows(states: seq<State>, steps: seq<Step>, cores: seq<Core>, i: nat, j: nat, v: NodeId)
    requires Run(states, steps) && Histories(states, cores) && Reached(states, i, v) && Reached(states, j, v) && i <= j
    ensures Length(states[i].nodes[v].commit) <= Length(states[j].nodes[v].commit)
  {
    RunKeeps(states, steps, cores, i, j, v);
    NodeOkAt(states, cores, i, v);
    NodeOkAt(states, cores, j, v);
  }

  /** No later step, cut or crash removes what a node knew to be committed. */
  lemma CommittedStaysForever(states: seq<State>, steps: seq<Step>, i: nat, j: nat, v: NodeId)
    requires Run(states, steps) && Reached(states, i, v) && Reached(states, j, v) && i <= j
    ensures var n := states[i].nodes[v]; Length(n.commit) <= |n.log| && Strip(n.log)[..Length(n.commit)] <= Strip(states[j].nodes[v].log)
  {
    var cores := RunLinked(states, steps);
    CommitGrows(states, steps, cores, i, j, v);
    CommitsAgree(states, cores, i, j, v, v);
  }

  /** A decision once stored stays, with its value. */
  lemma DecisionsPersist(states: seq<State>, steps: seq<Step>, i: nat, j: nat, v: NodeId, slot: nat)
    requires Run(states, steps) && Reached(states, i, v) && Reached(states, j, v) && i <= j && slot in states[i].disks[v].decisions
    ensures slot in states[j].disks[v].decisions && states[j].disks[v].decisions[slot] == states[i].disks[v].decisions[slot]
  {
    var cores := RunLinked(states, steps);
    RunKeeps(states, steps, cores, i, j, v);
    StateMachineSafety(states, steps, i, j, v, v, slot);
  }

  ghost predicate Confirms(e: Envelope, t: nat, k: nat) {
    e.message.AppendEntriesResponse? && e.message.success && e.message.term == t && e.message.matchIndex == Some(k)
  }

  lemma ConfirmAt(states: seq<State>, cores: seq<Core>, i: nat, j: nat, a: nat, t: nat, k: nat)
    requires Histories(states, cores) && i <= j < |states| && a < |states[i].net| && Confirms(states[i].net[a], t, k)
    ensures Acked(cores[j].acked, t, states[i].net[a].src, k + 1)
  {
    assert Linked(states[i], cores[i]) && MsgOk(states[i].net[a], cores[i]);
    assert Extends(cores[i], cores[j]);
  }

  lemma AckedHeld(c: Core, t: nat, v: NodeId, k: nat)
    requires Inv(c) && v < c.n && Acked(c.acked, t, v, k) && c.nodes[v].term == t
    ensures t in c.won && k <= |c.won[t].log| && c.won[t].log[..k] <= c.nodes[v].log
  {
    assert Kept(c.won, c.acked, c.nodes[v], v, t, k);
  }

  lemma AckedHeldAt(states: seq<State>, cores: seq<Core>, j: nat, v: NodeId, t: nat, k: nat)
    requires Histories(states, cores) && Reached(states, j, v) && states[j].nodes[v].term == t && Acked(cores[j].acked, t, v, k)
    ensures t in cores[j].won && k <= |cores[j].won[t].log| && cores[j].won[t].log[..k] <= Strip(states[j].nodes[v].log)
  {
    NodeOkAt(states, cores, j, v);
    OpenSound(cores[j]);
    AckedHeld(cores[j], t, v, k);
  }

  lemma ConfirmedHeld(states: seq<State>, cores: seq<Core>, i: nat, h: nat, a: nat, v: NodeId, k: nat)
    requires Histories(states, cores) && i <= h && Reached(states, h, v) && a < |states[i].net| && states[i].net[a].src == v
    requires Confirms(states[i].net[a], states[h].nodes[v].term, k)
    ensures h < |cores| && states[h].nodes[v].term in cores[h].won && k < |cores[h].won[states[h].nodes[v].term].log|
    ensures cores[h].won[states[h].nodes[v].term].log[..k + 1] <= Strip(states[h].nodes[v].log)
  {
    ConfirmAt(states, cores, i, h, a, states[h].nodes[v].term, k);
    AckedHeldAt(states, cores, h, v, states[h].nodes[v].term, k + 1);
  }

  lemma ConfirmedBetween(states: seq<State>, cores: seq<Core>, i: nat, h: nat, j: nat, a: nat, v: NodeId, k: nat)
    requires Histories(states, cores) && i <= h <= j && Reached(states, h, v) && Reached(states, j, v)
    requires a < |states[i].net| && states[i].net[a].src == v && Confirms(states[i].net[a], states[h].nodes[v].term, k)
    requires states[h].nodes[v].term == states[j].nodes[v].term
    ensures k < |states[h].nodes[v].log| && k < |states[j].nodes[v].log|
    ensures Strip(states[h].nodes[v].log)[..k + 1] == Strip(states[j].nodes[v].log)[..k + 1]
  {
    ConfirmedHeld(states, cores, i, h, a, v, k);
    ConfirmedHeld(states, cores, i, j, a, v, k);
    ReignGrows(states, cores, h, j, states[h].nodes[v].term);
  }

  lemma ConfirmedAlike(states: seq<State>, cores: seq<Core>, i: nat, j: nat, a: nat, v: NodeId, w: NodeId, k: nat)
    requires Histories(states, cores) && i <= j && Reached(states, j, v) && Reached(states, j, w)
    requires a < |states[i].net| && states[i].net[a].src == v && Confirms(states[i].net[a], states[j].nodes[v].term, k)
    requires states[j].nodes[w].role.Leader? && states[j].nodes[w].term == states[j].nodes[v].term
    ensures k < |states[j].nodes[v].log| && k < |states[j].nodes[w].log|
    ensures Strip(states[j].nodes[v].log)[..k + 1] == Strip(states[j].nodes[w].log)[..k + 1]
  {
    ConfirmedHeld(states, cores, i, j, a, v, k);
    LeaderLogAt(states, cores, j, w);
  }

  /**
   As long as a node stays in a term, it keeps every entry it ever confirmed in that term, whatever
   becomes of the leader; and while the leader is in office, the two agree up to it.
   */
  lemma ConfirmedStays(states: seq<State>, steps: seq<Step>, i: nat, h: nat, j: nat, a: nat, v: NodeId, w: NodeId, k: nat)
    requires Run(states, steps) && i <= h <= j && Reached(states, h, v) && Reached(states, j, v) && Reached(states, j, w)
    requires a < |states[i].net| && states[i].net[a].src == v && Confirms(states[i].net[a], states[h].nodes[v].term, k)
    requires states[h].nodes[v].term == states[j].nodes[v].term
    ensures k < |states[h].nodes[v].log| && k < |states[j].nodes[v].log|
    ensures Strip(states[h].nodes[v].log)[..k + 1] == Strip(states[j].nodes[v].log)[..k + 1]
    ensures states[j].nodes[w].role.Leader? && states[j].nodes[w].term == states[j].nodes[v].term ==>
      k < |states[j].nodes[w].log| && Strip(states[j].nodes[v].log)[..k + 1] == Strip(states[j].nodes[w].log)[..k + 1]
  {
    var cores := RunLinked(states, steps);
    ConfirmedBetween(states, cores, i, h, j, a, v, k);
    if states[j].nodes[w].role.Leader? && states[j].nodes[w].term == states[j].nodes[v].term {
      ConfirmedAlike(states, cores, i, j, a, v, w, k);
    }
  }

  lemma ReignGrows(states: seq<State>, cores: seq<Core>, h: nat, j: nat, t: nat)
    requires Histories(states, cores) && h <= j < |cores| && t in cores[h].won
    ensures t in cores[j].won && cores[h].won[t].log <= cores[j].won[t].log
  {
    assert Extends(cores[h], cores[j]);
  }
}
