/**
 The invariant of a cluster: nodes, storage and network are in line with a core that satisfies
 the invariant of `RaftCore`. Every step keeps it, for any number of nodes, any loss, delay and
 duplication, and crashes between any two writes.
 */
module Safety {
  import opened Types
  import opened RaftCore
  import opened RaftMoves
  import opened RaftNode
  import opened Persistence
  import opened Cluster
  import opened Replica
  import opened Replication
  import opened Events
  import opened Delivery
  import opened Recovery

  // ---------- The invariant ----------

  ghost predicate NodeOk(n: Node, d: Disk, c: Core, v: NodeId) {
    && n.id == v && Base(n, c) && Clean(n) && Synced(n, d)
    && Stored(d) && Awaiting(n, |d.decisions|)
  }

  ghost predicate NodesOk(s: State, c: Core) {
    |s.nodes| == |s.disks| == |c.nodes| == c.n && forall v :: 0 <= v < |s.nodes| ==> NodeOk(s.nodes[v], s.disks[v], c, v)
  }

  ghost predicate NetOk(net: seq<Envelope>, c: Core) {
    forall i :: 0 <= i < |net| ==> MsgOk(net[i], c)
  }

  predicate IsAppend(net: seq<Envelope>, i: nat, t: nat) {
    i < |net| && net[i].message.AppendEntries? && net[i].message.term == t
  }

  /** Later messages of a leader reach at least as far as earlier ones. */
  ghost predicate SendOrder(net: seq<Envelope>) {
    forall i: nat, j: nat, t: nat :: i <= j && IsAppend(net, i, t) && IsAppend(net, j, t) ==> End(net[i].message) <= End(net[j].message)
  }

  /** What a follower has confirmed to its leader is within the latest message it handled. */
  ghost predicate Bounded(net: seq<Envelope>, handled: map<(nat, NodeId), nat>, c: Core, v: NodeId, t: nat) {
    (t, v) in c.acked && 0 < c.acked[(t, v)] && !(t in c.won && c.won[t].leader == v) ==>
      (t, v) in handled && IsAppend(net, handled[(t, v)], t) && c.acked[(t, v)] <= End(net[handled[(t, v)]].message)
  }

  ghost predicate HandledOk(s: State, c: Core) {
    forall v: nat :: v < |c.nodes| ==> Bounded(s.net, s.handled, c, v, c.nodes[v].term)
  }

  ghost predicate Linked(s: State, c: Core) {
    Sound(c) && Solo(c) && NodesOk(s, c) && NetOk(s.net, c) && SendOrder(s.net) && HandledOk(s, c)
  }

  lemma LinkedReady(s: State, c: Core)
    requires Linked(s, c)
    ensures Ready(s)
  {
  }

  // ---------- One node's storage across an event ----------

  /** What was known before agrees with what is known later. */
  lemma KnownLater(c: Core, x: Core, p: Log, q: Log, u: nat, w: nat)
    requires Inv(x) && Extends(c, x) && Known(c.won, c.certs, p, u) && Known(x.won, x.certs, q, w) && |p| <= |q|
    ensures p <= q
  {
    KnownStable(c, x, p, u, u);
    KnownAgree(x, p, q, u, w);
  }

  lemma CommitIsKnown(c: Core, v: NodeId)
    requires Sound(c) && v < |c.nodes|
    ensures c.nodes[v].commit <= |c.nodes[v].log| && Known(c.won, c.certs, c.nodes[v].log[..c.nodes[v].commit], c.nodes[v].term)
  {
    OpenSound(c);
  }

  lemma KnownThrough(c: Core, x: Core, v: NodeId, k: nat, p: Log, q: Log, u: nat, w: nat)
    requires Sound(x) && Acts(c, x, v, k) && Known(c.won, c.certs, p, u) && Known(x.won, x.certs, q, w) && |p| <= |q|
    ensures p <= q
  {
    OpenSound(x);
    OpenActs(c, x, v, k);
    KnownLater(c, x, p, q, u, w);
  }

  /** What is committed stays where it is. */
  lemma CommitKept(c: Core, x: Core, v: NodeId, k: nat)
    requires Sound(c) && Lawful(c, x, v, k) && v < |c.nodes| && c.nodes[v].commit <= x.nodes[v].commit
    ensures c.nodes[v].commit <= |c.nodes[v].log| && c.nodes[v].log[..c.nodes[v].commit] <= x.nodes[v].log
    ensures x.nodes[v].commit <= |x.nodes[v].log|
  {
    CommitIsKnown(c, v);
    CommitIsKnown(x, v);
    KnownThrough(c, x, v, k, c.nodes[v].log[..c.nodes[v].commit], x.nodes[v].log[..x.nodes[v].commit], c.nodes[v].term, x.nodes[v].term);
  }

  lemma FirstValuesPrefix(p: Log, q: Log, l: nat, k: nat)
    requires k <= l <= |p| && p[..l] <= q
    ensures FirstValues(p, k) == FirstValues(q, k)
  {
    forall i | 0 <= i < k ensures p[i] == q[i] { assert p[..l][i] == q[i]; }
  }

  /** Storage that gained writes but no decisions still holds the decisions of a committed prefix. */
  lemma StoredStays(d: Disk, d': Disk, c: Core, x: Core, v: NodeId, k: nat)
    requires Stored(d) && Sound(c) && Lawful(c, x, v, k) && v < |c.nodes|
    requires c.nodes[v] == OnDisk(d) && x.nodes[v] == OnDisk(d') && d'.decisions == d.decisions && Length(d.commit) <= Length(d'.commit)
    ensures Stored(d') && d.log[..Length(d.commit)] <= d'.log
  {
    CommitKept(c, x, v, k);
    FirstValuesPrefix(d.log, d'.log, Length(d.commit), |d.decisions|);
  }

  /** The event's handler, its moves and its writes, named once for the lemmas below. */
  ghost predicate Facts(n: Node, d: Disk, c: Core, v: NodeId, e: Event, f: Effect, a: Core, b: Core, z: Core) {
    && NodeOk(n, d, c, v) && Solo(c) && Sensible(n, c, e) && f == Handle(n, e)
    && Moves(n, c, f, a, b, z, EventReach(n, e))
    && Tracks(f.node, d) && Flushable(f.node) && Grown(n, f.node)
  }

  lemma FactsHold(n: Node, d: Disk, c: Core, v: NodeId, e: Event) returns (a: Core, b: Core, z: Core)
    requires NodeOk(n, d, c, v) && Solo(c) && Sensible(n, c, e)
    ensures Facts(n, d, c, v, e, Handle(n, e), a, b, z)
  {
    a, b, z := EventMoves(n, c, e);
    HandleTracks(n, d, e);
    HandleGrown(n, e);
  }

  /** A flush cut short, or just completed. */
  lemma FlushCore(n: Node, d: Disk, c: Core, v: NodeId, e: Event, f: Effect, a: Core, b: Core, z: Core, p: nat) returns (x: Core)
    requires Facts(n, d, c, v, e, f, a, b, z) && p <= |FlushOps(f.node)|
    ensures var d' := WriteAll(d, FlushOps(f.node)[..p]); Lawful(c, x, v, EventReach(n, e)) && x.nodes[v] == OnDisk(d') && Stored(d')
    ensures WriteAll(d, FlushOps(f.node)[..p]).decisions == d.decisions
    ensures p == |FlushOps(f.node)| ==> x == z
    ensures x == c || x.nodes[v].term == f.node.term
  {
    var j := FlushPrefixIsStage(f.node, d, p);
    x := StageCore(n, c, e, d, j, a, b, z);
    StoredStays(d, WriteAll(d, FlushOps(f.node)[..p]), c, x, v, EventReach(n, e));
  }

  lemma FlushAwaits(n: Node, d: Disk, c: Core, v: NodeId, e: Event, f: Effect, a: Core, b: Core, z: Core)
    requires Facts(n, d, c, v, e, f, a, b, z)
    ensures var d5 := WriteAll(d, FlushOps(f.node));
      Synced(f.node, d5) && d5.decisions == d.decisions && Stored(d5) && Awaiting(f.node, |d.decisions|)
    ensures z.nodes[v] == OnDisk(WriteAll(d, FlushOps(f.node)))
  {
    KindsReachStage(f.node, d, 5);
    FlushSyncs(f.node, d);
    StoredStays(d, WriteAll(d, FlushOps(f.node)), c, z, v, EventReach(n, e));
    GrownAwaits(n, f.node, |d.decisions|);
  }

  lemma DrainAwaited(d5: Disk, f: Node, k: nat, p: nat)
    requires Synced(f, d5) && Stored(d5) && k == |d5.decisions| && Awaiting(f, k) && p <= |f.decided|
    ensures var d' := WriteAll(d5, DecisionOps(f.decided)[..p]);
      OnDisk(d') == OnDisk(d5) && d'.commit == d5.commit && Stored(d') && |d'.decisions| == k + p && Synced(f, d')
  {
    DrainStores(d5, f.decided, k, p);
  }

  /** A crash while decisions are being stored, or none at all. */
  lemma DrainCore(n: Node, d: Disk, c: Core, v: NodeId, e: Event, f: Effect, a: Core, b: Core, z: Core, p: nat)
    requires Facts(n, d, c, v, e, f, a, b, z) && p <= |f.node.decided|
    ensures var d' := WriteAll(d, FlushOps(f.node) + DecisionOps(f.node.decided)[..p]);
      z.nodes[v] == OnDisk(d') && Stored(d') && Synced(f.node, d') && |d'.decisions| + |f.node.decided| == Length(f.node.commit) + p
  {
    FlushAwaits(n, d, c, v, e, f, a, b, z);
    var d5 := WriteAll(d, FlushOps(f.node));
    WriteAllConcat(d, FlushOps(f.node), DecisionOps(f.node.decided)[..p]);
    DrainAwaited(d5, f.node, |d.decisions|, p);
  }

  /** Crash recovery: wherever the event's writes stop, the core has a state that storage is in, and its decisions are a committed prefix. */
  lemma CrashCore(n: Node, d: Disk, c: Core, v: NodeId, e: Event, f: Effect, a: Core, b: Core, z: Core, p: nat) returns (x: Core)
    requires Facts(n, d, c, v, e, f, a, b, z) && p <= |Writes(n, d, e)|
    ensures var d' := WriteAll(d, Writes(n, d, e)[..p]); Lawful(c, x, v, EventReach(n, e)) && x.nodes[v] == OnDisk(d') && Stored(d')
    ensures |FlushOps(f.node)| <= p ==> x == z
    ensures x == c || x.nodes[v].term == f.node.term
  {
    var ops := FlushOps(f.node);
    if p <= |ops| {
      assert Writes(n, d, e)[..p] == ops[..p];
      x := FlushCore(n, d, c, v, e, f, a, b, z, p);
    } else {
      assert Writes(n, d, e)[..p] == ops + DecisionOps(f.node.decided)[..p - |ops|];
      DrainCore(n, d, c, v, e, f, a, b, z, p - |ops|);
      x := z;
    }
  }

  // ---------- Restarting ----------

  lemma RestartFollower(d: Disk, x: Core, v: NodeId)
    requires Sound(x) && |x.nodes| == x.n && v < x.n && x.nodes[v] == OnDisk(d) && Stored(d)
    requires !(x.n == 1 && d.term > 0 && d.vote == Some(v))
    ensures NodeOk(Restore(v, x.n, d), d, x, v)
  {
    RestoreExact(v, x.n, d);
  }

  lemma RestartLeader(d: Disk, x: Core, v: NodeId) returns (y: Core)
    requires Sound(x) && Solo(x) && |x.nodes| == x.n && v < x.n && x.nodes[v] == OnDisk(d) && Stored(d)
    requires x.n == 1 && d.term > 0 && d.vote == Some(v)
    ensures NodeOk(Restore(v, x.n, d), d, y, v) && Lawful(x, y, v) && y.nodes[v] == x.nodes[v]
  {
    RestoreExact(v, x.n, d);
    assert x.won[d.term].leader == v && x.won[d.term].log == d.log by { OpenSound(x); }
    y := Appended(x, v, []);
    AppendedLawful(x, v, []);
    if d.log != [] { RaisedAcks(x.acked, d.term, v, |d.log|); }
  }

  /** A restarted node is in step with the core, and a lone leader resumes a term it did win. */
  lemma RestartOk(d: Disk, x: Core, v: NodeId) returns (y: Core)
    requires Sound(x) && Solo(x) && |x.nodes| == x.n && v < x.n && x.nodes[v] == OnDisk(d) && Stored(d)
    ensures NodeOk(Restore(v, x.n, d), d, y, v) && Lawful(x, y, v) && y.nodes[v] == x.nodes[v]
  {
    if x.n == 1 && d.term > 0 && d.vote == Some(v) {
      y := RestartLeader(d, x, v);
    } else {
      y := x;
      RestartFollower(d, x, v);
      ActsSelf(x, v);
    }
  }

  // ---------- One event ----------

  /** Confirmations of another's log either stood before or come from this event's message, in its term. */
  ghost predicate AcksFrom(c: Core, y: Core, v: NodeId, reach: nat, term: nat) {
    forall t: nat :: (t, v) in y.acked && !(t in y.won && y.won[t].leader == v) && v < |y.nodes| && t == y.nodes[v].term ==>
      ((t, v) in c.acked && y.acked[(t, v)] == c.acked[(t, v)]) || y.acked[(t, v)] == 0 || (t == term && y.acked[(t, v)] <= reach)
  }

  lemma AcksFromStage(c: Core, x: Core, y: Core, v: NodeId, reach: nat, term: nat)
    requires v < |c.nodes| && Lawful(c, x, v, reach) && Lawful(x, y, v) && (x == c || x.nodes[v].term == term)
    requires x.nodes[v].term == y.nodes[v].term
    ensures AcksFrom(c, y, v, reach, term)
  {
    OpenActs(c, x, v, reach);
    OpenActs(x, y, v);
  }

  lemma ProcessDone(n: Node, d: Disk, c: Core, v: NodeId, e: Event, f: Effect, a: Core, b: Core, z: Core)
    requires Facts(n, d, c, v, e, f, a, b, z)
    ensures var o := Process(n, d, e, None); NodeOk(o.node, o.disk, z, v) && o.sent == f.out
  {
    var ops := DecisionOps(f.node.decided);
    assert ops[..|f.node.decided|] == ops;
    DrainCore(n, d, c, v, e, f, a, b, z, |f.node.decided|);
    AlikeBase(f.node, Drained(f.node).(decided := []), z);
    FlushAwaits(n, d, c, v, e, f, a, b, z);
  }

  lemma ProcessCrashed(n: Node, d: Disk, c: Core, v: NodeId, e: Event, f: Effect, a: Core, b: Core, z: Core, p: nat)
      returns (x: Core, y: Core)
    requires Facts(n, d, c, v, e, f, a, b, z) && p <= |Writes(n, d, e)|
    ensures var o := Process(n, d, e, Some(p)); NodeOk(o.node, o.disk, y, v) && (o.sent == [] || (x == z && o.sent == f.out))
    ensures Lawful(c, x, v, EventReach(n, e)) && Lawful(x, y, v) && AcksFrom(c, y, v, EventReach(n, e), f.node.term)
  {
    x := CrashCore(n, d, c, v, e, f, a, b, z, p);
    OpenActs(c, x, v, EventReach(n, e));
    assert |x.nodes| == x.n;
    y := RestartOk(WriteAll(d, Writes(n, d, e)[..p]), x, v);
    AcksFromStage(c, x, y, v, EventReach(n, e), f.node.term);
  }

  /**
   Whatever way an event ends, the node that comes out of it is in step with a core reached by
   lawful moves, and what it sent was true in a core on the way.
   */
  lemma ProcessOk(n: Node, d: Disk, c: Core, v: NodeId, e: Event, crash: Option<nat>) returns (x: Core, y: Core)
    requires NodeOk(n, d, c, v) && Solo(c) && Sensible(n, c, e) && Length(crash) <= |Writes(n, d, e)| + 1
    ensures var o := Process(n, d, e, crash); NodeOk(o.node, o.disk, y, v) && (o.sent == [] || OutsOk(o.sent, v, x))
    ensures Lawful(c, x, v, EventReach(n, e)) && Lawful(x, y, v) && AcksFrom(c, y, v, EventReach(n, e), Handle(n, e).node.term)
  {
    var f := Handle(n, e);
    var a, b, z := FactsHold(n, d, c, v, e);
    if crash.None? {
      x, y := z, z;
      ProcessDone(n, d, c, v, e, f, a, b, z);
      ActsSelf(z, v);
      AcksFromStage(c, z, z, v, EventReach(n, e), f.node.term);
    } else {
      x, y := ProcessCrashed(n, d, c, v, e, f, a, b, z, crash.value);
    }
  }

  // ---------- One step of the cluster ----------

  lemma OtherRole(n: Node, c: Core, y: Core, v: NodeId, k: nat)
    requires RoleOk(n, c) && OnlyActs(c, y, v, k) && n.id != v
    ensures RoleOk(n, y)
  {
  }

  lemma OtherOk(n: Node, d: Disk, c: Core, y: Core, v: NodeId, w: NodeId, k: nat)
    requires NodeOk(n, d, c, w) && w != v && Acts(c, y, v, k) && Sound(y) && |y.nodes| == |c.nodes|
    ensures NodeOk(n, d, y, w)
  {
    OpenActs(c, y, v, k);
    OtherRole(n, c, y, v, k);
  }

  /** A message about to be handled in order covers what the node confirmed to its leader. */
  lemma OrderedHolds(s: State, c: Core, v: NodeId, i: nat)
    requires Linked(s, c) && v < |s.nodes| && i < |s.net| && s.net[i].dst == v && InOrder(s, v, i)
    ensures Ordered(s.nodes[v], c, s.net[i].message)
  {
    var m := s.net[i].message;
    assert NodeOk(s.nodes[v], s.disks[v], c, v) && MsgOk(s.net[i], c);
    if m.AppendEntries? && m.term >= s.nodes[v].term && Acked(c.acked, m.term, v, 0) {
      assert m.term == c.nodes[v].term by { OpenSound(c); }
      assert Bounded(s.net, s.handled, c, v, m.term);
      assert IsAppend(s.net, i, m.term);
    }
  }

  lemma SensibleHolds(s: State, c: Core, v: NodeId, cause: Cause)
    requires Linked(s, c) && v < |s.nodes|
    requires cause.Packet? ==> cause.index < |s.net| && s.net[cause.index].dst == v && InOrder(s, v, cause.index)
    ensures Sensible(s.nodes[v], c, EventOf(s, cause))
  {
    assert NodeOk(s.nodes[v], s.disks[v], c, v);
    if cause.Packet? {
      assert MsgOk(s.net[cause.index], c);
      OrderedHolds(s, c, v, cause.index);
    }
  }

  lemma SentOk(v: NodeId, n: nat, out: seq<Outgoing>, x: Core, i: nat)
    requires OutsOk(out, v, x) && n == x.n && i < |PostAll(v, n, out)|
    ensures var e := PostAll(v, n, out)[i]; MsgOk(e, x) && (e.message.AppendEntries? ==> End(e.message) == |x.won[e.message.term].log|)
  {
    var k := PostAllLooks(v, n, out, i);
    assert OutOk(out[k], v, x);
  }

  lemma NetGrows(net: seq<Envelope>, v: NodeId, n: nat, out: seq<Outgoing>, c: Core, x: Core, y: Core)
    requires NetOk(net, c) && Extends(c, x) && Extends(x, y) && n == x.n && (out == [] || OutsOk(out, v, x))
    ensures NetOk(net + PostAll(v, n, out), y)
  {
    var all := net + PostAll(v, n, out);
    forall i | 0 <= i < |all| ensures MsgOk(all[i], y) {
      if i < |net| { MsgOkStable(net[i], c, x); } else { SentOk(v, n, out, x, i - |net|); }
      MsgOkStable(all[i], x, y);
    }
  }

  lemma ReachBelow(net: seq<Envelope>, i: nat, t: nat, c: Core, x: Core)
    requires NetOk(net, c) && Extends(c, x) && IsAppend(net, i, t)
    ensures t in x.won && End(net[i].message) <= |x.won[t].log|
  {
    MsgOkStable(net[i], c, x);
  }

  lemma OrderGrows(net: seq<Envelope>, v: NodeId, n: nat, out: seq<Outgoing>, c: Core, x: Core)
    requires NetOk(net, c) && SendOrder(net) && Extends(c, x) && n == x.n && (out == [] || OutsOk(out, v, x))
    ensures SendOrder(net + PostAll(v, n, out))
  {
    var all := net + PostAll(v, n, out);
    forall i: nat, j: nat, t: nat | i <= j && IsAppend(all, i, t) && IsAppend(all, j, t) ensures End(all[i].message) <= End(all[j].message) {
      if j < |net| {
        assert IsAppend(net, i, t) && IsAppend(net, j, t);
      } else {
        SentOk(v, n, out, x, j - |net|);
        if i < |net| {
          assert IsAppend(net, i, t);
          ReachBelow(net, i, t, c, x);
        } else {
          SentOk(v, n, out, x, i - |net|);
        }
      }
    }
  }

  lemma AppendTerm(n: Node, from: NodeId, m: Message)
    requires n.cutFrom == None && m.AppendEntries? && m.term >= n.term
    ensures HandleMessage(n, from, m).node.term == m.term
  {
    var o := Observe(n, m);
    if PrevOk(o.log, m.prevIndex, m.prevTerm) { AcceptCut(Loyal(o, m.leader), m.prevIndex, m.entries, m.leaderCommit); }
  }

  lemma BoundedOther(net: seq<Envelope>, more: seq<Envelope>, handled: map<(nat, NodeId), nat>, handled': map<(nat, NodeId), nat>,
                     c: Core, y: Core, v: NodeId, w: NodeId, t: nat, k: nat)
    requires Bounded(net, handled, c, w, t) && w != v && OnlyActs(c, y, v, k)
    requires (t, w) in handled ==> (t, w) in handled' && handled'[(t, w)] == handled[(t, w)]
    ensures Bounded(net + more, handled', y, w, t)
  {
  }

  /** The node's own confirmations from before stay within what it has handled. */
  lemma BoundedBefore(s: State, more: seq<Envelope>, c: Core, y: Core, v: NodeId, cause: Cause, t: nat, k: nat)
    requires Bounded(s.net, s.handled, c, v, t) && SendOrder(s.net) && OnlyActs(c, y, v, k)
    requires cause.Packet? ==> cause.index < |s.net| && InOrder(s, v, cause.index)
    requires (t, v) in y.acked ==> (t, v) in c.acked && y.acked[(t, v)] == c.acked[(t, v)]
    ensures Bounded(s.net + more, Note(s, v, cause), y, v, t)
  {
    if (t, v) in y.acked && 0 < y.acked[(t, v)] && !(t in y.won && y.won[t].leader == v) {
      var h := s.handled[(t, v)];
      assert IsAppend(s.net, h, t);
      if cause.Packet? && IsAppend(s.net, cause.index, t) {
        assert End(s.net[h].message) <= End(s.net[cause.index].message);
      }
    }
  }

  lemma BoundedSelf(s: State, more: seq<Envelope>, c: Core, y: Core, v: NodeId, cause: Cause, k: nat)
    requires Linked(s, c) && v < |s.nodes| && Acts(c, y, v, k) && |y.nodes| == |c.nodes|
    requires cause.Packet? ==> cause.index < |s.net| && InOrder(s, v, cause.index)
    requires AcksFrom(c, y, v, EventReach(s.nodes[v], EventOf(s, cause)), Handle(s.nodes[v], EventOf(s, cause)).node.term)
    ensures Bounded(s.net + more, Note(s, v, cause), y, v, y.nodes[v].term)
  {
    var n, t := s.nodes[v], y.nodes[v].term;
    OpenActs(c, y, v, k);
    assert NodeOk(n, s.disks[v], c, v);
    if (t, v) in y.acked && 0 < y.acked[(t, v)] && !(t in y.won && y.won[t].leader == v) {
      if (t, v) in c.acked && y.acked[(t, v)] == c.acked[(t, v)] {
        assert t == c.nodes[v].term by { OpenSound(c); }
        BoundedBefore(s, more, c, y, v, cause, t, k);
      } else {
        var e := EventOf(s, cause);
        AppendTerm(n, e.from, e.message);
      }
    }
  }

  lemma HandledGrows(s: State, more: seq<Envelope>, c: Core, y: Core, v: NodeId, cause: Cause, k: nat)
    requires Linked(s, c) && v < |s.nodes| && Acts(c, y, v, k) && |y.nodes| == |c.nodes|
    requires cause.Packet? ==> cause.index < |s.net| && InOrder(s, v, cause.index)
    requires AcksFrom(c, y, v, EventReach(s.nodes[v], EventOf(s, cause)), Handle(s.nodes[v], EventOf(s, cause)).node.term)
    ensures forall w: nat :: w < |y.nodes| ==> Bounded(s.net + more, Note(s, v, cause), y, w, y.nodes[w].term)
  {
    forall w: nat | w < |y.nodes| ensures Bounded(s.net + more, Note(s, v, cause), y, w, y.nodes[w].term) {
      if w == v {
        BoundedSelf(s, more, c, y, v, cause, k);
      } else {
        OpenActs(c, y, v, k);
        BoundedOther(s.net, more, s.handled, Note(s, v, cause), c, y, v, w, c.nodes[w].term, k);
      }
    }
  }

  lemma ActLinked(s: State, c: Core, v: NodeId, cause: Cause, crash: Option<nat>) returns (y: Core)
    requires Linked(s, c) && Ready(s) && Possible(s, Act(v, cause, crash))
    ensures Linked(Perform(s, Act(v, cause, crash)), y) && Extends(c, y)
  {
    var n, d, e := s.nodes[v], s.disks[v], EventOf(s, cause);
    assert NodeOk(n, d, c, v);
    SensibleHolds(s, c, v, cause);
    var x;
    x, y := ProcessOk(n, d, c, v, e, crash);
    var o := Process(n, d, e, crash);
    var k := EventReach(n, e);
    ActsTransitive(c, x, y, v, k);
    HandledGrows(s, PostAll(v, |s.nodes|, o.sent), c, y, v, cause, k);
    assert Extends(c, x) by { OpenActs(c, x, v, k); }
    assert Extends(x, y) by { OpenActs(x, y, v); }
    assert Extends(c, y) by { OpenActs(c, y, v, k); }
    NetGrows(s.net, v, |s.nodes|, o.sent, c, x, y);
    OrderGrows(s.net, v, |s.nodes|, o.sent, c, x);
    NodesGrow(s, c, y, v, o.node, o.disk, k);
  }

  lemma NodesGrow(s: State, c: Core, y: Core, v: NodeId, n: Node, d: Disk, k: nat)
    requires NodesOk(s, c) && v < |s.nodes| && NodeOk(n, d, y, v) && Acts(c, y, v, k) && Sound(y) && |y.nodes| == |c.nodes|
    ensures NodesOk(s.(nodes := s.nodes[v := n], disks := s.disks[v := d]), y)
  {
    forall w | 0 <= w < |s.nodes| && w != v ensures NodeOk(s.nodes[w], s.disks[w], y, w) {
      OtherOk(s.nodes[w], s.disks[w], c, y, v, w, k);
    }
  }

  lemma NetStays(net: seq<Envelope>, c: Core, y: Core)
    requires NetOk(net, c) && Extends(c, y)
    ensures NetOk(net, y)
  {
    forall i | 0 <= i < |net| ensures MsgOk(net[i], y) { MsgOkStable(net[i], c, y); }
  }

  lemma HandledStays(s: State, c: Core, y: Core, v: NodeId)
    requires Linked(s, c) && v < |s.nodes| && Lawful(c, y, v) && y.nodes[v] == c.nodes[v]
    ensures HandledOk(s, y)
  {
    ActsSelf(c, v);
    AcksFromStage(c, c, y, v, 0, Handle(s.nodes[v], Tick(false)).node.term);
    HandledGrows(s, [], c, y, v, Timer(false), 0);
    assert s.net + [] == s.net;
  }

  lemma RestartLinked(s: State, c: Core, v: NodeId) returns (y: Core)
    requires Linked(s, c) && Ready(s) && Possible(s, Restart(v))
    ensures Linked(Perform(s, Restart(v)), y) && Extends(c, y)
  {
    assert NodeOk(s.nodes[v], s.disks[v], c, v);
    y := RestartOk(s.disks[v], c, v);
    HandledStays(s, c, y, v);
    assert Extends(c, y) by { OpenActs(c, y, v); }
    NetStays(s.net, c, y);
    NodesGrow(s, c, y, v, Restore(v, c.n, s.disks[v]), s.disks[v], 0);
  }

  /** Every step of the cluster keeps the invariant, and history only grows. */
  lemma StepLinked(s: State, c: Core, step: Step) returns (y: Core)
    requires Linked(s, c) && Ready(s) && Possible(s, step)
    ensures Linked(Perform(s, step), y) && Extends(c, y)
  {
    match step
    case Act(v, cause, crash) => y := ActLinked(s, c, v, cause, crash);
    case Restart(v) => y := RestartLinked(s, c, v);
  }

  ghost function Start(n: nat): Core {
    Core(n, seq(n, i requires 0 <= i < n => Durable(0, None, [], 0)), map[], map[], map[], map[], {})
  }

  lemma StartSound(n: nat)
    ensures Inv(Start(n)) && Whole(Start(n)) && Solo(Start(n))
  {
  }

  lemma InitLinked(s: State)
    requires Init(s)
    ensures Linked(s, Start(|s.nodes|))
  {
    StartSound(|s.nodes|);
    forall v | 0 <= v < |s.nodes| ensures NodeOk(s.nodes[v], s.disks[v], Start(|s.nodes|), v) {
      assert Strip(s.nodes[v].log) == [];
    }
  }

  /** A history for each state, each extending those before. */
  ghost predicate Histories(states: seq<State>, cores: seq<Core>) {
    && |cores| == |states|
    && (forall i :: 0 <= i < |states| ==> Linked(states[i], cores[i]))
    && (forall i, j :: 0 <= i <= j < |cores| ==> Extends(cores[i], cores[j]))
  }

  lemma MoreHistory(states: seq<State>, cores: seq<Core>, s: State, y: Core)
    requires Histories(states, cores) && |states| > 0 && Linked(s, y) && Extends(cores[|cores| - 1], y)
    ensures Histories(states + [s], cores + [y])
  {
    var all := cores + [y];
    forall i, j | 0 <= i <= j < |all| ensures Extends(all[i], all[j]) {
      if j == |cores| && i < j { ExtendsTransitive(cores[i], cores[|cores| - 1], y); }
    }
  }

  lemma OneHistory(s: State)
    requires Init(s)
    ensures Histories([s], [Start(|s.nodes|)])
  {
    InitLinked(s);
  }

  lemma LastStep(states: seq<State>, steps: seq<Step>)
    requires Run(states, steps) && |steps| > 0
    ensures var k := |steps| - 1;
      && Run(states[..k + 1], steps[..k])
      && Ready(states[k])
      && Possible(states[k], steps[k])
      && states[k + 1] == Perform(states[k], steps[k])
    ensures states == states[..|steps|] + [states[|steps|]]
  {
    var k := |steps| - 1;
    var ss, ts := states[..k + 1], steps[..k];
    forall i | 0 <= i < k ensures Ready(ss[i]) && Possible(ss[i], ts[i]) && ss[i + 1] == Perform(ss[i], ts[i]) {
      assert states[..k + 1][i] == states[i] && states[..k + 1][i + 1] == states[i + 1] && steps[..k][i] == steps[i];
    }
  }

  /** Along every run there is a history, growing with it, that every state is in step with. */
  lemma {:induction false} RunLinked(states: seq<State>, steps: seq<Step>) returns (cores: seq<Core>)
    requires Run(states, steps)
    ensures Histories(states, cores)
    decreases |steps|
  {
    if |steps| == 0 {
      OneHistory(states[0]);
      cores := [Start(|states[0].nodes|)];
      assert states == [states[0]];
    } else {
      var k := |steps| - 1;
      LastStep(states, steps);
      var before := RunLinked(states[..k + 1], steps[..k]);
      assert Linked(states[..k + 1][k], before[k]);
      var y := StepLinked(states[k], before[k], steps[k]);
      MoreHistory(states[..k + 1], before, states[k + 1], y);
      cores := before + [y];
    }
  }
}
