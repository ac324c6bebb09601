/** The follower's side of replication, and a whole event, as lawful moves of the core. */
module Replication {
  import opened Types
  import opened RaftCore
  import opened RaftMoves
  import opened RaftNode
  import opened Replica
  import opened Handlers

  // ---------- What an accepted message leaves in the log ----------

  /** Where two logs on reigns agree in the term at an index, they agree up to it. */
  lemma AgreeUpTo(won: map<nat, Reign>, p: Log, q: Log, i: nat)
    requires OnReigns(won, p) && OnReigns(won, q) && i <= |p| && i <= |q|
    requires 0 < i ==> p[i - 1].term == q[i - 1].term
    ensures p[..i] == q[..i]
  {
    if 0 < i {
      var l := won[p[i - 1].term].log;
      assert p[..i - 1 + 1] <= l && q[..i - 1 + 1] <= l;
    }
  }

  lemma MatchedPart(won: map<nat, Reign>, log: LiveLog, l: Log, start: nat, entries: LiveLog)
    requires OnReigns(won, Strip(log)) && OnReigns(won, l)
    requires start <= |log| && start + |entries| <= |l| && Strip(entries) == l[start..start + |entries|]
    requires 0 < start ==> log[start - 1].term == l[start - 1].term
    ensures var at := start + Matching(log, start, entries); Strip(log)[..at] == l[..at]
  {
    var k := Matching(log, start, entries);
    if 0 < k { assert Strip(entries)[k - 1] == l[start + k - 1]; }
    AgreeUpTo(won, Strip(log), l, start + k);
  }

  /** The first success leaves the follower's log equal to the leader's log as sent. */
  lemma MergedIsLeaders(won: map<nat, Reign>, log: LiveLog, l: Log, start: nat, entries: LiveLog)
    requires OnReigns(won, Strip(log)) && OnReigns(won, l)
    requires start <= |log| && start + |entries| <= |l| && Strip(entries) == l[start..start + |entries|]
    requires 0 < start ==> log[start - 1].term == l[start - 1].term
    ensures Strip(Merged(log, start, entries)) == l[..start + |entries|]
  {
    MatchedPart(won, log, l, start, entries);
    var k := Matching(log, start, entries);
    var r := Strip(Merged(log, start, entries));
    forall i | 0 <= i < |r| ensures r[i] == l[i] {
      if i < start + k {
        assert r[i] == Strip(log)[..start + k][i];
      } else {
        assert r[i] == Strip(entries)[i - start];
      }
    }
  }

  // ---------- The moves ----------

  lemma AcceptSound(c: Core, v: NodeId, len: nat)
    requires Sound(c) && v < |c.nodes| && Covered(c.won, c.nodes[v].term, len) && c.won[c.nodes[v].term].leader != v
    requires Acked(c.acked, c.nodes[v].term, v, 0) ==> c.acked[(c.nodes[v].term, v)] <= len
    ensures var d := Update(c, v, c.nodes[v].(log := c.won[c.nodes[v].term].log[..len]), len);
      Sound(d) && Acts(c, d, v, len) && (Solo(c) ==> Solo(d))
  {
    OpenSound(c);
    AcceptFits(c, v, len);
    UpdateLawful(c, v, c.nodes[v].(log := c.won[c.nodes[v].term].log[..len]), len);
  }

  lemma CutSound(c: Core, v: NodeId, j: nat, len: nat)
    requires Sound(c) && v < |c.nodes| && Covered(c.won, c.nodes[v].term, len) && c.won[c.nodes[v].term].leader != v
    requires Acked(c.acked, c.nodes[v].term, v, 0) ==> c.acked[(c.nodes[v].term, v)] <= len
    requires j <= |c.nodes[v].log|
    requires len <= j || (j < |c.nodes[v].log| && c.nodes[v].log[j] != c.won[c.nodes[v].term].log[j])
    ensures var d := Update(c, v, c.nodes[v].(log := c.nodes[v].log[..j]), 0); Sound(d) && Acts(c, d, v) && (Solo(c) ==> Solo(d))
  {
    OpenSound(c);
    CutFits(c, v, j, len);
    UpdateLawful(c, v, c.nodes[v].(log := c.nodes[v].log[..j]), 0);
  }

  lemma KnownPrefix(won: map<nat, Reign>, certs: set<Cert>, p: Log, q: Log, u: nat)
    requires Known(won, certs, q, u) && p <= q
    ensures Known(won, certs, p, u)
  {
    if p != [] {
      var cert :| cert in certs && cert.term <= u && Covers(won, cert, q);
      assert Covers(won, cert, p);
    }
  }

  /** An AppendEntries at a follower of its term that was handled in order. */
  ghost predicate Follows(n: Node, c: Core, m: Message) {
    && m.AppendEntries? && m.term == n.term && n.id < |c.nodes| && c.nodes[n.id] == View(n) && n.role.Follower?
    && (exists src :: src != n.id && AppendOk(m, src, c))
    && (Acked(c.acked, n.term, n.id, 0) ==> c.acked[(n.term, n.id)] <= End(m))
    && PrevOk(n.log, m.prevIndex, m.prevTerm)
  }

  lemma PlaceMoves(n: Node, c: Core, m: Message) returns (b: Core)
    requires Base(n, c) && Solo(c) && Follows(n, c, m)
    ensures var p := Place(n, Length(m.prevIndex), m.entries); Base(p, b) && Lawful(c, b, n.id, End(m))
    ensures b.won == c.won && b.certs == c.certs && (0 < End(m) ==> Acked(b.acked, n.term, n.id, End(m)))
    ensures 0 < End(m) ==> Strip(Place(n, Length(m.prevIndex), m.entries).log) == c.won[n.term].log[..End(m)]
  {
    if End(m) == 0 {
      b := c;
      ActsSelf(c, n.id);
    } else {
      var l := c.won[n.term].log;
      assert OnReigns(c.won, Strip(n.log)) && OnReigns(c.won, l) by { OpenSound(c); }
      MergedIsLeaders(c.won, n.log, l, Length(m.prevIndex), m.entries);
      AcceptSound(c, n.id, End(m));
      b := Update(c, n.id, c.nodes[n.id].(log := l[..End(m)]), End(m));
      RaisedAcks(c.acked, n.term, n.id, End(m));
    }
  }

  lemma LearnSound(c: Core, v: NodeId, k: nat)
    requires Sound(c) && Solo(c) && v < |c.nodes| && k <= |c.nodes[v].log| && Known(c.won, c.certs, c.nodes[v].log[..k], c.nodes[v].term)
    ensures var d := Update(c, v, c.nodes[v].(commit := k), 0); Lawful(c, d, v)
  {
    CommitSound(c, v, k);
  }

  lemma LearnMoves(p: Node, b: Core, leaderCommit: Option<nat>, end: nat) returns (d: Core)
    requires Base(p, b) && Solo(b) && p.role.Follower? && p.term in b.won
    requires end <= |b.won[p.term].log| && (0 < end ==> Strip(p.log) == b.won[p.term].log[..end])
    requires end <= |p.log|
    requires Length(leaderCommit) <= |b.won[p.term].log| && Known(b.won, b.certs, b.won[p.term].log[..Length(leaderCommit)], p.term)
    ensures var q := LearnCommit(p, leaderCommit, end).(buffered := []); Base(q, d) && Lawful(b, d, p.id) && b.acked == d.acked
  {
    var q := LearnCommit(p, leaderCommit, end).(buffered := []);
    if leaderCommit.None? || end == 0 || Min(leaderCommit.value, end - 1) < Length(p.commit) {
      d := b;
      AlikeBase(p, q, b);
      ActsSelf(b, p.id);
    } else {
      var k := Min(leaderCommit.value, end - 1) + 1;
      assert Strip(p.log)[..k] <= b.won[p.term].log[..Length(leaderCommit)];
      KnownPrefix(b.won, b.certs, Strip(p.log)[..k], b.won[p.term].log[..Length(leaderCommit)], p.term);
      LearnSound(b, p.id, k);
      d := Update(b, p.id, b.nodes[p.id].(commit := k), 0);
      AlikeBase(p.(commit := Some(k - 1)), q, d);
    }
  }

  lemma AckOk(n: Node, d: Core, leader: NodeId, end: nat)
    requires 0 < end ==> Acked(d.acked, n.term, n.id, end)
    requires n.id < d.n
    ensures OutsOk([Outgoing(Peer(leader), AppendEntriesResponse(n.term, true, Index(end), None, None))] + ForwardAll(leader, n.buffered), n.id, d)
  {
  }

  lemma AcceptBase(n: Node, c: Core, m: Message) returns (b: Core, d: Core)
    requires Base(n, c) && Solo(c) && Follows(n, c, m)
    ensures var p := Place(n, Length(m.prevIndex), m.entries); n.id < |b.nodes| && b.nodes[n.id] == View(p) && Lawful(c, b, n.id, End(m))
    ensures Base(Accept(n, m.prevIndex, m.entries, m.leaderCommit), d) && Lawful(c, d, n.id, End(m))
    ensures 0 < End(m) ==> Acked(d.acked, n.term, n.id, End(m))
  {
    b := PlaceMoves(n, c, m);
    d := LearnMoves(Place(n, Length(m.prevIndex), m.entries), b, m.leaderCommit, End(m));
    ActsTransitive(c, b, d, n.id, End(m));
  }

  lemma AcceptView(n: Node, prevIndex: Option<nat>, entries: LiveLog, leaderCommit: Option<nat>)
    requires Length(prevIndex) <= |n.log|
    ensures var a := Accept(n, prevIndex, entries, leaderCommit);
      && View(Place(n, Length(prevIndex), entries)) == View(a).(commit := Length(n.commit))
      && a.id == n.id && View(a).term == n.term && View(a).vote == n.vote
  {
  }

  lemma AcceptMoves(n: Node, c: Core, m: Message) returns (b: Core, d: Core)
    requires Base(n, c) && Solo(c) && Follows(n, c, m)
    ensures var ack := Outgoing(Peer(m.leader), AppendEntriesResponse(n.term, true, Index(End(m)), None, None));
      var f := Effect(Accept(n, m.prevIndex, m.entries, m.leaderCommit), [ack] + ForwardAll(m.leader, n.buffered));
      Moves(n, c, f, c, b, d, End(m))
  {
    b, d := AcceptBase(n, c, m);
    AcceptView(n, m.prevIndex, m.entries, m.leaderCommit);
    ActsSelf(c, n.id);
    AckOk(n, d, m.leader, End(m));
  }

  // ---------- Any AppendEntries ----------

  /** The message reaches at least as far as the node has confirmed to this leader: what handling in send order gives. */
  ghost predicate Ordered(n: Node, c: Core, m: Message) {
    m.AppendEntries? && m.term >= n.term && Acked(c.acked, m.term, n.id, 0) ==> c.acked[(m.term, n.id)] <= End(m)
  }

  lemma LoyalBase(n: Node, c: Core, leader: NodeId)
    requires Base(n, c)
    ensures Base(Loyal(n, leader), c)
  {
  }

  lemma RejectMoves(n: Node, c: Core, f: Node, to: NodeId, conflictTerm: Option<nat>, conflictIndex: Option<nat>)
    requires Base(n, c) && Solo(c) && (f == n || f == Loyal(n, to))
    ensures Moves(n, c, Effect(f, [Reject(n, to, conflictTerm, conflictIndex)]), c, c, c)
  {
    LoyalBase(n, c, to);
    StillMoves(n, c, Effect(f, [Reject(n, to, conflictTerm, conflictIndex)]));
  }

  lemma MovesAlike(n: Node, m: Node, c: Core, f: Effect, a: Core, b: Core, d: Core, reach: nat)
    requires Moves(m, c, f, a, b, d, reach) && m.id == n.id
    ensures Moves(n, c, f, a, b, d, reach)
  {
  }

  lemma MovesMore(n: Node, c: Core, f: Effect, a: Core, b: Core, d: Core, reach: nat)
    requires Moves(n, c, f, a, b, d)
    ensures Moves(n, c, f, a, b, d, reach)
  {
    ActsMore(c, b, n.id, reach);
    ActsMore(c, d, n.id, reach);
  }

  /** What the follower that accepts does and answers. */
  function Accepted(n: Node, m: Message): Effect
    requires m.AppendEntries? && PrevOk(n.log, m.prevIndex, m.prevTerm)
  {
    Effect(Accept(Loyal(n, m.leader), m.prevIndex, m.entries, m.leaderCommit),
           [Outgoing(Peer(m.leader), AppendEntriesResponse(n.term, true, Index(End(m)), None, None))] + ForwardAll(m.leader, n.buffered))
  }

  lemma AcceptedMoves(n: Node, c: Core, src: NodeId, m: Message) returns (b: Core, d: Core)
    requires Base(n, c) && Solo(c) && m.AppendEntries? && AppendOk(m, src, c) && src != n.id && m.term == n.term && Ordered(n, c, m)
    requires PrevOk(n.log, m.prevIndex, m.prevTerm)
    ensures Moves(n, c, Accepted(n, m), c, b, d, End(m))
  {
    LoyalBase(n, c, m.leader);
    b, d := AcceptMoves(Loyal(n, m.leader), c, m);
    MovesAlike(n, Loyal(n, m.leader), c, Accepted(n, m), c, b, d, End(m));
  }

  /** How much of another's log an event may make the node confirm. */
  function Reach(n: Node, m: Message): nat { if m.AppendEntries? && m.term >= n.term then End(m) else 0 }

  lemma RejectedMoves(n: Node, c: Core, src: NodeId, m: Message)
    requires Base(n, c) && Solo(c) && m.AppendEntries? && m.term <= n.term
    requires m.term < n.term || n.role.Leader? || !PrevOk(n.log, m.prevIndex, m.prevTerm)
    ensures Moves(n, c, Dispatch(n, src, m), c, c, c)
  {
    if m.term < n.term || n.role.Leader? {
      RejectMoves(n, c, n, m.leader, None, None);
    } else {
      var (conflictTerm, conflictIndex) := Hint(n.log, m.prevIndex.value);
      RejectMoves(n, c, Loyal(n, m.leader), m.leader, conflictTerm, conflictIndex);
    }
  }

  lemma AppendMoves(n: Node, c: Core, src: NodeId, m: Message) returns (b: Core, d: Core)
    requires Base(n, c) && Solo(c) && m.AppendEntries? && AppendOk(m, src, c) && src != n.id && m.term <= n.term && Ordered(n, c, m)
    ensures Moves(n, c, Dispatch(n, src, m), c, b, d, Reach(n, m))
  {
    if m.term < n.term || n.role.Leader? || !PrevOk(n.log, m.prevIndex, m.prevTerm) {
      b, d := c, c;
      RejectedMoves(n, c, src, m);
      MovesMore(n, c, Dispatch(n, src, m), c, c, c, Reach(n, m));
    } else {
      b, d := AcceptedMoves(n, c, src, m);
    }
  }

  // ---------- A crash between the cut and the append ----------

  lemma CutAt(n: Node, c: Core, src: NodeId, m: Message, j: nat)
    requires Base(n, c) && m.AppendEntries? && AppendOk(m, src, c) && src != n.id && m.term == n.term && Ordered(n, c, m)
    requires PrevOk(n.log, m.prevIndex, m.prevTerm) && j == Length(m.prevIndex) + Matching(n.log, Length(m.prevIndex), m.entries)
    requires j < |n.log|
    ensures var k := Update(c, n.id, c.nodes[n.id].(log := c.nodes[n.id].log[..j]), 0);
      Sound(k) && Acts(c, k, n.id) && (Solo(c) ==> Solo(k))
  {
    if j < End(m) { assert Strip(m.entries)[j - Length(m.prevIndex)] == c.won[n.term].log[j]; }
    CutSound(c, n.id, j, End(m));
  }

  lemma TakeInKeepsCut(n: Node, values: seq<Pending>)
    requires values != []
    ensures TakeIn(n, values).cutFrom == n.cutFrom
  {
  }

  lemma BecomeLeaderKeepsCut(n: Node)
    ensures BecomeLeader(n).node.cutFrom == n.cutFrom
  {
    if n.buffered != [] { TakeInKeepsCut(Crowned(n), n.buffered); }
  }

  lemma ProposeKeepsCut(n: Node, value: Pending)
    ensures Propose(n, value).node.cutFrom == n.cutFrom
  {
    if n.role.Leader? { TakeInKeepsCut(n, [value]); }
  }

  /** Only an AppendEntries ever cuts a log. */
  lemma OthersKeepCut(n: Node, from: NodeId, m: Message)
    requires !m.AppendEntries?
    ensures Dispatch(n, from, m).node.cutFrom == n.cutFrom
  {
    match m
    case RequestVoteResponse(_, _) => BecomeLeaderKeepsCut(n.(votes := n.votes + {from}));
    case Forward(value, _) => ProposeKeepsCut(n, value);
    case _ =>
  }

  lemma PlaceCut(n: Node, start: nat, entries: LiveLog)
    requires start <= |n.log| && n.cutFrom == None && Place(n, start, entries).cutFrom.Some?
    ensures var j := start + Matching(n.log, start, entries); Place(n, start, entries).cutFrom == Some(j) && j < |n.log|
  {
  }

  lemma LearnKeepsCut(n: Node, leaderCommit: Option<nat>, end: nat)
    requires end <= |n.log|
    ensures var m := LearnCommit(n, leaderCommit, end); m.cutFrom == n.cutFrom && m.term == n.term && m.vote == n.vote
  {
  }

  lemma PlaceLook(n: Node, start: nat, entries: LiveLog)
    requires start <= |n.log| && n.cutFrom == None
    ensures var p := Place(n, start, entries); var j := start + Matching(n.log, start, entries);
      p.term == n.term && p.vote == n.vote && (p.cutFrom == None || (p.cutFrom == Some(j) && j < |n.log|))
  {
    if Place(n, start, entries).cutFrom.Some? { PlaceCut(n, start, entries); }
  }

  lemma AcceptCut(n: Node, prevIndex: Option<nat>, entries: LiveLog, leaderCommit: Option<nat>)
    requires Length(prevIndex) <= |n.log| && n.cutFrom == None
    ensures var f := Accept(n, prevIndex, entries, leaderCommit); f.term == n.term && f.vote == n.vote
    ensures var f := Accept(n, prevIndex, entries, leaderCommit); var j := Length(prevIndex) + Matching(n.log, Length(prevIndex), entries);
      f.cutFrom == None || (f.cutFrom == Some(j) && j < |n.log|)
  {
    PlaceLook(n, Length(prevIndex), entries);
    LearnKeepsCut(Place(n, Length(prevIndex), entries), leaderCommit, Length(prevIndex) + |entries|);
  }

  /** A log is cut only on accepting, and then just where the match ends. */
  lemma WhereCut(n: Node, from: NodeId, m: Message)
    requires m.AppendEntries? && n.cutFrom == None && Dispatch(n, from, m).node.cutFrom.Some?
    ensures m.term >= n.term && PrevOk(n.log, m.prevIndex, m.prevTerm)
    ensures var f := Dispatch(n, from, m).node; var j := Length(m.prevIndex) + Matching(n.log, Length(m.prevIndex), m.entries);
      f.cutFrom == Some(j) && j < |n.log| && f.term == n.term && f.vote == n.vote
  {
    if PrevOk(n.log, m.prevIndex, m.prevTerm) { AcceptCut(Loyal(n, m.leader), m.prevIndex, m.entries, m.leaderCommit); }
  }

  lemma CutMoves(n: Node, c: Core, src: NodeId, m: Message, j: nat) returns (k: Core)
    requires Base(n, c) && Solo(c) && m.AppendEntries? && AppendOk(m, src, c) && src != n.id && m.term == n.term && Ordered(n, c, m)
    requires PrevOk(n.log, m.prevIndex, m.prevTerm) && j == Length(m.prevIndex) + Matching(n.log, Length(m.prevIndex), m.entries)
    requires j < |n.log|
    ensures Lawful(c, k, n.id) && k.nodes[n.id] == c.nodes[n.id].(log := c.nodes[n.id].log[..j])
  {
    CutAt(n, c, src, m, j);
    k := Update(c, n.id, c.nodes[n.id].(log := c.nodes[n.id].log[..j]), 0);
  }
}
