/** Each handler of `RaftNode`, shown to be a lawful series of moves of the core. */
module Handlers {
  import opened Types
  import opened RaftCore
  import opened RaftMoves
  import opened RaftNode
  import opened Cluster
  import opened Replica

  /** A handler that leaves durable state alone. */
  lemma StillMoves(n: Node, c: Core, f: Effect)
    requires Base(n, c) && Solo(c) && Base(f.node, c) && f.node.id == n.id && View(f.node) == View(n) && OutsOk(f.out, n.id, c)
    ensures Moves(n, c, f, c, c, c)
  {
    ActsSelf(c, n.id);
  }

  lemma LeaderOutOk(n: Node, c: Core, entries: LiveLog, target: Target)
    requires Base(n, c) && n.role.Leader? && |entries| <= |n.log| && entries == n.log[|n.log| - |entries|..]
    ensures OutOk(Outgoing(target, WithEntries(n, entries)), n.id, c)
  {
    forall dst: nat | dst < c.n && dst != n.id && (target == Broadcast || target == Peer(dst))
      ensures MsgOk(Envelope(n.id, dst, WithEntries(n, entries)), c) && End(WithEntries(n, entries)) == |c.won[n.term].log|
    {
      LeaderMessageOk(n, c, entries, dst);
    }
  }

  lemma HeartbeatOk(n: Node, c: Core)
    requires Base(n, c) && n.role.Leader?
    ensures OutOk(Outgoing(Broadcast, Heartbeat(n)), n.id, c)
  {
    assert n.log[..|n.log|] == n.log && n.log[|n.log|..] == [];
    LeaderOutOk(n, c, [], Broadcast);
  }

  // ---------- Proposals ----------

  lemma TakeInLook(n: Node, values: seq<Pending>)
    requires values != []
    ensures var m := TakeIn(n, values);
      && m.id == n.id
      && m.size == n.size
      && m.role == n.role
      && m.term == n.term
      && m.vote == n.vote
      && m.log == n.log + Entries(n.term, values)
  {
  }

  lemma PublishMoves(n: Node, c: Core, values: seq<Pending>) returns (b: Core, d: Core)
    requires Base(n, c) && n.role.Leader? && values != [] && Solo(c)
    ensures Moves(n, c, Publish(n, values), c, b, d)
  {
    b, d := TakeInMoves(n, c, values);
    TakeInLook(n, values);
    var m := TakeIn(n, values);
    assert m.log[|m.log| - |values|..] == Entries(n.term, values);
    LeaderOutOk(m, d, Entries(n.term, values), Broadcast);
    ActsSelf(c, n.id);
  }

  lemma ProposeMoves(n: Node, c: Core, value: Pending) returns (b: Core, d: Core)
    requires Base(n, c) && Solo(c)
    ensures Moves(n, c, Propose(n, value), c, b, d)
  {
    if n.role.Leader? {
      b, d := PublishMoves(n, c, [value]);
    } else {
      b, d := c, c;
      AlikeBase(n, Propose(n, value).node, c);
      StillMoves(n, c, Propose(n, value));
    }
  }

  // ---------- Elections ----------

  /** Alone, a node that has voted has voted for itself, and has won unless the term is u. */
  ghost predicate SoloBut(c: Core, u: nat) {
    c.n == 1 ==> forall v :: 0 <= v < |c.nodes| ==> Settled(c, v, c.nodes[v]) || (c.nodes[v].term == u && c.nodes[v].vote == Some(v))
  }

  /** Election Safety at work: a candidate with a majority is the first to win its term. */
  lemma MajorityWins(n: Node, c: Core)
    requires Base(n, c) && n.role.Candidate? && |n.votes| >= Quorum(n.size)
    ensures MayWin(c, n.id, n.votes)
  {
    OpenSound(c);
    if n.term in c.won {
      var w := QuorumsMeet(c.n, n.votes, c.won[n.term].electors);
      assert false;
    }
  }

  lemma WinActs(c: Core, v: NodeId, q: set<NodeId>)
    requires Whole(c) && MayWin(c, v, q) && SoloBut(c, c.nodes[v].term) && Extends(c, Win(c, v, q))
    ensures Whole(Win(c, v, q)) && OnlyActs(c, Win(c, v, q), v) && Solo(Win(c, v, q))
  {
  }

  lemma WinSound(c: Core, v: NodeId, q: set<NodeId>)
    requires Sound(c) && MayWin(c, v, q) && SoloBut(c, c.nodes[v].term)
    ensures Sound(Win(c, v, q)) && Acts(c, Win(c, v, q), v) && Solo(Win(c, v, q))
  {
    OpenSound(c);
    WinInv(c, v, q);
    WinActs(c, v, q);
  }

  lemma CrownedRole(n: Node, e: Core)
    requires n.id < |e.nodes| && |e.nodes| == e.n && e.nodes[n.id] == View(n) && n.term in e.won && e.won[n.term].leader == n.id
    requires e.won[n.term].log == Strip(n.log)
    ensures RoleOk(Crowned(n), Appended(e, n.id, []))
  {
    if n.log != [] { RaisedAcks(e.acked, n.term, n.id, |n.log|); }
  }

  lemma CrownedBase(n: Node, c: Core) returns (a: Core)
    requires Base(n, c) && n.role.Candidate? && |n.votes| >= Quorum(n.size) && SoloBut(c, n.term)
    ensures Base(Crowned(n), a) && Lawful(c, a, n.id)
  {
    MajorityWins(n, c);
    WinSound(c, n.id, n.votes);
    var e := Win(c, n.id, n.votes);
    a := Appended(e, n.id, []);
    AppendedLawful(e, n.id, []);
    ActsTransitive(c, e, a, n.id);
    CrownedRole(n, e);
  }

  lemma MovesFrom(n: Node, c: Core, m: Node, a: Core, f: Effect, b: Core, d: Core)
    requires n.id < |c.nodes| && m.id == n.id && Lawful(c, a, n.id) && Moves(m, a, f, a, b, d)
    requires a.nodes[n.id].log == c.nodes[n.id].log && a.nodes[n.id].commit == c.nodes[n.id].commit
    ensures Moves(n, c, f, a, b, d)
  {
    ActsTransitive(c, a, b, n.id);
    ActsTransitive(c, a, d, n.id);
  }

  lemma BecomeLeaderMoves(n: Node, c: Core) returns (a: Core, b: Core, d: Core)
    requires Base(n, c) && n.role.Candidate? && |n.votes| >= Quorum(n.size) && SoloBut(c, n.term)
    ensures Moves(n, c, BecomeLeader(n), a, b, d)
  {
    a := CrownedBase(n, c);
    var m := Crowned(n);
    if n.buffered == [] {
      b, d := a, a;
      HeartbeatOk(m, a);
      StillMoves(m, a, BecomeLeader(n));
    } else {
      b, d := PublishMoves(m, a, n.buffered);
      assert BecomeLeader(n) == Publish(m, n.buffered);
    }
    MovesFrom(n, c, m, a, BecomeLeader(n), b, d);
  }

  /** A node moves to a later term, with whatever vote its disk then shows. */
  ghost function Bumped(c: Core, v: NodeId, u: nat, vote: Option<NodeId>): Core
    requires v < |c.nodes|
  {
    Update(c, v, c.nodes[v].(term := u, vote := vote), 0)
  }

  lemma BumpedSound(c: Core, v: NodeId, u: nat, vote: Option<NodeId>)
    requires Sound(c) && v < |c.nodes| && c.nodes[v].term < u
    ensures Sound(Bumped(c, v, u, vote)) && Acts(c, Bumped(c, v, u, vote), v)
    ensures (Solo(c) && (c.n == 1 ==> vote == None) ==> Solo(Bumped(c, v, u, vote)))
    ensures (u, v) !in c.bids && (u, v) !in c.cast && (u in c.won ==> c.won[u].leader != v)
    ensures forall i :: 0 <= i < |c.nodes[v].log| ==> c.nodes[v].log[i].term < u
  {
    OpenSound(c);
    BumpTermFits(c, v, u, vote);
    UpdateLawful(c, v, c.nodes[v].(term := u, vote := vote), 0);
  }

  lemma AddBidSound(c: Core, v: NodeId)
    requires Sound(c) && v < |c.nodes| && (c.nodes[v].term, v) !in c.bids
    requires forall i :: 0 <= i < |c.nodes[v].log| ==> c.nodes[v].log[i].term < c.nodes[v].term
    ensures Sound(AddBid(c, v)) && Acts(c, AddBid(c, v), v)
  {
    OpenSound(c);
    AddBidInv(c, v);
  }

  lemma CastSound(c: Core, v: NodeId, candidate: NodeId)
    requires Sound(c) && MayCast(c, v, candidate)
    ensures Sound(Cast(c, v, candidate)) && Acts(c, Cast(c, v, candidate), v)
  {
    OpenSound(c);
    CastInv(c, v, candidate);
  }

  /** The core in which node v has stood for election in term u. */
  ghost function Stood(c: Core, v: NodeId, u: nat): Core
    requires v < |c.nodes|
  {
    Cast(AddBid(Bumped(c, v, u, Some(v)), v), v, v)
  }

  lemma StoodSound(c: Core, v: NodeId, u: nat)
    requires Sound(c) && v < |c.nodes| && c.nodes[v].term < u
    ensures Sound(Stood(c, v, u)) && Acts(c, Stood(c, v, u), v)
    ensures u in c.won ==> c.won[u].leader != v
  {
    BumpedSound(c, v, u, Some(v));
    var c1 := Bumped(c, v, u, Some(v));
    AddBidSound(c1, v);
    var c2 := AddBid(c1, v);
    CastSound(c2, v, v);
    ActsTransitive(c, c1, c2, v);
    ActsTransitive(c, c2, Stood(c, v, u), v);
  }

  lemma StandingBase(n: Node, c: Core)
    requires Base(n, c) && Solo(c)
    ensures var d := Stood(c, n.id, n.term + 1); Base(Standing(n), d) && Acts(c, d, n.id) && |d.nodes| == |c.nodes|
    ensures SoloBut(Stood(c, n.id, n.term + 1), n.term + 1)
  {
    StoodSound(c, n.id, n.term + 1);
  }

  lemma TopOfStrip(log: LiveLog)
    ensures TopTerm(Strip(log)) == LastTerm(log)
  {
  }

  lemma StartElectionMoves(n: Node, c: Core) returns (a: Core, b: Core, d: Core)
    requires Base(n, c) && Solo(c)
    ensures Moves(n, c, StartElection(n), a, b, d)
  {
    var m := Standing(n);
    StandingBase(n, c);
    d := Stood(c, n.id, n.term + 1);
    if 1 >= Quorum(n.size) {
      var e := d;
      a, b, d := BecomeLeaderMoves(m, e);
      ActsTransitive(c, e, a, n.id);
      ActsTransitive(c, e, b, n.id);
      ActsTransitive(c, e, d, n.id);
    } else {
      a, b := d, d;
      TopOfStrip(n.log);
      AlikeBase(m, StartElection(n).node, d);
    }
  }

  lemma SetVoteSound(c: Core, v: NodeId, candidate: NodeId)
    requires Sound(c) && v < |c.nodes| && (c.nodes[v].vote == None || c.nodes[v].vote == Some(candidate))
    ensures var d := Update(c, v, c.nodes[v].(vote := Some(candidate)), 0); Sound(d) && Acts(c, d, v) && (c.n != 1 ==> Solo(d))
    ensures (c.nodes[v].term, v) in c.cast ==> c.cast[(c.nodes[v].term, v)].candidate == candidate
  {
    OpenSound(c);
    SetVoteFits(c, v, Some(candidate));
    UpdateLawful(c, v, c.nodes[v].(vote := Some(candidate)), 0);
  }

  /** A vote is granted once per term, and always to the same candidate. */
  lemma GrantMoves(n: Node, c: Core, candidate: NodeId) returns (d: Core)
    requires Base(n, c) && Solo(c) && c.n != 1 && (n.vote == None || n.vote == Some(candidate))
    requires (n.term, candidate) in c.bids && Outranks(c.bids[(n.term, candidate)], Strip(n.log))
    ensures Base(n.(vote := Some(candidate)), d) && Lawful(c, d, n.id)
    ensures (n.term, n.id) in d.cast && d.cast[(n.term, n.id)].candidate == candidate
  {
    SetVoteSound(c, n.id, candidate);
    d := Update(c, n.id, c.nodes[n.id].(vote := Some(candidate)), 0);
    if (n.term, n.id) !in c.cast {
      var e := d;
      d := Cast(e, n.id, candidate);
      CastSound(e, n.id, candidate);
      ActsTransitive(c, e, d, n.id);
    }
  }

  lemma DenyMoves(n: Node, c: Core, candidate: NodeId)
    requires Base(n, c) && Solo(c)
    ensures Moves(n, c, Effect(n, [Outgoing(Peer(candidate), RequestVoteResponse(n.term, false))]), c, c, c)
  {
    StillMoves(n, c, Effect(n, [Outgoing(Peer(candidate), RequestVoteResponse(n.term, false))]));
  }

  lemma GrantedMoves(n: Node, c: Core, candidate: NodeId) returns (d: Core)
    requires Base(n, c) && Solo(c) && c.n != 1 && (n.vote == None || n.vote == Some(candidate))
    requires (n.term, candidate) in c.bids && Outranks(c.bids[(n.term, candidate)], Strip(n.log))
    ensures Moves(n, c, Effect(n.(vote := Some(candidate), saveVote := true), [Outgoing(Peer(candidate), RequestVoteResponse(n.term, true))]), d, d, d)
  {
    d := GrantMoves(n, c, candidate);
    AlikeBase(n.(vote := Some(candidate)), n.(vote := Some(candidate), saveVote := true), d);
  }

  lemma RequestVoteMoves(n: Node, c: Core, e: Envelope) returns (d: Core)
    requires Base(n, c) && Solo(c) && MsgOk(e, c) && e.dst == n.id && e.message.RequestVote? && e.message.term <= n.term
    ensures Moves(n, c, Dispatch(n, e.src, e.message), d, d, d)
  {
    var m := e.message;
    if m.term >= n.term && (n.vote == None || n.vote == Some(m.candidate)) && UpToDate(n, m.lastTerm, m.lastIndex) {
      TopOfStrip(n.log);
      d := GrantedMoves(n, c, m.candidate);
    } else {
      d := c;
      DenyMoves(n, c, m.candidate);
    }
  }

  lemma VoteResponseMoves(n: Node, c: Core, e: Envelope) returns (a: Core, b: Core, d: Core)
    requires Base(n, c) && Solo(c) && MsgOk(e, c) && e.dst == n.id && e.message.RequestVoteResponse?
    ensures Moves(n, c, Dispatch(n, e.src, e.message), a, b, d)
  {
    var m := e.message;
    if !n.role.Candidate? || m.term != n.term || !m.granted {
      a, b, d := c, c, c;
      StillMoves(n, c, Effect(n, []));
    } else {
      var k := n.(votes := n.votes + {e.src});
      assert Base(k, c);
      if |k.votes| >= Quorum(n.size) {
        a, b, d := BecomeLeaderMoves(k, c);
      } else {
        a, b, d := c, c, c;
        StillMoves(n, c, Effect(k, []));
      }
    }
  }

  lemma ForwardMoves(n: Node, c: Core, from: NodeId, m: Message) returns (b: Core, d: Core)
    requires Base(n, c) && Solo(c) && m.Forward?
    ensures Moves(n, c, Dispatch(n, from, m), c, b, d)
  {
    if n.role.Leader? {
      b, d := ProposeMoves(n, c, m.value);
    } else {
      b, d := c, c;
      var f := Dispatch(n, from, m);
      AlikeBase(n, f.node, c);
      StillMoves(n, c, f);
    }
  }

  // ---------- Replication ----------

  lemma MatchedBase(n: Node, c: Core, from: NodeId, i: nat)
    requires Base(n, c) && n.role.Leader? && from < c.n && Acked(c.acked, n.term, from, i + 1)
    ensures Base(n.(matched := n.matched[from := Some(i)], next := n.next[from := i + 1]), c)
  {
  }

  lemma AckMoves(n: Node, c: Core, from: NodeId, i: nat) returns (d: Core)
    requires Base(n, c) && Solo(c) && n.role.Leader? && from < c.n && Acked(c.acked, n.term, from, i + 1)
    ensures Moves(n, c, Effect(Acknowledge(n, from, i), []), c, c, d)
  {
    MatchedBase(n, c, from, i);
    ActsSelf(c, n.id);
    d := AdvanceFrom(n.(matched := n.matched[from := Some(i)], next := n.next[from := i + 1]), c, c);
  }

  lemma ResendMoves(n: Node, c: Core, from: NodeId, conflictTerm: Option<nat>, conflictIndex: Option<nat>)
    requires Base(n, c) && Solo(c) && n.role.Leader?
    ensures Moves(n, c, Resend(n, from, conflictTerm, conflictIndex), c, c, c)
  {
    var f := Resend(n, from, conflictTerm, conflictIndex);
    var next := Min(Resume(n, from, conflictTerm, conflictIndex), |n.log|);
    assert n.log[|n.log| - |n.log[next..]|..] == n.log[next..];
    LeaderOutOk(n, c, n.log[next..], Peer(from));
    AlikeBase(n, f.node, c);
    StillMoves(n, c, f);
  }

  lemma IgnoreMoves(n: Node, c: Core)
    requires Base(n, c) && Solo(c)
    ensures Moves(n, c, Effect(n, []), c, c, c)
  {
    StillMoves(n, c, Effect(n, []));
  }

  lemma AppendResponseMoves(n: Node, c: Core, from: NodeId, m: Message) returns (d: Core)
    requires Base(n, c) && Solo(c) && from < c.n && m.AppendEntriesResponse?
    requires m.success && m.matchIndex.Some? ==> Acked(c.acked, m.term, from, m.matchIndex.value + 1)
    ensures Moves(n, c, Dispatch(n, from, m), c, c, d)
  {
    d := c;
    if !n.role.Leader? || m.term != n.term {
      IgnoreMoves(n, c);
    } else if !m.success {
      ResendMoves(n, c, from, m.conflictTerm, m.conflictIndex);
    } else if m.matchIndex.None? || m.matchIndex.value >= |n.log| {
      IgnoreMoves(n, c);
    } else {
      d := AckMoves(n, c, from, m.matchIndex.value);
    }
  }
}
