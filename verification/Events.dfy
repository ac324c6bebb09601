/** Whole events at a node, run to their end or cut short by a crash, as lawful moves of the core. */
module Events {
  import opened Types
  import opened RaftCore
  import opened RaftMoves
  import opened RaftNode
  import opened Cluster
  import opened Replica
  import opened Handlers
  import opened Replication

  // ---------- Messages stay true ----------

  lemma AppendOkStable(m: Message, src: NodeId, c: Core, d: Core)
    requires m.AppendEntries? && AppendOk(m, src, c) && Extends(c, d)
    ensures AppendOk(m, src, d)
  {
    var start := Length(m.prevIndex);
    var l, l' := c.won[m.term].log, d.won[m.term].log;
    assert l'[start..End(m)] == l[start..End(m)];
    assert l'[..Length(m.leaderCommit)] == l[..Length(m.leaderCommit)];
    KnownStable(c, d, l[..Length(m.leaderCommit)], m.term, m.term);
  }

  lemma MsgOkStable(e: Envelope, c: Core, d: Core)
    requires MsgOk(e, c) && Extends(c, d)
    ensures MsgOk(e, d)
  {
    if e.message.AppendEntries? { AppendOkStable(e.message, e.src, c, d); }
  }

  // ---------- Observing a later term ----------

  lemma StepDownRole(n: Node, c: Core, u: nat)
    requires n.id < |c.nodes| && |c.nodes| == c.n && n.size == c.n && c.nodes[n.id] == View(n) && n.term < u
    ensures var m := BecomeFollower(n, u); var d := Bumped(c, n.id, u, None);
      m.id == n.id && m.size == d.n && |d.nodes| == d.n && d.nodes[n.id] == View(m) && RoleOk(m, d)
  {
  }

  lemma StepDownMoves(n: Node, c: Core, u: nat)
    requires Base(n, c) && Solo(c) && n.term < u
    ensures var d := Bumped(c, n.id, u, None); Base(BecomeFollower(n, u), d) && Lawful(c, d, n.id)
  {
    BumpedSound(c, n.id, u, None);
    StepDownRole(n, c, u);
  }

  lemma StepDownMsg(e: Envelope, c: Core, v: NodeId, u: nat, n: Node)
    requires v < |c.nodes| && MsgOk(e, c) && n.id == v && Ordered(n, c, e.message) && !e.message.Forward? && e.message.term >= n.term
    ensures var d := Bumped(c, v, u, None); MsgOk(e, d) && forall m: Node :: m.id == v ==> Ordered(m, d, e.message)
  {
  }

  lemma MovesAfter(n: Node, c: Core, m: Node, c1: Core, f: Effect, a: Core, b: Core, d: Core, reach: nat)
    requires Lawful(c, c1, n.id) && Moves(m, c1, f, a, b, d, reach) && m.id == n.id && n.id < |c.nodes|
    requires c1.nodes[n.id].log == c.nodes[n.id].log && c1.nodes[n.id].commit == c.nodes[n.id].commit
    ensures Moves(n, c, f, a, b, d, reach)
  {
    ActsTransitive(c, c1, a, n.id);
    ActsTransitive(c, c1, b, n.id, 0, reach);
    ActsTransitive(c, c1, d, n.id, 0, reach);
  }

  // ---------- Events that run to their end ----------

  lemma DispatchMoves(n: Node, c: Core, e: Envelope) returns (a: Core, b: Core, d: Core)
    requires Base(n, c) && Solo(c) && MsgOk(e, c) && e.dst == n.id && Ordered(n, c, e.message)
    requires e.message.Forward? || e.message.term <= n.term
    ensures Moves(n, c, Dispatch(n, e.src, e.message), a, b, d, Reach(n, e.message))
  {
    a, b, d := c, c, c;
    match e.message
    case RequestVote(_, _, _, _) => d := RequestVoteMoves(n, c, e); a, b := d, d;
    case RequestVoteResponse(_, _) => a, b, d := VoteResponseMoves(n, c, e);
    case AppendEntries(_, _, _, _, _, _) => b, d := AppendMoves(n, c, e.src, e.message);
    case AppendEntriesResponse(_, _, _, _, _) => d := AppendResponseMoves(n, c, e.src, e.message);
    case Forward(_, _) => b, d := ForwardMoves(n, c, e.src, e.message);
  }

  lemma LaterMoves(n: Node, c: Core, e: Envelope) returns (a: Core, b: Core, d: Core)
    requires Base(n, c) && Solo(c) && MsgOk(e, c) && e.dst == n.id && Ordered(n, c, e.message) && !e.message.Forward?
    requires e.message.term > n.term
    ensures Moves(n, c, Dispatch(BecomeFollower(n, e.message.term), e.src, e.message), a, b, d, Reach(n, e.message))
  {
    var u := e.message.term;
    StepDownMoves(n, c, u);
    StepDownMsg(e, c, n.id, u, n);
    a, b, d := DispatchMoves(BecomeFollower(n, u), Bumped(c, n.id, u, None), e);
    MovesAfter(n, c, BecomeFollower(n, u), Bumped(c, n.id, u, None), Dispatch(BecomeFollower(n, u), e.src, e.message), a, b, d, Reach(n, e.message));
  }

  lemma ReceiveMoves(n: Node, c: Core, e: Envelope) returns (a: Core, b: Core, d: Core)
    requires Base(n, c) && Solo(c) && MsgOk(e, c) && e.dst == n.id && Ordered(n, c, e.message)
    ensures Moves(n, c, HandleMessage(n, e.src, e.message), a, b, d, Reach(n, e.message))
  {
    if !e.message.Forward? && e.message.term > n.term {
      a, b, d := LaterMoves(n, c, e);
    } else {
      a, b, d := DispatchMoves(n, c, e);
    }
  }

  lemma TickMoves(n: Node, c: Core, due: bool) returns (a: Core, b: Core, d: Core)
    requires Base(n, c) && Solo(c)
    ensures Moves(n, c, OnTick(n, due), a, b, d)
  {
    a, b, d := c, c, c;
    if !due {
      IgnoreMoves(n, c);
    } else if n.role.Leader? {
      HeartbeatOk(n, c);
      StillMoves(n, c, OnTick(n, due));
    } else {
      a, b, d := StartElectionMoves(n, c);
    }
  }

  /** The event is possible in the core: a received message is one of the network's, in order. */
  ghost predicate Sensible(n: Node, c: Core, e: Event) {
    e.Receive? ==> MsgOk(Envelope(e.from, n.id, e.message), c) && Ordered(n, c, e.message)
  }

  function EventReach(n: Node, e: Event): nat { if e.Receive? then Reach(n, e.message) else 0 }

  /** Every event that runs to its end is a lawful series of moves. */
  lemma EventMoves(n: Node, c: Core, e: Event) returns (a: Core, b: Core, d: Core)
    requires Base(n, c) && Solo(c) && Sensible(n, c, e)
    ensures Moves(n, c, Handle(n, e), a, b, d, EventReach(n, e))
  {
    match e
    case Tick(due) => a, b, d := TickMoves(n, c, due);
    case Submit(value) => b, d := ProposeMoves(n, c, value); a := c;
    case Receive(from, message) => a, b, d := ReceiveMoves(n, c, Envelope(from, n.id, message));
  }
}
