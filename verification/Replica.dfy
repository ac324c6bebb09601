/**
 How a node in memory stands to the durable state and history of `RaftCore`, and why each
 handler that runs to its end carries that relation over: the core makes a few moves, and
 every message the handler sends says something true of the core it reaches.
 */
module Replica {
  import opened Types
  import opened RaftCore
  import opened RaftMoves
  import opened RaftNode
  import opened Cluster

  /** What storage holds of a node, once flushed. */
  function View(n: Node): Durable { Durable(n.term, n.vote, Strip(n.log), Length(n.commit)) }

  /** A leader has its whole log on disk as long as it stays in its term. */
  ghost predicate Whole(c: Core) {
    forall t :: t in c.won && c.won[t].leader < |c.nodes| && c.nodes[c.won[t].leader].term == t ==>
      c.nodes[c.won[t].leader].log == c.won[t].log
  }

  /** Alone, a node that has voted has voted for itself and won. */
  ghost predicate Solo(c: Core) {
    c.n == 1 ==> forall v :: 0 <= v < |c.nodes| ==> Settled(c, v, c.nodes[v])
  }

  ghost predicate Settled(c: Core, v: NodeId, x: Durable) {
    x.vote.Some? ==> x.vote == Some(v) && x.term in c.won
  }

  /** From c to d only node v acted, and it confirmed at most k entries of another's log. */
  ghost predicate OnlyActs(c: Core, d: Core, v: NodeId, k: nat := 0) {
    && Extends(c, d)
    && (forall w :: 0 <= w < |c.nodes| && w != v ==> d.nodes[w] == c.nodes[w])
    && (forall t :: t in d.won && t !in c.won ==> d.won[t].leader == v)
    && (forall t :: t in c.won && c.won[t].leader != v ==> d.won[t].log == c.won[t].log)
    && (forall t, w :: (t, w) in d.acked && !(w == v && t in d.won && d.won[t].leader == v) ==>
          ((t, w) in c.acked && d.acked[(t, w)] == c.acked[(t, w)]) || (w == v && d.acked[(t, w)] <= k))
  }

  // The next two predicates are stated behind `Opened`, which is always true, so that a proof
  // that only hands them on does not have to work with all they say; `OpenSound` and `OpenActs`
  // give their meaning.

  ghost predicate Opened(c: Core, k: nat) { true }

  ghost predicate Sound(c: Core) {
    forall k: nat {:trigger Opened(c, k)} :: Opened(c, k) ==> Inv(c) && Whole(c)
  }

  ghost predicate Acts(c: Core, d: Core, v: NodeId, k: nat := 0) {
    forall i: nat {:trigger Opened(d, i)} :: Opened(d, i) ==> OnlyActs(c, d, v, k)
  }

  lemma OpenSound(c: Core)
    requires Sound(c)
    ensures Inv(c) && Whole(c)
  {
    assert Opened(c, 0);
  }

  lemma OpenActs(c: Core, d: Core, v: NodeId, k: nat := 0)
    requires Acts(c, d, v, k)
    ensures OnlyActs(c, d, v, k)
  {
    assert Opened(d, 0);
  }

  ghost predicate Lawful(c: Core, d: Core, v: NodeId, k: nat := 0) {
    Sound(d) && Solo(d) && Acts(c, d, v, k) && |d.nodes| == |c.nodes|
  }

  /** What a leader or a candidate remembers is true. */
  ghost predicate RoleOk(n: Node, c: Core) {
    && (n.role.Leader? ==>
          && n.term in c.won && c.won[n.term].leader == n.id
          && (forall w :: w in n.matched ==> w < c.n && n.matched[w].Some? && Acked(c.acked, n.term, w, Length(n.matched[w]))))
    && (n.role.Candidate? ==>
          && (n.term, n.id) in c.bids && c.bids[(n.term, n.id)] == Strip(n.log)
          && (n.term in c.won ==> c.won[n.term].leader != n.id)
          && (forall w :: w in n.votes ==> (n.term, w) in c.cast && c.cast[(n.term, w)].candidate == n.id))
  }

  /** The node in memory and its part of the core agree. */
  ghost predicate Base(n: Node, c: Core) {
    && Sound(c) && n.id < c.n && n.size == c.n && |c.nodes| == c.n
    && c.nodes[n.id] == View(n) && RoleOk(n, c)
  }

  // ---------- Messages ----------

  /** How far into its leader's log an AppendEntries reaches. */
  function End(m: Message): nat
    requires m.AppendEntries?
  {
    Length(m.prevIndex) + |m.entries|
  }

  /** An AppendEntries carries a stretch of its leader's log, up to where only the leader's own entries follow. */
  ghost predicate AppendOk(m: Message, src: NodeId, c: Core)
    requires m.AppendEntries?
  {
    var start := Length(m.prevIndex);
    && m.leader == src && Covered(c.won, m.term, End(m)) && c.won[m.term].leader == src
    && Strip(m.entries) == c.won[m.term].log[start..End(m)]
    && (0 < start ==> m.prevTerm == c.won[m.term].log[start - 1].term)
    && Length(m.leaderCommit) <= |c.won[m.term].log| && Known(c.won, c.certs, c.won[m.term].log[..Length(m.leaderCommit)], m.term)
  }

  /** Every message in the network says something true of the core. */
  ghost predicate MsgOk(e: Envelope, c: Core) {
    && e.src < c.n && e.dst < c.n && e.src != e.dst
    && match e.message
       case RequestVote(term, candidate, lastIndex, lastTerm) =>
         candidate == e.src && (term, e.src) in c.bids && Length(lastIndex) == |c.bids[(term, e.src)]| && lastTerm == TopTerm(c.bids[(term, e.src)])
       case RequestVoteResponse(term, granted) =>
         granted ==> (term, e.src) in c.cast && c.cast[(term, e.src)].candidate == e.dst
       case AppendEntries(_, _, _, _, _, _) => AppendOk(e.message, e.src, c)
       case AppendEntriesResponse(term, success, matchIndex, _, _) =>
         success && matchIndex.Some? ==> Acked(c.acked, term, e.src, matchIndex.value + 1)
       case Forward(_, _) => true
  }

  /** A message about to be sent, to whomever it goes; an AppendEntries reaches the end of the leader's log. */
  ghost predicate OutOk(o: Outgoing, src: NodeId, c: Core) {
    forall dst: nat :: dst < c.n && dst != src && (o.target == Broadcast || o.target == Peer(dst)) ==>
      MsgOk(Envelope(src, dst, o.message), c) && (o.message.AppendEntries? ==> End(o.message) == |c.won[o.message.term].log|)
  }

  ghost predicate OutsOk(out: seq<Outgoing>, src: NodeId, c: Core) {
    forall i :: 0 <= i < |out| ==> OutOk(out[i], src, c)
  }

  /**
   A handler run to its end, as moves of the core: `a` is where it stands before the log is
   written, `b` before the commit index is, `d` at the end. It confirms at most `reach` entries
   of another's log.
   */
  ghost predicate Moves(n: Node, c: Core, f: Effect, a: Core, b: Core, d: Core, reach: nat := 0) {
    && n.id < |c.nodes|
    && Lawful(c, a, n.id) && Lawful(c, b, n.id, reach) && Lawful(c, d, n.id, reach)
    && a.nodes[n.id] == View(f.node).(log := c.nodes[n.id].log, commit := c.nodes[n.id].commit)
    && b.nodes[n.id] == View(f.node).(commit := c.nodes[n.id].commit)
    && Base(f.node, d) && f.node.id == n.id && OutsOk(f.out, n.id, d)
  }

  // ---------- Composition ----------

  lemma OnlyActsTransitive(c: Core, d: Core, e: Core, v: NodeId, j: nat, k: nat)
    requires OnlyActs(c, d, v, j) && OnlyActs(d, e, v, k)
    ensures OnlyActs(c, e, v, Max(j, k))
  {
    ExtendsTransitive(c, d, e);
  }

  lemma ActsTransitive(c: Core, d: Core, e: Core, v: NodeId, j: nat := 0, k: nat := 0)
    requires Acts(c, d, v, j) && Acts(d, e, v, k)
    ensures Acts(c, e, v, Max(j, k))
  {
    OpenActs(c, d, v, j);
    OpenActs(d, e, v, k);
    OnlyActsTransitive(c, d, e, v, j, k);
  }

  lemma ActsSelf(c: Core, v: NodeId)
    ensures Acts(c, c, v)
  {
  }

  lemma ActsMore(c: Core, d: Core, v: NodeId, k: nat)
    requires Acts(c, d, v)
    ensures Acts(c, d, v, k)
  {
    OpenActs(c, d, v);
  }

  lemma UpdateActs(c: Core, v: NodeId, x: Durable, ack: nat)
    requires Whole(c) && v < |c.nodes| && Extends(c, Update(c, v, x, ack))
    requires x.term in c.won && c.won[x.term].leader == v ==> x.log == c.won[x.term].log
    ensures var d := Update(c, v, x, ack); Whole(d) && OnlyActs(c, d, v, ack)
  {
  }

  /** One move of a node's durable state. */
  lemma UpdateLawful(c: Core, v: NodeId, x: Durable, ack: nat)
    requires Inv(c) && Whole(c) && v < c.n && Fits(c, v, x, ack)
    requires x.term in c.won && c.won[x.term].leader == v ==> x.log == c.won[x.term].log
    ensures var d := Update(c, v, x, ack); Sound(d) && Acts(c, d, v, ack) && (Solo(c) && (c.n == 1 ==> Settled(c, v, x)) ==> Solo(d))
  {
    UpdateInv(c, v, x, ack);
    UpdateActs(c, v, x, ack);
  }

  // ---------- Leaders ----------

  lemma LeaderFitsAcks(c: Core, v: NodeId, x: Durable)
    requires Shape(c) && AcksHeld(c) && v < c.n && c.nodes[v].term in c.won
    requires x == c.nodes[v].(log := c.won[c.nodes[v].term].log) && c.nodes[v].log <= x.log
    ensures FitsAcks(c, v, x, |x.log|)
  {
    forall t: nat, k: nat ensures Kept(c.won, c.acked, x, v, t, k) {
      assert Kept(c.won, c.acked, c.nodes[v], v, t, k);
    }
  }

  /** A leader's disk catches up with its log, and counts as one copy of it. */
  lemma LeaderFits(c: Core, v: NodeId)
    requires Inv(c) && v < c.n && c.nodes[v].term in c.won && c.won[c.nodes[v].term].leader == v
    ensures var l := c.won[c.nodes[v].term].log; Fits(c, v, c.nodes[v].(log := l), |l|)
  {
    var old_ := c.nodes[v];
    var x := old_.(log := c.won[old_.term].log);
    LeaderFitsAcks(c, v, x);
    assert x.log[..x.commit] == old_.log[..x.commit];
  }

  ghost function Appended(c: Core, v: NodeId, es: Log): Core
    requires v < |c.nodes| && c.nodes[v].term in c.won
  {
    var u := c.nodes[v].term;
    Update(Grow(c, u, es), v, c.nodes[v].(log := c.won[u].log + es), |c.won[u].log + es|)
  }

  lemma AppendedActs(c: Core, v: NodeId, es: Log)
    requires v < |c.nodes| && c.nodes[v].term in c.won && c.won[c.nodes[v].term].leader == v && Whole(c)
    requires Extends(c, Grow(c, c.nodes[v].term, es)) && Extends(Grow(c, c.nodes[v].term, es), Appended(c, v, es))
    ensures Whole(Appended(c, v, es)) && OnlyActs(c, Appended(c, v, es), v) && (Solo(c) ==> Solo(Appended(c, v, es)))
  {
    ExtendsTransitive(c, Grow(c, c.nodes[v].term, es), Appended(c, v, es));
  }

  lemma AppendedInv(c: Core, v: NodeId, es: Log)
    requires Inv(c) && v < c.n && c.nodes[v].term in c.won && c.won[c.nodes[v].term].leader == v
    requires forall i :: 0 <= i < |es| ==> es[i].term == c.nodes[v].term
    ensures Inv(Appended(c, v, es)) && Extends(c, Grow(c, c.nodes[v].term, es)) && Extends(Grow(c, c.nodes[v].term, es), Appended(c, v, es))
  {
    var u := c.nodes[v].term;
    var g := Grow(c, u, es);
    GrowInv(c, u, es);
    LeaderFits(g, v);
    UpdateInv(g, v, g.nodes[v].(log := g.won[u].log), |g.won[u].log|);
  }

  /** A leader appends entries of its term; with none, it only counts itself as a copy. */
  lemma AppendedLawful(c: Core, v: NodeId, es: Log)
    requires Sound(c) && v < |c.nodes| && c.nodes[v].term in c.won && c.won[c.nodes[v].term].leader == v
    requires forall i :: 0 <= i < |es| ==> es[i].term == c.nodes[v].term
    ensures var d := Appended(c, v, es); Sound(d) && Acts(c, d, v) && (Solo(c) ==> Solo(d))
    ensures Appended(c, v, es).nodes[v] == c.nodes[v].(log := c.nodes[v].log + es)
  {
    OpenSound(c);
    AppendedInv(c, v, es);
    AppendedActs(c, v, es);
  }

  lemma HoldersAck(n: Node, c: Core, k: nat)
    requires RoleOk(n, c) && n.role.Leader? && 0 < k
    ensures Holders(n.matched, k) <= Ackers(c.n, c.acked, n.term, k)
  {
  }

  /** The commit rule only certifies what a majority has confirmed. */
  lemma AdvanceChosen(n: Node, c: Core)
    requires RoleOk(n, c) && Whole(c) && n.id < |c.nodes| && c.nodes[n.id] == View(n) && n.size == c.n
    requires n.role.Leader? && |n.matched| >= Quorum(n.size)
    requires var k := HeldBy(n.matched, Quorum(n.size)); 0 < k <= |n.log| && n.log[k - 1].term == n.term
    ensures Chosen(c.n, c.won, c.acked, n.term, HeldBy(n.matched, Quorum(n.size)))
  {
    var k := HeldBy(n.matched, Quorum(n.size));
    HeldByMeans(n.matched, Quorum(n.size));
    HoldersAck(n, c, k);
    SubsetSize(Holders(n.matched, k), Ackers(c.n, c.acked, n.term, k));
    assert c.won[n.term].log == Strip(n.log);
  }

  /** The core a leader reaches by committing k entries. */
  ghost function Committed(c: Core, v: NodeId, k: nat): Core
    requires v < |c.nodes|
  {
    Update(Certify(c, c.nodes[v].term, k), v, c.nodes[v].(commit := k), 0)
  }

  lemma CertifySound(c: Core, v: NodeId, k: nat)
    requires Sound(c) && v < |c.nodes| && Chosen(c.n, c.won, c.acked, c.nodes[v].term, k)
    ensures var e := Certify(c, c.nodes[v].term, k); Sound(e) && Acts(c, e, v)
  {
    OpenSound(c);
    CertifyInv(c, c.nodes[v].term, k);
  }

  lemma CommitSound(c: Core, v: NodeId, k: nat)
    requires Sound(c) && v < |c.nodes| && k <= |c.nodes[v].log| && Known(c.won, c.certs, c.nodes[v].log[..k], c.nodes[v].term)
    ensures var d := Update(c, v, c.nodes[v].(commit := k), 0); Sound(d) && Acts(c, d, v)
  {
    OpenSound(c);
    CommitFits(c, v, k);
    UpdateLawful(c, v, c.nodes[v].(commit := k), 0);
  }

  lemma CommittedSound(c: Core, v: NodeId, k: nat)
    requires Sound(c) && v < |c.nodes| && Chosen(c.n, c.won, c.acked, c.nodes[v].term, k) && c.nodes[v].log == c.won[c.nodes[v].term].log
    ensures var d := Committed(c, v, k); Sound(d) && Acts(c, d, v)
  {
    var e := Certify(c, c.nodes[v].term, k);
    CertifySound(c, v, k);
    assert Cert(c.nodes[v].term, k) in e.certs && Covers(e.won, Cert(c.nodes[v].term, k), e.nodes[v].log[..k]);
    CommitSound(e, v, k);
    ActsTransitive(c, e, Committed(c, v, k), v);
  }

  lemma CommittedBase(n: Node, c: Core, k: nat)
    requires Base(n, c) && n.role.Leader? && 0 < k <= |n.log| && Chosen(c.n, c.won, c.acked, n.term, k)
    ensures var d := Committed(c, n.id, k); Base(n.(commit := Some(k - 1)), d) && Acts(c, d, n.id) && (Solo(c) ==> Solo(d))
  {
    assert Strip(n.log) == c.won[n.term].log by { OpenSound(c); }
    CommittedSound(c, n.id, k);
  }

  /** Only some fields matter to the relation. */
  lemma AlikeBase(n: Node, m: Node, c: Core)
    requires Base(n, c)
    requires m.id == n.id && m.size == n.size && m.term == n.term && m.vote == n.vote && m.log == n.log && m.commit == n.commit
    requires m.role == n.role && m.matched == n.matched && m.votes == n.votes
    ensures Base(m, c)
  {
  }

  lemma TryAdvanceCommits(n: Node, c: Core, k: nat) returns (d: Core)
    requires Base(n, c) && n.role.Leader? && |n.matched| >= Quorum(n.size) && k == HeldBy(n.matched, Quorum(n.size))
    requires 0 < k <= |n.log| && n.log[k - 1].term == n.term
    ensures Base(n.(commit := Some(k - 1)), d) && Acts(c, d, n.id) && (Solo(c) ==> Solo(d))
  {
    assert Whole(c) by { OpenSound(c); }
    AdvanceChosen(n, c);
    CommittedBase(n, c, k);
    d := Committed(c, n.id, k);
  }

  lemma TryAdvanceMoves(n: Node, c: Core) returns (d: Core)
    requires Base(n, c) && n.role.Leader?
    ensures Base(TryAdvance(n), d) && Acts(c, d, n.id) && (Solo(c) ==> Solo(d))
  {
    if TryAdvance(n) == n {
      d := c;
      ActsSelf(c, n.id);
    } else {
      var k := HeldBy(n.matched, Quorum(n.size));
      d := TryAdvanceCommits(n, c, k);
      AlikeBase(n.(commit := Some(k - 1)), TryAdvance(n), d);
    }
  }

  lemma StripEntries(term: nat, values: seq<Pending>, log: LiveLog)
    ensures Strip(log + Entries(term, values)) == Strip(log) + Strip(Entries(term, values))
    ensures forall i :: 0 <= i < |values| ==> Strip(Entries(term, values))[i].term == term
  {
  }

  lemma RaisedAcks(acked: map<(nat, NodeId), nat>, t: nat, v: NodeId, k: nat)
    requires 0 < k
    ensures var r := Raise(acked, t, v, k); Acked(r, t, v, k)
    ensures forall u: nat, w: nat, i: nat :: Acked(acked, u, w, i) ==> Acked(Raise(acked, t, v, k), u, w, i)
  {
  }

  lemma AppendedLook(c: Core, v: NodeId, es: Log)
    requires v < |c.nodes| && c.nodes[v].term in c.won
    ensures var u := c.nodes[v].term; var d := Appended(c, v, es);
      d.n == c.n && |d.nodes| == |c.nodes| && d.acked == Raise(c.acked, u, v, |c.won[u].log + es|) && u in d.won && d.won[u].leader == c.won[u].leader
  {
  }

  lemma TakenInRole(n: Node, c: Core, d: Core, values: seq<Pending>)
    requires RoleOk(n, c) && n.role.Leader? && values != [] && n.id < c.n && d.n == c.n
    requires d.acked == Raise(c.acked, n.term, n.id, |n.log| + |values|) && n.term in d.won && d.won[n.term].leader == n.id
    ensures RoleOk(TakenIn(n, values), d)
  {
    RaisedAcks(c.acked, n.term, n.id, |n.log| + |values|);
  }

  lemma TakenInBase(n: Node, c: Core, values: seq<Pending>)
    requires Base(n, c) && n.role.Leader? && values != []
    ensures var b := Appended(c, n.id, Strip(Entries(n.term, values)));
      Base(TakenIn(n, values), b) && Acts(c, b, n.id) && (Solo(c) ==> Solo(b))
  {
    var es := Strip(Entries(n.term, values));
    StripEntries(n.term, values, n.log);
    assert Strip(n.log) == c.won[n.term].log by { OpenSound(c); }
    AppendedLawful(c, n.id, es);
    AppendedLook(c, n.id, es);
    TakenInRole(n, c, Appended(c, n.id, es), values);
  }

  lemma AdvanceFrom(m: Node, c: Core, b: Core) returns (d: Core)
    requires Base(m, b) && m.role.Leader? && Solo(b) && Acts(c, b, m.id) && |b.nodes| == |c.nodes|
    ensures Lawful(c, b, m.id) && Lawful(c, d, m.id) && Base(TryAdvance(m), d)
    ensures b.nodes[m.id] == View(TryAdvance(m)).(commit := Length(m.commit))
  {
    d := TryAdvanceMoves(m, b);
    ActsTransitive(c, b, d, m.id);
  }

  lemma TakeInMoves(n: Node, c: Core, values: seq<Pending>) returns (b: Core, d: Core)
    requires Base(n, c) && n.role.Leader? && values != [] && Solo(c)
    ensures Lawful(c, b, n.id) && Lawful(c, d, n.id) && Base(TakeIn(n, values), d)
    ensures b.nodes[n.id] == View(TakeIn(n, values)).(commit := Length(n.commit))
  {
    TakenInBase(n, c, values);
    b := Appended(c, n.id, Strip(Entries(n.term, values)));
    d := AdvanceFrom(TakenIn(n, values), c, b);
  }

  /** Whatever stretch of its log a leader sends, up to the end, is as the network requires. */
  lemma LeaderMessageOk(n: Node, c: Core, entries: LiveLog, dst: NodeId)
    requires Base(n, c) && n.role.Leader? && |entries| <= |n.log| && entries == n.log[|n.log| - |entries|..]
    requires dst < c.n && dst != n.id
    ensures MsgOk(Envelope(n.id, dst, WithEntries(n, entries)), c) && End(WithEntries(n, entries)) == |c.won[n.term].log|
  {
    var start := |n.log| - |entries|;
    var l := c.won[n.term].log;
    assert Strip(n.log) == l && Known(c.won, c.certs, l[..Length(n.commit)], n.term) && Length(n.commit) <= |l| by { OpenSound(c); }
    assert Strip(entries) == l[start..|l|];
  }
}
