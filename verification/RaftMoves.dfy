/** The moves a cluster's durable state and history can make, each shown to keep `RaftCore.Inv`. */
module RaftMoves {
  import opened Types
  import opened RaftCore

  // ---------- Growth of history keeps what was established ----------

  lemma OnReignsStable(c: Core, d: Core, p: Log)
    requires Extends(c, d) && OnReigns(c.won, p)
    ensures OnReigns(d.won, p)
  {
  }

  /** A later leader's log never comes to hold, by growing, a prefix of an earlier term it lacked. */
  lemma SurvivesBack(c: Core, d: Core, t: nat, k: nat, hi: int)
    requires LogsOnReigns(c) && Extends(c, d)
    requires t in c.won && k <= |c.won[t].log| && Survives(d.won, t, k, hi)
    ensures Survives(c.won, t, k, hi)
  {
    forall u | u in c.won && t < u <= hi ensures c.won[t].log[..k] <= c.won[u].log {
      assert d.won[t].log[..k] == c.won[t].log[..k];
      PrefixBeforeGrowth(c.won[t].log[..k], c.won[u].log, d.won[u].log, u);
    }
  }

  /** A prefix of a grown log, free of the term it grew by, is a prefix of what it grew from. */
  lemma PrefixBeforeGrowth(p: Log, before: Log, after: Log, u: nat)
    requires p <= after && before <= after
    requires forall i :: 0 <= i < |p| ==> p[i].term < u
    requires forall i :: |before| <= i < |after| ==> after[i].term == u
    ensures p <= before
  {
    if p != [] { assert p[|p| - 1] == after[|p| - 1]; }
  }

  lemma KnownStable(c: Core, d: Core, p: Log, bound: nat, bound': nat)
    requires Extends(c, d) && Known(c.won, c.certs, p, bound) && bound <= bound'
    ensures Known(d.won, d.certs, p, bound')
  {
    if p != [] {
      var cert :| cert in c.certs && cert.term <= bound && Covers(c.won, cert, p);
      assert Covers(d.won, cert, p);
    }
  }

  lemma ChosenStable(c: Core, d: Core, t: nat, k: nat)
    requires Extends(c, d) && Chosen(c.n, c.won, c.acked, t, k)
    ensures Chosen(d.n, d.won, d.acked, t, k)
  {
    forall v | v in Ackers(c.n, c.acked, t, k) ensures v in Ackers(d.n, d.acked, t, k) {
      assert Acked(c.acked, t, v, k);
      assert Acked(d.acked, t, v, k);
    }
    SubsetSize(Ackers(c.n, c.acked, t, k), Ackers(d.n, d.acked, t, k));
  }

  lemma ExtendsTransitive(c: Core, d: Core, e: Core)
    requires Extends(c, d) && Extends(d, e)
    ensures Extends(c, e)
  {
    forall t | t in c.won
      ensures t in e.won && c.won[t].leader == e.won[t].leader && c.won[t].log <= e.won[t].log
      ensures forall i :: |c.won[t].log| <= i < |e.won[t].log| ==> e.won[t].log[i].term == t
    {
      assert t in d.won;
    }
  }

  // ---------- Moves of one node's durable state ----------

  /** The acknowledgements after node v confirms k entries of term t's leader; 0 confirms nothing. */
  ghost function Raise(acked: map<(nat, NodeId), nat>, t: nat, v: NodeId, k: nat): map<(nat, NodeId), nat> {
    if k == 0 || Acked(acked, t, v, k) then acked else acked[(t, v) := k]
  }

  /** Node v's durable state becomes x, and it confirms k entries of its term's leader. */
  ghost function Update(c: Core, v: NodeId, x: Durable, k: nat): Core
    requires v < |c.nodes|
  {
    c.(nodes := c.nodes[v := x], acked := Raise(c.acked, x.term, v, k))
  }

  /** What a node's new durable state must satisfy, given the history. */
  ghost predicate Fits(c: Core, v: NodeId, x: Durable, ack: nat)
    requires Shape(c) && v < c.n
  {
    && c.nodes[v].term <= x.term
    && FitsLog(c, v, x)
    && FitsAcks(c, v, x, ack)
    && x.commit <= |x.log| && Known(c.won, c.certs, x.log[..x.commit], x.term)
  }

  ghost predicate FitsLog(c: Core, v: NodeId, x: Durable) {
    && OnReigns(c.won, x.log) && TermsUpTo(x.log, x.term)
    && (x.term in c.won && c.won[x.term].leader == v ==> x.log <= c.won[x.term].log)
    && ((x.term, v) in c.cast ==> x.vote == Some(c.cast[(x.term, v)].candidate))
  }

  ghost predicate FitsAcks(c: Core, v: NodeId, x: Durable, ack: nat)
    requires Shape(c)
  {
    && (0 < ack ==> x.term in c.won && ack <= |c.won[x.term].log| && c.won[x.term].log[..ack] <= x.log)
    && (forall t: nat, k: nat :: Kept(c.won, c.acked, x, v, t, k))
    && (forall i :: 0 <= i < |x.log| && x.log[i].term == x.term ==> Acked(Raise(c.acked, x.term, v, ack), x.term, v, i + 1))
  }

  lemma UpdateLogs(c: Core, v: NodeId, x: Durable, ack: nat)
    requires Shape(c) && LogsOnReigns(c) && v < c.n && Fits(c, v, x, ack)
    ensures Shape(Update(c, v, x, ack)) && LogsOnReigns(Update(c, v, x, ack))
  {
  }

  lemma UpdateReigns(c: Core, v: NodeId, x: Durable, ack: nat)
    requires Shape(c) && ReignsGrowFromBids(c) && VotesSound(c) && v < c.n && Fits(c, v, x, ack) && Shape(Update(c, v, x, ack))
    ensures ReignsGrowFromBids(Update(c, v, x, ack)) && VotesSound(Update(c, v, x, ack)) && Extends(c, Update(c, v, x, ack))
  {
  }

  lemma UpdateHeld(c: Core, v: NodeId, x: Durable, ack: nat)
    requires Shape(c) && AcksHeld(c) && OwnTermAcked(c) && v < c.n && Fits(c, v, x, ack)
    ensures AcksHeld(Update(c, v, x, ack)) && OwnTermAcked(Update(c, v, x, ack))
  {
    var d := Update(c, v, x, ack);
    forall w: nat, t: nat, k: nat | w < |d.nodes| ensures Kept(d.won, d.acked, d.nodes[w], w, t, k) {
      assert Kept(c.won, c.acked, d.nodes[w], w, t, k);
    }
  }

  lemma UpdateBallots(c: Core, v: NodeId, x: Durable, ack: nat)
    requires Shape(c) && BallotsHeld(c) && ElectorsVoted(c) && v < c.n && Fits(c, v, x, ack) && Shape(Update(c, v, x, ack))
    ensures BallotsHeld(Update(c, v, x, ack)) && ElectorsVoted(Update(c, v, x, ack))
  {
    var d := Update(c, v, x, ack);
    forall w: nat, u: nat, t: nat, k: nat | (u, w) in d.cast ensures KeptAtVote(d.won, d.acked, d.cast[(u, w)], w, u, t, k) {
      assert KeptAtVote(c.won, c.acked, c.cast[(u, w)], w, u, t, k);
    }
  }

  lemma UpdateKnown(c: Core, v: NodeId, x: Durable, ack: nat)
    requires Shape(c) && CommitsKnown(c) && v < c.n && Fits(c, v, x, ack) && Extends(c, Update(c, v, x, ack))
    ensures CommitsKnown(Update(c, v, x, ack))
  {
    var d := Update(c, v, x, ack);
    forall cert | cert in d.certs ensures Chosen(d.n, d.won, d.acked, cert.term, cert.len) { ChosenStable(c, d, cert.term, cert.len); }
  }

  lemma UpdateInv(c: Core, v: NodeId, x: Durable, ack: nat)
    requires Inv(c) && v < c.n && Fits(c, v, x, ack)
    ensures Inv(Update(c, v, x, ack)) && Extends(c, Update(c, v, x, ack))
  {
    UpdateLogs(c, v, x, ack);
    UpdateReigns(c, v, x, ack);
    UpdateHeld(c, v, x, ack);
    UpdateBallots(c, v, x, ack);
    UpdateKnown(c, v, x, ack);
  }

  // ---------- Terms and votes ----------

  /** A node moves to a later term; the vote on disk may be anything, since it has cast none there. */
  lemma BumpTermFits(c: Core, v: NodeId, u: nat, vote: Option<NodeId>)
    requires Inv(c) && v < c.n && c.nodes[v].term < u
    ensures Fits(c, v, c.nodes[v].(term := u, vote := vote), 0)
  {
    var x := c.nodes[v].(term := u, vote := vote);
    forall t: nat, k: nat ensures Kept(c.won, c.acked, x, v, t, k) {
      assert Kept(c.won, c.acked, c.nodes[v], v, t, k);
    }
    KnownStable(c, c, x.log[..x.commit], c.nodes[v].term, u);
  }

  /** A node that has cast no vote in its term may record any. */
  lemma SetVoteFits(c: Core, v: NodeId, vote: Option<NodeId>)
    requires Inv(c) && v < c.n && (c.nodes[v].vote == None || c.nodes[v].vote == vote)
    ensures Fits(c, v, c.nodes[v].(vote := vote), 0)
  {
    SameLogFits(c, v, c.nodes[v].(vote := vote));
  }

  lemma SameLogFits(c: Core, v: NodeId, x: Durable)
    requires Shape(c) && AcksHeld(c) && OwnTermAcked(c) && v < c.n && x.log == c.nodes[v].log && x.term == c.nodes[v].term
    ensures FitsAcks(c, v, x, 0)
  {
    forall t: nat, k: nat ensures Kept(c.won, c.acked, x, v, t, k) {
      assert Kept(c.won, c.acked, c.nodes[v], v, t, k);
    }
  }

  // ---------- Replication ----------

  /** `len` entries reach back far enough: the rest of the leader's log is of its own term. */
  ghost predicate Covered(won: map<nat, Reign>, u: nat, len: nat) {
    u in won && len <= |won[u].log| && forall i :: len <= i < |won[u].log| ==> won[u].log[i].term == u
  }

  lemma OnReignsPrefix(won: map<nat, Reign>, p: Log, q: Log)
    requires OnReigns(won, p) && q <= p
    ensures OnReigns(won, q)
  {
    forall i | 0 <= i < |q| ensures q[i].term in won && q[..i + 1] <= won[q[i].term].log {
      assert q[i] == p[i] && q[..i + 1] == p[..i + 1];
    }
  }

  /** A prefix shared by the node and its leader ends within `len`, if the node's entries of the term do. */
  lemma EndsWithin(p: Log, log: Log, l: Log, u: nat, len: nat)
    requires p <= log && p <= l && len <= |l|
    requires forall i :: 0 <= i < |log| && log[i].term == u ==> i < len
    requires forall i :: len <= i < |l| ==> l[i].term == u
    ensures p <= l[..len]
  {
    if p != [] { assert p[|p| - 1] == log[|p| - 1] == l[|p| - 1]; }
  }

  /** What a node knows to be committed is among the first `len` entries of its leader. */
  lemma CommittedStays(c: Core, v: NodeId, len: nat)
    requires Inv(c) && v < c.n && Covered(c.won, c.nodes[v].term, len)
    requires Acked(c.acked, c.nodes[v].term, v, 0) ==> c.acked[(c.nodes[v].term, v)] <= len
    ensures c.nodes[v].log[..c.nodes[v].commit] <= c.won[c.nodes[v].term].log[..len]
  {
    var x := c.nodes[v];
    KnownOnLeader(c, x.log[..x.commit], x.term);
    EndsWithin(x.log[..x.commit], x.log, c.won[x.term].log, x.term, len);
  }

  /** What a node confirmed to earlier leaders is among the first `len` entries of its leader, if the leader has it. */
  lemma AckedStays(c: Core, v: NodeId, len: nat, t: nat, k: nat)
    requires Shape(c) && LogsOnReigns(c) && v < c.n && Covered(c.won, c.nodes[v].term, len)
    requires Acked(c.acked, c.nodes[v].term, v, 0) ==> c.acked[(c.nodes[v].term, v)] <= len
    requires Acked(c.acked, t, v, k) && Survives(c.won, t, k, c.nodes[v].term)
    ensures c.won[t].log[..k] <= c.won[c.nodes[v].term].log[..len]
  {
    var u := c.nodes[v].term;
    if t < u {
      assert TermsUpTo(c.won[t].log, t);
      PrefixBeforeGrowth(c.won[t].log[..k], c.won[u].log[..len], c.won[u].log, u);
    }
  }

  lemma AcceptFitsAcks(c: Core, v: NodeId, len: nat)
    requires Shape(c) && LogsOnReigns(c) && v < c.n && Covered(c.won, c.nodes[v].term, len)
    requires Acked(c.acked, c.nodes[v].term, v, 0) ==> c.acked[(c.nodes[v].term, v)] <= len
    ensures FitsAcks(c, v, c.nodes[v].(log := c.won[c.nodes[v].term].log[..len]), len)
  {
    var x := c.nodes[v].(log := c.won[c.nodes[v].term].log[..len]);
    forall t: nat, k: nat ensures Kept(c.won, c.acked, x, v, t, k) {
      if Acked(c.acked, t, v, k) && Survives(c.won, t, k, x.term) { AckedStays(c, v, len, t, k); }
    }
  }

  /** Replacing the log by the first `len` entries of the leader's, never fewer than confirmed before. */
  lemma AcceptFits(c: Core, v: NodeId, len: nat)
    requires Inv(c) && v < c.n
    requires Covered(c.won, c.nodes[v].term, len) && c.won[c.nodes[v].term].leader != v
    requires Acked(c.acked, c.nodes[v].term, v, 0) ==> c.acked[(c.nodes[v].term, v)] <= len
    ensures Fits(c, v, c.nodes[v].(log := c.won[c.nodes[v].term].log[..len]), len)
  {
    var l := c.won[c.nodes[v].term].log;
    var x := c.nodes[v].(log := l[..len]);
    OnReignsPrefix(c.won, l, x.log);
    AcceptFitsAcks(c, v, len);
    CommittedStays(c, v, len);
    assert x.log[..x.commit] == c.nodes[v].log[..x.commit];
  }

  /** A prefix shared by the node and its leader survives cutting the node's log at a conflict or at `len`. */
  lemma CutKeeps(p: Log, log: Log, l: Log, j: nat, len: nat)
    requires p <= log && len <= |l| && p <= l[..len] && j <= |log|
    requires len <= j || (j < |log| && log[j] != l[j])
    ensures p <= log[..j]
  {
  }

  lemma CutFitsAcks(c: Core, v: NodeId, j: nat, len: nat)
    requires Shape(c) && LogsOnReigns(c) && AcksHeld(c) && OwnTermAcked(c) && v < c.n && Covered(c.won, c.nodes[v].term, len)
    requires Acked(c.acked, c.nodes[v].term, v, 0) ==> c.acked[(c.nodes[v].term, v)] <= len
    requires j <= |c.nodes[v].log|
    requires len <= j || (j < |c.nodes[v].log| && c.nodes[v].log[j] != c.won[c.nodes[v].term].log[j])
    ensures FitsAcks(c, v, c.nodes[v].(log := c.nodes[v].log[..j]), 0)
  {
    var x := c.nodes[v].(log := c.nodes[v].log[..j]);
    forall t: nat, k: nat ensures Kept(c.won, c.acked, x, v, t, k) {
      assert Kept(c.won, c.acked, c.nodes[v], v, t, k);
      if Acked(c.acked, t, v, k) && Survives(c.won, t, k, x.term) {
        AckedStays(c, v, len, t, k);
        CutKeeps(c.won[t].log[..k], c.nodes[v].log, c.won[x.term].log, j, len);
      }
    }
  }

  /** Cutting the log at the first conflict with the leader, or past the `len` entries the leader vouched for. */
  lemma CutFits(c: Core, v: NodeId, j: nat, len: nat)
    requires Inv(c) && v < c.n && Covered(c.won, c.nodes[v].term, len)
    requires Acked(c.acked, c.nodes[v].term, v, 0) ==> c.acked[(c.nodes[v].term, v)] <= len
    requires j <= |c.nodes[v].log|
    requires len <= j || (j < |c.nodes[v].log| && c.nodes[v].log[j] != c.won[c.nodes[v].term].log[j])
    ensures Fits(c, v, c.nodes[v].(log := c.nodes[v].log[..j]), 0)
  {
    var old_ := c.nodes[v];
    var x := old_.(log := old_.log[..j]);
    OnReignsPrefix(c.won, old_.log, x.log);
    CutFitsAcks(c, v, j, len);
    CommittedStays(c, v, len);
    CutKeeps(old_.log[..old_.commit], old_.log, c.won[x.term].log, j, len);
    assert x.log[..x.commit] == old_.log[..x.commit];
  }

  lemma CommitFits(c: Core, v: NodeId, k: nat)
    requires Inv(c) && v < c.n && k <= |c.nodes[v].log| && Known(c.won, c.certs, c.nodes[v].log[..k], c.nodes[v].term)
    ensures Fits(c, v, c.nodes[v].(commit := k), 0)
  {
    SameLogFits(c, v, c.nodes[v].(commit := k));
  }

  // ---------- Moves of history ----------

  /** The same nodes under a longer history. */
  ghost predicate Richer(c: Core, d: Core) {
    Extends(c, d) && c.nodes == d.nodes && c.acked == d.acked
  }

  /** A longer history keeps what is said of logs, acknowledgements and commits. */
  lemma RicherHeld(c: Core, d: Core)
    requires Shape(c) && LogsOnReigns(c) && AcksHeld(c) && OwnTermAcked(c) && Richer(c, d)
    ensures AcksHeld(d) && OwnTermAcked(d)
  {
    forall v: nat, t: nat, k: nat | v < |d.nodes| ensures Kept(d.won, d.acked, d.nodes[v], v, t, k) {
      assert Kept(c.won, c.acked, c.nodes[v], v, t, k);
      if Acked(d.acked, t, v, k) && Survives(d.won, t, k, d.nodes[v].term) { SurvivesBack(c, d, t, k, d.nodes[v].term); }
    }
  }

  lemma RicherBallots(c: Core, d: Core)
    requires Shape(c) && LogsOnReigns(c) && BallotsHeld(c) && Richer(c, d) && c.cast == d.cast
    ensures BallotsHeld(d)
  {
    forall v: nat, u: nat, t: nat, k: nat | (u, v) in d.cast ensures KeptAtVote(d.won, d.acked, d.cast[(u, v)], v, u, t, k) {
      assert KeptAtVote(c.won, c.acked, c.cast[(u, v)], v, u, t, k);
      if Acked(d.acked, t, v, k) && Survives(d.won, t, k, u - 1) { SurvivesBack(c, d, t, k, u - 1); }
    }
  }

  lemma RicherKnown(c: Core, d: Core)
    requires Shape(c) && CommitsKnown(c) && Richer(c, d)
    requires forall cert :: cert in d.certs && cert !in c.certs ==> Chosen(d.n, d.won, d.acked, cert.term, cert.len)
    ensures CommitsKnown(d)
  {
    forall cert | cert in d.certs ensures Chosen(d.n, d.won, d.acked, cert.term, cert.len) {
      if cert in c.certs { ChosenStable(c, d, cert.term, cert.len); }
    }
    forall v | 0 <= v < |d.nodes| ensures Known(d.won, d.certs, d.nodes[v].log[..d.nodes[v].commit], d.nodes[v].term) {
      KnownStable(c, d, d.nodes[v].log[..d.nodes[v].commit], d.nodes[v].term, d.nodes[v].term);
    }
  }

  lemma RicherLogs(c: Core, d: Core)
    requires Shape(c) && LogsOnReigns(c) && Richer(c, d) && Shape(d)
    requires forall t :: t in d.won && (t !in c.won || d.won[t] != c.won[t]) ==>
      OnReigns(d.won, d.won[t].log) && TermsUpTo(d.won[t].log, t) && Sorted(d.won[t].log)
    requires forall b :: b in d.bids && b !in c.bids ==>
      OnReigns(d.won, d.bids[b]) && (forall i :: 0 <= i < |d.bids[b]| ==> d.bids[b][i].term < b.0)
    requires forall b :: b in d.cast && b !in c.cast ==> OnReigns(d.won, d.cast[b].log)
    ensures LogsOnReigns(d)
  {
    forall v | 0 <= v < |d.nodes| ensures OnReigns(d.won, d.nodes[v].log) { OnReignsStable(c, d, c.nodes[v].log); }
    forall t | t in d.won ensures OnReigns(d.won, d.won[t].log) {
      if t in c.won && d.won[t] == c.won[t] { OnReignsStable(c, d, c.won[t].log); }
    }
    forall b | b in d.bids ensures OnReigns(d.won, d.bids[b]) {
      if b in c.bids { OnReignsStable(c, d, c.bids[b]); }
    }
    forall b | b in d.cast ensures OnReigns(d.won, d.cast[b].log) {
      if b in c.cast { OnReignsStable(c, d, c.cast[b].log); }
    }
  }

  lemma RicherInv(c: Core, d: Core)
    requires Inv(c) && Richer(c, d)
    requires Shape(d) && LogsOnReigns(d) && ReignsGrowFromBids(d) && VotesSound(d) && ElectorsVoted(d) && BallotsHeld(d) && CommitsKnown(d)
    ensures Inv(d)
  {
    RicherHeld(c, d);
  }

  /** A node stands for election in its term with the log it has. */
  ghost function AddBid(c: Core, v: NodeId): Core
    requires v < |c.nodes|
  {
    c.(bids := c.bids[(c.nodes[v].term, v) := c.nodes[v].log])
  }

  lemma AddBidVotes(c: Core, v: NodeId)
    requires Shape(c) && ReignsGrowFromBids(c) && VotesSound(c) && ElectorsVoted(c) && v < c.n && (c.nodes[v].term, v) !in c.bids
    ensures var d := AddBid(c, v); Richer(c, d) && Shape(d) && ReignsGrowFromBids(d) && VotesSound(d) && ElectorsVoted(d)
  {
  }

  lemma AddBidInv(c: Core, v: NodeId)
    requires Inv(c) && v < c.n && (c.nodes[v].term, v) !in c.bids
    requires forall i :: 0 <= i < |c.nodes[v].log| ==> c.nodes[v].log[i].term < c.nodes[v].term
    ensures Inv(AddBid(c, v)) && Extends(c, AddBid(c, v))
  {
    var d := AddBid(c, v);
    AddBidVotes(c, v);
    RicherLogs(c, d);
    RicherBallots(c, d);
    RicherKnown(c, d);
    RicherInv(c, d);
  }

  /** A node grants its vote in its term, once. */
  ghost function Cast(c: Core, v: NodeId, candidate: NodeId): Core
    requires v < |c.nodes|
  {
    c.(cast := c.cast[(c.nodes[v].term, v) := Ballot(candidate, c.nodes[v].log, c.nodes[v].term !in c.won)])
  }

  ghost predicate MayCast(c: Core, v: NodeId, candidate: NodeId) {
    && v < |c.nodes| && (c.nodes[v].term, v) !in c.cast && c.nodes[v].vote == Some(candidate)
    && (c.nodes[v].term, candidate) in c.bids && Outranks(c.bids[(c.nodes[v].term, candidate)], c.nodes[v].log)
  }

  lemma CastVotes(c: Core, v: NodeId, candidate: NodeId)
    requires Shape(c) && ReignsGrowFromBids(c) && VotesSound(c) && ElectorsVoted(c) && MayCast(c, v, candidate)
    ensures var d := Cast(c, v, candidate); Richer(c, d) && Shape(d) && ReignsGrowFromBids(d) && VotesSound(d) && ElectorsVoted(d)
  {
  }

  lemma CastBallots(c: Core, v: NodeId, candidate: NodeId)
    requires Shape(c) && AcksHeld(c) && BallotsHeld(c) && MayCast(c, v, candidate) && Shape(Cast(c, v, candidate))
    ensures BallotsHeld(Cast(c, v, candidate))
  {
    var d := Cast(c, v, candidate);
    forall w: nat, u: nat, t: nat, k: nat | (u, w) in d.cast ensures KeptAtVote(d.won, d.acked, d.cast[(u, w)], w, u, t, k) {
      if (u, w) in c.cast {
        assert KeptAtVote(c.won, c.acked, c.cast[(u, w)], w, u, t, k);
      } else {
        assert Kept(c.won, c.acked, c.nodes[v], v, t, k);
      }
    }
  }

  lemma CastInv(c: Core, v: NodeId, candidate: NodeId)
    requires Inv(c) && MayCast(c, v, candidate)
    ensures Inv(Cast(c, v, candidate)) && Extends(c, Cast(c, v, candidate))
  {
    var d := Cast(c, v, candidate);
    CastVotes(c, v, candidate);
    RicherLogs(c, d);
    CastBallots(c, v, candidate);
    RicherKnown(c, d);
    RicherInv(c, d);
  }

  /** A candidate wins its term with a majority of votes. */
  ghost function Win(c: Core, v: NodeId, q: set<NodeId>): Core
    requires v < |c.nodes|
  {
    c.(won := c.won[c.nodes[v].term := Reign(v, c.nodes[v].log, q)])
  }

  ghost predicate MayWin(c: Core, v: NodeId, q: set<NodeId>) {
    && v < |c.nodes| && IsQuorum(c.n, q) && c.nodes[v].term !in c.won
    && (c.nodes[v].term, v) in c.bids && c.bids[(c.nodes[v].term, v)] == c.nodes[v].log
    && (forall w: NodeId :: w in q ==> (c.nodes[v].term, w) in c.cast && c.cast[(c.nodes[v].term, w)].candidate == v)
  }

  lemma WinShape(c: Core, v: NodeId, q: set<NodeId>)
    requires Shape(c) && MayWin(c, v, q)
    ensures Richer(c, Win(c, v, q)) && Shape(Win(c, v, q))
  {
  }

  lemma WinVotes(c: Core, v: NodeId, q: set<NodeId>)
    requires Shape(c) && ReignsGrowFromBids(c) && VotesSound(c) && ElectorsVoted(c) && MayWin(c, v, q) && Shape(Win(c, v, q))
    ensures var d := Win(c, v, q); ReignsGrowFromBids(d) && VotesSound(d) && ElectorsVoted(d)
  {
  }

  lemma WinLogs(c: Core, v: NodeId, q: set<NodeId>)
    requires Inv(c) && MayWin(c, v, q) && Richer(c, Win(c, v, q)) && Shape(Win(c, v, q))
    ensures LogsOnReigns(Win(c, v, q))
  {
    OnReignsStable(c, Win(c, v, q), c.nodes[v].log);
    OnReignsSorted(c, c.nodes[v].log);
    RicherLogs(c, Win(c, v, q));
  }

  lemma WinInv(c: Core, v: NodeId, q: set<NodeId>)
    requires Inv(c) && MayWin(c, v, q)
    ensures Inv(Win(c, v, q)) && Extends(c, Win(c, v, q))
  {
    var d := Win(c, v, q);
    WinShape(c, v, q);
    WinVotes(c, v, q);
    WinLogs(c, v, q);
    RicherBallots(c, d);
    RicherKnown(c, d);
    RicherInv(c, d);
  }

  /** The leader of term u appends entries of its term. */
  ghost function Grow(c: Core, u: nat, es: Log): Core
    requires u in c.won
  {
    c.(won := c.won[u := c.won[u].(log := c.won[u].log + es)])
  }

  lemma GrowShape(c: Core, u: nat, es: Log)
    requires Shape(c) && u in c.won && forall i :: 0 <= i < |es| ==> es[i].term == u
    ensures Richer(c, Grow(c, u, es)) && Shape(Grow(c, u, es))
  {
  }

  lemma GrowFromBids(c: Core, u: nat, es: Log)
    requires Shape(c) && ReignsGrowFromBids(c) && u in c.won && Shape(Grow(c, u, es))
    requires forall i :: 0 <= i < |es| ==> es[i].term == u
    ensures ReignsGrowFromBids(Grow(c, u, es))
  {
  }

  lemma GrowVotes(c: Core, u: nat, es: Log)
    requires Shape(c) && VotesSound(c) && ElectorsVoted(c) && u in c.won && Shape(Grow(c, u, es))
    ensures var d := Grow(c, u, es); VotesSound(d) && ElectorsVoted(d)
  {
  }

  lemma GrownLog(won': map<nat, Reign>, l: Log, u: nat, es: Log)
    requires OnReigns(won', l) && TermsUpTo(l, u) && Sorted(l) && u in won' && won'[u].log == l + es
    requires forall i :: 0 <= i < |es| ==> es[i].term == u
    ensures OnReigns(won', l + es) && TermsUpTo(l + es, u) && Sorted(l + es)
  {
    forall i | 0 <= i < |l + es| ensures (l + es)[i].term in won' && (l + es)[..i + 1] <= won'[(l + es)[i].term].log {
      if i < |l| { assert (l + es)[..i + 1] == l[..i + 1]; }
    }
  }

  lemma GrowLogs(c: Core, u: nat, es: Log)
    requires Shape(c) && LogsOnReigns(c) && u in c.won && Richer(c, Grow(c, u, es)) && Shape(Grow(c, u, es))
    requires forall i :: 0 <= i < |es| ==> es[i].term == u
    ensures LogsOnReigns(Grow(c, u, es))
  {
    var d := Grow(c, u, es);
    OnReignsStable(c, d, c.won[u].log);
    GrownLog(d.won, c.won[u].log, u, es);
    RicherLogs(c, d);
  }

  lemma GrowInv(c: Core, u: nat, es: Log)
    requires Inv(c) && u in c.won
    requires forall i :: 0 <= i < |es| ==> es[i].term == u
    ensures Inv(Grow(c, u, es)) && Extends(c, Grow(c, u, es))
  {
    var d := Grow(c, u, es);
    GrowShape(c, u, es);
    GrowFromBids(c, u, es);
    GrowVotes(c, u, es);
    GrowLogs(c, u, es);
    RicherBallots(c, d);
    RicherKnown(c, d);
    RicherInv(c, d);
  }

  /** A leader certifies a length of its log a majority has confirmed. */
  ghost function Certify(c: Core, t: nat, k: nat): Core {
    c.(certs := c.certs + {Cert(t, k)})
  }

  lemma CertifyKeeps(c: Core, t: nat, k: nat)
    requires Shape(c) && LogsOnReigns(c) && BallotsHeld(c)
    ensures var d := Certify(c, t, k); Richer(c, d) && Shape(d) && LogsOnReigns(d) && BallotsHeld(d)
  {
  }

  lemma CertifyVotes(c: Core, t: nat, k: nat)
    requires Shape(c) && ReignsGrowFromBids(c) && VotesSound(c) && ElectorsVoted(c) && Shape(Certify(c, t, k))
    ensures var d := Certify(c, t, k); ReignsGrowFromBids(d) && VotesSound(d) && ElectorsVoted(d)
  {
  }

  lemma CertifyInv(c: Core, t: nat, k: nat)
    requires Inv(c) && Chosen(c.n, c.won, c.acked, t, k)
    ensures Inv(Certify(c, t, k)) && Extends(c, Certify(c, t, k))
  {
    CertifyKeeps(c, t, k);
    RicherKnown(c, Certify(c, t, k));
    CertifyVotes(c, t, k);
    RicherInv(c, Certify(c, t, k));
  }
}
