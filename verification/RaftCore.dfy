/**
 The heart of the safety argument: what is durable on each node, together with a
 history no program keeps (who won each term and with which log, who asked for votes
 and who granted them, how much of a leader's log each node has held).

 Every handler of the protocol changes this state by a few of the small moves below.
 Each move keeps `Inv`, and Leader Completeness follows from `Inv` alone.
 */
module RaftCore {
  import opened Types

  /** What a node has on disk. `commit` counts slots. */
  datatype Durable = Durable(term: nat, vote: Option<NodeId>, log: Log, commit: nat)

  /** A won term: its leader, the leader's log, and the majority that elected it. */
  datatype Reign = Reign(leader: NodeId, log: Log, electors: set<NodeId>)

  /** A vote: for whom, with which log, and whether the term was still open. */
  datatype Ballot = Ballot(candidate: NodeId, log: Log, early: bool)

  /** A leader of `term` found the first `len` entries of its log on a majority. */
  datatype Cert = Cert(term: nat, len: nat)

  /**
   - `won`: the terms that have had a leader.
   - `bids`: the log each candidate stood with, by term and candidate.
   - `cast`: every vote granted, by term and voter.
   - `acked`: the length of the term leader's log a node has confirmed, by term and node.
   - `certs`: what leaders have found replicated on a majority.
   */
  datatype Core = Core(
    n: nat,
    nodes: seq<Durable>,
    won: map<nat, Reign>,
    bids: map<(nat, NodeId), Log>,
    cast: map<(nat, NodeId), Ballot>,
    acked: map<(nat, NodeId), nat>,
    certs: set<Cert>)

  // ---------- Logs ----------

  function TopTerm(log: Log): nat { if log == [] then 0 else log[|log| - 1].term }

  /** The election restriction: `a` is at least as up to date as `b`. */
  predicate Outranks(a: Log, b: Log) {
    TopTerm(a) > TopTerm(b) || (TopTerm(a) == TopTerm(b) && |a| >= |b|)
  }

  ghost predicate TermsUpTo(log: Log, t: nat) {
    forall i :: 0 <= i < |log| ==> log[i].term <= t
  }

  ghost predicate Sorted(log: Log) {
    forall i, j :: 0 <= i <= j < |log| ==> log[i].term <= log[j].term
  }

  /** Every entry of `p` lies on the log of the leader of its term, and so does all that precedes it. */
  ghost predicate OnReigns(won: map<nat, Reign>, p: Log) {
    forall i :: 0 <= i < |p| ==> p[i].term in won && p[..i + 1] <= won[p[i].term].log
  }

  // ---------- The invariant ----------

  ghost predicate Shape(c: Core) {
    && |c.nodes| == c.n
    && (forall t, v :: (t, v) in c.bids ==> v < c.n && t <= c.nodes[v].term)
    && (forall t, v :: (t, v) in c.cast ==> v < c.n && t <= c.nodes[v].term)
    && (forall t, v :: (t, v) in c.acked ==> v < c.n && t <= c.nodes[v].term && t in c.won && c.acked[(t, v)] <= |c.won[t].log|)
    && (forall t :: t in c.won ==> c.won[t].leader < c.n && IsQuorum(c.n, c.won[t].electors) && (t, c.won[t].leader) in c.bids)
  }

  ghost predicate LogsOnReigns(c: Core) {
    && (forall v :: 0 <= v < |c.nodes| ==> OnReigns(c.won, c.nodes[v].log) && TermsUpTo(c.nodes[v].log, c.nodes[v].term))
    && (forall t :: t in c.won ==> OnReigns(c.won, c.won[t].log) && TermsUpTo(c.won[t].log, t) && Sorted(c.won[t].log))
    && (forall b :: b in c.bids ==> OnReigns(c.won, c.bids[b]) && (forall i :: 0 <= i < |c.bids[b]| ==> c.bids[b][i].term < b.0))
    && (forall b :: b in c.cast ==> OnReigns(c.won, c.cast[b].log))
  }

  /** The log of a term's leader starts as its bid and grows by entries of that term only. */
  ghost predicate ReignsGrowFromBids(c: Core)
    requires Shape(c)
  {
    forall t :: t in c.won ==>
      var r := c.won[t];
      var bid := c.bids[(t, r.leader)];
      && bid <= r.log
      && (forall i :: |bid| <= i < |r.log| ==> r.log[i].term == t)
      && (c.nodes[r.leader].term == t ==> c.nodes[r.leader].log <= r.log)
  }

  ghost predicate VotesSound(c: Core)
    requires Shape(c)
  {
    forall t, v :: (t, v) in c.cast ==>
      var b := c.cast[(t, v)];
      && (c.nodes[v].term == t ==> c.nodes[v].vote == Some(b.candidate))
      && (t, b.candidate) in c.bids
      && Outranks(c.bids[(t, b.candidate)], b.log)
      && (b.early || t in c.won)
  }

  ghost predicate ElectorsVoted(c: Core)
    requires Shape(c)
  {
    forall t, w :: t in c.won && w in c.won[t].electors ==>
      (t, w) in c.cast && c.cast[(t, w)].candidate == c.won[t].leader && c.cast[(t, w)].early
  }

  /** The first k entries of term t's leader are on the log of every later leader up to term `hi`. */
  ghost predicate Survives(won: map<nat, Reign>, t: nat, k: nat, hi: int)
    requires t in won && k <= |won[t].log|
  {
    forall u :: u in won && t < u <= hi ==> won[t].log[..k] <= won[u].log
  }

  ghost predicate Acked(acked: map<(nat, NodeId), nat>, t: nat, v: NodeId, k: nat) {
    (t, v) in acked && k <= acked[(t, v)]
  }

  /** If node v confirmed the first k entries of term t's leader, and every leader since had them, they are on x's log. */
  ghost predicate Kept(won: map<nat, Reign>, acked: map<(nat, NodeId), nat>, x: Durable, v: NodeId, t: nat, k: nat) {
    Acked(acked, t, v, k) && t in won && k <= |won[t].log| && Survives(won, t, k, x.term) ==> won[t].log[..k] <= x.log
  }

  /** What a node confirmed it still holds, unless some later leader did without it. */
  ghost predicate AcksHeld(c: Core) {
    forall v: nat, t: nat, k: nat :: v < |c.nodes| ==> Kept(c.won, c.acked, c.nodes[v], v, t, k)
  }

  ghost predicate KeptAtVote(won: map<nat, Reign>, acked: map<(nat, NodeId), nat>, b: Ballot, v: NodeId, u: nat, t: nat, k: nat) {
    b.early && Acked(acked, t, v, k) && t in won && k <= |won[t].log| && t < u && Survives(won, t, k, u - 1) ==> won[t].log[..k] <= b.log
  }

  /** What a node confirmed it still held when it voted, unless some leader in between did without it. */
  ghost predicate BallotsHeld(c: Core) {
    forall v: nat, u: nat, t: nat, k: nat :: (u, v) in c.cast ==> KeptAtVote(c.won, c.acked, c.cast[(u, v)], v, u, t, k)
  }

  /** Entries of a node's current term are entries it confirmed. */
  ghost predicate OwnTermAcked(c: Core) {
    forall v, i :: 0 <= v < |c.nodes| && 0 <= i < |c.nodes[v].log| && c.nodes[v].log[i].term == c.nodes[v].term ==>
      Acked(c.acked, c.nodes[v].term, v, i + 1)
  }

  ghost function Ackers(n: nat, acked: map<(nat, NodeId), nat>, t: nat, k: nat): (s: set<NodeId>)
    ensures forall v: nat :: v in s <==> v < n && Acked(acked, t, v, k)
  {
    set v: nat | v in Below(n) && Acked(acked, t, v, k)
  }

  /** The first k entries of term t's leader are on a majority, and the last of them is of term t. */
  ghost predicate Chosen(n: nat, won: map<nat, Reign>, acked: map<(nat, NodeId), nat>, t: nat, k: nat) {
    && t in won && 1 <= k <= |won[t].log|
    && won[t].log[k - 1].term == t
    && IsQuorum(n, Ackers(n, acked, t, k))
  }

  /** `p` is a prefix of a log certified in a term no later than `bound`. */
  ghost predicate Known(won: map<nat, Reign>, certs: set<Cert>, p: Log, bound: nat) {
    p == [] || exists cert :: cert in certs && cert.term <= bound && Covers(won, cert, p)
  }

  ghost predicate Covers(won: map<nat, Reign>, cert: Cert, p: Log) {
    cert.term in won && |p| <= cert.len && p <= won[cert.term].log
  }

  ghost predicate CommitsKnown(c: Core) {
    && (forall cert :: cert in c.certs ==> Chosen(c.n, c.won, c.acked, cert.term, cert.len))
    && (forall v :: 0 <= v < |c.nodes| ==>
          c.nodes[v].commit <= |c.nodes[v].log| && Known(c.won, c.certs, c.nodes[v].log[..c.nodes[v].commit], c.nodes[v].term))
  }

  ghost predicate Inv(c: Core) {
    && Shape(c)
    && LogsOnReigns(c)
    && ReignsGrowFromBids(c)
    && VotesSound(c)
    && ElectorsVoted(c)
    && AcksHeld(c)
    && BallotsHeld(c)
    && OwnTermAcked(c)
    && CommitsKnown(c)
  }

  // ---------- History only grows ----------

  ghost predicate Extends(c: Core, d: Core) {
    && c.n == d.n && |c.nodes| == |d.nodes|
    && (forall v :: 0 <= v < |c.nodes| ==> c.nodes[v].term <= d.nodes[v].term)
    && (forall t :: t in c.won ==> t in d.won && c.won[t].leader == d.won[t].leader && c.won[t].log <= d.won[t].log
                                    && (forall i :: |c.won[t].log| <= i < |d.won[t].log| ==> d.won[t].log[i].term == t))
    && (forall b :: b in c.bids ==> b in d.bids && d.bids[b] == c.bids[b])
    && (forall b :: b in c.cast ==> b in d.cast && d.cast[b] == c.cast[b])
    && (forall a :: a in c.acked ==> a in d.acked && c.acked[a] <= d.acked[a])
    && c.certs <= d.certs
  }

  // ---------- Consequences of the invariant ----------

  /** Log Matching, in the form every proof uses: same term at an index, same log up to it. */
  lemma LogMatching(c: Core, p: Log, q: Log, i: nat)
    requires OnReigns(c.won, p) && OnReigns(c.won, q)
    requires i < |p| && i < |q| && p[i].term == q[i].term
    ensures p[..i + 1] == q[..i + 1]
  {
    var l := c.won[p[i].term].log;
    assert p[..i + 1] <= l && q[..i + 1] <= l;
  }

  lemma OnReignsSorted(c: Core, p: Log)
    requires LogsOnReigns(c) && OnReigns(c.won, p)
    ensures Sorted(p)
  {
    forall i, j | 0 <= i <= j < |p| ensures p[i].term <= p[j].term {
      var l := c.won[p[j].term].log;
      assert p[..j + 1] <= l;
      assert p[..j + 1][i] == p[i] && p[..j + 1][j] == p[j];
    }
  }

  /** Of two logs ending in the same term, the shorter is a prefix of the longer. */
  lemma SameLastTerm(won: map<nat, Reign>, p: Log, q: Log)
    requires OnReigns(won, p) && OnReigns(won, q) && p != [] && q != []
    requires TopTerm(p) == TopTerm(q) && |p| <= |q|
    ensures p <= q
  {
    var l := won[TopTerm(p)].log;
    assert p[..|p| - 1 + 1] == p && q[..|q| - 1 + 1] == q;
    assert p <= l && q <= l;
  }

  /** A log that wins against `b` holds whatever prefix of term t `b` holds, if all leaders in between do. */
  lemma UpToDateHolds(c: Core, t: nat, k: nat, bid: Log, b: Log)
    requires LogsOnReigns(c) && OnReigns(c.won, bid) && OnReigns(c.won, b) && Outranks(bid, b)
    requires t in c.won && 1 <= k <= |c.won[t].log| && c.won[t].log[k - 1].term == t
    requires c.won[t].log[..k] <= b
    requires bid == [] || Survives(c.won, t, k, TopTerm(bid))
    ensures c.won[t].log[..k] <= bid
  {
    OnReignsSorted(c, b);
    assert b[k - 1] == c.won[t].log[k - 1];
    if TopTerm(bid) == TopTerm(b) {
      SameLastTerm(c.won, b, bid);
    } else {
      var e := TopTerm(bid);
      assert bid[..|bid| - 1 + 1] == bid;
      assert bid <= c.won[e].log;
      assert c.won[t].log[..k] <= c.won[e].log;
      assert c.won[e].log[k - 1].term == t && c.won[e].log[|bid| - 1].term == e;
    }
  }

  /**
   Leader Completeness: what a majority confirmed in term t, up to an entry of term t,
   is on the log every later leader stood for election with.
   */
  lemma {:induction false} LeaderCompleteness(c: Core, t: nat, k: nat, u: nat)
    requires Inv(c) && Chosen(c.n, c.won, c.acked, t, k) && u in c.won && t < u
    ensures c.won[t].log[..k] <= c.bids[(u, c.won[u].leader)]
    decreases u
  {
    var r := c.won[u];
    var bid := c.bids[(u, r.leader)];
    forall e | e in c.won && t < e <= u - 1 ensures c.won[t].log[..k] <= c.won[e].log {
      LeaderCompleteness(c, t, k, e);
    }
    var w := QuorumsMeet(c.n, Ackers(c.n, c.acked, t, k), r.electors);
    var b := c.cast[(u, w)];
    assert Acked(c.acked, t, w, k) && Survives(c.won, t, k, u - 1);
    assert KeptAtVote(c.won, c.acked, b, w, u, t, k);
    assert c.won[t].log[..k] <= b.log;
    assert bid == [] || TopTerm(bid) <= u - 1;
    UpToDateHolds(c, t, k, bid, b.log);
  }

  lemma CertOnLeader(c: Core, cert: Cert, p: Log, u: nat)
    requires Inv(c) && cert in c.certs && cert.term <= u && Covers(c.won, cert, p) && u in c.won
    ensures p <= c.won[u].log
  {
    assert Chosen(c.n, c.won, c.acked, cert.term, cert.len);
    if cert.term < u {
      LeaderCompleteness(c, cert.term, cert.len, u);
      assert p <= c.won[cert.term].log[..cert.len];
      assert c.bids[(u, c.won[u].leader)] <= c.won[u].log;
    }
  }

  /** What is known by term u is on the log of the leader of term u. */
  lemma KnownOnLeader(c: Core, p: Log, u: nat)
    requires Inv(c) && Known(c.won, c.certs, p, u) && u in c.won
    ensures p <= c.won[u].log
  {
    if p != [] {
      var cert :| cert in c.certs && cert.term <= u && Covers(c.won, cert, p);
      CertOnLeader(c, cert, p, u);
    }
  }

  lemma CertsAgree(c: Core, a: Cert, b: Cert, p: Log, q: Log)
    requires Inv(c) && a in c.certs && b in c.certs && Covers(c.won, a, p) && Covers(c.won, b, q) && a.term <= b.term
    ensures p <= q || q <= p
  {
    CertOnLeader(c, a, p, b.term);
    PrefixesOfOne(p, q, c.won[b.term].log);
  }

  /** Two known prefixes never disagree. */
  lemma KnownAgree(c: Core, p: Log, q: Log, u: nat, v: nat)
    requires Inv(c) && Known(c.won, c.certs, p, u) && Known(c.won, c.certs, q, v)
    ensures p <= q || q <= p
  {
    if p != [] && q != [] {
      var a :| a in c.certs && a.term <= u && Covers(c.won, a, p);
      var b :| b in c.certs && b.term <= v && Covers(c.won, b, q);
      if a.term <= b.term { CertsAgree(c, a, b, p, q); } else { CertsAgree(c, b, a, q, p); }
    }
  }

  lemma PrefixesOfOne(p: Log, q: Log, l: Log)
    requires p <= l && q <= l
    ensures p <= q || q <= p
  {
  }
}
