/** Vocabulary shared by every module: identities, values, log entries and options. */
module Types {

  /** The user's value. Nothing below depends on what it is. */
  type Value(==, !new)

  /** Nodes of a cluster of size n are the numbers 0 to n - 1, fixed across restarts. */
  type NodeId = nat

  datatype Option<+T> = None | Some(value: T)

  /** A value on its way through the protocol, tagged with the proposer's nonce; 0 marks a recovered value. */
  datatype Pending = Pending(nonce: nat, value: Value)

  datatype Decision = Decision(slot: nat, value: Pending)

  /** Where a message goes. */
  datatype Target = Peer(id: NodeId) | Broadcast

  datatype LogEntry<+T> = LogEntry(term: nat, value: T)

  /** A log as a node holds it in memory, and as it is stored: storage drops the nonces. */
  type LiveLog = seq<LogEntry<Pending>>
  type Log = seq<LogEntry<Value>>

  function Strip(log: LiveLog): (r: Log)
    ensures |r| == |log|
  {
    seq(|log|, i requires 0 <= i < |log| => LogEntry(log[i].term, log[i].value.value))
  }

  function Wrap(log: Log): (r: LiveLog)
    ensures |r| == |log|
  {
    seq(|log|, i requires 0 <= i < |log| => LogEntry(log[i].term, Pending(0, log[i].value)))
  }

  function Max(a: nat, b: nat): nat { if a < b then b else a }
  function Min(a: nat, b: nat): nat { if a < b then a else b }

  /** How many slots an optional last index stands for. */
  function Length(index: Option<nat>): nat {
    if index.Some? then index.value + 1 else 0
  }

  /** A majority of n nodes. */
  function Quorum(n: nat): nat { n / 2 + 1 }

  ghost predicate IsQuorum(n: nat, q: set<NodeId>) {
    (forall v :: v in q ==> v < n) && Quorum(n) <= |q|
  }

  /** Enough for a quorum is more than half. */
  lemma QuorumIsMajority(n: nat, k: nat)
    ensures k >= Quorum(n) <==> 2 * k > n
  {
  }

  /** The quorums of n nodes are exactly their majorities. */
  lemma QuorumsAreMajorities(n: nat, q: set<NodeId>)
    ensures IsQuorum(n, q) <==> q <= Below(n) && 2 * |q| > n
  {
    QuorumIsMajority(n, |q|);
  }

  ghost function Below(n: nat): (s: set<nat>)
    ensures forall v :: v in s <==> 0 <= v < n
    ensures |s| == n
  {
    if n == 0 then {} else
      var s := Below(n - 1);
      assert n - 1 !in s;
      s + {n - 1}
  }

  lemma SubsetSize<T>(a: set<T>, b: set<T>)
    requires a <= b
    ensures |a| <= |b|
  {
    assert |b| == |a| + |b - a| by { assert a + (b - a) == b; assert a !! (b - a); }
  }

  /** Two majorities of the same cluster share a node. */
  lemma QuorumsMeet(n: nat, a: set<NodeId>, b: set<NodeId>) returns (w: NodeId)
    requires IsQuorum(n, a) && IsQuorum(n, b)
    ensures w in a && w in b && w < n
  {
    assert a * b != {} by {
      SubsetSize(a + b, Below(n));
      assert a * b == {} ==> |a + b| == |a| + |b|;
    }
    w :| w in a * b;
  }
}
