/**
 One Raft node as a value, and what each handler does to it. These functions are the
 specification of the methods of `RaftProtocol`.
 */
module RaftNode {
  import opened Types

  datatype Role = Follower | Candidate | Leader

  datatype Message =
    | RequestVote(term: nat, candidate: NodeId, lastIndex: Option<nat>, lastTerm: nat)
    | RequestVoteResponse(term: nat, granted: bool)
    | AppendEntries(term: nat, leader: NodeId, prevIndex: Option<nat>, prevTerm: nat, entries: LiveLog, leaderCommit: Option<nat>)
    | AppendEntriesResponse(term: nat, success: bool, matchIndex: Option<nat>, conflictTerm: Option<nat>, conflictIndex: Option<nat>)
    | Forward(value: Pending, hops: nat)

  const MAX_FORWARD_HOPS := 3

  datatype Outgoing = Outgoing(target: Target, message: Message)

  /**
   The fields of the protocol object. `saveTerm`, `saveVote`, `appendFrom`, `cutFrom` and
   `saveCommit` say what the next flush must write; `decided` waits to be delivered,
   `buffered` and `lost` hold proposals with nowhere to go.
   */
  datatype Node = Node(
    id: NodeId, size: nat,
    term: nat, vote: Option<NodeId>, log: LiveLog,
    commit: Option<nat>, applied: Option<nat>, role: Role, leader: Option<NodeId>,
    next: map<NodeId, nat>, matched: map<NodeId, Option<nat>>, votes: set<NodeId>,
    decided: seq<Decision>,
    saveTerm: bool, saveVote: bool, appendFrom: Option<nat>, cutFrom: Option<nat>, saveCommit: bool,
    buffered: seq<Pending>, lost: seq<Pending>)

  /** What a handler leaves behind and what it wants sent. */
  datatype Effect = Effect(node: Node, out: seq<Outgoing>)

  // ---------- Small helpers ----------

  function Index(length: nat): Option<nat> { if length == 0 then None else Some(length - 1) }

  function LastTerm(log: LiveLog): nat { if log == [] then 0 else log[|log| - 1].term }

  function UpToDate(n: Node, lastTerm: nat, lastIndex: Option<nat>): bool {
    if lastTerm != LastTerm(n.log) then lastTerm > LastTerm(n.log) else Length(lastIndex) >= |n.log|
  }

  /** The first position in [lo, hi) of term t, or hi if there is none. */
  function FirstOfTerm(log: LiveLog, t: nat, lo: nat, hi: nat): (i: nat)
    requires lo <= hi <= |log|
    ensures lo <= i <= hi
    ensures i < hi ==> log[i].term == t
    ensures forall j :: lo <= j < i ==> log[j].term != t
    decreases hi - lo
  {
    if lo == hi || log[lo].term == t then lo else FirstOfTerm(log, t, lo + 1, hi)
  }

  /** One past the last position of term t, or 0 if the log has none. */
  function AfterLastOfTerm(log: LiveLog, t: nat): (i: nat)
    ensures i <= |log|
    ensures 0 < i ==> log[i - 1].term == t
    ensures forall j :: i <= j < |log| ==> log[j].term != t
  {
    if log == [] then 0
    else if log[|log| - 1].term == t then |log|
    else AfterLastOfTerm(log[..|log| - 1], t)
  }

  function Decisions(log: LiveLog, lo: nat, hi: nat): (ds: seq<Decision>)
    requires lo <= hi <= |log|
  {
    seq(hi - lo, i requires 0 <= i < hi - lo => Decision(lo + i, log[lo + i].value))
  }

  function ApplyCommitted(n: Node): Node
    requires Length(n.commit) <= |n.log|
  {
    if Length(n.commit) <= Length(n.applied) then n
    else n.(decided := n.decided + Decisions(n.log, Length(n.applied), Length(n.commit)), applied := n.commit)
  }

  // ---------- The commit rule ----------

  /** The replicas known to hold at least the first k entries. */
  ghost function Holders(matched: map<NodeId, Option<nat>>, k: nat): set<NodeId> {
    set w | w in matched && k <= Length(matched[w])
  }

  ghost predicate MostHeld(matched: map<NodeId, Option<nat>>, q: nat, k: nat) {
    |Holders(matched, k)| >= q && |Holders(matched, k + 1)| < q
  }

  ghost function Longest(matched: map<NodeId, Option<nat>>): (k: nat)
    ensures forall w :: w in matched ==> Length(matched[w]) <= k
    decreases |matched|
  {
    if matched == map[] then 0 else
      var w :| w in matched;
      var rest := matched - {w};
      assert |rest| < |matched| by { assert rest.Keys == matched.Keys - {w}; assert |rest.Keys| < |matched.Keys|; }
      assert forall x :: x in matched && x != w ==> x in rest && rest[x] == matched[x];
      Max(Length(matched[w]), Longest(rest))
  }

  lemma {:induction false} HeldFrom(matched: map<NodeId, Option<nat>>, q: nat, k: nat) returns (r: nat)
    requires 0 < q <= |Holders(matched, k)|
    ensures MostHeld(matched, q, r)
    decreases Longest(matched) + 1 - k
  {
    assert k <= Longest(matched) by { assert Holders(matched, k) != {}; var w :| w in Holders(matched, k); }
    if |Holders(matched, k + 1)| >= q { r := HeldFrom(matched, q, k + 1); } else { r := k; }
  }

  lemma HeldExists(matched: map<NodeId, Option<nat>>, q: nat)
    requires 0 < q <= |matched|
    ensures exists k: nat :: MostHeld(matched, q, k)
  {
    assert Holders(matched, 0) == matched.Keys;
    var k := HeldFrom(matched, q, 0);
  }

  // Stated behind `Looked`, which is always true, so that a proof that does not call
  // `HeldByMeans` need not count replicas.
  ghost predicate Looked(matched: map<NodeId, Option<nat>>, i: nat) { true }

  ghost predicate BestHeld(matched: map<NodeId, Option<nat>>, q: nat, k: nat) {
    forall i: nat {:trigger Looked(matched, i)} :: Looked(matched, i) ==> MostHeld(matched, q, k)
  }

  /** The most entries that at least q replicas hold. */
  ghost function HeldBy(matched: map<NodeId, Option<nat>>, q: nat): (k: nat)
    requires 0 < q <= |matched|
  {
    HeldExists(matched, q);
    assert forall k: nat :: MostHeld(matched, q, k) ==> BestHeld(matched, q, k);
    var k: nat :| BestHeld(matched, q, k);
    k
  }

  lemma HeldByMeans(matched: map<NodeId, Option<nat>>, q: nat)
    requires 0 < q <= |matched|
    ensures MostHeld(matched, q, HeldBy(matched, q))
  {
    assert Looked(matched, 0);
  }

  ghost function TryAdvance(n: Node): (m: Node)
    ensures m == n.(commit := m.commit, applied := m.applied, decided := m.decided, saveCommit := m.saveCommit)
  {
    if |n.matched| < Quorum(n.size) then n else
      var k := HeldBy(n.matched, Quorum(n.size));
      if 0 < k <= |n.log| && n.log[k - 1].term == n.term && Length(n.commit) < k
      then ApplyCommitted(n.(commit := Some(k - 1), saveCommit := true))
      else n
  }

  // ---------- Elections ----------

  function BecomeFollower(n: Node, term: nat): Node {
    var m := if term > n.term then n.(term := term, vote := None, saveTerm := true, saveVote := true) else n;
    m.(role := Follower, leader := None, votes := {}, appendFrom := None)
  }

  function Heartbeat(n: Node): Message {
    AppendEntries(n.term, n.id, Index(|n.log|), LastTerm(n.log), [], n.commit)
  }

  /** The message that carries the last entries of the log. */
  function WithEntries(n: Node, entries: LiveLog): Message
    requires |entries| <= |n.log|
  {
    var start := |n.log| - |entries|;
    AppendEntries(n.term, n.id, Index(start), LastTerm(n.log[..start]), entries, n.commit)
  }

  function MarkAppend(n: Node, from: nat): Node {
    if n.appendFrom.None? then n.(appendFrom := Some(from)) else n
  }

  /** A leader takes values into its log. */
  function TakenIn(n: Node, values: seq<Pending>): (m: Node)
    requires values != []
    ensures |m.log| == |n.log| + |values|
  {
    var log := n.log + Entries(n.term, values);
    MarkAppend(n, |n.log|).(log := log, matched := n.matched[n.id := Some(|log| - 1)])
  }

  /** A leader takes values into its log, and commits what a majority already holds. */
  ghost function TakeIn(n: Node, values: seq<Pending>): (m: Node)
    requires values != []
    ensures |m.log| == |n.log| + |values|
  {
    TryAdvance(TakenIn(n, values))
  }

  function Entries(term: nat, values: seq<Pending>): (r: LiveLog)
    ensures |r| == |values|
  {
    seq(|values|, i requires 0 <= i < |values| => LogEntry(term, values[i]))
  }

  /** The winner of an election before it publishes anything. */
  function Crowned(n: Node): Node {
    var own: map<NodeId, Option<nat>> := if n.log == [] then map[] else map[n.id := Some(|n.log| - 1)];
    n.(role := Leader, leader := Some(n.id), next := map[], matched := own, buffered := [])
  }

  /** A leader takes values into its log and broadcasts them. */
  ghost function Publish(n: Node, values: seq<Pending>): Effect
    requires values != []
  {
    var m := TakeIn(n, values);
    Effect(m, [Outgoing(Broadcast, WithEntries(m, Entries(n.term, values)))])
  }

  ghost function BecomeLeader(n: Node): Effect {
    if n.buffered == [] then Effect(Crowned(n), [Outgoing(Broadcast, Heartbeat(Crowned(n)))])
    else Publish(Crowned(n), n.buffered)
  }

  /** The node as a candidate of the next term, before anything is sent. */
  function Standing(n: Node): Node {
    n.(term := n.term + 1, role := Candidate, vote := Some(n.id), votes := {n.id}, leader := None, saveTerm := true, saveVote := true)
  }

  ghost function StartElection(n: Node): Effect {
    if 1 >= Quorum(n.size) then BecomeLeader(Standing(n))
    else
      Effect(if n.role.Candidate? then Standing(n).(lost := n.lost + n.buffered, buffered := []) else Standing(n),
             [Outgoing(Broadcast, RequestVote(n.term + 1, n.id, Index(|n.log|), LastTerm(n.log)))])
  }

  function HandleRequestVote(n: Node, term: nat, candidate: NodeId, lastIndex: Option<nat>, lastTerm: nat): Effect {
    var grant := term >= n.term && (n.vote == None || n.vote == Some(candidate)) && UpToDate(n, lastTerm, lastIndex);
    Effect(if grant then n.(vote := Some(candidate), saveVote := true) else n,
           [Outgoing(Peer(candidate), RequestVoteResponse(n.term, grant))])
  }

  ghost function HandleRequestVoteResponse(n: Node, from: NodeId, term: nat, granted: bool): Effect
  {
    if !n.role.Candidate? || term != n.term || !granted then Effect(n, [])
    else
      var m := n.(votes := n.votes + {from});
      if |m.votes| >= Quorum(n.size) then BecomeLeader(m) else Effect(m, [])
  }

  // ---------- Replication ----------

  /** How many of the entries, placed from `start`, the log already has with the same terms. */
  function Matching(log: LiveLog, start: nat, entries: LiveLog): (k: nat)
    requires start <= |log|
    ensures k <= |entries| && start + k <= |log|
    ensures forall i :: 0 <= i < k ==> log[start + i].term == entries[i].term
    ensures k < |entries| && start + k < |log| ==> log[start + k].term != entries[k].term
    decreases entries
  {
    if entries == [] || start == |log| || log[start].term != entries[0].term then 0
    else 1 + Matching(log, start + 1, entries[1..])
  }

  /** The entries that match stay, the rest replace whatever followed, and nothing is left past them. */
  function Merged(log: LiveLog, start: nat, entries: LiveLog): (r: LiveLog)
    requires start <= |log|
    ensures |r| == start + |entries|
  {
    var k := Matching(log, start, entries);
    log[..start + k] + entries[k..]
  }

  function Reject(n: Node, to: NodeId, conflictTerm: Option<nat>, conflictIndex: Option<nat>): Outgoing {
    Outgoing(Peer(to), AppendEntriesResponse(n.term, false, None, conflictTerm, conflictIndex))
  }

  predicate PrevOk(log: LiveLog, prevIndex: Option<nat>, prevTerm: nat) {
    prevIndex.None? || (prevIndex.value < |log| && log[prevIndex.value].term == prevTerm)
  }

  /** Where to resume, told to the leader when the log does not fit. */
  function Hint(log: LiveLog, prev: nat): (Option<nat>, Option<nat>) {
    if prev >= |log| then (None, Some(|log|))
    else (Some(log[prev].term), Some(FirstOfTerm(log, log[prev].term, 0, prev + 1)))
  }

  /** The log and its pending writes after the entries are placed from `start`. */
  function Place(n: Node, start: nat, entries: LiveLog): (m: Node)
    requires start <= |n.log|
    ensures start + |entries| > 0 ==> |m.log| == start + |entries|
    ensures start + |entries| == 0 ==> m == n
  {
    var k := Matching(n.log, start, entries);
    var at := start + k;
    if start + |entries| == 0 then n
    else n.(log := Merged(n.log, start, entries),
            cutFrom := if at == |n.log| then n.cutFrom
                       else if k < |entries| || n.cutFrom.None? then Some(at)
                       else Some(Min(n.cutFrom.value, at)),
            appendFrom := if k == |entries| then n.appendFrom
                          else if n.appendFrom.None? || (at < |n.log| && at < n.appendFrom.value) then Some(at)
                          else n.appendFrom)
  }

  /** A follower commits what its leader has, as far as this message vouches for. */
  function LearnCommit(n: Node, leaderCommit: Option<nat>, end: nat): Node
    requires end <= |n.log|
  {
    if leaderCommit.None? || end == 0 || Min(leaderCommit.value, end - 1) < Length(n.commit) then n
    else ApplyCommitted(n.(commit := Some(Min(leaderCommit.value, end - 1)), saveCommit := true))
  }

  function ForwardAll(to: NodeId, values: seq<Pending>): seq<Outgoing> {
    seq(|values|, i requires 0 <= i < |values| => Outgoing(Peer(to), Forward(values[i], 0)))
  }

  /** The follower side of a message whose previous entry matches. */
  function Accept(n: Node, prevIndex: Option<nat>, entries: LiveLog, leaderCommit: Option<nat>): Node
    requires Length(prevIndex) <= |n.log|
  {
    LearnCommit(Place(n, Length(prevIndex), entries), leaderCommit, Length(prevIndex) + |entries|).(buffered := [])
  }

  /** The node once it has recognized the leader. */
  function Loyal(n: Node, leader: NodeId): Node { n.(role := Follower, leader := Some(leader)) }

  function HandleAppendEntries(n: Node, term: nat, leader: NodeId, prevIndex: Option<nat>, prevTerm: nat, entries: LiveLog,
      leaderCommit: Option<nat>): Effect {
    if term < n.term || (term == n.term && n.role.Leader?) then Effect(n, [Reject(n, leader, None, None)])
    else
      var f := Loyal(n, leader);
      if !PrevOk(n.log, prevIndex, prevTerm) then
        var (conflictTerm, conflictIndex) := Hint(n.log, prevIndex.value);
        Effect(f, [Reject(n, leader, conflictTerm, conflictIndex)])
      else
        var ack := AppendEntriesResponse(n.term, true, Index(Length(prevIndex) + |entries|), None, None);
        Effect(Accept(f, prevIndex, entries, leaderCommit), [Outgoing(Peer(leader), ack)] + ForwardAll(leader, n.buffered))
  }

  /** A leader records how much a follower holds, and commits what a majority does. */
  ghost function Acknowledge(n: Node, from: NodeId, i: nat): Node {
    TryAdvance(n.(matched := n.matched[from := Some(i)], next := n.next[from := i + 1]))
  }

  /** A leader sends a follower its log from where the follower's hint says to resume. */
  function Resend(n: Node, from: NodeId, conflictTerm: Option<nat>, conflictIndex: Option<nat>): Effect {
    var next := Min(Resume(n, from, conflictTerm, conflictIndex), |n.log|);
    Effect(n.(next := n.next[from := next]), [Outgoing(Peer(from), WithEntries(n, n.log[next..]))])
  }

  ghost function HandleAppendEntriesResponse(n: Node, from: NodeId, term: nat, success: bool, matchIndex: Option<nat>,
      conflictTerm: Option<nat>, conflictIndex: Option<nat>): Effect
  {
    if !n.role.Leader? || term != n.term then Effect(n, [])
    else if !success then Resend(n, from, conflictTerm, conflictIndex)
    else if matchIndex.None? || matchIndex.value >= |n.log| then Effect(n, [])
    else Effect(Acknowledge(n, from, matchIndex.value), [])
  }

  /** Where the leader resumes after a rejection. */
  function Resume(n: Node, from: NodeId, conflictTerm: Option<nat>, conflictIndex: Option<nat>): nat {
    if conflictIndex.None? then
      var cur := if from in n.next then n.next[from] else |n.log|;
      if cur == 0 then 0 else cur - 1
    else if conflictTerm.Some? && AfterLastOfTerm(n.log, conflictTerm.value) > 0 then AfterLastOfTerm(n.log, conflictTerm.value)
    else conflictIndex.value
  }

  // ---------- Proposals ----------

  ghost function Propose(n: Node, value: Pending): Effect {
    if n.role.Leader? then Publish(n, [value])
    else if n.leader.Some? then Effect(n, [Outgoing(Peer(n.leader.value), Forward(value, 0))])
    else Effect(n.(buffered := n.buffered + [value]), [])
  }

  ghost function HandleForward(n: Node, from: NodeId, value: Pending, hops: nat): Effect {
    if n.role.Leader? then Propose(n, value)
    else if n.leader.Some? && n.leader.value != from then
      if hops + 1 >= MAX_FORWARD_HOPS then Effect(n, [])
      else Effect(n, [Outgoing(Peer(n.leader.value), Forward(value, hops + 1))])
    else Effect(n.(buffered := n.buffered + [value]), [])
  }

  // ---------- Events ----------

  function Observe(n: Node, m: Message): Node {
    if !m.Forward? && m.term > n.term then BecomeFollower(n, m.term) else n
  }

  /** A message is handled in the term it brings, if that is later. */
  ghost function HandleMessage(n: Node, from: NodeId, m: Message): Effect {
    Dispatch(Observe(n, m), from, m)
  }

  ghost function Dispatch(n: Node, from: NodeId, m: Message): Effect {
    match m
    case RequestVote(term, candidate, lastIndex, lastTerm) => HandleRequestVote(n, term, candidate, lastIndex, lastTerm)
    case RequestVoteResponse(term, granted) => HandleRequestVoteResponse(n, from, term, granted)
    case AppendEntries(term, leader, prevIndex, prevTerm, entries, leaderCommit) =>
      HandleAppendEntries(n, term, leader, prevIndex, prevTerm, entries, leaderCommit)
    case AppendEntriesResponse(term, success, matchIndex, conflictTerm, conflictIndex) =>
      HandleAppendEntriesResponse(n, from, term, success, matchIndex, conflictTerm, conflictIndex)
    case Forward(value, hops) => HandleForward(n, from, value, hops)
  }

  /** A tick; `due` says whether the heartbeat interval or the election timeout has passed. */
  ghost function OnTick(n: Node, due: bool): Effect {
    if !due then Effect(n, [])
    else if n.role.Leader? then Effect(n, [Outgoing(Broadcast, Heartbeat(n))])
    else StartElection(n)
  }

  datatype Event = Tick(due: bool) | Submit(value: Pending) | Receive(from: NodeId, message: Message)

  ghost function Handle(n: Node, e: Event): Effect {
    match e
    case Tick(due) => OnTick(n, due)
    case Submit(value) => Propose(n, value)
    case Receive(from, message) => HandleMessage(n, from, message)
  }
}
