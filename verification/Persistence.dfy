/**
 What a node writes to storage and what it reads back. A handler only marks what changed;
 the flush that follows writes term, vote, cut, append and commit index, in that order,
 and delivered decisions are written last. A crash keeps some prefix of these writes.
 */
module Persistence {
  import opened Types
  import opened RaftNode

  datatype Disk = Disk(term: nat, vote: Option<NodeId>, log: Log, commit: Option<nat>, decisions: map<nat, Value>)

  datatype Op =
    | SaveTerm(term: nat)
    | SaveVote(vote: Option<NodeId>)
    | CutLog(from: nat)
    | AppendLog(entries: Log)
    | SaveCommit(commit: Option<nat>)
    | SaveDecision(slot: nat, value: Value)

  function Write(d: Disk, op: Op): Disk {
    match op
    case SaveTerm(term) => d.(term := term)
    case SaveVote(vote) => d.(vote := vote)
    case CutLog(from) => if from < |d.log| then d.(log := d.log[..from]) else d
    case AppendLog(entries) => d.(log := d.log + entries)
    case SaveCommit(commit) => d.(commit := commit)
    case SaveDecision(slot, value) => d.(decisions := d.decisions[slot := value])
  }

  function WriteAll(d: Disk, ops: seq<Op>): Disk
    decreases |ops|
  {
    if ops == [] then d else WriteAll(Write(d, ops[0]), ops[1..])
  }

  // ---------- Flush ----------

  predicate Flushable(n: Node) { Length(n.appendFrom) <= |n.log| + 1 }

  /** The j-th kind of write of a flush, if it is called for. */
  function Kind(n: Node, j: nat): (ops: seq<Op>)
    requires Flushable(n)
    ensures |ops| <= 1
  {
    if j == 0 && n.saveTerm then [SaveTerm(n.term)]
    else if j == 1 && n.saveVote then [SaveVote(n.vote)]
    else if j == 2 && n.cutFrom.Some? then [CutLog(n.cutFrom.value)]
    else if j == 3 && n.appendFrom.Some? then [AppendLog(Strip(n.log[n.appendFrom.value..]))]
    else if j == 4 && n.saveCommit then [SaveCommit(n.commit)]
    else []
  }

  function Kinds(n: Node, j: nat): seq<Op>
    requires Flushable(n)
  {
    if j == 0 then [] else Kinds(n, j - 1) + Kind(n, j - 1)
  }

  function FlushOps(n: Node): seq<Op>
    requires Flushable(n)
  {
    Kinds(n, 5)
  }

  /** The node after its intent is drained. */
  function Drained(n: Node): Node {
    n.(saveTerm := false, saveVote := false, appendFrom := None, cutFrom := None, saveCommit := false)
  }

  function DecisionOps(ds: seq<Decision>): seq<Op> {
    seq(|ds|, i requires 0 <= i < |ds| => SaveDecision(ds[i].slot, ds[i].value.value))
  }

  predicate Clean(n: Node) { n == Drained(n) }

  /** Storage holds what memory holds, nonces aside. */
  predicate Synced(n: Node, d: Disk) {
    n.term == d.term && n.vote == d.vote && Strip(n.log) == d.log && n.commit == d.commit
  }

  /** The marks say exactly how memory has run ahead of storage. */
  ghost predicate Tracks(n: Node, d: Disk) {
    && (n.saveTerm || n.term == d.term)
    && (n.saveVote || n.vote == d.vote)
    && (n.saveCommit || n.commit == d.commit)
    && TracksLog(Strip(n.log), n.cutFrom, n.appendFrom, d.log)
  }

  /** What the cut leaves, followed by what is appended, is the log. */
  ghost predicate TracksLog(log: Log, cutFrom: Option<nat>, appendFrom: Option<nat>, stored: Log) {
    && (cutFrom.Some? ==> cutFrom.value <= |stored|)
    && (var kept := if cutFrom.Some? then stored[..cutFrom.value] else stored;
        if appendFrom.None? then log == kept
        else appendFrom.value == |kept| <= |log| && log[..|kept|] == kept)
  }

  // ---------- Stages of a flush ----------

  /** Storage after the first j of the five kinds of write. */
  function Stage(n: Node, d: Disk, j: nat): Disk
    requires Flushable(n)
  {
    var cut := if 3 <= j && n.cutFrom.Some? && n.cutFrom.value < |d.log| then d.log[..n.cutFrom.value] else d.log;
    Disk(if 1 <= j && n.saveTerm then n.term else d.term,
         if 2 <= j && n.saveVote then n.vote else d.vote,
         if 4 <= j && n.appendFrom.Some? then cut + Strip(n.log[n.appendFrom.value..]) else cut,
         if 5 <= j && n.saveCommit then n.commit else d.commit,
         d.decisions)
  }

  lemma {:induction false} WriteAllConcat(d: Disk, a: seq<Op>, b: seq<Op>)
    ensures WriteAll(d, a + b) == WriteAll(WriteAll(d, a), b)
    decreases |a|
  {
    if a == [] {
      assert a + b == b;
    } else {
      assert (a + b)[1..] == a[1..] + b;
      WriteAllConcat(Write(d, a[0]), a[1..], b);
    }
  }

  lemma StageStep(n: Node, d: Disk, j: nat)
    requires Flushable(n)
    ensures WriteAll(Stage(n, d, j), Kind(n, j)) == Stage(n, d, j + 1)
  {
    var k := Kind(n, j);
    if k == [] {
      assert WriteAll(Stage(n, d, j), k) == Stage(n, d, j);
    } else {
      assert k[1..] == [];
      assert WriteAll(Stage(n, d, j), k) == Write(Stage(n, d, j), k[0]);
    }
  }

  lemma {:induction false} KindsReachStage(n: Node, d: Disk, j: nat)
    requires Flushable(n)
    ensures WriteAll(d, Kinds(n, j)) == Stage(n, d, j)
  {
    if j > 0 {
      KindsReachStage(n, d, j - 1);
      WriteAllConcat(d, Kinds(n, j - 1), Kind(n, j - 1));
      StageStep(n, d, j - 1);
    }
  }

  lemma {:induction false} PrefixIsKinds(n: Node, j: nat, p: nat) returns (i: nat)
    requires Flushable(n) && p <= |Kinds(n, j)|
    ensures i <= j && Kinds(n, j)[..p] == Kinds(n, i)
  {
    if p == |Kinds(n, j)| {
      i := j;
    } else {
      i := PrefixIsKinds(n, j - 1, p);
    }
  }

  /** A flush cut short leaves storage at one of the stages; one that completes, at the last. */
  lemma FlushPrefixIsStage(n: Node, d: Disk, p: nat) returns (j: nat)
    requires Flushable(n) && p <= |FlushOps(n)|
    ensures j <= 5 && WriteAll(d, FlushOps(n)[..p]) == Stage(n, d, j)
    ensures p == |FlushOps(n)| ==> j == 5
  {
    if p == |FlushOps(n)| { j := 5; } else { j := PrefixIsKinds(n, 5, p); }
    assert FlushOps(n)[..p] == Kinds(n, j);
    KindsReachStage(n, d, j);
  }

  /** The cut lands before the append, and the append at the end of what is kept. */
  lemma FlushedLog(n: Node, d: Disk)
    requires Tracks(n, d) && Flushable(n)
    ensures Stage(n, d, 5).log == Strip(n.log)
  {
    if n.appendFrom.Some? {
      var k := n.appendFrom.value;
      assert Strip(n.log)[..k] + Strip(n.log[k..]) == Strip(n.log);
    }
  }

  /** Write-back refinement: a tracked node's flush brings storage level with memory. */
  lemma FlushSyncs(n: Node, d: Disk)
    requires Tracks(n, d) && Flushable(n)
    ensures Synced(n, Stage(n, d, 5)) && Stage(n, d, 5).decisions == d.decisions
  {
    FlushedLog(n, d);
  }

  lemma {:induction false} DecisionOpsOnly(d: Disk, ds: seq<Decision>)
    ensures WriteAll(d, DecisionOps(ds)) == d.(decisions := WriteAll(d, DecisionOps(ds)).decisions)
    decreases |ds|
  {
    if ds != [] {
      assert DecisionOps(ds)[1..] == DecisionOps(ds[1..]);
      DecisionOpsOnly(Write(d, DecisionOps(ds)[0]), ds[1..]);
    }
  }

  // ---------- Every handler marks what it changes ----------

  lemma TryAdvanceTracks(n: Node, d: Disk)
    requires Tracks(n, d) && Flushable(n)
    ensures Tracks(TryAdvance(n), d) && Flushable(TryAdvance(n))
  {
  }

  lemma StripConcat(a: LiveLog, b: LiveLog)
    ensures Strip(a + b) == Strip(a) + Strip(b)
  {
  }

  lemma TakenInTracks(n: Node, d: Disk, values: seq<Pending>)
    requires Tracks(n, d) && n.appendFrom == None && values != []
    ensures Tracks(TakenIn(n, values), d) && Flushable(TakenIn(n, values))
  {
    StripConcat(n.log, Entries(n.term, values));
  }

  lemma TakeInTracks(n: Node, d: Disk, values: seq<Pending>)
    requires Tracks(n, d) && n.appendFrom == None && values != []
    ensures Tracks(TakeIn(n, values), d) && Flushable(TakeIn(n, values))
  {
    TakenInTracks(n, d, values);
    TryAdvanceTracks(TakenIn(n, values), d);
  }

  lemma BecomeLeaderTracks(n: Node, d: Disk)
    requires Tracks(n, d) && n.appendFrom == None
    ensures Tracks(BecomeLeader(n).node, d) && Flushable(BecomeLeader(n).node)
  {
    if n.buffered != [] { TakeInTracks(Crowned(n), d, n.buffered); }
  }

  lemma MergedTracks(log: LiveLog, start: nat, entries: LiveLog)
    requires start <= |log|
    ensures var at := start + Matching(log, start, entries);
      TracksLog(Strip(Merged(log, start, entries)), if at == |log| then None else Some(at),
                if at == start + |entries| then None else Some(at), Strip(log))
  {
    var k := Matching(log, start, entries);
    StripConcat(log[..start + k], entries[k..]);
    assert Strip(log[..start + k]) == Strip(log)[..start + k];
  }

  lemma PlaceTracks(n: Node, d: Disk, start: nat, entries: LiveLog)
    requires start <= |n.log| && Tracks(n, d) && n.appendFrom == None && n.cutFrom == None
    ensures Tracks(Place(n, start, entries), d) && Flushable(Place(n, start, entries))
  {
    MergedTracks(n.log, start, entries);
  }

  lemma LearnCommitTracks(n: Node, d: Disk, leaderCommit: Option<nat>, end: nat)
    requires Tracks(n, d) && Flushable(n) && end <= |n.log|
    ensures var m := LearnCommit(n, leaderCommit, end).(buffered := []); Tracks(m, d) && Flushable(m)
  {
  }

  lemma AcceptTracks(n: Node, d: Disk, prevIndex: Option<nat>, entries: LiveLog, leaderCommit: Option<nat>)
    requires Tracks(n, d) && n.appendFrom == None && n.cutFrom == None && Length(prevIndex) <= |n.log|
    ensures Tracks(Accept(n, prevIndex, entries, leaderCommit), d) && Flushable(Accept(n, prevIndex, entries, leaderCommit))
  {
    PlaceTracks(n, d, Length(prevIndex), entries);
    PlacedTracks(n, Place(n, Length(prevIndex), entries), d, prevIndex, entries, leaderCommit);
  }

  lemma PlacedTracks(n: Node, p: Node, d: Disk, prevIndex: Option<nat>, entries: LiveLog, leaderCommit: Option<nat>)
    requires Length(prevIndex) <= |n.log| && p == Place(n, Length(prevIndex), entries) && Tracks(p, d) && Flushable(p)
    ensures Tracks(Accept(n, prevIndex, entries, leaderCommit), d) && Flushable(Accept(n, prevIndex, entries, leaderCommit))
  {
    LearnCommitTracks(p, d, leaderCommit, Length(prevIndex) + |entries|);
  }

  lemma HandleAppendTracks(n: Node, d: Disk, from: NodeId, m: Message)
    requires Tracks(n, d) && n.appendFrom == None && n.cutFrom == None && m.AppendEntries?
    ensures Tracks(Dispatch(n, from, m).node, d) && Flushable(Dispatch(n, from, m).node)
  {
    if PrevOk(n.log, m.prevIndex, m.prevTerm) { AcceptTracks(Loyal(n, m.leader), d, m.prevIndex, m.entries, m.leaderCommit); }
  }

  lemma AcknowledgeTracks(n: Node, d: Disk, from: NodeId, i: nat)
    requires Tracks(n, d) && n.appendFrom == None
    ensures Tracks(Acknowledge(n, from, i), d) && Flushable(Acknowledge(n, from, i))
  {
    TryAdvanceTracks(n.(matched := n.matched[from := Some(i)], next := n.next[from := i + 1]), d);
  }

  lemma HandleResponseTracks(n: Node, d: Disk, from: NodeId, m: Message)
    requires Tracks(n, d) && n.appendFrom == None && m.AppendEntriesResponse?
    ensures Tracks(Dispatch(n, from, m).node, d) && Flushable(Dispatch(n, from, m).node)
  {
    if m.matchIndex.Some? { AcknowledgeTracks(n, d, from, m.matchIndex.value); }
  }

  lemma HandleVoteTracks(n: Node, d: Disk, from: NodeId, m: Message)
    requires Tracks(n, d) && n.appendFrom == None && (m.RequestVote? || m.RequestVoteResponse?)
    ensures Tracks(Dispatch(n, from, m).node, d) && Flushable(Dispatch(n, from, m).node)
  {
    if m.RequestVoteResponse? { BecomeLeaderTracks(n.(votes := n.votes + {from}), d); }
  }

  lemma ProposeTracks(n: Node, d: Disk, value: Pending)
    requires Tracks(n, d) && n.appendFrom == None
    ensures Tracks(Propose(n, value).node, d) && Flushable(Propose(n, value).node)
  {
    if n.role.Leader? { TakeInTracks(n, d, [value]); }
  }

  lemma DispatchTracks(n: Node, d: Disk, from: NodeId, m: Message)
    requires Tracks(n, d) && n.appendFrom == None && n.cutFrom == None
    ensures Tracks(Dispatch(n, from, m).node, d) && Flushable(Dispatch(n, from, m).node)
  {
    match m
    case AppendEntries(_, _, _, _, _, _) => HandleAppendTracks(n, d, from, m);
    case AppendEntriesResponse(_, _, _, _, _) => HandleResponseTracks(n, d, from, m);
    case Forward(value, hops) => ProposeTracks(n, d, value);
    case _ => HandleVoteTracks(n, d, from, m);
  }

  lemma TickTracks(n: Node, d: Disk, due: bool)
    requires Clean(n) && Synced(n, d)
    ensures Tracks(OnTick(n, due).node, d) && Flushable(OnTick(n, due).node)
  {
    BecomeLeaderTracks(Standing(n), d);
  }

  lemma ReceiveTracks(n: Node, d: Disk, from: NodeId, m: Message)
    requires Clean(n) && Synced(n, d)
    ensures Tracks(HandleMessage(n, from, m).node, d) && Flushable(HandleMessage(n, from, m).node)
  {
    DispatchTracks(Observe(n, m), d, from, m);
  }

  /** Whatever a handler does between flushes, its marks account for it. */
  lemma HandleTracks(n: Node, d: Disk, e: Event)
    requires Clean(n) && Synced(n, d)
    ensures Tracks(Handle(n, e).node, d) && Flushable(Handle(n, e).node)
  {
    match e
    case Tick(due) => TickTracks(n, d, due);
    case Submit(value) => ProposeTracks(n, d, value);
    case Receive(from, message) => ReceiveTracks(n, d, from, message);
  }

  /** After every event's flush, storage equals memory. */
  lemma EventSyncs(n: Node, d: Disk, e: Event)
    requires Clean(n) && Synced(n, d)
    ensures Flushable(Handle(n, e).node)
    ensures Synced(Handle(n, e).node, WriteAll(d, FlushOps(Handle(n, e).node)))
  {
    HandleTracks(n, d, e);
    FlushSyncs(Handle(n, e).node, d);
    KindsReachStage(Handle(n, e).node, d, 5);
  }

  // ---------- Recovery ----------

  ghost function LastSlot(decisions: map<nat, Value>): (r: Option<nat>)
    ensures forall s :: s in decisions ==> s < Length(r)
    ensures r.Some? ==> r.value in decisions
    decreases |decisions|
  {
    if decisions == map[] then None else
      var s :| s in decisions;
      var rest := decisions - {s};
      assert |rest| < |decisions| by { assert rest.Keys == decisions.Keys - {s}; assert |rest.Keys| < |decisions.Keys|; }
      assert forall x :: x in decisions && x != s ==> x in rest;
      var r := LastSlot(rest);
      if s < Length(r) then r else Some(s)
  }

  /** What a node loads. A lone node resumes as leader of a term it voted for itself in. */
  ghost function Loaded(id: NodeId, size: nat, d: Disk): (n: Node)
    ensures Length(n.commit) <= |n.log|
  {
    var last := LastSlot(d.decisions);
    var commit := Index(Min(Max(Length(d.commit), Length(last)), |d.log|));
    var resume := size == 1 && d.term > 0 && d.vote == Some(id);
    var matched: map<NodeId, Option<nat>> := if resume && d.log != [] then map[id := Some(|d.log| - 1)] else map[];
    Node(id, size, d.term, d.vote, Wrap(d.log), commit, last,
         if resume then Leader else Follower, if resume then Some(id) else None,
         map[], matched, {}, [], false, false, None, None, false, [], [])
  }

  /** The state a node restarts with: committed slots that were not delivered are queued again. */
  ghost function Restore(id: NodeId, size: nat, d: Disk): Node { ApplyCommitted(Loaded(id, size, d)) }
}
