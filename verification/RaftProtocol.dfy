/**
 The protocol object and the storage it owns, as objects whose methods update their fields.
 `Value` is the object's state as a value, and each method is proved to do to it what the
 function of the same purpose in `RaftNode` or `Persistence` says.
 */
module RaftProtocol {
  import opened Types
  import opened RaftNode
  import opened Persistence
  import opened CommitRule
  import Cluster

  // ---------- Storage ----------

  class RaftMemoryStorage {
    var term: nat
    var vote: Option<NodeId>
    var log: Log
    var commit: Option<nat>
    var decisions: map<nat, Value>

    ghost function Value(): Disk
      reads this
    {
      Disk(term, vote, log, commit, decisions)
    }

    constructor ()
      ensures Value() == Cluster.Empty()
    {
      term, vote, log, commit, decisions := 0, None, [], None, map[];
    }

    method SaveDecision(slot: nat, value: Types.Value)
      modifies this
      ensures Value() == Write(old(Value()), Op.SaveDecision(slot, value))
    {
      decisions := decisions[slot := value];
    }

    method SaveTerm(term: nat)
      modifies this
      ensures Value() == Write(old(Value()), Op.SaveTerm(term))
    {
      this.term := term;
    }

    method SaveVotedFor(vote: Option<NodeId>)
      modifies this
      ensures Value() == Write(old(Value()), SaveVote(vote))
    {
      this.vote := vote;
    }

    method AppendLog(entries: Log)
      modifies this
      ensures Value() == Write(old(Value()), Op.AppendLog(entries))
    {
      log := log + entries;
    }

    method TruncateLogFrom(index: nat)
      modifies this
      ensures Value() == Write(old(Value()), CutLog(index))
    {
      if index < |log| { log := log[..index]; }
    }

    method SaveCommitIndex(commit: Option<nat>)
      modifies this
      ensures Value() == Write(old(Value()), SaveCommit(commit))
    {
      this.commit := commit;
    }
  }

  method MaxSlot(decisions: map<nat, Types.Value>) returns (last: Option<nat>)
    ensures last == LastSlot(decisions)
  {
    last := None;
    var rest := decisions.Keys;
    ghost var done := {};
    while rest != {}
      invariant rest + done == decisions.Keys
      invariant forall s :: s in done ==> s < Length(last)
      invariant last.Some? ==> last.value in decisions
      decreases rest
    {
      var s :| s in rest;
      if s >= Length(last) { last := Some(s); }
      rest, done := rest - {s}, done + {s};
    }
    var other := LastSlotOf(decisions);
  }

  lemma LastSlotOf(decisions: map<nat, Types.Value>) returns (last: Option<nat>)
    ensures last == LastSlot(decisions)
    ensures forall s :: s in decisions ==> s < Length(last)
    ensures last.Some? ==> last.value in decisions
  {
    last := LastSlot(decisions);
  }

  // ---------- Placing entries one at a time ----------

  /** Where the log stands once i of the entries have been gone through from `start`. */
  ghost function PlacedSoFar(n: Node, start: nat, entries: LiveLog, i: nat): Node
    requires start <= |n.log| && i <= |entries|
  {
    var k := Matching(n.log, start, entries);
    if i <= k then n
    else n.(log := n.log[..start + k] + entries[k..i],
            cutFrom := if start + k < |n.log| then Some(start + k) else n.cutFrom,
            appendFrom := if n.appendFrom.None? || (start + k < |n.log| && start + k < n.appendFrom.value) then Some(start + k) else n.appendFrom)
  }

  ghost function PlacedOne(n: Node, at: nat, entry: LogEntry<Pending>): Node
    requires at <= |n.log|
  {
    if at < |n.log| && n.log[at].term == entry.term then n
    else n.(log := n.log[..at] + [entry],
            cutFrom := if at < |n.log| then Some(at) else n.cutFrom,
            appendFrom := if n.appendFrom.None? || (at < |n.log| && at < n.appendFrom.value) then Some(at) else n.appendFrom)
  }

  lemma PlacedMatch(n: Node, start: nat, entries: LiveLog, i: nat)
    requires start <= |n.log| && i < Matching(n.log, start, entries)
    ensures PlacedOne(n, start + i, entries[i]) == n
  {
  }

  lemma PlacedConflict(n: Node, start: nat, entries: LiveLog)
    requires start <= |n.log| && Matching(n.log, start, entries) < |entries|
    ensures var k := Matching(n.log, start, entries); PlacedOne(n, start + k, entries[k]) == PlacedSoFar(n, start, entries, k + 1)
  {
  }

  lemma PlacedAfter(n: Node, start: nat, entries: LiveLog, i: nat)
    requires start <= |n.log| && Matching(n.log, start, entries) < i < |entries|
    ensures start + i == |PlacedSoFar(n, start, entries, i).log|
    ensures PlacedOne(PlacedSoFar(n, start, entries, i), start + i, entries[i]) == PlacedSoFar(n, start, entries, i + 1)
  {
    var k := Matching(n.log, start, entries);
    assert entries[k..i] + [entries[i]] == entries[k..i + 1];
    var m := PlacedSoFar(n, start, entries, i);
    assert m.log[..start + i] == m.log;
    assert m.log + [entries[i]] == n.log[..start + k] + entries[k..i + 1];
  }

  lemma PlacedNext(n: Node, start: nat, entries: LiveLog, i: nat)
    requires start <= |n.log| && i < |entries|
    ensures start + i <= |PlacedSoFar(n, start, entries, i).log|
    ensures PlacedOne(PlacedSoFar(n, start, entries, i), start + i, entries[i]) == PlacedSoFar(n, start, entries, i + 1)
  {
    var k := Matching(n.log, start, entries);
    if i < k { PlacedMatch(n, start, entries, i); }
    else if i == k { PlacedConflict(n, start, entries); }
    else { PlacedAfter(n, start, entries, i); }
  }

  /** The log cut to a length, with the cut marked for storage. */
  function CutTo(n: Node, cutoff: nat): Node {
    if 0 < cutoff < |n.log| then n.(log := n.log[..cutoff], cutFrom := Some(if n.cutFrom.Some? then Min(n.cutFrom.value, cutoff) else cutoff)) else n
  }

  lemma PlacedAll(n: Node, start: nat, entries: LiveLog)
    requires start <= |n.log|
    ensures CutTo(PlacedSoFar(n, start, entries, |entries|), start + |entries|) == RaftNode.Place(n, start, entries)
  {
    if Matching(n.log, start, entries) == |entries| { PlacedNone(n, start, entries); } else { PlacedSome(n, start, entries); }
  }

  /** Nothing had to be placed: at most the rest is cut. */
  lemma PlacedNone(n: Node, start: nat, entries: LiveLog)
    requires start <= |n.log| && Matching(n.log, start, entries) == |entries|
    ensures CutTo(n, start + |entries|) == RaftNode.Place(n, start, entries)
  {
    assert RaftNode.Merged(n.log, start, entries) == n.log[..start + |entries|];
    assert n.log[..|n.log|] == n.log;
  }

  /** Something was placed: the log ends with it. */
  lemma PlacedSome(n: Node, start: nat, entries: LiveLog)
    requires start <= |n.log| && Matching(n.log, start, entries) < |entries|
    ensures CutTo(PlacedSoFar(n, start, entries, |entries|), start + |entries|) == RaftNode.Place(n, start, entries)
  {
    var k := Matching(n.log, start, entries);
    assert entries[k..|entries|] == entries[k..];
  }

  // ---------- The protocol ----------

  class RaftProtocol {
    const id: NodeId
    const size: nat
    var term: nat
    var vote: Option<NodeId>
    var log: LiveLog
    var commit: Option<nat>
    var applied: Option<nat>
    var role: Role
    var leader: Option<NodeId>
    var next: map<NodeId, nat>
    var matched: map<NodeId, Option<nat>>
    var votes: set<NodeId>
    var decided: seq<Decision>
    var saveTerm: bool
    var saveVote: bool
    var appendFrom: Option<nat>
    var cutFrom: Option<nat>
    var saveCommit: bool
    var buffered: seq<Pending>
    var lost: seq<Pending>
    const storage: RaftMemoryStorage

    ghost function Value(): Node
      reads this
    {
      Node(id, size, term, vote, log, commit, applied, role, leader, next, matched, votes, decided,
           saveTerm, saveVote, appendFrom, cutFrom, saveCommit, buffered, lost)
    }

    constructor (id: NodeId, size: nat, storage: RaftMemoryStorage)
      ensures Value() == Cluster.Fresh(id, size) && this.storage == storage
    {
      this.id, this.size, this.storage := id, size, storage;
      term, vote, log, commit, applied, role, leader := 0, None, [], None, None, Follower, None;
      next, matched, votes, decided, buffered, lost := map[], map[], {}, [], [], [];
      saveTerm, saveVote, appendFrom, cutFrom, saveCommit := false, false, None, None, false;
    }

    // ----- Commitment -----

    method ApplyCommittedEntries()
      requires Length(commit) <= |log|
      modifies this
      ensures Value() == ApplyCommitted(old(Value()))
    {
      if commit.None? { return; }
      var target := commit.value;
      var start := Length(applied);
      if start > target { return; }
      var i := start;
      while i <= target
        invariant start <= i <= target + 1 <= |log|
        invariant Value() == old(Value()).(decided := old(decided) + Decisions(log, start, i))
      {
        decided := decided + [Decision(i, log[i].value)];
        i := i + 1;
      }
      applied := Some(target);
    }

    method CommitTo(index: nat)
      requires index < |log|
      modifies this
      ensures Value() == ApplyCommitted(old(Value()).(commit := Some(index), saveCommit := true))
    {
      commit, saveCommit := Some(index), true;
      ApplyCommittedEntries();
    }

    method TryAdvanceCommit()
      modifies this
      ensures Value() == TryAdvance(old(Value()))
    {
      var rows := SortedMatches(matched);
      var q := Quorum(size);
      if |rows| < q { return; }
      QuorumthIs(rows, matched, q);
      var candidate := rows[q - 1].1;
      if candidate.None? || candidate.value >= |log| { return; }
      if log[candidate.value].term == term && Length(commit) <= candidate.value {
        CommitTo(candidate.value);
      }
    }

    // ----- Elections -----

    method EnterTerm(term: nat)
      modifies this
      ensures Value() == old(Value()).(term := term, vote := None, saveTerm := true, saveVote := true)
    {
      this.term, vote, saveTerm, saveVote := term, None, true, true;
    }

    method StepDown()
      modifies `role, `leader, `votes, `appendFrom
      ensures role == Follower && leader == None && votes == {} && appendFrom == None
    {
      role, leader, votes, appendFrom := Follower, None, {}, None;
    }

    method BecomeFollower(term: nat)
      modifies this
      ensures Value() == RaftNode.BecomeFollower(old(Value()), term)
    {
      if term > this.term { EnterTerm(term); }
      StepDown();
    }

    method BroadcastHeartbeat() returns (out: seq<Outgoing>)
      ensures out == [Outgoing(Broadcast, Heartbeat(Value()))]
    {
      out := [Outgoing(Broadcast, AppendEntries(term, id, Index(|log|), LastTerm(log), [], commit))];
    }

    method BroadcastWithEntries(entries: LiveLog) returns (out: seq<Outgoing>)
      requires |entries| <= |log|
      ensures out == [Outgoing(Broadcast, WithEntries(Value(), entries))]
    {
      var prevIndex := if |log| > |entries| then Some(|log| - |entries| - 1) else None;
      var prevTerm := if prevIndex.Some? then log[prevIndex.value].term else 0;
      out := [Outgoing(Broadcast, AppendEntries(term, id, prevIndex, prevTerm, entries, commit))];
    }

    method AppendEach(values: seq<Pending>) returns (entries: LiveLog)
      modifies this`log
      ensures entries == Entries(term, values) && log == old(log) + entries
    {
      entries := [];
      for i := 0 to |values|
        invariant entries == Entries(term, values[..i]) && log == old(log) + entries
      {
        var entry := LogEntry(term, values[i]);
        log, entries := log + [entry], entries + [entry];
      }
      assert values[..|values|] == values;
    }

    /** Appends the values to the log and marks them for storage and as held here. */
    method TakeValues(values: seq<Pending>) returns (entries: LiveLog)
      requires values != []
      modifies this
      ensures Value() == TakenIn(old(Value()), values) && entries == Entries(old(term), values)
    {
      var start := |log|;
      entries := AppendEach(values);
      if appendFrom.None? { appendFrom := Some(start); }
      matched := matched[id := Some(|log| - 1)];
    }

    method AppendOwn(values: seq<Pending>) returns (out: seq<Outgoing>)
      requires values != []
      modifies this
      ensures Effect(Value(), out) == Publish(old(Value()), values)
    {
      var entries := TakeValues(values);
      TryAdvanceCommit();
      out := BroadcastWithEntries(entries);
    }

    method TakeOffice()
      modifies `role, `leader, `next, `matched
      ensures role == Leader && leader == Some(id) && next == map[] && matched == if log == [] then map[] else map[id := Some(|log| - 1)]
    {
      role, leader, next, matched := Leader, Some(id), map[], map[];
      if |log| > 0 { matched := matched[id := Some(|log| - 1)]; }
    }

    method BecomeLeader() returns (out: seq<Outgoing>)
      modifies this
      ensures Effect(Value(), out) == RaftNode.BecomeLeader(old(Value()))
    {
      TakeOffice();
      var values := buffered;
      buffered := [];
      assert Value() == Crowned(old(Value()));
      if values == [] {
        out := BroadcastHeartbeat();
      } else {
        out := AppendOwn(values);
      }
    }

    method VoteForSelf()
      modifies `term, `vote, `votes, `saveTerm, `saveVote
      ensures term == old(term) + 1 && vote == Some(id) && votes == {id} && saveTerm && saveVote
    {
      term, vote, votes := term + 1, Some(id), {id};
      saveTerm, saveVote := true, true;
    }

    method Stand()
      modifies this
      ensures Value() == Standing(old(Value()))
    {
      role := Candidate;
      VoteForSelf();
      leader := None;
    }

    method StartElection() returns (out: seq<Outgoing>)
      modifies this
      ensures Effect(Value(), out) == RaftNode.StartElection(old(Value()))
    {
      var wasCandidate := role.Candidate?;
      Stand();
      if |votes| >= Quorum(size) {
        out := BecomeLeader();
        return;
      }
      if wasCandidate { lost, buffered := lost + buffered, []; }
      out := [Outgoing(Broadcast, RequestVote(term, id, Index(|log|), LastTerm(log)))];
    }

    method HandleRequestVote(term: nat, candidate: NodeId, lastIndex: Option<nat>, lastTerm: nat) returns (out: seq<Outgoing>)
      modifies this
      ensures Effect(Value(), out) == RaftNode.HandleRequestVote(old(Value()), term, candidate, lastIndex, lastTerm)
    {
      var grant := false;
      if term >= this.term {
        var votedForOther := vote.Some? && vote.value != candidate;
        var logOk := if lastTerm != LastTerm(log) then lastTerm > LastTerm(log) else Length(lastIndex) >= |log|;
        grant := !votedForOther && logOk;
      }
      if grant { vote, saveVote := Some(candidate), true; }
      out := [Outgoing(Peer(candidate), RequestVoteResponse(this.term, grant))];
    }

    method HandleRequestVoteResponse(from: NodeId, term: nat, granted: bool) returns (out: seq<Outgoing>)
      modifies this
      ensures Effect(Value(), out) == RaftNode.HandleRequestVoteResponse(old(Value()), from, term, granted)
    {
      out := [];
      if !role.Candidate? || term != this.term { return; }
      if granted {
        votes := votes + {from};
        if |votes| >= Quorum(size) { out := BecomeLeader(); }
      }
    }

    // ----- Replication -----

    method PlaceEntry(at: nat, entry: LogEntry<Pending>)
      requires at <= |log|
      modifies this
      ensures Value() == PlacedOne(old(Value()), at, entry)
    {
      if at < |log| {
        if log[at].term != entry.term {
          log := log[..at];
          cutFrom := Some(at);
          log := log + [entry];
          if appendFrom.None? || appendFrom.value > at { appendFrom := Some(at); }
        }
      } else {
        var from := |log|;
        log := log + [entry];
        if appendFrom.None? { appendFrom := Some(from); }
      }
    }

    method CutPast(cutoff: nat)
      modifies this
      ensures Value() == CutTo(old(Value()), cutoff)
    {
      if 0 < cutoff < |log| {
        log := log[..cutoff];
        cutFrom := Some(if cutFrom.Some? then Min(cutFrom.value, cutoff) else cutoff);
      }
    }

    /** Appends the entries from `start`, cutting at the first conflict, and cuts what lies past them. */
    method PlaceEntries(start: nat, entries: LiveLog)
      requires start <= |log|
      modifies this
      ensures Value() == RaftNode.Place(old(Value()), start, entries)
    {
      ghost var was := Value();
      for i := 0 to |entries|
        invariant Value() == PlacedSoFar(was, start, entries, i)
      {
        PlacedNext(was, start, entries, i);
        PlaceEntry(start + i, entries[i]);
      }
      PlacedAll(was, start, entries);
      CutPast(start + |entries|);
    }

    method FirstIndexOf(t: nat, last: nat) returns (first: nat)
      requires last < |log| && log[last].term == t
      ensures first == FirstOfTerm(log, t, 0, last + 1)
    {
      first := 0;
      while log[first].term != t
        invariant first <= last
        invariant FirstOfTerm(log, t, 0, last + 1) == FirstOfTerm(log, t, first, last + 1)
        decreases last - first
      {
        first := first + 1;
      }
    }

    method ConflictHint(prev: nat) returns (conflictTerm: Option<nat>, conflictIndex: Option<nat>)
      ensures (conflictTerm, conflictIndex) == Hint(log, prev)
    {
      if prev >= |log| {
        conflictTerm, conflictIndex := None, Some(|log|);
      } else {
        var first := FirstIndexOf(log[prev].term, prev);
        conflictTerm, conflictIndex := Some(log[prev].term), Some(first);
      }
    }

    method LearnCommitIndex(leaderCommit: Option<nat>, end: nat)
      requires end <= |log|
      modifies this
      ensures Value() == LearnCommit(old(Value()), leaderCommit, end)
    {
      if leaderCommit.Some? && end > 0 {
        var newCommit := Min(leaderCommit.value, end - 1);
        if commit.None? || newCommit > commit.value {
          CommitTo(newCommit);
        }
      }
    }

    method ForwardBuffered(to: NodeId) returns (out: seq<Outgoing>)
      modifies this`buffered
      ensures Value() == old(Value()).(buffered := []) && out == ForwardAll(to, old(buffered))
    {
      out := [];
      for i := 0 to |buffered|
        invariant buffered == old(buffered) && out == ForwardAll(to, buffered[..i])
      {
        out := out + [Outgoing(Peer(to), Forward(buffered[i], 0))];
      }
      assert buffered[..|buffered|] == buffered;
      buffered := [];
    }

    method Follow(leader: NodeId)
      modifies this
      ensures Value() == Loyal(old(Value()), leader)
    {
      role, this.leader := Follower, Some(leader);
    }

    method AbsorbEntries(start: nat, entries: LiveLog, leaderCommit: Option<nat>)
      requires start <= |log|
      modifies this
      ensures Value() == LearnCommit(Place(old(Value()), start, entries), leaderCommit, start + |entries|)
      ensures term == old(term) && buffered == old(buffered)
    {
      PlaceEntries(start, entries);
      LearnCommitIndex(leaderCommit, start + |entries|);
    }

    method AcceptEntries(leader: NodeId, prevIndex: Option<nat>, entries: LiveLog, leaderCommit: Option<nat>) returns (out: seq<Outgoing>)
      requires Length(prevIndex) <= |log|
      modifies this
      ensures Value() == Accept(old(Value()), prevIndex, entries, leaderCommit)
      ensures var ack := AppendEntriesResponse(old(term), true, Index(Length(prevIndex) + |entries|), None, None);
        out == [Outgoing(Peer(leader), ack)] + ForwardAll(leader, old(buffered))
    {
      AbsorbEntries(Length(prevIndex), entries, leaderCommit);
      ghost var absorbed := Value();
      var response := Outgoing(Peer(leader), AppendEntriesResponse(term, true, Index(Length(prevIndex) + |entries|), None, None));
      var forwards := ForwardBuffered(leader);
      assert Value() == absorbed.(buffered := []);
      out := [response] + forwards;
    }

    method HandleAppendEntries(term: nat, leader: NodeId, prevIndex: Option<nat>, prevTerm: nat, entries: LiveLog,
        leaderCommit: Option<nat>)
        returns (out: seq<Outgoing>)
      modifies this
      ensures Effect(Value(), out) == RaftNode.HandleAppendEntries(old(Value()), term, leader, prevIndex, prevTerm, entries, leaderCommit)
    {
      if term < this.term || (term == this.term && role.Leader?) {
        return [Outgoing(Peer(leader), AppendEntriesResponse(this.term, false, None, None, None))];
      }
      Follow(leader);
      var prevOk := prevIndex.None? || (prevIndex.value < |log| && log[prevIndex.value].term == prevTerm);
      if prevOk {
        out := AcceptEntries(leader, prevIndex, entries, leaderCommit);
      } else {
        var conflictTerm, conflictIndex := ConflictHint(prevIndex.value);
        out := [Outgoing(Peer(leader), AppendEntriesResponse(this.term, false, None, conflictTerm, conflictIndex))];
      }
    }

    method LastIndexOf(t: nat) returns (after: nat)
      ensures after == AfterLastOfTerm(log, t)
    {
      after := |log|;
      while after > 0 && log[after - 1].term != t
        invariant after <= |log| && AfterLastOfTerm(log[..after], t) == AfterLastOfTerm(log, t)
      {
        assert log[..after][..after - 1] == log[..after - 1];
        after := after - 1;
      }
    }

    method ResumeAt(from: NodeId, conflictTerm: Option<nat>, conflictIndex: Option<nat>) returns (newNext: nat)
      ensures newNext == Min(Resume(Value(), from, conflictTerm, conflictIndex), |log|)
    {
      if conflictIndex.Some? {
        newNext := conflictIndex.value;
        if conflictTerm.Some? {
          var after := LastIndexOf(conflictTerm.value);
          if after > 0 { newNext := after; }
        }
      } else {
        var cur := if from in next then next[from] else |log|;
        newNext := if cur == 0 then 0 else cur - 1;
      }
      newNext := Min(newNext, |log|);
    }

    method ResendLog(from: NodeId, conflictTerm: Option<nat>, conflictIndex: Option<nat>) returns (out: seq<Outgoing>)
      modifies this
      ensures Effect(Value(), out) == Resend(old(Value()), from, conflictTerm, conflictIndex)
    {
      var newNext := ResumeAt(from, conflictTerm, conflictIndex);
      next := next[from := newNext];
      var prevIndex := if newNext == 0 then None else Some(newNext - 1);
      var prevTerm := if prevIndex.Some? then log[prevIndex.value].term else 0;
      out := [Outgoing(Peer(from), AppendEntries(term, id, prevIndex, prevTerm, log[newNext..], commit))];
    }

    method HandleAppendEntriesResponse(from: NodeId, term: nat, success: bool, matchIndex: Option<nat>,
        conflictTerm: Option<nat>, conflictIndex: Option<nat>)
        returns (out: seq<Outgoing>)
      modifies this
      ensures Effect(Value(), out) == RaftNode.HandleAppendEntriesResponse(old(Value()), from, term, success, matchIndex, conflictTerm, conflictIndex)
    {
      out := [];
      if !role.Leader? || term != this.term { return; }
      if !success {
        out := ResendLog(from, conflictTerm, conflictIndex);
      } else if matchIndex.Some? && matchIndex.value < |log| {
        matched, next := matched[from := matchIndex], next[from := matchIndex.value + 1];
        TryAdvanceCommit();
      }
    }

    // ----- Proposals and events -----

    method Propose(value: Pending) returns (out: seq<Outgoing>)
      modifies this
      ensures Effect(Value(), out) == RaftNode.Propose(old(Value()), value)
    {
      if role.Leader? {
        out := AppendOwn([value]);
      } else if leader.Some? {
        out := [Outgoing(Peer(leader.value), Forward(value, 0))];
      } else {
        buffered, out := buffered + [value], [];
      }
    }

    method HandleForward(from: NodeId, value: Pending, hops: nat) returns (out: seq<Outgoing>)
      modifies this
      ensures Effect(Value(), out) == RaftNode.HandleForward(old(Value()), from, value, hops)
    {
      out := [];
      if role.Leader? {
        out := Propose(value);
      } else if leader.Some? && leader.value != from {
        if hops + 1 < MAX_FORWARD_HOPS { out := [Outgoing(Peer(leader.value), Forward(value, hops + 1))]; }
      } else {
        buffered := buffered + [value];
      }
    }

    method HandleMessage(from: NodeId, m: Message) returns (out: seq<Outgoing>)
      modifies this
      ensures Effect(Value(), out) == RaftNode.HandleMessage(old(Value()), from, m)
    {
      if !m.Forward? && m.term > term { BecomeFollower(m.term); }
      match m
      case RequestVote(term, candidate, lastIndex, lastTerm) => out := HandleRequestVote(term, candidate, lastIndex, lastTerm);
      case RequestVoteResponse(term, granted) => out := HandleRequestVoteResponse(from, term, granted);
      case AppendEntries(term, leader, prevIndex, prevTerm, entries, leaderCommit) =>
        out := HandleAppendEntries(term, leader, prevIndex, prevTerm, entries, leaderCommit);
      case AppendEntriesResponse(term, success, matchIndex, conflictTerm, conflictIndex) =>
        out := HandleAppendEntriesResponse(from, term, success, matchIndex, conflictTerm, conflictIndex);
      case Forward(value, hops) => out := HandleForward(from, value, hops);
    }

    method OnTick(due: bool) returns (out: seq<Outgoing>)
      modifies this
      ensures Effect(Value(), out) == RaftNode.OnTick(old(Value()), due)
    {
      if !due {
        out := [];
      } else if role.Leader? {
        out := BroadcastHeartbeat();
      } else {
        out := StartElection();
      }
    }

    // ----- Storage -----

    method ClearMarks()
      modifies `saveTerm, `saveVote, `cutFrom, `appendFrom, `saveCommit
      ensures !saveTerm && !saveVote && cutFrom == None && appendFrom == None && !saveCommit
    {
      saveTerm, saveVote, cutFrom, appendFrom, saveCommit := false, false, None, None, false;
    }

    method WriteTermAndVote()
      modifies storage
      requires Flushable(Value())
      ensures storage.Value() == Stage(Value(), old(storage.Value()), 2)
    {
      if saveTerm { storage.SaveTerm(term); }
      if saveVote { storage.SaveVotedFor(vote); }
    }

    method WriteLogAndCommit(ghost d: Disk)
      requires Flushable(Value()) && storage.Value() == Stage(Value(), d, 2)
      modifies storage
      ensures storage.Value() == Stage(Value(), d, 5)
    {
      if cutFrom.Some? { storage.TruncateLogFrom(cutFrom.value); }
      if appendFrom.Some? { storage.AppendLog(Strip(log[appendFrom.value..])); }
      if saveCommit { storage.SaveCommitIndex(commit); }
    }

    /** Writes what the last handler marked: term, vote, cut, append, commit index. */
    method FlushPersist()
      requires Flushable(Value())
      modifies this, storage
      ensures Value() == Drained(old(Value())) && storage.Value() == WriteAll(old(storage.Value()), FlushOps(old(Value())))
    {
      KindsReachStage(Value(), storage.Value(), 5);
      WriteTermAndVote();
      WriteLogAndCommit(old(storage.Value()));
      ClearMarks();
    }

    /** Stores the pending decisions one by one and hands them over. */
    method DrainDecisions() returns (ds: seq<Decision>)
      modifies this`decided, storage
      ensures ds == old(decided) && decided == []
      ensures storage.Value() == WriteAll(old(storage.Value()), DecisionOps(ds))
    {
      ds := decided;
      decided := [];
      ghost var d := storage.Value();
      for i := 0 to |ds|
        invariant storage.Value() == WriteAll(d, DecisionOps(ds[..i])) && decided == []
      {
        assert DecisionOps(ds[..i + 1]) == DecisionOps(ds[..i]) + [SaveDecision(ds[i].slot, ds[i].value.value)];
        WriteAllConcat(d, DecisionOps(ds[..i]), [SaveDecision(ds[i].slot, ds[i].value.value)]);
        storage.SaveDecision(ds[i].slot, ds[i].value.value);
      }
      assert ds[..|ds|] == ds;
    }

    /** Empties everything that does not survive a restart. */
    method Reset()
      modifies `saveTerm, `saveVote, `cutFrom, `appendFrom, `saveCommit, `decided, `buffered, `lost, `votes, `next, `matched
      ensures !saveTerm && !saveVote && cutFrom == None && appendFrom == None && !saveCommit
      ensures decided == [] && buffered == [] && lost == [] && votes == {} && next == map[] && matched == map[]
    {
      ClearMarks();
      decided, buffered, lost, votes, next, matched := [], [], [], {}, map[], map[];
    }

    method Rejoin()
      modifies `role, `leader, `matched
      requires matched == map[]
      ensures var resume := size == 1 && term > 0 && vote == Some(id);
        && role == (if resume then Leader else Follower) && leader == (if resume then Some(id) else None)
        && matched == (if resume && log != [] then map[id := Some(|log| - 1)] else map[])
    {
      if size == 1 && term > 0 && vote == Some(id) {
        role, leader := Leader, Some(id);
        if |log| > 0 { matched := matched[id := Some(|log| - 1)]; }
      } else {
        role, leader := Follower, None;
      }
    }

    method Load()
      modifies `term, `vote, `log, `commit, `applied
      ensures term == storage.term && vote == storage.vote && log == Wrap(storage.log) && applied == LastSlot(storage.decisions)
      ensures commit == Index(Min(Max(Length(storage.commit), Length(applied)), |log|))
    {
      term, vote, log := storage.term, storage.vote, Wrap(storage.log);
      var last := MaxSlot(storage.decisions);
      commit := if Length(storage.commit) < Length(last) then last else storage.commit;
      if commit.Some? { commit := if |log| == 0 then None else Some(Min(commit.value, |log| - 1)); }
      applied := last;
    }

    method Reload()
      modifies this
      ensures Value() == Loaded(id, size, storage.Value())
    {
      Load();
      Reset();
      Rejoin();
    }

    /** Starts over from what storage holds. */
    method Recover()
      modifies this
      ensures Value() == Restore(id, size, storage.Value())
    {
      Reload();
      ApplyCommittedEntries();
    }

    // ----- The event loop around it -----

    method HandleEvent(e: Event) returns (out: seq<Outgoing>)
      modifies this
      ensures Effect(Value(), out) == Handle(old(Value()), e)
    {
      match e
      case Tick(due) => out := OnTick(due);
      case Submit(value) => out := Propose(value);
      case Receive(from, message) => out := HandleMessage(from, message);
    }

    /**
     One turn of the event loop: handle, flush, then send and deliver. It is the cluster's step
     without a crash, so the theorems on runs are about these methods.
     */
    method Turn(e: Event) returns (out: seq<Outgoing>, ds: seq<Decision>)
      requires Clean(Value()) && Synced(Value(), storage.Value())
      modifies this, storage
      ensures Clean(Value()) && Synced(Value(), storage.Value())
      ensures Cluster.Outcome(Value(), storage.Value(), out) == Cluster.Process(old(Value()), old(storage.Value()), e, None)
      ensures ds == Handle(old(Value()), e).node.decided
    {
      ghost var n, d := Value(), storage.Value();
      HandleTracks(n, d, e);
      EventSyncs(n, d, e);
      out := HandleEvent(e);
      ghost var m := Value();
      FlushPersist();
      ghost var flushed := storage.Value();
      ds := DrainDecisions();
      WriteAllConcat(d, FlushOps(m), DecisionOps(ds));
      DecisionOpsOnly(flushed, ds);
    }
  }
}
