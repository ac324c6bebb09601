/** The rules of Raft, event by event, said of messages, logs and majorities and of nothing else. */
module RaftRules {
  import opened Types
  import opened RaftNode
  import opened Persistence
  import opened Repair

  // ---------- Votes ----------

  /** A log that ends in this term, with this length, is no worse than the given one: the last term decides, then the length. */
  predicate NoWorse(lastTerm: nat, length: nat, log: LiveLog) {
    log == [] || lastTerm > log[|log| - 1].term || (lastTerm == log[|log| - 1].term && length >= |log|)
  }

  /** The vote the node has given in the term, if it is in that term. */
  function VoteIn(n: Node, term: nat): Option<NodeId> { if n.term == term then n.vote else None }

  /**
   A vote is granted if and only if the term is not an earlier one, no other candidate has the
   node's vote in it, and the candidate's log is no worse than the node's.
   */
  lemma VotesExactly(n: Node, from: NodeId, term: nat, candidate: NodeId, lastIndex: Option<nat>, lastTerm: nat)
    ensures var r := Handle(n, Event.Receive(from, RequestVote(term, candidate, lastIndex, lastTerm)));
      var granted := n.term <= term && (VoteIn(n, term).None? || VoteIn(n, term) == Some(candidate)) && NoWorse(lastTerm, Length(lastIndex), n.log);
      && r.out == [Outgoing(Peer(candidate), RequestVoteResponse(Max(n.term, term), granted))]
      && r.node.term == Max(n.term, term)
      && r.node.vote == (if granted then Some(candidate) else if n.term < term then None else n.vote)
      && r.node.log == n.log && r.node.commit == n.commit && r.node.matched == n.matched
      && r.node.role == (if n.term < term then Follower else n.role) && r.node.leader == if n.term < term then None else n.leader
  {
  }

  /** A node takes office on a vote if and only if it stands in that term and the vote makes a majority. */
  lemma WinsExactly(n: Node, from: NodeId, term: nat, granted: bool)
    requires !n.role.Leader?
    ensures var r := Handle(n, Event.Receive(from, RequestVoteResponse(term, granted)));
      && (r.node.role.Leader? <==> n.role.Candidate? && granted && term == n.term && 2 * |n.votes + {from}| > n.size)
      && (r.node.role.Leader? ==> r.node.log == n.log + Entries(n.term, n.buffered) && r.node.term == n.term && r.node.leader == Some(n.id))
      && (r.node.role.Leader? ==> r.node.matched == CountsItself(n.id, r.node.log) && r.node.buffered == [])
      && (n.role.Candidate? && term == n.term ==> r.node.votes == if granted then n.votes + {from} else n.votes)
  {
    QuorumIsMajority(n.size, |n.votes + {from}|);
    var o, m := Observe(n, RequestVoteResponse(term, granted)), n.(votes := n.votes + {from});
    TakesOffice(m);
    assert n.role.Candidate? && term == n.term ==> o == n;
  }

  /** What a new leader knows of who holds its log. */
  function CountsItself(id: NodeId, log: LiveLog): map<NodeId, Option<nat>> { if log == [] then map[] else map[id := Some(|log| - 1)] }

  lemma TakesOffice(n: Node)
    ensures var f := BecomeLeader(n).node;
      && f.role.Leader? && f.log == n.log + Entries(n.term, n.buffered) && f.term == n.term && f.leader == Some(n.id) && f.votes == n.votes
      && f.buffered == [] && f.matched == CountsItself(n.id, f.log)
  {
    if n.buffered == [] { assert n.log + Entries(n.term, []) == n.log; } else { TakesOfficeWith(n); }
  }

  lemma TakesOfficeWith(n: Node)
    requires n.buffered != []
    ensures var f := BecomeLeader(n).node;
      && f.role.Leader? && f.log == n.log + Entries(n.term, n.buffered) && f.term == n.term && f.leader == Some(n.id) && f.votes == n.votes
      && f.buffered == [] && f.matched == CountsItself(n.id, f.log)
  {
    var m := TakenIn(Crowned(n), n.buffered);
    assert m.matched == map[n.id := Some(|m.log| - 1)];
    assert BecomeLeader(n).node == TryAdvance(m);
  }

  /** A node whose time is up stands in the next term, votes for itself and tells all others how its log ends. */
  lemma StandsExactly(n: Node)
    requires !n.role.Leader? && n.size > 1
    ensures var r := Handle(n, Tick(true));
      && r.node == n.(term := n.term + 1, role := Candidate, vote := Some(n.id), votes := {n.id}, leader := None, saveTerm := true,
                      saveVote := true, lost := r.node.lost, buffered := r.node.buffered)
      && r.node.lost + r.node.buffered == n.lost + n.buffered
      && (n.role.Follower? ==> r.node.lost == n.lost) && (n.role.Candidate? ==> r.node.buffered == [])
      && |r.out| == 1 && r.out[0].target == Broadcast && r.out[0].message.RequestVote?
      && var m := r.out[0].message;
         m.term == n.term + 1 && m.candidate == n.id && Length(m.lastIndex) == |n.log| && (n.log != [] ==> m.lastTerm == n.log[|n.log| - 1].term)
  {
  }

  /** An answer of a later term makes the node a follower of that term, with no leader, no vote and nothing to say. */
  lemma StepsDown(n: Node, from: NodeId, m: Message)
    requires (m.RequestVoteResponse? || m.AppendEntriesResponse?) && m.term > n.term
    ensures var r := Handle(n, Event.Receive(from, m));
      && r.out == [] && r.node.term == m.term && r.node.role.Follower? && r.node.leader == None && r.node.vote == None
      && r.node.log == n.log && r.node.commit == n.commit && r.node.buffered == n.buffered
  {
  }

  // ---------- Replication ----------

  /** A leader's turn to speak: an empty AppendEntries to all, at the end of its log, and no change. */
  lemma SpeaksExactly(n: Node)
    requires n.role.Leader?
    ensures var r := Handle(n, Tick(true));
      && r.node == n && |r.out| == 1 && r.out[0].target == Broadcast && Carries(n, r.out[0].message) && r.out[0].message.entries == []
      && Handle(n, Tick(false)) == Effect(n, [])
  {
    HeartbeatTail(n);
  }

  /** A leader takes a confirmation of its own term, within its log, as what that follower holds; it takes nothing else so. */
  lemma AcknowledgesExactly(n: Node, from: NodeId, term: nat, index: Option<nat>)
    requires n.role.Leader? && term <= n.term
    ensures var f := Handle(n, Event.Receive(from, AppendEntriesResponse(term, true, index, None, None))).node;
      && f.matched == (if term == n.term && index.Some? && index.value < |n.log| then n.matched[from := index] else n.matched)
      && f.log == n.log && f.term == n.term && f.role.Leader?
  {
  }

  /** The entry before the message's own is on the log. */
  predicate Follows(m: Message, log: LiveLog)
    requires m.AppendEntries?
  {
    m.prevIndex.Some? ==> m.prevIndex.value < |log| && log[m.prevIndex.value].term == m.prevTerm
  }

  /** The message comes from the leader of the node's term, or of a later one. */
  predicate Current(n: Node, m: Message)
    requires m.AppendEntries?
  {
    n.term < m.term || (n.term == m.term && !n.role.Leader?)
  }

  /**
   An AppendEntries is confirmed if and only if it is current and follows on; the answer then says
   how far it reaches, and the node commits what the leader has, as far as the message reaches.
   Nothing else about it moves the commit index.
   */
  lemma AppendsExactly(n: Node, from: NodeId, m: Message)
    requires m.AppendEntries?
    ensures var r := Handle(n, Event.Receive(from, m)); if Current(n, m) && Follows(m, n.log) then Takes(n, m, r) else Refuses(n, m, r)
    ensures Current(n, m) ==>
      var f := Handle(n, Event.Receive(from, m)).node; f.term == m.term && f.role.Follower? && f.leader == Some(m.leader)
  {
    if Current(n, m) && Follows(m, n.log) { AppendTaken(n, from, m); } else { AppendRefused(n, from, m); }
  }

  predicate Takes(n: Node, m: Message, r: Effect)
    requires m.AppendEntries?
  {
    var end := Length(m.prevIndex) + |m.entries|;
    && r.out != [] && r.out[0] == Outgoing(Peer(m.leader), AppendEntriesResponse(m.term, true, Index(end), None, None))
    && Length(r.node.commit) == Max(Length(n.commit), Min(Length(m.leaderCommit), end))
    && (0 < end ==> |r.node.log| == end) && (0 == end ==> r.node.log == n.log)
  }

  predicate Refuses(n: Node, m: Message, r: Effect)
    requires m.AppendEntries?
  {
    && r.node.commit == n.commit && r.node.log == n.log
    && |r.out| == 1 && r.out[0].target == Peer(m.leader) && r.out[0].message.AppendEntriesResponse? && !r.out[0].message.success
  }

  lemma AppendTaken(n: Node, from: NodeId, m: Message)
    requires m.AppendEntries? && Current(n, m) && Follows(m, n.log)
    ensures Takes(n, m, Handle(n, Event.Receive(from, m)))
    ensures var f := Handle(n, Event.Receive(from, m)).node; f.term == m.term && f.role.Follower? && f.leader == Some(m.leader) && f.id == n.id
  {
    AcceptLearns(Loyal(Observe(n, m), m.leader), m.prevIndex, m.entries, m.leaderCommit);
  }

  lemma AppendRefused(n: Node, from: NodeId, m: Message)
    requires m.AppendEntries? && !(Current(n, m) && Follows(m, n.log))
    ensures Refuses(n, m, Handle(n, Event.Receive(from, m)))
    ensures Current(n, m) ==>
      var f := Handle(n, Event.Receive(from, m)).node; f.term == m.term && f.role.Follower? && f.leader == Some(m.leader)
  {
  }

  lemma AcceptLearns(n: Node, prevIndex: Option<nat>, entries: LiveLog, leaderCommit: Option<nat>)
    requires Length(prevIndex) <= |n.log|
    ensures var f, end := Accept(n, prevIndex, entries, leaderCommit), Length(prevIndex) + |entries|;
      && Length(f.commit) == Max(Length(n.commit), Min(Length(leaderCommit), end))
      && (0 < end ==> |f.log| == end) && (0 == end ==> f.log == n.log)
      && f.term == n.term && f.role == n.role && f.leader == n.leader && f.id == n.id
  {
    var p, end := Place(n, Length(prevIndex), entries), Length(prevIndex) + |entries|;
    PlaceKeeps(n, Length(prevIndex), entries);
    LearnsUpTo(p, leaderCommit, end);
  }

  lemma PlaceKeeps(n: Node, start: nat, entries: LiveLog)
    requires start <= |n.log|
    ensures var p := Place(n, start, entries); p == n.(log := p.log, cutFrom := p.cutFrom, appendFrom := p.appendFrom)
  {
  }

  lemma LearnsUpTo(p: Node, leaderCommit: Option<nat>, end: nat)
    requires end <= |p.log|
    ensures var f := LearnCommit(p, leaderCommit, end);
      Length(f.commit) == Max(Length(p.commit), Min(Length(leaderCommit), end)) && f.log == p.log
      && f.term == p.term && f.role == p.role && f.leader == p.leader && f.id == p.id
  {
  }

  /**
   A rejection for want of the entry before says where the log ends, or which term is there instead
   and where that term begins.
   */
  lemma RejectsExactly(n: Node, from: NodeId, m: Message)
    requires m.AppendEntries? && Current(n, m) && !Follows(m, n.log)
    ensures var a, prev := Handle(n, Event.Receive(from, m)).out[0].message, m.prevIndex.value;
      && a.AppendEntriesResponse? && a.term == m.term && a.matchIndex == None && a.conflictIndex.Some?
      && if |n.log| <= prev then a.conflictTerm == None && a.conflictIndex == Some(|n.log|)
         else a.conflictTerm == Some(n.log[prev].term) && FirstIn(n.log, n.log[prev].term, a.conflictIndex.value)
  {
  }

  predicate FirstIn(log: LiveLog, t: nat, i: nat) {
    i < |log| && log[i].term == t && forall j :: 0 <= j < i ==> log[j].term != t
  }

  predicate LastIn(log: LiveLog, t: nat, i: nat) {
    i < |log| && log[i].term == t && forall j :: i < j < |log| ==> log[j].term != t
  }

  /**
   A leader answers a rejection with its log from just past its own last entry of the term named; if
   it has none, from the index named; if none is named, from one before where it last sent from.
   */
  lemma ResendsExactly(n: Node, from: NodeId, conflictTerm: Option<nat>, conflictIndex: Option<nat>)
    requires n.role.Leader?
    ensures var r := Handle(n, Event.Receive(from, AppendEntriesResponse(n.term, false, None, conflictTerm, conflictIndex)));
      && |r.out| == 1 && r.out[0].target == Peer(from) && Carries(n, r.out[0].message)
      && (exists start :: ResumesAt(n, from, conflictTerm, conflictIndex, start) && Length(r.out[0].message.prevIndex) == Min(start, |n.log|)
            && r.node == n.(next := n.next[from := Min(start, |n.log|)]))
  {
    var start := Resume(n, from, conflictTerm, conflictIndex);
    ResumeMeans(n, from, conflictTerm, conflictIndex);
    ResendSends(n, from, conflictTerm, conflictIndex);
    assert ResumesAt(n, from, conflictTerm, conflictIndex, start);
  }

  predicate ResumesAt(n: Node, from: NodeId, conflictTerm: Option<nat>, conflictIndex: Option<nat>, start: nat) {
    if conflictIndex.None? then
      var last := if from in n.next then n.next[from] else |n.log|;
      start == if last == 0 then 0 else last - 1
    else if conflictTerm.Some? && exists i :: 0 <= i < |n.log| && n.log[i].term == conflictTerm.value
    then 0 < start && LastIn(n.log, conflictTerm.value, start - 1)
    else start == conflictIndex.value
  }

  lemma ResumeMeans(n: Node, from: NodeId, conflictTerm: Option<nat>, conflictIndex: Option<nat>)
    ensures ResumesAt(n, from, conflictTerm, conflictIndex, Resume(n, from, conflictTerm, conflictIndex))
  {
    if conflictIndex.Some? && conflictTerm.Some? {
      var t := conflictTerm.value;
      var after := AfterLastOfTerm(n.log, t);
      if exists i :: 0 <= i < |n.log| && n.log[i].term == t { assert 0 < after; }
    }
  }

  lemma ResendSends(n: Node, from: NodeId, conflictTerm: Option<nat>, conflictIndex: Option<nat>)
    requires n.role.Leader?
    ensures var r := Handle(n, Event.Receive(from, AppendEntriesResponse(n.term, false, None, conflictTerm, conflictIndex)));
      var at := Min(Resume(n, from, conflictTerm, conflictIndex), |n.log|);
      && |r.out| == 1 && r.out[0].target == Peer(from) && Carries(n, r.out[0].message)
      && Length(r.out[0].message.prevIndex) == at && r.node == n.(next := n.next[from := at])
  {
  }

  // ---------- What is sent ----------

  /**
   Whatever the event, an AppendEntries sent carries the sender's term, its whole log from some point
   on with the term of the entry before, and its commit index, as they are when the event ends.
   */
  lemma SendsCarry(n: Node, e: Event, i: nat)
    requires i < |Handle(n, e).out| && Handle(n, e).out[i].message.AppendEntries?
    ensures Carries(Handle(n, e).node, Handle(n, e).out[i].message)
  {
    match e
    case Tick(_) => if n.role.Leader? { HeartbeatTail(n); } else { LeaderTail(Standing(n)); }
    case Submit(value) => PublishTail(n, [value]);
    case Receive(from, m) => DispatchTail(Observe(n, m), from, m, i);
  }

  lemma DispatchTail(n: Node, from: NodeId, m: Message, i: nat)
    requires i < |Dispatch(n, from, m).out| && Dispatch(n, from, m).out[i].message.AppendEntries?
    ensures Carries(Dispatch(n, from, m).node, Dispatch(n, from, m).out[i].message)
  {
    match m
    case RequestVoteResponse(_, _) => LeaderTail(n.(votes := n.votes + {from}));
    case Forward(value, _) => PublishTail(n, [value]);
    case _ =>
  }

  lemma HeartbeatTail(n: Node)
    ensures Carries(n, Heartbeat(n))
  {
    assert n.log[..|n.log|] == n.log;
  }

  lemma PublishTail(n: Node, values: seq<Pending>)
    requires values != []
    ensures Carries(Publish(n, values).node, Publish(n, values).out[0].message)
  {
  }

  lemma LeaderTail(n: Node)
    ensures Carries(BecomeLeader(n).node, BecomeLeader(n).out[0].message)
  {
    HeartbeatTail(Crowned(n));
    if n.buffered != [] { PublishTail(Crowned(n), n.buffered); }
  }

  // ---------- Proposals ----------

  /** A proposal goes into the log of a node that leads, to the leader a node knows, and into its buffer if it knows none. */
  lemma ProposesExactly(n: Node, value: Pending)
    ensures var r := Handle(n, Submit(value));
      if n.role.Leader? then r.node.log == n.log + [LogEntry(n.term, value)] && r.node.buffered == n.buffered
      else if n.leader.Some? then r == Effect(n, [Outgoing(Peer(n.leader.value), Forward(value, 0))])
      else r == Effect(n.(buffered := n.buffered + [value]), [])
  {
  }

  /** So does one that is passed on, with one hop more, except that it does not go back and goes no further than the limit. */
  lemma ForwardsExactly(n: Node, from: NodeId, value: Pending, hops: nat)
    ensures var r := Handle(n, Event.Receive(from, Forward(value, hops)));
      if n.role.Leader? then r.node.log == n.log + [LogEntry(n.term, value)] && r.node.buffered == n.buffered
      else if n.leader.None? || n.leader.value == from then r == Effect(n.(buffered := n.buffered + [value]), [])
      else r == Effect(n, if hops < 2 then [Outgoing(Peer(n.leader.value), Forward(value, hops + 1))] else [])
  {
  }

  /** A node that finds its leader sends it everything it had buffered, in order. */
  lemma BufferGoesToLeader(n: Node, from: NodeId, m: Message)
    requires m.AppendEntries? && Current(n, m) && Follows(m, n.log)
    ensures var r := Handle(n, Event.Receive(from, m));
      && r.node.buffered == [] && |r.out| == |n.buffered| + 1
      && forall i :: 0 <= i < |n.buffered| ==> r.out[i + 1] == Outgoing(Peer(m.leader), Forward(n.buffered[i], 0))
  {
    var o := Observe(n, m);
    assert o.log == n.log && o.buffered == n.buffered && !(m.term < o.term || (m.term == o.term && o.role.Leader?));
    EmptiesBuffer(o, m);
  }

  lemma EmptiesBuffer(n: Node, m: Message)
    requires m.AppendEntries? && !(m.term < n.term || (m.term == n.term && n.role.Leader?)) && Follows(m, n.log)
    ensures var r := HandleAppendEntries(n, m.term, m.leader, m.prevIndex, m.prevTerm, m.entries, m.leaderCommit);
      && r.node.buffered == [] && |r.out| == |n.buffered| + 1
      && forall i :: 0 <= i < |n.buffered| ==> r.out[i + 1] == Outgoing(Peer(m.leader), Forward(n.buffered[i], 0))
  {
  }

  // ---------- Restarting ----------

  /**
   A restart, from any storage: term, vote and log are what is stored; the commit index covers what is
   stored as committed or decided, as far as the log goes, and no more; and only a lone node that has
   voted for itself is in office.
   */
  lemma RestartsExactly(id: NodeId, size: nat, d: Disk)
    ensures var n := Restore(id, size, d);
      && n.term == d.term && n.vote == d.vote && Strip(n.log) == d.log && n.id == id && n.size == size
      && (forall i :: 0 <= i < |n.log| ==> n.log[i].value.nonce == 0)
      && (n.role.Leader? <==> size == 1 && d.term > 0 && d.vote == Some(id)) && (!n.role.Leader? ==> n.role.Follower? && n.leader == None)
      && (n.role.Leader? && d.log != [] ==> n.matched == map[id := Some(|d.log| - 1)])
    ensures var n := Restore(id, size, d);
      && Length(n.commit) <= |d.log| && (Length(d.commit) <= Length(n.commit) || Length(n.commit) == |d.log|)
      && (forall s :: s in d.decisions && s < |d.log| ==> s < Length(n.commit))
      && (Length(n.commit) <= Length(d.commit) || exists s :: s in d.decisions && Length(n.commit) <= s + 1)
  {
    assert Strip(Wrap(d.log)) == d.log;
    var n, last := Restore(id, size, d), LastSlot(d.decisions);
    if Length(n.commit) > Length(d.commit) { assert last.value in d.decisions; }
  }
}
