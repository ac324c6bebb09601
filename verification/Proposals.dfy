/** What becomes of a proposal inside one node: none is lost or duplicated, and forwarding ends. */
module Proposals {
  import opened Types
  import opened RaftNode
  import opened Cluster

  /** The proposals an event hands to the node. */
  function Incoming(e: Event): multiset<Pending> {
    match e
    case Submit(value) => multiset{value}
    case Receive(_, Forward(value, _)) => multiset{value}
    case _ => multiset{}
  }

  /** The proposals among the messages sent. */
  function Relayed(out: seq<Outgoing>): multiset<Pending> {
    if out == [] then multiset{}
    else Relayed(out[..|out| - 1]) + (if out[|out| - 1].message.Forward? then multiset{out[|out| - 1].message.value} else multiset{})
  }

  function ValuesOf(log: LiveLog): seq<Pending> { seq(|log|, i requires 0 <= i < |log| => log[i].value) }

  /** The proposals a leader has added to its log. */
  function Logged(before: Node, after: Node): multiset<Pending> {
    if after.role.Leader? && |before.log| <= |after.log| then multiset(ValuesOf(after.log[|before.log|..])) else multiset{}
  }

  /** The one way a proposal is given up: relayed once too often. */
  function Dropped(n: Node, e: Event): multiset<Pending> {
    if e.Receive? && e.message.Forward? && !n.role.Leader? && n.leader.Some? && n.leader.value != e.from && e.message.hops + 1 >= MAX_FORWARD_HOPS
    then multiset{e.message.value} else multiset{}
  }

  /** What is waiting or comes in is, afterwards, waiting, in the leader's own log, sent on, or dropped. */
  ghost predicate Balanced(n: Node, r: Effect, incoming: multiset<Pending>, dropped: multiset<Pending>) {
    multiset(n.buffered) + multiset(n.lost) + incoming ==
    multiset(r.node.buffered) + multiset(r.node.lost) + Logged(n, r.node) + Relayed(r.out) + dropped
  }

  lemma RelayedNone(o: Outgoing)
    requires !o.message.Forward?
    ensures Relayed([o]) == multiset{}
  {
    assert [o][..0] == [];
  }

  lemma RelayedOne(target: Target, value: Pending, hops: nat)
    ensures Relayed([Outgoing(target, Forward(value, hops))]) == multiset{value}
  {
    assert [Outgoing(target, Forward(value, hops))][..0] == [];
  }

  lemma {:induction false} RelayedAll(o: Outgoing, to: NodeId, values: seq<Pending>)
    requires !o.message.Forward?
    ensures Relayed([o] + ForwardAll(to, values)) == multiset(values)
    decreases |values|
  {
    var out := [o] + ForwardAll(to, values);
    if values == [] {
      assert out == [o];
      RelayedNone(o);
    } else {
      var k := |values| - 1;
      assert out[..|out| - 1] == [o] + ForwardAll(to, values[..k]);
      RelayedAll(o, to, values[..k]);
      assert values == values[..k] + [values[k]];
    }
  }

  lemma LoggedNone(n: Node, m: Node)
    requires m.log == n.log
    ensures Logged(n, m) == multiset{}
  {
    assert ValuesOf(n.log[|n.log|..]) == [];
  }

  /** A leader that takes values in has them at the end of its log. */
  lemma LoggedValues(n: Node, values: seq<Pending>)
    requires n.role.Leader? && values != []
    ensures var m := TakeIn(n, values); Logged(n, m) == multiset(values) && m.buffered == n.buffered && m.lost == n.lost
  {
    var m := TakeIn(n, values);
    assert m.log[|n.log|..] == Entries(n.term, values);
    assert ValuesOf(Entries(n.term, values)) == values;
  }

  lemma PublishBalanced(n: Node, values: seq<Pending>)
    requires n.role.Leader? && values != []
    ensures Balanced(n, Publish(n, values), multiset(values), multiset{})
  {
    LoggedValues(n, values);
    RelayedNone(Publish(n, values).out[0]);
  }

  lemma BecomeLeaderBalanced(n: Node, m: Node)
    requires m.buffered == n.buffered && m.lost == n.lost && m.log == n.log
    ensures Balanced(n, BecomeLeader(m), multiset{}, multiset{})
  {
    if m.buffered == [] {
      RelayedNone(BecomeLeader(m).out[0]);
      LoggedNone(n, Crowned(m));
    } else {
      PublishBalanced(Crowned(m), m.buffered);
    }
  }

  lemma ProposeBalanced(n: Node, value: Pending)
    ensures Balanced(n, Propose(n, value), multiset{value}, multiset{})
  {
    if n.role.Leader? {
      PublishBalanced(n, [value]);
    } else {
      LoggedNone(n, Propose(n, value).node);
      if n.leader.Some? { RelayedOne(Peer(n.leader.value), value, 0); }
    }
  }

  lemma ForwardBalanced(n: Node, from: NodeId, value: Pending, hops: nat)
    ensures Balanced(n, HandleForward(n, from, value, hops), multiset{value}, Dropped(n, Event.Receive(from, Forward(value, hops))))
  {
    if n.role.Leader? {
      ProposeBalanced(n, value);
    } else {
      LoggedNone(n, HandleForward(n, from, value, hops).node);
      if n.leader.Some? { RelayedOne(Peer(n.leader.value), value, hops + 1); }
    }
  }

  lemma TickBalanced(n: Node, due: bool)
    ensures Balanced(n, OnTick(n, due), multiset{}, multiset{})
  {
    var r := OnTick(n, due);
    if due && !n.role.Leader? && 1 >= Quorum(n.size) {
      BecomeLeaderBalanced(n, Standing(n));
    } else {
      LoggedNone(n, r.node);
      if due { RelayedNone(r.out[0]); }
    }
  }

  lemma QuietBalanced(n: Node, r: Effect)
    requires r.node.buffered == n.buffered && r.node.lost == n.lost && r.node.log == n.log
    requires |r.out| <= 1 && (|r.out| == 1 ==> !r.out[0].message.Forward?)
    ensures Balanced(n, r, multiset{}, multiset{})
  {
    LoggedNone(n, r.node);
    if |r.out| == 1 { RelayedNone(r.out[0]); assert r.out == [r.out[0]]; }
  }

  lemma LoyalBalanced(n: Node, r: Effect, o: Outgoing, to: NodeId)
    requires r.node.buffered == [] && r.node.lost == n.lost && r.node.role.Follower?
    requires r.out == [o] + ForwardAll(to, n.buffered) && !o.message.Forward?
    ensures Balanced(n, r, multiset{}, multiset{})
  {
    RelayedAll(o, to, n.buffered);
  }

  lemma LearnKeeps(n: Node, leaderCommit: Option<nat>, end: nat)
    requires end <= |n.log|
    ensures var m := LearnCommit(n, leaderCommit, end); m.lost == n.lost && m.role == n.role
  {
  }

  lemma AcceptKeeps(n: Node, prevIndex: Option<nat>, entries: LiveLog, leaderCommit: Option<nat>)
    requires Length(prevIndex) <= |n.log|
    ensures var m := Accept(n, prevIndex, entries, leaderCommit); m.buffered == [] && m.lost == n.lost && m.role == n.role
  {
    LearnKeeps(Place(n, Length(prevIndex), entries), leaderCommit, Length(prevIndex) + |entries|);
  }

  lemma AppendBalanced(n: Node, m: Message)
    requires m.AppendEntries?
    ensures Balanced(n, HandleAppendEntries(n, m.term, m.leader, m.prevIndex, m.prevTerm, m.entries, m.leaderCommit), multiset{}, multiset{})
  {
    var r := HandleAppendEntries(n, m.term, m.leader, m.prevIndex, m.prevTerm, m.entries, m.leaderCommit);
    if m.term < n.term || (m.term == n.term && n.role.Leader?) || !PrevOk(n.log, m.prevIndex, m.prevTerm) {
      QuietBalanced(n, r);
    } else {
      AcceptKeeps(Loyal(n, m.leader), m.prevIndex, m.entries, m.leaderCommit);
      LoyalBalanced(n, r, r.out[0], m.leader);
    }
  }

  lemma AcknowledgeKeeps(n: Node, from: NodeId, i: nat)
    ensures var m := Acknowledge(n, from, i); m.buffered == n.buffered && m.lost == n.lost && m.log == n.log
  {
  }

  lemma ResponseBalanced(n: Node, from: NodeId, m: Message)
    requires m.AppendEntriesResponse? || m.RequestVote?
    ensures Balanced(n, Dispatch(n, from, m), multiset{}, multiset{})
  {
    if m.AppendEntriesResponse? && m.matchIndex.Some? { AcknowledgeKeeps(n, from, m.matchIndex.value); }
    QuietBalanced(n, Dispatch(n, from, m));
  }

  lemma VoteBalanced(n: Node, from: NodeId, term: nat, granted: bool)
    ensures Balanced(n, HandleRequestVoteResponse(n, from, term, granted), multiset{}, multiset{})
  {
    var m := n.(votes := n.votes + {from});
    if n.role.Candidate? && term == n.term && granted && |m.votes| >= Quorum(n.size) {
      BecomeLeaderBalanced(n, m);
    } else {
      QuietBalanced(n, HandleRequestVoteResponse(n, from, term, granted));
    }
  }

  lemma ReplyBalanced(n: Node, from: NodeId, m: Message)
    requires !m.Forward?
    ensures Balanced(n, Dispatch(n, from, m), multiset{}, multiset{})
  {
    match m
    case AppendEntries(_, _, _, _, _, _) => AppendBalanced(n, m);
    case RequestVoteResponse(term, granted) => VoteBalanced(n, from, term, granted);
    case _ => ResponseBalanced(n, from, m);
  }

  lemma DispatchBalanced(n: Node, from: NodeId, m: Message)
    ensures Balanced(n, Dispatch(n, from, m), Incoming(Event.Receive(from, m)), Dropped(n, Event.Receive(from, m)))
  {
    if m.Forward? {
      ForwardBalanced(n, from, m.value, m.hops);
    } else {
      ReplyBalanced(n, from, m);
    }
  }

  lemma BalancedAlike(n: Node, o: Node, r: Effect, incoming: multiset<Pending>, dropped: multiset<Pending>)
    requires Balanced(o, r, incoming, dropped) && n.buffered == o.buffered && n.lost == o.lost && n.log == o.log
    ensures Balanced(n, r, incoming, dropped)
  {
  }

  lemma ReceiveBalanced(n: Node, from: NodeId, m: Message)
    ensures Balanced(n, HandleMessage(n, from, m), Incoming(Event.Receive(from, m)), Dropped(n, Event.Receive(from, m)))
  {
    var o := Observe(n, m);
    DispatchBalanced(o, from, m);
    assert Dropped(n, Event.Receive(from, m)) == Dropped(o, Event.Receive(from, m));
    BalancedAlike(n, o, HandleMessage(n, from, m), Incoming(Event.Receive(from, m)), Dropped(n, Event.Receive(from, m)));
  }

  /** Conservation: every event accounts for every proposal, and only the hop limit drops one. */
  lemma EventBalanced(n: Node, e: Event)
    ensures Balanced(n, Handle(n, e), Incoming(e), Dropped(n, e))
  {
    match e
    case Tick(due) => TickBalanced(n, due);
    case Submit(value) => ProposeBalanced(n, value);
    case Receive(from, m) => ReceiveBalanced(n, from, m);
  }

  // ---------- Forwarding ends ----------

  ghost predicate FewHops(m: Message) { m.Forward? ==> m.hops < MAX_FORWARD_HOPS }

  lemma OutHops(n: Node, e: Event, k: nat)
    requires k < |Handle(n, e).out|
    ensures FewHops(Handle(n, e).out[k].message)
    ensures e.Receive? && e.message.Forward? && Handle(n, e).out[k].message.Forward? ==>
      Handle(n, e).out[k].message.hops == e.message.hops + 1
  {
    if e.Receive? && e.message.AppendEntries? {
      AppendHops(Observe(n, e.message), e.message, k);
    }
  }

  lemma AppendHops(n: Node, m: Message, k: nat)
    requires m.AppendEntries?
    requires k < |HandleAppendEntries(n, m.term, m.leader, m.prevIndex, m.prevTerm, m.entries, m.leaderCommit).out|
    ensures FewHops(HandleAppendEntries(n, m.term, m.leader, m.prevIndex, m.prevTerm, m.entries, m.leaderCommit).out[k].message)
  {
  }

  lemma StepHops(s: State, step: Step)
    requires Ready(s) && Possible(s, step) && forall i :: 0 <= i < |s.net| ==> FewHops(s.net[i].message)
    ensures forall i :: 0 <= i < |Perform(s, step).net| ==> FewHops(Perform(s, step).net[i].message)
  {
    if step.Act? {
      var v, e := step.node, EventOf(s, step.cause);
      var out := Process(s.nodes[v], s.disks[v], e, step.crash).sent;
      forall i | 0 <= i < |PostAll(v, |s.nodes|, out)| ensures FewHops(PostAll(v, |s.nodes|, out)[i].message) {
        var k := PostAllLooks(v, |s.nodes|, out, i);
        OutHops(s.nodes[v], e, k);
      }
    }
  }

  /** In any run every forwarded proposal has made fewer than three hops. */
  lemma {:induction false} ForwardingEnds(states: seq<State>, steps: seq<Step>, j: nat)
    requires Run(states, steps) && j < |states|
    ensures forall i :: 0 <= i < |states[j].net| ==> FewHops(states[j].net[i].message)
  {
    if j > 0 {
      ForwardingEnds(states, steps, j - 1);
      StepHops(states[j - 1], steps[j - 1]);
    }
  }

  /** Each message but the first is sent by some node on receiving the one before. */
  ghost predicate Relays(chain: seq<Message>) {
    && (forall i :: 0 <= i < |chain| ==> chain[i].Forward?)
    && (forall i :: 0 <= i < |chain| - 1 ==> SentOn(chain[i], chain[i + 1]))
  }

  ghost predicate SentOn(m: Message, next: Message) {
    exists n: Node, from: NodeId, k: nat :: k < |HandleMessage(n, from, m).out| && HandleMessage(n, from, m).out[k].message == next
  }

  lemma {:induction false} HopsCount(chain: seq<Message>, i: nat)
    requires Relays(chain) && i < |chain|
    ensures chain[i].hops == chain[0].hops + i && (0 < i ==> chain[i].hops < MAX_FORWARD_HOPS)
  {
    if i > 0 {
      HopsCount(chain, i - 1);
      assert SentOn(chain[i - 1], chain[i]);
      var n, from, k: nat :| k < |HandleMessage(n, from, chain[i - 1]).out| && HandleMessage(n, from, chain[i - 1]).out[k].message == chain[i];
      OutHops(n, Event.Receive(from, chain[i - 1]), k);
    }
  }

  /** No proposal is passed on more often than the hop limit allows, whatever the nodes believe. */
  lemma RelaysAreShort(chain: seq<Message>)
    requires Relays(chain)
    ensures |chain| <= MAX_FORWARD_HOPS
  {
    if chain != [] { HopsCount(chain, |chain| - 1); }
  }
}
