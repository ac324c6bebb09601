/** The rules of a Multi-Paxos node, event by event, said of messages, votes and promises; and two things it does not keep. */
module PaxosRules {
  import opened Types
  import opened PaxosNode
  import opened PaxosTheorems

  // ---------- Acceptor ----------

  /** The vote the node holds for the slot. */
  function VoteOf(n: Paxos, slot: nat): Option<Vote> { if slot in n.instances then n.instances[slot].accepted else None }

  /** What the node has promised for the slot. */
  function PromiseOf(n: Paxos, slot: nat): Option<Ballot> { if slot in n.instances then n.instances[slot].promised else None }

  /**
   A Prepare is answered with a promise, and the vote the node holds, if and only if the slot is open
   and the number is above every promise for it; with the decision if there is one; and otherwise with
   the promise that stands against it. No vote is cast, and no promise for another slot changes.
   */
  lemma PreparesExactly(n: Paxos, from: NodeId, slot: nat, number: Ballot, order: seq<nat>)
    ensures var r := Handle(n, Receive(from, Prepare(slot, number), order)); r.Ran? && |r.out| == 1 && r.out[0].target == Peer(from)
    ensures var r := Handle(n, Receive(from, Prepare(slot, number), order));
      if slot in n.decided then r == Ran(n, [Sent(Peer(from), Decide(slot, n.decided[slot]))])
      else if PromiseOf(n, slot).None? || Over(number, PromiseOf(n, slot).value)
      then r.out[0].message == Promise(slot, number, VoteOf(n, slot)) && PromiseOf(r.node, slot) == Some(number)
      else r.out[0].message == NackPrepare(slot, number, PromiseOf(n, slot).value) && PromiseOf(r.node, slot) == PromiseOf(n, slot)
    ensures var f := Handle(n, Receive(from, Prepare(slot, number), order)).node;
      && f == n.(instances := f.instances) && (forall s :: VoteOf(f, s) == VoteOf(n, s))
      && forall s :: s != slot ==> PromiseOf(f, s) == PromiseOf(n, s)
  {
  }

  // ---------- Proposer ----------

  /** A Promise starts phase 2 if and only if it is for the number of an open slot and completes or exceeds a quorum of promisers. */
  lemma PromisesExactly(n: Paxos, from: NodeId, slot: nat, number: Ballot, accepted: Option<Vote>, order: seq<nat>)
    requires Handle(n, Receive(from, Promise(slot, number, accepted), order)).Ran?
    ensures var r := Handle(n, Receive(from, Promise(slot, number, accepted), order));
      && (r.out != [] <==> Live(n, slot, number) && |n.instances[slot].promises + {from}| >= n.quorum)
      && (r.out != [] ==> |r.out| == 1 && r.out[0].target == Broadcast)
      && (!Live(n, slot, number) ==> r.node == n)
      && (Live(n, slot, number) && slot in r.node.instances ==> r.node.instances[slot].promises == n.instances[slot].promises + {from})
  {
  }

  /**
   Phase 2 has the node's own vote if and only if the slot's promise allows it; it decides if that makes
   a quorum of voters, and asks all others for their votes if not.
   */
  lemma VotesInPhase2(n: Paxos, from: NodeId, slot: nat, number: Ballot, accepted: Option<Vote>, order: seq<nat>)
    requires Live(n, slot, number) && |n.instances[slot].accepts| < n.quorum
    requires var r := Handle(n, Receive(from, Promise(slot, number, accepted), order)); r.Ran? && r.out != []
    ensures var r, i := Handle(n, Receive(from, Promise(slot, number, accepted), order)), n.instances[slot];
      var o, free := r.out[0].message, i.promised.None? || AtLeast(number, i.promised.value);
      var voters := if free then i.accepts + {n.id} else i.accepts;
      if |voters| >= n.quorum then o == Decide(slot, o.value) && slot in r.node.decided && r.node.decided[slot] == o.value
      else o == Accept(slot, number, o.value) && slot in r.node.instances && r.node.instances[slot].accepts == voters
           && VoteOf(r.node, slot) == (if free then Some(Vote(number, o.value)) else VoteOf(n, slot))
           && PromiseOf(r.node, slot) == if free then Some(number) else PromiseOf(n, slot)
  {
  }

  /** A retry asks for promises at a number above all that stand against it, with nothing counted but its own promise. */
  lemma RetriesExactly(n: Paxos, slot: nat)
    requires slot in n.instances && n.instances[slot].proposer && n.quorum > 1
    ensures var r, i := RetryProposal(n, slot), n.instances[slot];
      && r.Ran? && |r.out| == 1 && r.out[0].target == Broadcast && r.out[0].message.Prepare? && r.out[0].message.slot == slot
      && r.node == n.(instances := n.instances[slot := r.node.instances[slot]])
      && var o, number := r.node.instances[slot], r.out[0].message.number;
         && number.node == n.id && number.round > i.number.round && (i.promised.Some? ==> number.round > i.promised.value.round)
         && (i.nackRound.Some? ==> number.round > i.nackRound.value)
         && o == Instance(number, {n.id}, {}, None, i.proposed, Some(number), i.accepted, true, false, None, i.retries + 1)
  {
  }

  /**
   An Accepted decides an open slot if and only if it is for the slot's number and completes a quorum
   of voters. The value is that of the vote the node itself holds, at whatever number.
   */
  lemma AcceptedExactly(n: Paxos, from: NodeId, slot: nat, number: Ballot, value: Pending, order: seq<nat>)
    requires slot !in n.decided
    ensures var r := Handle(n, Receive(from, Accepted(slot, number, value), order));
      var full := Live(n, slot, number) && |n.instances[slot].accepts + {from}| >= n.quorum;
      && (r.Stopped? <==> full && VoteOf(n, slot).None?)
      && (r.Ran? ==> (slot in r.node.decided <==> full))
      && (r.Ran? && full ==> r.node.decided[slot] == VoteOf(n, slot).value.value && r.out == [Sent(Broadcast, Decide(slot, r.node.decided[slot]))])
      && (r.Ran? && !full ==> r.out == [])
  {
  }

  /** A Decide is learnt if the slot is open; a value of the node's own that it beats is reported as lost. */
  lemma DecidesExactly(n: Paxos, from: NodeId, slot: nat, value: Pending, order: seq<nat>)
    ensures var r := Handle(n, Receive(from, Decide(slot, value), order));
      && r.Ran? && r.out == [] && (slot in n.decided ==> r.node == n)
      && (slot !in n.decided ==>
            && r.node.decided == n.decided[slot := value] && r.node.pending == n.pending + [Decision(slot, value)]
            && r.node.instances == n.instances - {slot} && r.node.next == Max(n.next, slot + 1)
            && r.node.recent == n.recent + [Decision(slot, value)]
            && multiset(r.node.forwarded) == multiset(n.forwarded) - multiset{value}
            && r.node.lost == if slot in n.instances && n.instances[slot].proposer && n.instances[slot].proposed.Some?
                                 && n.instances[slot].proposed.value != value
                              then n.lost + [n.instances[slot].proposed.value] else n.lost)
  {
    WithoutOne(n.forwarded, value);
  }

  /** A node that follows another leader sends a proposal there and remembers it; else it takes the next slot for it. */
  lemma SubmitsExactly(n: Paxos, value: Pending)
    ensures var r, away := Handle(n, Submit(value)), n.role.Following? && n.role.leader.Some? && n.role.leader.value != n.id;
      && (away ==> r == Ran(n.(forwarded := n.forwarded + [value]), [Sent(Peer(n.role.leader.value), Forwarded(value))]))
      && (!away && r.Ran? ==> r.node.next == n.next + 1 && |r.out| == 1 && r.out[0].target == Broadcast)
      && (!away && r.Ran? && n.role.Leading? ==>
            r.out[0].message == Accept(n.next, Ballot(n.role.term, n.id), value) || r.out[0].message == Decide(n.next, value))
      && (!away && r.Ran? && !n.role.Leading? && r.out[0].message.Prepare? ==> r.out[0].message == Prepare(n.next, Ballot(1, n.id)))
      && (!away && r.Ran? && n.next in r.node.instances && n.next !in n.decided ==>
            var i, o := Lookup(n.instances, n.next), r.node.instances[n.next];
            && o.proposer && o.proposed == Some(value) && o.promises == i.promises + {n.id}
            && (n.role.Leading? ==> o.accepts == i.accepts + {n.id} && o.accepted == Some(Vote(Ballot(n.role.term, n.id), value)))
            && o.number == if n.role.Leading? then Ballot(n.role.term, n.id) else Ballot(1, n.id))
  {
  }

  /** A value sent on to this node is proposed if it leads, and ignored if not. */
  lemma ForwardedExactly(n: Paxos, from: NodeId, value: Pending, order: seq<nat>)
    ensures var r := Handle(n, Receive(from, Forwarded(value), order));
      if n.role.Leading? then r == Handle(n, Submit(value)) else r == Ran(n, [])
  {
  }

  /** A slot of the node's own wants another try if and only if it was refused, waits for votes, or lacks promises. */
  lemma WantsRetryExactly(n: Paxos, slot: nat, loaded: set<nat>, delivered: seq<Decision>)
    requires Good(n, loaded, delivered) && slot in n.instances
    ensures var i := n.instances[slot];
      WantsRetry(i, n.quorum) <==> i.proposer && (i.nacked || i.accepts != {} || |i.promises| < n.quorum)
  {
  }

  /** A refusal is noted with the highest round it named, and ends a leadership. */
  lemma NacksExactly(n: Paxos, from: NodeId, m: PaxosMessage, order: seq<nat>)
    requires m.NackPrepare? || m.NackAccept?
    ensures var r := Handle(n, Receive(from, m, order));
      && r.Ran? && r.out == [] && r.node == n.(instances := r.node.instances, seen := Max(n.seen, m.highest.round), role := r.node.role)
      && r.node.role == (if n.role.Leading? then Following(None) else n.role) && r.node.instances.Keys == n.instances.Keys
      && (forall s :: s in n.instances && s != m.slot ==> r.node.instances[s] == n.instances[s])
      && (m.slot in n.instances ==>
            var i, o := n.instances[m.slot], r.node.instances[m.slot];
            o == i.(nacked := true, nackRound := Some(Max(m.highest.round, if i.nackRound.Some? then i.nackRound.value else 0))))
  {
  }

  // ---------- Leadership ----------

  /** A heartbeat of no earlier term than any seen makes its sender the leader, unless this node leads in that term. */
  lemma BeatsExactly(n: Paxos, from: NodeId, term: nat, order: seq<nat>)
    ensures var r := Handle(n, Receive(from, Beat(term), order));
      && r.Ran? && r.out == [] && r.node == n.(seen := Max(n.seen, term), role := r.node.role)
      && r.node.role == if term < n.seen || (n.role.Leading? && term <= n.role.term) then n.role else Following(Some(from))
  {
  }

  /** Leadership is granted if and only if the number is above every grant so far, and then the node's votes for open slots are reported. */
  lemma GrantsExactly(n: Paxos, from: NodeId, number: Ballot, since: nat, order: seq<nat>)
    requires forall s: nat :: s in n.instances ==> s in order
    ensures var r := Handle(n, Receive(from, PrepareLeader(number, since), order)); r.Ran? && |r.out| == 1 && r.out[0].target == Peer(from)
    ensures var r := Handle(n, Receive(from, PrepareLeader(number, since), order));
      if n.promise.None? || Over(number, n.promise.value)
      then r.out[0].message.PromiseLeader? && r.out[0].message.number == number && r.node.promise == Some(number)
        && Reports(n, since, r.out[0].message.votes)
      else r == Ran(n, [Sent(Peer(from), NackLeader(number, n.promise.value))])
    ensures Handle(n, Receive(from, PrepareLeader(number, since), order)).node.instances == n.instances
  {
    VotesReport(n, since, order);
  }

  /** The node takes office if and only if the promise is for its running election and completes a quorum. */
  lemma OfficeExactly(n: Paxos, from: NodeId, number: Ballot, votes: seq<Recovered>, order: seq<nat>)
    requires !n.role.Leading?
    ensures var r := Handle(n, Receive(from, PromiseLeader(number, votes), order));
      && r.Ran?
      && (r.node.role.Leading? <==>
            n.election.Some? && n.election.value.number == number && |n.election.value.promises + {from}| >= n.quorum)
    ensures var r := Handle(n, Receive(from, PromiseLeader(number, votes), order)); r.node.role.Leading? ==> r.node.role == Leading(number.round)
  {
    if n.election.Some? && n.election.value.number == number {
      var e := n.election.value;
      var m := n.(election := Some(e.(promises := e.promises + {from}, votes := e.votes + votes)));
      ReplayKeepsRole(Elected(m), HighestPerSlot(m.election.value.votes, m.decided), number, order);
    }
  }

  /** Until then it gathers promises and the votes they report; then it replays a highest one of each open slot. */
  lemma OfficeRecovers(n: Paxos, from: NodeId, number: Ballot, votes: seq<Recovered>, order: seq<nat>)
    requires n.election.Some? && n.election.value.number == number && forall i, j :: 0 <= i < j < |order| ==> order[i] != order[j]
    requires forall v :: v in n.election.value.votes + votes ==> v.slot in order
    ensures var r, e := Handle(n, Receive(from, PromiseLeader(number, votes), order)), n.election.value;
      if |e.promises + {from}| < n.quorum
      then r == Ran(n.(election := Some(Election(number, e.since, e.promises + {from}, e.votes + votes))), [])
      else exists best :: RecoveredAs(n, e.votes + votes, r, number, best)
  {
    var e := n.election.value;
    var m := n.(election := Some(e.(promises := e.promises + {from}, votes := e.votes + votes)));
    HighestIsHighest(e.votes + votes, n.decided);
    ElectionRecovers(m, order);
    if |e.promises + {from}| >= n.quorum {
      var r := Handle(n, Receive(from, PromiseLeader(number, votes), order));
      assert r == CompleteLeaderElection(m, order);
      assert RecoveredAs(n, e.votes + votes, r, number, HighestPerSlot(e.votes + votes, n.decided));
    }
  }

  /** `best` has a highest vote of each open slot reported, and each is replayed at the number. */
  ghost predicate RecoveredAs(n: Paxos, votes: seq<Recovered>, r: Reply, number: Ballot, best: map<nat, Vote>) {
    && r.Ran? && HighestOf(votes, n.decided, best)
    && forall s :: s in best ==> s < r.node.next && Replayed(r.node, s, number, best[s].value, r.out)
  }

  lemma {:induction false} ReplayKeepsRole(n: Paxos, best: map<nat, Vote>, number: Ballot, order: seq<nat>)
    ensures ReplayAll(n, best, number, order).node.role == n.role
    decreases |order|
  {
    if order != [] { ReplayKeepsRole(n, best, number, order[..|order| - 1]); }
  }

  /** A refusal ends the election, and the round it named is not below the next. */
  lemma LosesExactly(n: Paxos, from: NodeId, number: Ballot, highest: Ballot, order: seq<nat>)
    ensures var r := Handle(n, Receive(from, NackLeader(number, highest), order));
      && r.Ran? && r.out == [] && r.node == n.(seen := r.node.seen, election := None, role := r.node.role)
      && r.node.seen == Max(n.seen, highest.round) && r.node.role == if n.role.Running? then Following(None) else n.role
  {
  }

  /** A node of a cluster whose leader is silent stands with a round above all it has seen, for every slot not known to be settled. */
  lemma CandidatesExactly(n: Paxos, order: seq<nat>, replay: seq<nat>)
    requires n.quorum > 1 && Sworn(n) && forall s: nat :: s in n.instances ==> s in order
    ensures var r, number := StartElection(n, order, replay), Ballot(n.seen + 1, n.id);
      && r.node.role == Running && r.node.seen == n.seen + 1 && r.node.promise == Some(number) && r.node.instances == n.instances
      && |r.out| == 1 && r.out[0].target == Broadcast && r.out[0].message.PrepareLeader? && r.out[0].message.number == number
      && (forall s :: s in n.instances ==> r.out[0].message.since <= s)
      && (if n.instances == map[] then r.out[0].message.since == n.next else r.out[0].message.since in n.instances)
      && r.node.election.Some? && r.node.election.value.number == number && r.node.election.value.promises == {n.id}
      && Reports(n, r.out[0].message.since, r.node.election.value.votes)
  {
    VotesReport(n, Lowest(n.instances.Keys, n.next), order);
  }

  /** The timers: a leader announces itself, a stalled election ends, and a silent leader is stood against if there is work or was one. */
  lemma TimersExactly(n: Paxos, beat: bool, stalled: bool, silent: bool, order: seq<nat>, replay: seq<nat>)
    requires n.quorum > 1
    ensures var r := LeaderTick(n, beat, stalled, silent, order, replay);
      var over := stalled && n.election.Some?;
      var stands := silent && (over || n.role.Following?) && (n.instances != map[] || (!over && n.role.leader.Some?));
      && (Sent(Broadcast, Beat(if n.role.Leading? then n.role.term else 0)) in r.out <==> beat && n.role.Leading?)
      && (stands ==> r.node.role.Running? && r.node.seen == n.seen + 1)
      && (!stands ==> r.node == if over then n.(election := None, role := Following(None)) else n)
  {
  }

  /** Recent decisions are announced again, oldest first, except those that have expired, which are forgotten. */
  lemma AnnouncesExactly(n: Paxos, expired: nat)
    ensures var r := Rebroadcast(n, expired);
      && r.Ran? && r.node == n.(recent := r.node.recent) && |r.out| == |r.node.recent| == (if expired < |n.recent| then |n.recent| - expired else 0)
      && forall i :: 0 <= i < |r.out| ==>
           r.node.recent[i] == n.recent[expired + i] && r.out[i] == Sent(Broadcast, Decide(r.node.recent[i].slot, r.node.recent[i].value))
  {
  }

  // ---------- What the node does not keep ----------

  lemma TwoOf(a: NodeId, b: NodeId)
    requires a != b
    ensures |{a} + {b}| == 2
  {
  }

  /** The first proposal of a node of three. */
  lemma FirstAsk(id: NodeId, v: Pending)
    ensures var n := Started(id, 3, map[]);
      Handle(n, Submit(v)) == Ran(Put(n.(next := 1), 0, Proposing(BLANK, id, v)), [Sent(Broadcast, Prepare(0, Ballot(1, id)))])
  {
    assert {} + {id} == {id};
  }

  /**
   A quorum votes for v at the number this node proposed v with, and the node decides w: it has voted
   for w at a higher number in between, and decides by its own vote.
   */
  lemma DecidesAnother(id: NodeId, other: NodeId, peer: NodeId, v: Pending, w: Pending) returns (worlds: seq<World>, steps: seq<Step>)
    requires id < other && peer != id
    ensures Run(worlds, steps) && |steps| == 4 && steps[3] == Act(Receive(peer, Accepted(0, Ballot(1, id), v), []))
    ensures steps[1].Act? && Handle(worlds[1].node, steps[1].event) == Ran(worlds[2].node, [Sent(Broadcast, Accept(0, Ballot(1, id), v))])
    ensures HoldsVote(worlds[2].node, 0, Vote(Ballot(1, id), v)) && worlds[4].node.decided == map[0 := w]
  {
    TwoOf(id, peer);
    FirstAsk(id, v);
    var own := Ballot(1, id);
    var a := World(Started(id, 3, map[]), [], {});
    var i := Proposing(BLANK, id, v);
    var b := a.(node := Put(a.node.(next := 1), 0, i));
    var c := a.(node := Put(b.node, 0, SelfVoted(Tracked(i, peer, None), id, v)));
    var theirs := Accept(0, Ballot(1, other), w);
    var d := a.(node := Handle(c.node, Receive(other, theirs, [])).node);
    var e := a.(node := Handle(d.node, Receive(peer, Accepted(0, own, v), [])).node);
    worlds := [a, b, c, d, e];
    steps := [Act(Submit(v)), Act(Receive(peer, Promise(0, own, None), [])), Act(Receive(other, theirs, [])),
              Act(Receive(peer, Accepted(0, own, v), []))];
    assert Next(a, steps[0], b);
    assert Next(b, steps[1], c);
    assert HoldsVote(d.node, 0, Vote(Ballot(1, other), w)) && Live(d.node, 0, own);
    assert Next(c, steps[2], d);
    assert Next(d, steps[3], e);
    assert e.node.decided == map[0 := w];
  }

  lemma ThreeOf(a: NodeId, b: NodeId, c: NodeId)
    requires a != b && a != c && b != c
    ensures |{a} + {b}| == 2 && |{a} + {b} + {c}| == 3
  {
  }

  /** What a Promise does to a node whose only slot is slot 0. */
  lemma PromiseReply(n: Paxos, i: Instance, from: NodeId, accepted: Option<Vote>, value: Pending)
    requires 0 !in n.decided && (accepted.Some? && i.best.None? ==> value == accepted.value.value)
    requires accepted.None? && i.best.None? ==> i.proposed == Some(value)
    requires i.best.None? && Reaches(i.number, i.promised) && |i.accepts + {n.id}| < n.quorum
    ensures var t := Tracked(i, from, accepted);
      var r := Handle(Put(n, 0, i), Receive(from, Promise(0, i.number, accepted), []));
      r == if |i.promises + {from}| >= n.quorum then Ran(Put(n, 0, SelfVoted(t, n.id, value)), [Sent(Broadcast, Accept(0, i.number, value))])
           else Ran(Put(n, 0, t), [])
  {
    var t := Tracked(i, from, accepted);
    assert Put(Put(n, 0, i), 0, t) == Put(n, 0, t);
    assert Put(Put(n, 0, i), 0, SelfVoted(t, n.id, value)) == Put(n, 0, SelfVoted(t, n.id, value));
  }

  /**
   At one and the same number the node proposes v and then w: a promise that comes in after the quorum
   starts phase 2 again, and reports a vote.
   */
  lemma ProposesTwice(id: NodeId, p: NodeId, q: NodeId, v: Pending, w: Pending, past: Ballot) returns (worlds: seq<World>, steps: seq<Step>)
    requires id != p && id != q && p != q
    ensures Run(worlds, steps) && |steps| == 3 && steps[1].Act? && steps[2].Act?
    ensures Handle(worlds[1].node, steps[1].event) == Ran(worlds[2].node, [Sent(Broadcast, Accept(0, Ballot(1, id), v))])
    ensures Handle(worlds[2].node, steps[2].event) == Ran(worlds[3].node, [Sent(Broadcast, Accept(0, Ballot(1, id), w))])
  {
    ThreeOf(id, p, q);
    var n := Started(id, 3, map[]).(next := 1);
    var i := Proposing(BLANK, id, v);
    var j := SelfVoted(Tracked(i, p, None), id, v);
    var k := SelfVoted(Tracked(j, q, Some(Vote(past, w))), id, w);
    FirstAsk(id, v);
    PromiseReply(n, i, p, None, v);
    PromiseReply(n, j, q, Some(Vote(past, w)), w);
    var a := World(Started(id, 3, map[]), [], {});
    worlds := [a, a.(node := Put(n, 0, i)), a.(node := Put(n, 0, j)), a.(node := Put(n, 0, k))];
    steps := [Act(Submit(v)), Act(Receive(p, Promise(0, i.number, None), [])), Act(Receive(q, Promise(0, i.number, Some(Vote(past, w))), []))];
    assert Init(a);
  }

  /**
   Exactly when a further promise at the slot's number leaves the value proposed as it was: unless it
   reports a vote higher than any on record, for another value.
   */
  lemma SecondThoughts(n: Paxos, from: NodeId, slot: nat, number: Ballot, accepted: Option<Vote>, x: Pending, order: seq<nat>)
    requires Live(n, slot, number) && |n.instances[slot].promises + {from}| >= n.quorum
    requires var i := n.instances[slot]; if i.best.Some? then i.best.value.value == x else i.proposed == Some(x)
    ensures var r := Handle(n, Receive(from, Promise(slot, number, accepted), order));
      && r.Ran? && |r.out| == 1 && (r.out[0].message.Accept? || r.out[0].message.Decide?)
      && (r.out[0].message.value == x <==>
            accepted.None? || accepted.value.value == x
            || (n.instances[slot].best.Some? && AtLeast(n.instances[slot].best.value.number, accepted.value.number)))
  {
  }
}
