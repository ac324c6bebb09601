/**
 What a Multi-Paxos node keeps over any sequence of events: its decisions, its promise to leaders,
 and how its votes stand to that promise.
 */
module PaxosTheorems {
  import opened Types
  import opened PaxosNode

  // ---------- The invariant ----------

  ghost predicate Emitted(history: seq<Decision>, slot: nat) { exists i :: 0 <= i < |history| && history[i].slot == slot }

  /** A decided slot was loaded or emitted, once; it has no live instance and lies below the next slot. */
  ghost predicate Settled(open: set<nat>, next: nat, decided: map<nat, Pending>, loaded: set<nat>, history: seq<Decision>) {
    && open !! decided.Keys && loaded <= decided.Keys
    && (forall s :: s in decided ==> s < next && (s in loaded || Emitted(history, s)))
    && (forall i :: 0 <= i < |history| ==>
          history[i].slot in decided && decided[history[i].slot] == history[i].value && history[i].slot !in loaded)
    && (forall i, j :: 0 <= i < j < |history| ==> history[i].slot != history[j].slot)
  }

  /** A slot this node has proposed for has a value to propose, and no instance has a quorum of votes. */
  ghost predicate Armed(n: Paxos) {
    forall s :: s in n.instances ==> (n.instances[s].proposer ==> n.instances[s].proposed.Some?) && |n.instances[s].accepts| < n.quorum
  }

  /** What is announced again is what was decided. */
  ghost predicate Recalls(n: Paxos) {
    forall i :: 0 <= i < |n.recent| ==> n.recent[i].slot in n.decided && n.decided[n.recent[i].slot] == n.recent[i].value
  }

  /** A running election and a held leadership have the node's global promise, and rounds seen cover it. */
  ghost predicate Sworn(n: Paxos) {
    && (n.promise.Some? ==> n.promise.value.round <= n.seen)
    && (n.election.Some? ==> n.promise == Some(n.election.value.number) && n.election.value.number.node == n.id && !n.role.Leading?)
    && (n.role.Leading? ==> n.promise == Some(Ballot(n.role.term, n.id)))
  }

  /** A node, what has been delivered of it so far, and the slots it loaded when it started. */
  datatype World = World(node: Paxos, delivered: seq<Decision>, loaded: set<nat>)

  ghost function History(w: World): seq<Decision> { w.delivered + w.node.pending }

  ghost predicate Good(n: Paxos, loaded: set<nat>, delivered: seq<Decision>) {
    && Settled(n.instances.Keys, n.next, n.decided, loaded, delivered + n.pending)
    && Armed(n) && Recalls(n) && Sworn(n) && 0 < n.quorum
  }

  ghost predicate KeepsDecisions(a: map<nat, Pending>, b: map<nat, Pending>) {
    forall s :: s in a ==> s in b && b[s] == a[s]
  }

  ghost predicate KeepsPromise(a: Option<Ballot>, b: Option<Ballot>) {
    a.Some? ==> b.Some? && AtLeast(b.value, a.value)
  }

  /** What every handler keeps. */
  ghost predicate Grew(a: Paxos, b: Paxos) {
    && b.id == a.id && b.quorum == a.quorum && a.next <= b.next && a.seen <= b.seen && a.pending <= b.pending
    && KeepsDecisions(a.decided, b.decided) && KeepsPromise(a.promise, b.promise)
  }

  /** Every decision announced is one the node has. */
  ghost predicate Truthful(out: seq<Sent>, decided: map<nat, Pending>) {
    forall i :: 0 <= i < |out| && out[i].message.Decide? ==>
      out[i].message.slot in decided && decided[out[i].message.slot] == out[i].message.value
  }

  /** A reply that keeps all of this. */
  ghost predicate Kept(n: Paxos, r: Reply, loaded: set<nat>, delivered: seq<Decision>) {
    r.Ran? ==> Good(r.node, loaded, delivered) && Grew(n, r.node) && Truthful(r.out, r.node.decided)
  }

  lemma KeptOn(a: Paxos, r: Reply, q: Reply, loaded: set<nat>, delivered: seq<Decision>)
    requires r.Ran? && Kept(a, r, loaded, delivered) && Kept(r.node, q, loaded, delivered)
    ensures Kept(a, After(r.out, q), loaded, delivered)
  {
  }

  // ---------- Deciding ----------

  /** One forwarded value equal to the decided one is taken off the list, if there is one, and nothing else. */
  lemma {:induction false} WithoutOne(values: seq<Pending>, value: Pending)
    ensures multiset(Without(values, value)) == multiset(values) - multiset{value}
    decreases |values|
  {
    if values != [] {
      assert values == [values[0]] + values[1..];
      WithoutOne(values[1..], value);
    }
  }

  lemma ConcludeSettled(open: set<nat>, next: nat, decided: map<nat, Pending>, loaded: set<nat>, history: seq<Decision>,
      slot: nat, value: Pending)
    requires Settled(open, next, decided, loaded, history) && slot !in decided
    ensures Settled(open - {slot}, Max(next, slot + 1), decided[slot := value], loaded, history + [Decision(slot, value)])
  {
    var after := history + [Decision(slot, value)];
    forall s | s in decided[slot := value] ensures s in loaded || Emitted(after, s) {
      if s == slot {
        assert after[|history|].slot == s;
      } else if s !in loaded {
        var i :| 0 <= i < |history| && history[i].slot == s;
        assert after[i].slot == s;
      }
    }
  }

  lemma ConcludeBooked(n: Paxos, slot: nat, value: Pending, loaded: set<nat>, delivered: seq<Decision>)
    requires Settled(n.instances.Keys, n.next, n.decided, loaded, delivered + n.pending) && slot !in n.decided
    ensures var m := Conclude(n, slot, value); Settled(m.instances.Keys, m.next, m.decided, loaded, delivered + m.pending)
  {
    var m := Conclude(n, slot, value);
    ConcludeSettled(n.instances.Keys, n.next, n.decided, loaded, delivered + n.pending, slot, value);
    assert m.instances.Keys == n.instances.Keys - {slot};
    assert delivered + m.pending == delivered + n.pending + [Decision(slot, value)];
  }

  lemma ConcludeGood(n: Paxos, slot: nat, value: Pending, loaded: set<nat>, delivered: seq<Decision>)
    requires Good(n, loaded, delivered) && slot !in n.decided
    ensures Good(Conclude(n, slot, value), loaded, delivered) && Grew(n, Conclude(n, slot, value))
  {
    ConcludeBooked(n, slot, value, loaded, delivered);
    ConcludeArmed(n, slot, value);
  }

  lemma ConcludeArmed(n: Paxos, slot: nat, value: Pending)
    requires Armed(n) && Recalls(n) && Sworn(n) && slot !in n.decided
    ensures var m := Conclude(n, slot, value); Armed(m) && Recalls(m) && Sworn(m) && Grew(n, m)
  {
  }

  lemma PutGood(n: Paxos, slot: nat, i: Instance, loaded: set<nat>, delivered: seq<Decision>)
    requires Good(n, loaded, delivered) && slot !in n.decided && (i.proposer ==> i.proposed.Some?) && |i.accepts| < n.quorum
    ensures Good(Put(n, slot, i), loaded, delivered) && Grew(n, Put(n, slot, i))
  {
  }

  lemma LookupFine(n: Paxos, slot: nat)
    requires Armed(n) && 0 < n.quorum
    ensures var i := Lookup(n.instances, slot); (i.proposer ==> i.proposed.Some?) && |i.accepts| < n.quorum
  {
  }

  lemma OpenNext(n: Paxos, loaded: set<nat>, delivered: seq<Decision>)
    requires Good(n, loaded, delivered)
    ensures n.next !in n.decided && Good(n.(next := n.next + 1), loaded, delivered)
  {
  }

  lemma Phase2Kept(n: Paxos, slot: nat, i: Instance, loaded: set<nat>, delivered: seq<Decision>)
    requires Good(n, loaded, delivered) && slot !in n.decided && (i.proposer ==> i.proposed.Some?)
    ensures Kept(n, Phase2(n, slot, i), loaded, delivered)
    ensures i.proposer ==> Phase2(n, slot, i).Ran?
  {
    if Choice(i).Some? {
      var voted := SelfVoted(i, n.id, Choice(i).value);
      if |voted.accepts| >= n.quorum {
        ConcludeGood(n, slot, Choice(i).value, loaded, delivered);
      } else {
        PutGood(n, slot, voted, loaded, delivered);
      }
    }
  }

  lemma PressKept(n: Paxos, slot: nat, i: Instance, value: Pending, loaded: set<nat>, delivered: seq<Decision>)
    requires Good(n, loaded, delivered) && slot !in n.decided && i.proposed.Some?
    ensures Kept(n, Press(n, slot, i, value), loaded, delivered)
  {
    if |i.accepts| >= n.quorum { ConcludeGood(n, slot, value, loaded, delivered); } else { PutGood(n, slot, i, loaded, delivered); }
  }

  // ---------- Handlers ----------

  lemma PrepareKept(n: Paxos, from: NodeId, slot: nat, number: Ballot, loaded: set<nat>, delivered: seq<Decision>)
    requires Good(n, loaded, delivered)
    ensures Kept(n, HandlePrepare(n, from, slot, number), loaded, delivered)
  {
    if slot !in n.decided {
      LookupFine(n, slot);
      var i := Lookup(n.instances, slot);
      PutGood(n, slot, i, loaded, delivered);
      PutGood(n, slot, i.(promised := Some(number)), loaded, delivered);
    }
  }

  lemma AcceptKept(n: Paxos, from: NodeId, slot: nat, number: Ballot, value: Pending, loaded: set<nat>, delivered: seq<Decision>)
    requires Good(n, loaded, delivered)
    ensures Kept(n, HandleAccept(n, from, slot, number, value), loaded, delivered)
  {
    if slot !in n.decided {
      LookupFine(n, slot);
      var i := Lookup(n.instances, slot);
      PutGood(n, slot, i, loaded, delivered);
      PutGood(n, slot, i.(promised := Some(number), accepted := Some(Vote(number, value))), loaded, delivered);
    }
  }

  lemma PromiseKept(n: Paxos, from: NodeId, slot: nat, number: Ballot, accepted: Option<Vote>, loaded: set<nat>, delivered: seq<Decision>)
    requires Good(n, loaded, delivered)
    ensures Kept(n, HandlePromise(n, from, slot, number, accepted), loaded, delivered)
    ensures HandlePromise(n, from, slot, number, accepted).Stopped? ==> Live(n, slot, number) && !n.instances[slot].proposer
  {
    if Live(n, slot, number) {
      var i := Tracked(n.instances[slot], from, accepted);
      if |i.promises| >= n.quorum { Phase2Kept(n, slot, i, loaded, delivered); } else { PutGood(n, slot, i, loaded, delivered); }
    }
  }

  lemma AcceptedKept(n: Paxos, from: NodeId, slot: nat, number: Ballot, loaded: set<nat>, delivered: seq<Decision>)
    requires Good(n, loaded, delivered)
    ensures Kept(n, HandleAccepted(n, from, slot, number), loaded, delivered)
  {
    if Live(n, slot, number) {
      var i := n.instances[slot].(accepts := n.instances[slot].accepts + {from});
      if |i.accepts| < n.quorum {
        PutGood(n, slot, i, loaded, delivered);
      } else if i.accepted.Some? {
        ConcludeGood(n, slot, i.accepted.value.value, loaded, delivered);
      }
    }
  }

  lemma DecideKept(n: Paxos, slot: nat, value: Pending, loaded: set<nat>, delivered: seq<Decision>)
    requires Good(n, loaded, delivered)
    ensures Kept(n, Ran(HandleDecide(n, slot, value), []), loaded, delivered)
  {
    if slot !in n.decided {
      ConcludeGood(n, slot, value, loaded, delivered);
      var i := Lookup(n.instances, slot);
      if i.proposed.Some? { ConcludeGood(n.(lost := n.lost + [i.proposed.value]), slot, value, loaded, delivered); }
    }
  }

  lemma Phase1Kept(n: Paxos, slot: nat, i: Instance, loaded: set<nat>, delivered: seq<Decision>)
    requires Good(n, loaded, delivered) && slot !in n.decided && i.proposer && i.proposed.Some? && |i.accepts| < n.quorum
    ensures Phase1(n, slot, i).Ran? && Kept(n, Phase1(n, slot, i), loaded, delivered)
  {
    if |i.promises| >= n.quorum { Phase2Kept(n, slot, i, loaded, delivered); } else { PutGood(n, slot, i, loaded, delivered); }
  }

  lemma InnerProposeKept(n: Paxos, value: Pending, loaded: set<nat>, delivered: seq<Decision>)
    requires Good(n, loaded, delivered)
    ensures InnerPropose(n, value).Ran? && Kept(n, InnerPropose(n, value), loaded, delivered)
  {
    OpenNext(n, loaded, delivered);
    LookupFine(n, n.next);
    var i := Lookup(n.instances, n.next);
    if n.role.Leading? {
      var led := Leadered(i, n.id, Ballot(n.role.term, n.id), value, i.accepts + {n.id}, i.promises + {n.id});
      PressKept(n.(next := n.next + 1), n.next, led, value, loaded, delivered);
    } else {
      Phase1Kept(n.(next := n.next + 1), n.next, Proposing(i, n.id, value), loaded, delivered);
    }
  }

  lemma RetryKept(n: Paxos, slot: nat, loaded: set<nat>, delivered: seq<Decision>)
    requires Good(n, loaded, delivered)
    ensures RetryProposal(n, slot).Ran? && Kept(n, RetryProposal(n, slot), loaded, delivered)
  {
    if slot in n.instances && n.instances[slot].proposer { Phase1Kept(n, slot, Retrying(n.instances[slot], n.id), loaded, delivered); }
  }

  lemma {:induction false} RetryAllKept(n: Paxos, slots: seq<nat>, loaded: set<nat>, delivered: seq<Decision>)
    requires Good(n, loaded, delivered)
    ensures RetryAll(n, slots).Ran? && Kept(n, RetryAll(n, slots), loaded, delivered)
    decreases |slots|
  {
    if slots != [] {
      RetryAllKept(n, slots[..|slots| - 1], loaded, delivered);
      var r := RetryAll(n, slots[..|slots| - 1]);
      RetryKept(r.node, slots[|slots| - 1], loaded, delivered);
      KeptOn(n, r, RetryProposal(r.node, slots[|slots| - 1]), loaded, delivered);
    }
  }

  lemma {:induction false} ProposeAllKept(n: Paxos, values: seq<Pending>, loaded: set<nat>, delivered: seq<Decision>)
    requires Good(n, loaded, delivered)
    ensures ProposeAll(n, values).Ran? && Kept(n, ProposeAll(n, values), loaded, delivered)
    decreases |values|
  {
    if values != [] {
      ProposeAllKept(n, values[..|values| - 1], loaded, delivered);
      var r := ProposeAll(n, values[..|values| - 1]);
      InnerProposeKept(r.node, values[|values| - 1], loaded, delivered);
      KeptOn(n, r, InnerPropose(r.node, values[|values| - 1]), loaded, delivered);
    }
  }

  lemma {:induction false} ReplayAllKept(n: Paxos, best: map<nat, Vote>, number: Ballot, order: seq<nat>, loaded: set<nat>,
      delivered: seq<Decision>)
    requires Good(n, loaded, delivered)
    ensures Kept(n, ReplayAll(n, best, number, order), loaded, delivered)
    decreases |order|
  {
    if order != [] {
      ReplayAllKept(n, best, number, order[..|order| - 1], loaded, delivered);
      var r, s := ReplayAll(n, best, number, order[..|order| - 1]), order[|order| - 1];
      if s in best {
        if s !in r.node.decided {
          var led := Leadered(Lookup(r.node.instances, s), n.id, number, best[s].value, {n.id}, {n.id});
          PressKept(r.node, s, led, best[s].value, loaded, delivered);
        }
        KeptOn(n, r, ReplayAccept(r.node, s, number, best[s].value), loaded, delivered);
      }
    }
  }

  lemma CompleteKept(n: Paxos, order: seq<nat>, loaded: set<nat>, delivered: seq<Decision>)
    requires Good(n, loaded, delivered) && n.election.Some?
    ensures Kept(n, CompleteLeaderElection(n, order), loaded, delivered)
  {
    var m := Elected(n);
    assert Good(m, loaded, delivered) && Grew(n, m);
    ReplayAllKept(m, HighestPerSlot(n.election.value.votes, n.decided), n.election.value.number, order, loaded, delivered);
    KeptOn(n, Ran(m, []), CompleteLeaderElection(n, order), loaded, delivered);
  }

  /** A new candidate's number is above its promise, so the promise becomes that number. */
  lemma CandidateGood(n: Paxos, order: seq<nat>, loaded: set<nat>, delivered: seq<Decision>)
    requires Good(n, loaded, delivered)
    ensures Good(Candidate(n, order), loaded, delivered) && Grew(n, Candidate(n, order))
    ensures Candidate(n, order).promise == Some(Ballot(n.seen + 1, n.id))
  {
  }

  lemma ElectionKept(n: Paxos, order: seq<nat>, replay: seq<nat>, loaded: set<nat>, delivered: seq<Decision>)
    requires Good(n, loaded, delivered)
    ensures Kept(n, StartElection(n, order, replay), loaded, delivered)
  {
    var m := Candidate(n, order);
    CandidateGood(n, order, loaded, delivered);
    if 1 >= n.quorum {
      CompleteKept(m, replay, loaded, delivered);
      KeptOn(n, Ran(m, []), CompleteLeaderElection(m, replay), loaded, delivered);
    }
  }

  lemma PromiseLeaderKept(n: Paxos, from: NodeId, number: Ballot, votes: seq<Recovered>, order: seq<nat>, loaded: set<nat>,
      delivered: seq<Decision>)
    requires Good(n, loaded, delivered)
    ensures Kept(n, HandlePromiseLeader(n, from, number, votes, order), loaded, delivered)
  {
    if n.election.Some? && n.election.value.number == number {
      var e := n.election.value;
      var m := n.(election := Some(e.(promises := e.promises + {from}, votes := e.votes + votes)));
      assert Good(m, loaded, delivered);
      if |m.election.value.promises| >= n.quorum {
        CompleteKept(m, order, loaded, delivered);
        KeptOn(n, Ran(m, []), CompleteLeaderElection(m, order), loaded, delivered);
      }
    }
  }

  lemma NackKept(n: Paxos, slot: nat, highest: Ballot, loaded: set<nat>, delivered: seq<Decision>)
    requires Good(n, loaded, delivered)
    ensures Kept(n, Ran(HandleNack(n, slot, highest), []), loaded, delivered)
  {
  }

  lemma RoleKept(n: Paxos, from: NodeId, term: nat, number: Ballot, since: nat, order: seq<nat>, loaded: set<nat>, delivered: seq<Decision>)
    requires Good(n, loaded, delivered)
    ensures Kept(n, Ran(HandleHeartbeat(n, from, term), []), loaded, delivered)
    ensures Kept(n, Ran(HandleNackLeader(n, number), []), loaded, delivered)
    ensures Kept(n, HandlePrepareLeader(n, from, number, since, order), loaded, delivered)
  {
  }

  lemma MessageKept(n: Paxos, from: NodeId, m: PaxosMessage, order: seq<nat>, loaded: set<nat>, delivered: seq<Decision>)
    requires Good(n, loaded, delivered)
    ensures Kept(n, HandleMessage(n, from, m, order), loaded, delivered)
    ensures HandleMessage(n, from, m, order).Stopped? ==> m.Promise? || m.Accepted?
  {
    match m
    case Prepare(slot, number) => PrepareKept(n, from, slot, number, loaded, delivered);
    case Promise(slot, number, accepted) => PromiseKept(n, from, slot, number, accepted, loaded, delivered);
    case Accept(slot, number, value) => AcceptKept(n, from, slot, number, value, loaded, delivered);
    case Accepted(slot, number, _) => AcceptedKept(n, from, slot, number, loaded, delivered);
    case Decide(slot, value) => DecideKept(n, slot, value, loaded, delivered);
    case NackPrepare(slot, _, highest) => NackKept(n, slot, highest, loaded, delivered);
    case NackAccept(slot, _, highest) => NackKept(n, slot, highest, loaded, delivered);
    case Forwarded(value) => InnerProposeKept(n, value, loaded, delivered);
    case Beat(term) => RoleKept(n, from, term, Ballot(0, 0), 0, [], loaded, delivered);
    case PrepareLeader(number, since) => RoleKept(n, from, 0, number, since, order, loaded, delivered);
    case PromiseLeader(number, votes) => PromiseLeaderKept(n, from, number, votes, order, loaded, delivered);
    case NackLeader(_, highest) => RoleKept(n, from, 0, highest, 0, [], loaded, delivered);
  }

  lemma LeaderTickKept(n: Paxos, c: Clock, loaded: set<nat>, delivered: seq<Decision>)
    requires Good(n, loaded, delivered)
    ensures Kept(n, LeaderTick(n, c.beat, c.stalled, c.silent, c.order, c.replay), loaded, delivered)
  {
    var m := if c.stalled && n.election.Some? then n.(election := None, role := Following(None)) else n;
    var beats := if c.beat && n.role.Leading? then [Sent(Broadcast, Beat(n.role.term))] else [];
    assert Good(m, loaded, delivered);
    if c.silent && m.role.Following? && (m.role.leader.Some? || m.instances != map[]) {
      ElectionKept(m, c.order, c.replay, loaded, delivered);
      KeptOn(n, Ran(m, beats), StartElection(m, c.order, c.replay), loaded, delivered);
    }
  }

  lemma RebroadcastKept(n: Paxos, expired: nat, loaded: set<nat>, delivered: seq<Decision>)
    requires Good(n, loaded, delivered)
    ensures Kept(n, Rebroadcast(n, expired), loaded, delivered)
  {
  }

  lemma ReproposeKept(n: Paxos, late: nat, loaded: set<nat>, delivered: seq<Decision>)
    requires Good(n, loaded, delivered)
    ensures ReproposeForwarded(n, late).Ran? && Kept(n, ReproposeForwarded(n, late), loaded, delivered)
  {
    var k := Min(late, |n.forwarded|);
    ProposeAllKept(n.(forwarded := n.forwarded[k..]), n.forwarded[..k], loaded, delivered);
  }

  lemma TickKept(n: Paxos, c: Clock, loaded: set<nat>, delivered: seq<Decision>)
    requires Good(n, loaded, delivered)
    ensures OnTick(n, c).Ran? && Kept(n, OnTick(n, c), loaded, delivered)
  {
    var a := RetryAll(n, c.retry);
    RetryAllKept(n, c.retry, loaded, delivered);
    var b := Rebroadcast(a.node, c.expired);
    RebroadcastKept(a.node, c.expired, loaded, delivered);
    KeptOn(n, a, b, loaded, delivered);
    var d := LeaderTick(b.node, c.beat, c.stalled, c.silent, c.order, c.replay);
    LeaderTickKept(b.node, c, loaded, delivered);
    KeptOn(n, After(a.out, b), d, loaded, delivered);
    ReproposeKept(d.node, c.late, loaded, delivered);
    KeptOn(n, After(a.out + b.out, d), ReproposeForwarded(d.node, c.late), loaded, delivered);
  }

  /** Every event keeps the invariant, all decisions and the promise; only a Promise or an Accepted can stop the node. */
  lemma EventKept(n: Paxos, e: Event, loaded: set<nat>, delivered: seq<Decision>)
    requires Good(n, loaded, delivered)
    ensures Kept(n, Handle(n, e), loaded, delivered)
    ensures Handle(n, e).Stopped? ==> e.Receive? && (e.message.Promise? || e.message.Accepted?)
  {
    match e
    case Receive(from, message, order) => MessageKept(n, from, message, order, loaded, delivered);
    case Submit(value) => InnerProposeKept(n, value, loaded, delivered);
    case Tick(clock) => TickKept(n, clock, loaded, delivered);
  }

  // ---------- Runs ----------

  /** A step of a node's life: an event, or its decisions taken by the loop around it. */
  datatype Step = Act(event: Event) | Take

  ghost predicate Next(a: World, step: Step, b: World) {
    match step
    case Act(e) => Handle(a.node, e).Ran? && b == a.(node := Handle(a.node, e).node)
    case Take => b == a.(node := a.node.(pending := []), delivered := a.delivered + a.node.pending)
  }

  ghost predicate Init(w: World) {
    w.loaded == w.node.decided.Keys && w.delivered == [] && exists total :: w.node == Started(w.node.id, total, w.node.decided)
  }

  /** Any sequence of messages, proposals and ticks, from a start with or without stored decisions, as long as the node does not stop. */
  ghost predicate Run(worlds: seq<World>, steps: seq<Step>) {
    && |worlds| == |steps| + 1 && Init(worlds[0])
    && forall i :: 0 <= i < |steps| ==> Next(worlds[i], steps[i], worlds[i + 1])
  }

  ghost predicate GoodWorld(w: World) { Good(w.node, w.loaded, w.delivered) }

  /** What two moments of a run have to do with each other. */
  ghost predicate Later(a: World, b: World) {
    && b.loaded == a.loaded && History(a) <= History(b)
    && b.node.id == a.node.id && a.node.next <= b.node.next && a.node.seen <= b.node.seen
    && KeepsDecisions(a.node.decided, b.node.decided) && KeepsPromise(a.node.promise, b.node.promise)
  }

  lemma NextGood(a: World, step: Step, b: World)
    requires GoodWorld(a) && Next(a, step, b)
    ensures GoodWorld(b) && Later(a, b)
  {
    if step.Act? {
      EventKept(a.node, step.event, a.loaded, a.delivered);
    } else {
      assert a.delivered + a.node.pending + [] == a.delivered + a.node.pending;
    }
  }

  lemma {:induction false} RunGood(worlds: seq<World>, steps: seq<Step>, j: nat)
    requires Run(worlds, steps) && j < |worlds|
    ensures GoodWorld(worlds[j])
  {
    if j > 0 {
      RunGood(worlds, steps, j - 1);
      NextGood(worlds[j - 1], steps[j - 1], worlds[j]);
    }
  }

  lemma LaterOn(a: World, b: World, c: World)
    requires Later(a, b) && Later(b, c)
    ensures Later(a, c)
  {
  }

  lemma StepLater(worlds: seq<World>, steps: seq<Step>, k: nat)
    requires Run(worlds, steps) && k < |steps|
    ensures k + 1 < |worlds| && Later(worlds[k], worlds[k + 1])
  {
    RunGood(worlds, steps, k);
    NextGood(worlds[k], steps[k], worlds[k + 1]);
  }

  lemma AllLater(worlds: seq<World>, steps: seq<Step>)
    requires Run(worlds, steps)
    ensures forall k {:trigger worlds[k]} :: 0 <= k && k + 1 < |worlds| ==> Later(worlds[k], worlds[k + 1])
  {
    forall k {:trigger worlds[k]} | 0 <= k && k + 1 < |worlds| ensures Later(worlds[k], worlds[k + 1]) { StepLater(worlds, steps, k); }
  }

  lemma {:induction false} ChainLater(worlds: seq<World>, i: nat, j: nat)
    requires (forall k {:trigger worlds[k]} :: 0 <= k && k + 1 < |worlds| ==> Later(worlds[k], worlds[k + 1])) && i <= j < |worlds|
    ensures Later(worlds[i], worlds[j])
    decreases j - i
  {
    if i < j {
      ChainLater(worlds, i, j - 1);
      LaterOn(worlds[i], worlds[j - 1], worlds[j]);
    }
  }

  lemma RunLater(worlds: seq<World>, steps: seq<Step>, i: nat, j: nat)
    requires Run(worlds, steps) && i <= j < |worlds|
    ensures Later(worlds[i], worlds[j])
  {
    AllLater(worlds, steps);
    ChainLater(worlds, i, j);
  }

  /**
   Over any run a decided slot keeps its value, never has an instance again, stays below the next
   slot, and is emitted exactly once, unless it was loaded from storage.
   */
  lemma DecidedOnce(worlds: seq<World>, steps: seq<Step>, i: nat, j: nat, slot: nat)
    requires Run(worlds, steps) && i <= j < |worlds| && slot in worlds[i].node.decided
    ensures var n := worlds[j].node;
      slot in n.decided && n.decided[slot] == worlds[i].node.decided[slot] && slot !in n.instances && slot < n.next
    ensures slot !in worlds[0].loaded <==> Emitted(History(worlds[j]), slot)
    ensures var h := History(worlds[j]);
      forall a, b :: 0 <= a < |h| && 0 <= b < |h| && h[a].slot == slot == h[b].slot ==> a == b && h[a].value == worlds[i].node.decided[slot]
  {
    RunGood(worlds, steps, j);
    RunLater(worlds, steps, i, j);
    RunLater(worlds, steps, 0, j);
  }

  // ---------- The leader promise ----------

  ghost predicate HoldsVote(n: Paxos, slot: nat, v: Vote) { slot in n.instances && n.instances[slot].accepted == Some(v) }

  /** The node casts a vote it did not hold. */
  ghost predicate Casts(a: Paxos, b: Paxos, slot: nat, v: Vote) { HoldsVote(b, slot, v) && !HoldsVote(a, slot, v) }

  /** Step g of the run grants number p to a leader. */
  ghost predicate Grants(worlds: seq<World>, steps: seq<Step>, g: nat, p: Ballot) {
    g < |steps| < |worlds| && steps[g].Act? && steps[g].event.Receive? && steps[g].event.message.PrepareLeader?
    && steps[g].event.message.number == p && OverAll(p, worlds[g].node.promise)
  }

  /**
   After a number has been granted to a leader, no Accept gets a lower vote out of the node: every
   vote an Accept makes it cast is for the Accept's own number and value, and reaches the grant.
   */
  lemma AcceptsReachGrant(worlds: seq<World>, steps: seq<Step>, g: nat, k: nat, p: Ballot, slot: nat, v: Vote)
    requires Run(worlds, steps) && Grants(worlds, steps, g, p) && g < k < |steps|
    requires steps[k].Act? && steps[k].event.Receive? && steps[k].event.message.Accept?
    requires Casts(worlds[k].node, worlds[k + 1].node, slot, v)
    ensures AtLeast(v.number, p)
    ensures var m := steps[k].event.message; slot == m.slot && v == Vote(m.number, m.value)
    ensures Handle(worlds[k].node, steps[k].event).out == [Sent(Peer(steps[k].event.from), Accepted(slot, v.number, v.value))]
  {
    assert Next(worlds[g], steps[g], worlds[g + 1]) && Next(worlds[k], steps[k], worlds[k + 1]);
    assert worlds[g + 1].node.promise == Some(p);
    RunLater(worlds, steps, g + 1, k);
  }

  /** An Accept is taken if and only if the slot is open and the number reaches both promises; if not, the answer names a higher one. */
  lemma AcceptsExactly(n: Paxos, from: NodeId, slot: nat, number: Ballot, value: Pending)
    ensures var r := HandleAccept(n, from, slot, number, value);
      HoldsVote(r.node, slot, Vote(number, value)) && r.out == [Sent(Peer(from), Accepted(slot, number, value))] <==>
        slot !in n.decided && Reaches(number, Lookup(n.instances, slot).promised) && Reaches(number, n.promise)
    ensures var r := HandleAccept(n, from, slot, number, value);
      slot !in n.decided && !(Reaches(number, Lookup(n.instances, slot).promised) && Reaches(number, n.promise)) ==>
        |r.out| == 1 && r.out[0].message.NackAccept? && Over(r.out[0].message.highest, number)
  {
  }

  /** A grant to a leader ends any leadership and any election of this node. */
  lemma GrantEndsOffice(n: Paxos, from: NodeId, number: Ballot, since: nat, order: seq<nat>)
    requires Sworn(n) && OverAll(number, n.promise)
    ensures var r := HandlePrepareLeader(n, from, number, since, order);
      r.node.promise == Some(number) && !r.node.role.Leading? && r.node.election == None
  {
  }

  /**
   At every moment of a run a node that leads has promised its own number and runs no election, a
   node that runs for leader has promised the number it runs with, and either number is at least
   every promise the node has given before.
   */
  lemma LeadsByPromise(worlds: seq<World>, steps: seq<Step>, i: nat, j: nat)
    requires Run(worlds, steps) && i <= j < |worlds|
    ensures var n := worlds[j].node;
      && (n.role.Leading? ==> n.promise == Some(Ballot(n.role.term, n.id)) && n.election == None)
      && (n.election.Some? ==> n.promise == Some(n.election.value.number) && n.election.value.number.node == n.id)
      && (worlds[i].node.promise.Some? ==> n.promise.Some? && AtLeast(n.promise.value, worlds[i].node.promise.value))
  {
    RunGood(worlds, steps, j);
    RunLater(worlds, steps, i, j);
  }

  // ---------- The node's own votes ----------

  /** The event from a to b makes the node vote at `number`, below its leader promise: it holds a new vote there, or has decided on it. */
  ghost predicate CastsBelow(a: Paxos, b: Paxos, slot: nat, number: Ballot) {
    && !Reaches(number, b.promise)
    && ((slot in b.decided && slot !in a.decided) || exists value :: Casts(a, b, slot, Vote(number, value)))
  }

  /** The instance admits the node's own vote at its number, the leader promise does not, and the vote is not the one it holds already. */
  ghost predicate Unbound(n: Paxos, i: Instance) {
    && Choice(i).Some? && Reaches(i.number, i.promised) && !Reaches(i.number, n.promise)
    && (i.accepted != Some(Vote(i.number, Choice(i).value)) || |i.accepts + {n.id}| >= n.quorum)
  }

  /** Phase 2 casts a vote below the leader promise exactly for an unbound instance. */
  lemma Phase2CastsBelow(n: Paxos, m: Paxos, slot: nat, i: Instance)
    requires slot !in n.decided && |i.accepts| < n.quorum && i.accepted == Lookup(n.instances, slot).accepted
    requires m == n.(next := m.next) && Phase2(m, slot, i).Ran?
    ensures CastsBelow(n, Phase2(m, slot, i).node, slot, i.number) <==> Unbound(n, i)
  {
    var b, v := Phase2(m, slot, i).node, Vote(i.number, Choice(i).value);
    if Unbound(n, i) {
      if slot !in b.decided { assert Casts(n, b, slot, v); }
    } else if Reaches(i.number, i.promised) && !Reaches(i.number, n.promise) {
      assert |i.accepts + {n.id}| < n.quorum && i.accepted == Some(v);
      forall value ensures !Casts(n, b, slot, Vote(i.number, value)) { }
    }
  }

  /** Without phase 2 there is no vote. */
  lemma NoPhase2(n: Paxos, m: Paxos, slot: nat, i: Instance)
    requires slot !in n.decided && i.accepted == Lookup(n.instances, slot).accepted && m == n.(next := m.next)
    ensures forall number :: !CastsBelow(n, Put(m, slot, i), slot, number)
  {
  }

  /**
   A Promise makes the node vote below its leader promise if and only if it is for the number of an
   open slot, completes the quorum of promises, the slot's promise admits the number, the leader
   promise does not, and the vote is not one the node holds already.
   */
  lemma PromiseCastsBelow(n: Paxos, from: NodeId, slot: nat, number: Ballot, accepted: Option<Vote>, loaded: set<nat>,
      delivered: seq<Decision>)
    requires Good(n, loaded, delivered) && HandlePromise(n, from, slot, number, accepted).Ran?
    ensures CastsBelow(n, HandlePromise(n, from, slot, number, accepted).node, slot, number) <==>
      Live(n, slot, number) && var i := Tracked(n.instances[slot], from, accepted); |i.promises| >= n.quorum && Unbound(n, i)
  {
    if Live(n, slot, number) {
      var i := Tracked(n.instances[slot], from, accepted);
      if |i.promises| >= n.quorum { Phase2CastsBelow(n, n, slot, i); } else { NoPhase2(n, n, slot, i); }
    }
  }

  /** A proposal does so if and only if one promise is a quorum and round 1 is below the leader promise, unless it repeats a vote. */
  lemma ProposalCastsBelow(n: Paxos, value: Pending, loaded: set<nat>, delivered: seq<Decision>)
    requires Good(n, loaded, delivered) && !n.role.Leading?
    ensures var i := Proposing(Lookup(n.instances, n.next), n.id, value);
      CastsBelow(n, ProposeFullPaxos(n, value).node, n.next, Ballot(1, n.id)) <==> |i.promises| >= n.quorum && Unbound(n, i)
  {
    var i := Proposing(Lookup(n.instances, n.next), n.id, value);
    OpenNext(n, loaded, delivered);
    LookupFine(n, n.next);
    if |i.promises| >= n.quorum { Phase2CastsBelow(n, n.(next := n.next + 1), n.next, i); } else { NoPhase2(n, n.(next := n.next + 1), n.next, i); }
  }

  /** A retry does so if and only if one promise is a quorum and the new round is below the leader promise. */
  lemma RetryCastsBelow(n: Paxos, slot: nat, loaded: set<nat>, delivered: seq<Decision>)
    requires Good(n, loaded, delivered) && slot in n.instances && n.instances[slot].proposer
    ensures var i := Retrying(n.instances[slot], n.id);
      CastsBelow(n, RetryProposal(n, slot).node, slot, i.number) <==> 1 >= n.quorum && Unbound(n, i)
  {
    var i := Retrying(n.instances[slot], n.id);
    if 1 >= n.quorum { Phase2CastsBelow(n, n, slot, i); } else { NoPhase2(n, n, slot, i); }
  }

  /** Votes cast from a to b reach the leader promise. */
  ghost predicate Bound(a: Paxos, b: Paxos) {
    forall slot, v :: Casts(a, b, slot, v) ==> Reaches(v.number, b.promise)
  }

  lemma PressBound(n: Paxos, m: Paxos, slot: nat, i: Instance, value: Pending)
    requires m == n.(next := m.next) && Reaches(i.number, n.promise) && (i.accepted.Some? ==> i.accepted.value.number == i.number)
    ensures Bound(n, Press(m, slot, i, value).node)
  {
  }

  lemma BoundOn(a: Paxos, b: Paxos, c: Paxos)
    requires Bound(a, b) && Bound(b, c) && b.promise == c.promise
    ensures Bound(a, c)
  {
    forall slot, v | Casts(a, c, slot, v) ensures Reaches(v.number, c.promise) {
      assert Casts(a, b, slot, v) || Casts(b, c, slot, v);
    }
  }

  lemma {:induction false} ReplayAllBound(n: Paxos, best: map<nat, Vote>, number: Ballot, order: seq<nat>)
    requires n.promise == Some(number)
    ensures Bound(n, ReplayAll(n, best, number, order).node) && ReplayAll(n, best, number, order).node.promise == n.promise
    decreases |order|
  {
    if order != [] {
      ReplayAllBound(n, best, number, order[..|order| - 1]);
      var r, s := ReplayAll(n, best, number, order[..|order| - 1]), order[|order| - 1];
      if s in best && s !in r.node.decided {
        var i := Leadered(Lookup(r.node.instances, s), r.node.id, number, best[s].value, {r.node.id}, {r.node.id});
        PressBound(r.node, r.node, s, i, best[s].value);
        BoundOn(n, r.node, Press(r.node, s, i, best[s].value).node);
      }
    }
  }

  lemma AcceptorBound(n: Paxos, from: NodeId, slot: nat, number: Ballot, value: Pending)
    ensures Bound(n, HandleAccept(n, from, slot, number, value).node)
  {
  }

  lemma PrepareBound(n: Paxos, from: NodeId, slot: nat, number: Ballot)
    ensures Bound(n, HandlePrepare(n, from, slot, number).node)
  {
  }

  lemma ClosingBound(n: Paxos, from: NodeId, slot: nat, number: Ballot, value: Pending)
    ensures Bound(n, HandleDecide(n, slot, value))
    ensures HandleAccepted(n, from, slot, number).Ran? ==> Bound(n, HandleAccepted(n, from, slot, number).node)
  {
  }

  lemma NackBound(n: Paxos, slot: nat, highest: Ballot)
    ensures Bound(n, HandleNack(n, slot, highest))
  {
  }

  lemma FastPathBound(n: Paxos, value: Pending)
    requires Sworn(n) && n.role.Leading?
    ensures Bound(n, InnerPropose(n, value).node)
  {
    var i := Lookup(n.instances, n.next);
    var led := Leadered(i, n.id, Ballot(n.role.term, n.id), value, i.accepts + {n.id}, i.promises + {n.id});
    PressBound(n, n.(next := n.next + 1), n.next, led, value);
  }

  lemma ElectionBound(n: Paxos, from: NodeId, number: Ballot, votes: seq<Recovered>, order: seq<nat>)
    requires Sworn(n)
    ensures Bound(n, HandlePromiseLeader(n, from, number, votes, order).node)
  {
    if n.election.Some? && n.election.value.number == number {
      var e := n.election.value;
      var p := n.(election := Some(e.(promises := e.promises + {from}, votes := e.votes + votes)));
      ReplayAllBound(Elected(p), HighestPerSlot(p.election.value.votes, n.decided), number, order);
      BoundOn(n, Elected(p), CompleteLeaderElection(p, order).node);
    }
  }

  /** No message but a Promise makes the node vote below its leader promise, and neither does anything a leader proposes. */
  lemma OthersBound(n: Paxos, from: NodeId, m: PaxosMessage, order: seq<nat>)
    requires Sworn(n) && !m.Promise? && HandleMessage(n, from, m, order).Ran?
    ensures Bound(n, HandleMessage(n, from, m, order).node)
  {
    match m
    case Prepare(slot, number) => PrepareBound(n, from, slot, number);
    case Accept(slot, number, value) => AcceptorBound(n, from, slot, number, value);
    case Accepted(slot, number, value) => ClosingBound(n, from, slot, number, value);
    case Decide(slot, value) => ClosingBound(n, from, slot, Ballot(0, 0), value);
    case NackPrepare(slot, _, highest) => NackBound(n, slot, highest);
    case NackAccept(slot, _, highest) => NackBound(n, slot, highest);
    case Forwarded(value) => if n.role.Leading? { FastPathBound(n, value); }
    case PromiseLeader(number, votes) => ElectionBound(n, from, number, votes, order);
    case _ =>
  }

  /** In any run, only a Promise, a proposal or a tick makes the node vote below its leader promise. */
  lemma OnlyOwnVotesBelow(worlds: seq<World>, steps: seq<Step>, k: nat, slot: nat, v: Vote)
    requires Run(worlds, steps) && k < |steps| && Casts(worlds[k].node, worlds[k + 1].node, slot, v)
    requires !Reaches(v.number, worlds[k + 1].node.promise)
    ensures steps[k].Act? && (steps[k].event.Receive? ==> steps[k].event.message.Promise?)
    ensures steps[k].event.Submit? ==> !worlds[k].node.role.Leading?
  {
    RunGood(worlds, steps, k);
    assert Next(worlds[k], steps[k], worlds[k + 1]);
    if steps[k].Act? {
      var e := steps[k].event;
      if e.Receive? && !e.message.Promise? { OthersBound(worlds[k].node, e.from, e.message, e.order); }
      if e.Submit? && worlds[k].node.role.Leading? { FastPathBound(worlds[k].node, e.value); }
    }
  }

  /**
   Such a vote is within reach: a node of three proposes at round 1, then grants round 2 to a leader,
   then gets the promise that completes its quorum, and votes at round 1.
   */
  lemma VotesBelowGrant(id: NodeId, leader: NodeId, peer: NodeId, value: Pending) returns (worlds: seq<World>, steps: seq<Step>)
    requires peer != id
    ensures Run(worlds, steps) && |steps| == 3 && Grants(worlds, steps, 1, Ballot(2, leader))
    ensures worlds[3].node.promise == Some(Ballot(2, leader))
    ensures CastsBelow(worlds[2].node, worlds[3].node, 0, Ballot(1, id)) && HoldsVote(worlds[3].node, 0, Vote(Ballot(1, id), value))
  {
    var a := World(Started(id, 3, map[]), [], {});
    var i := Proposing(BLANK, id, value);
    var b := a.(node := a.node.(next := 1, instances := map[0 := i]));
    var c := b.(node := b.node.(promise := Some(Ballot(2, leader)), seen := 2));
    var d := c.(node := Put(c.node, 0, SelfVoted(Tracked(i, peer, None), id, value)));
    worlds := [a, b, c, d];
    steps := [Act(Submit(value)), Act(Receive(leader, PrepareLeader(Ballot(2, leader), 0), [])),
              Act(Receive(peer, Promise(0, Ballot(1, id), None), []))];
    assert Next(a, steps[0], b);
    assert Next(b, steps[1], c);
    TwoPromises(id, peer);
    assert Next(c, steps[2], d);
    assert Casts(c.node, d.node, 0, Vote(Ballot(1, id), value));
  }

  lemma TwoPromises(id: NodeId, peer: NodeId)
    requires peer != id
    ensures |{id} + {peer}| == 2
  {
  }

  // ---------- Elections ----------

  /** The votes are exactly those cast for open slots from `since` on. */
  ghost predicate Reports(n: Paxos, since: nat, votes: seq<Recovered>) {
    && (forall v :: v in votes ==> IsVote(n, since, v.slot) && n.instances[v.slot].accepted == Some(v.vote))
    && (forall s: nat :: IsVote(n, since, s) ==> Recovered(s, n.instances[s].accepted.value) in votes)
  }

  lemma {:induction false} VotesFrom(n: Paxos, since: nat, order: seq<nat>, v: Recovered)
    ensures v in VotesIn(n, since, order) <==> v.slot in order && IsVote(n, since, v.slot) && n.instances[v.slot].accepted == Some(v.vote)
    decreases |order|
  {
    if order != [] {
      VotesFrom(n, since, order[..|order| - 1], v);
      assert order == order[..|order| - 1] + [order[|order| - 1]];
    }
  }

  /** Going through all instances, in any order, reports exactly the node's votes for open slots. */
  lemma VotesReport(n: Paxos, since: nat, order: seq<nat>)
    requires forall s: nat :: s in n.instances ==> s in order
    ensures Reports(n, since, VotesIn(n, since, order))
  {
    forall v | v in VotesIn(n, since, order) ensures IsVote(n, since, v.slot) && n.instances[v.slot].accepted == Some(v.vote) {
      VotesFrom(n, since, order, v);
    }
    forall s: nat | IsVote(n, since, s) ensures Recovered(s, n.instances[s].accepted.value) in VotesIn(n, since, order) {
      VotesFrom(n, since, order, Recovered(s, n.instances[s].accepted.value));
    }
  }

  /** Exactly the open slots among the votes, each with one of its votes that no other outnumbers. */
  ghost predicate HighestOf(votes: seq<Recovered>, decided: map<nat, Pending>, best: map<nat, Vote>) {
    && (forall s :: s in best ==> s !in decided && Recovered(s, best[s]) in votes)
    && (forall v :: v in votes && v.slot !in decided ==> v.slot in best && AtLeast(best[v.slot].number, v.vote.number))
  }

  lemma {:induction false} HighestIsHighest(votes: seq<Recovered>, decided: map<nat, Pending>)
    ensures HighestOf(votes, decided, HighestPerSlot(votes, decided))
    decreases |votes|
  {
    if votes != [] {
      HighestIsHighest(votes[..|votes| - 1], decided);
      assert votes == votes[..|votes| - 1] + [votes[|votes| - 1]];
    }
  }

  /** The node has voted for the value at the number, and asked for votes, or needed none. */
  ghost predicate Replayed(n: Paxos, slot: nat, number: Ballot, value: Pending, out: seq<Sent>) {
    || (slot in n.decided && n.decided[slot] == value && Sent(Broadcast, Decide(slot, value)) in out)
    || (slot in n.instances && n.instances[slot].number == number && n.instances[slot].accepted == Some(Vote(number, value))
        && n.instances[slot].accepts == {n.id} && n.instances[slot].promised == Some(number) && Sent(Broadcast, Accept(slot, number, value)) in out)
  }

  /** Only slots of the list are touched. */
  ghost predicate Untouched(a: Paxos, b: Paxos, order: seq<nat>) {
    forall s :: s !in order ==>
      (s in b.decided <==> s in a.decided) && (s in b.instances <==> s in a.instances) && (s in b.instances ==>
        b.instances[s] == a.instances[s])
  }

  lemma {:induction false} ReplayAllReplays(n: Paxos, best: map<nat, Vote>, number: Ballot, order: seq<nat>)
    requires best.Keys !! n.decided.Keys && forall i, j :: 0 <= i < j < |order| ==> order[i] != order[j]
    ensures var r := ReplayAll(n, best, number, order); Untouched(n, r.node, order) && r.node.next >= n.next
    ensures var r := ReplayAll(n, best, number, order);
      forall s :: s in order && s in best ==> Replayed(r.node, s, number, best[s].value, r.out)
    decreases |order|
  {
    if order != [] {
      var k := |order| - 1;
      var before, s := ReplayAll(n, best, number, order[..k]), order[k];
      ReplayAllReplays(n, best, number, order[..k]);
      assert s !in order[..k];
      var r := ReplayAll(n, best, number, order);
      forall x | x in order && x in best ensures Replayed(r.node, x, number, best[x].value, r.out) {
        if x != s {
          assert x in order[..k];
          assert Replayed(before.node, x, number, best[x].value, before.out);
        }
      }
    }
  }

  /**
   A new leader has voted again, at its own number, for a highest vote of every open slot its
   electors reported, has asked for votes, and will open no slot that is in play.
   */
  lemma ElectionRecovers(n: Paxos, order: seq<nat>)
    requires n.election.Some? && forall i, j :: 0 <= i < j < |order| ==> order[i] != order[j]
    requires forall s: nat :: s in HighestPerSlot(n.election.value.votes, n.decided) ==> s in order
    ensures var r, best := CompleteLeaderElection(n, order), HighestPerSlot(n.election.value.votes, n.decided);
      && HighestOf(n.election.value.votes, n.decided, best)
      && (forall s :: s in best ==> s < r.node.next && Replayed(r.node, s, n.election.value.number, best[s].value, r.out))
      && (forall s :: s in n.instances ==> s < r.node.next)
  {
    HighestIsHighest(n.election.value.votes, n.decided);
    ReplayAllReplays(Elected(n), HighestPerSlot(n.election.value.votes, n.decided), n.election.value.number, order);
  }

  /** A retry's number is above the slot's promise and the last number, and what was accepted stays. */
  lemma RetryIsHigher(i: Instance, id: NodeId)
    ensures var r := Retrying(i, id);
      OverAll(r.number, i.promised) && Over(r.number, i.number) && r.accepted == i.accepted && r.proposed == i.proposed
  {
  }
}
