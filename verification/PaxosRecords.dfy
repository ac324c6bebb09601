/**
 What a Multi-Paxos node has on record for a slot, event by event: the best vote reported to it and
 the votes it has counted.
 */
module PaxosRecords {
  import opened Types
  import opened PaxosNode
  import opened PaxosTheorems

  // ---------- What is on record for a slot ----------

  ghost predicate SentPrepare(out: seq<Sent>, slot: nat) { exists i :: 0 <= i < |out| && out[i].message.Prepare? && out[i].message.slot == slot }

  /** The best vote on record for the slot is dropped when promises are asked for, and otherwise kept, until the slot is decided. */
  ghost predicate Recorded(a: Paxos, b: Paxos, out: seq<Sent>, slot: nat) {
    slot !in b.decided ==> Lookup(b.instances, slot).best == if SentPrepare(out, slot) then None else Lookup(a.instances, slot).best
  }

  /** Nothing is on record in a slot this node has not proposed for, and a slot not yet opened is one of those. */
  ghost predicate FreshAt(i: Instance, s: nat, next: nat) {
    && (s >= next ==> i.number.round == 0 && !i.proposer)
    && (i.number.round == 0 ==> i.best == None && i.accepts == {} && i.promises == {})
  }

  ghost predicate Fresh(n: Paxos) {
    && (forall s :: s in n.instances ==> FreshAt(n.instances[s], s, n.next))
    && (n.role.Leading? ==> n.role.term > 0) && (n.election.Some? ==> n.election.value.number.round > 0)
  }

  lemma PutFresh(n: Paxos, slot: nat, i: Instance)
    requires Fresh(n) && FreshAt(i, slot, n.next)
    ensures Fresh(Put(n, slot, i))
  {
  }

  lemma ConcludeFresh(n: Paxos, slot: nat, value: Pending)
    requires Fresh(n)
    ensures Fresh(Conclude(n, slot, value))
  {
    forall s | s in Conclude(n, slot, value).instances ensures FreshAt(n.instances[s], s, Max(n.next, slot + 1)) {
      assert FreshAt(n.instances[s], s, n.next);
    }
  }

  lemma NextFresh(n: Paxos, next: nat)
    requires Fresh(n) && n.next <= next
    ensures Fresh(n.(next := next))
  {
    forall s | s in n.instances ensures FreshAt(n.instances[s], s, next) { assert FreshAt(n.instances[s], s, n.next); }
  }

  /** The node itself, and those whose votes at the number it has counted. */
  ghost function Voters(n: Paxos, slot: nat, number: Ballot): set<NodeId> {
    {n.id} + if Lookup(n.instances, slot).number == number then Lookup(n.instances, slot).accepts else {}
  }

  /** Votes are carried over within a number only, and a slot is decided only with a quorum of them. */
  ghost predicate Polled(a: Paxos, b: Paxos, slot: nat) {
    && b.id == a.id && b.quorum == a.quorum
    && (slot !in b.decided ==> Lookup(b.instances, slot).accepts <= Voters(a, slot, Lookup(b.instances, slot).number))
    && (slot in b.decided && slot !in a.decided ==> exists number :: |Voters(a, slot, number)| >= a.quorum)
  }

  /** What every step keeps, for one slot. */
  ghost predicate Steady(n: Paxos, r: Reply, slot: nat) {
    r.Ran? ==>
      Fresh(r.node) && Recorded(n, r.node, r.out, slot) && Polled(n, r.node, slot) && KeepsDecisions(n.decided, r.node.decided)
  }

  lemma PolledOn(a: Paxos, b: Paxos, c: Paxos, slot: nat)
    requires Polled(a, b, slot) && Polled(b, c, slot) && KeepsDecisions(a.decided, b.decided) && KeepsDecisions(b.decided, c.decided)
    ensures Polled(a, c, slot)
  {
    if slot in c.decided && slot !in b.decided {
      var number :| |Voters(b, slot, number)| >= b.quorum;
      SubsetSize(Voters(b, slot, number), Voters(a, slot, number));
    }
  }

  lemma SteadyOn(n: Paxos, r: Reply, q: Reply, slot: nat)
    requires r.Ran? && Steady(n, r, slot) && Steady(r.node, q, slot)
    ensures Steady(n, After(r.out, q), slot)
  {
    if q.Ran? {
      PolledOn(n, r.node, q.node, slot);
      var out := r.out + q.out;
      if SentPrepare(out, slot) {
        var i :| 0 <= i < |out| && out[i].message.Prepare? && out[i].message.slot == slot;
        if i < |r.out| { assert r.out[i] == out[i]; } else { assert q.out[i - |r.out|] == out[i]; }
      }
      if SentPrepare(r.out, slot) {
        var i :| 0 <= i < |r.out| && r.out[i].message.Prepare? && r.out[i].message.slot == slot;
        assert out[i] == r.out[i];
      }
      if SentPrepare(q.out, slot) {
        var i :| 0 <= i < |q.out| && q.out[i].message.Prepare? && q.out[i].message.slot == slot;
        assert out[|r.out| + i] == q.out[i];
      }
    }
  }

  /** Messages other than Prepare leave the record alone. */
  lemma Quiet(n: Paxos, r: Reply, slot: nat)
    requires r.Ran? ==> Fresh(r.node) && KeepsDecisions(n.decided, r.node.decided)
    requires r.Ran? ==> forall i :: 0 <= i < |r.out| ==> !r.out[i].message.Prepare?
    requires r.Ran? && slot !in r.node.decided ==> Lookup(r.node.instances, slot).best == Lookup(n.instances, slot).best
    requires r.Ran? ==> Polled(n, r.node, slot)
    ensures Steady(n, r, slot)
  {
  }

  /** Only the slots, the decisions and the identity of the node matter for where it started. */
  lemma SteadyFrom(n: Paxos, m: Paxos, r: Reply, slot: nat)
    requires Steady(m, r, slot) && m.instances == n.instances && m.decided == n.decided && m.id == n.id && m.quorum == n.quorum
    ensures Steady(n, r, slot)
  {
    if r.Ran? && slot in r.node.decided && slot !in n.decided {
      var number :| |Voters(m, slot, number)| >= m.quorum;
      assert Voters(n, slot, number) == Voters(m, slot, number);
    }
  }

  /** A step that touches no slot. */
  lemma Idle(n: Paxos, m: Paxos, out: seq<Sent>, slot: nat)
    requires Fresh(n) && m.instances == n.instances && m.decided == n.decided && m.id == n.id && m.quorum == n.quorum && m.next == n.next
    requires (m.role.Leading? ==> m.role == n.role) && (m.election.Some? ==> m.election == n.election)
    requires forall i :: 0 <= i < |out| ==> !out[i].message.Prepare?
    ensures Steady(n, Ran(m, out), slot)
  {
    Quiet(n, Ran(m, out), slot);
  }

  lemma OnePrepare(slot: nat, number: Ballot, s: nat)
    ensures SentPrepare([Sent(Broadcast, Prepare(slot, number))], s) <==> s == slot
  {
    if s == slot { assert [Sent(Broadcast, Prepare(slot, number))][0].message.slot == s; }
  }

  lemma ConcludePolled(n: Paxos, at: nat, value: Pending, accepts: set<NodeId>, number: Ballot, slot: nat)
    requires at !in n.decided && accepts <= Voters(n, at, number) && |accepts| >= n.quorum
    ensures Polled(n, Conclude(n, at, value), slot)
  {
    SubsetSize(accepts, Voters(n, at, number));
  }

  lemma PutPolled(n: Paxos, at: nat, i: Instance, slot: nat)
    requires i.accepts <= Voters(n, at, i.number)
    ensures Polled(n, Put(n, at, i), slot)
  {
  }

  /** Phase 2 asks for votes or decides; the record of its slot stays. */
  lemma Phase2Steady(n: Paxos, at: nat, i: Instance, slot: nat)
    requires Fresh(n) && at !in n.decided && at < n.next && i.number.round > 0 && i.accepts <= Voters(n, at, i.number)
    requires Phase2(n, at, i).Ran? ==> at in Phase2(n, at, i).node.decided || i.best == Lookup(n.instances, at).best
    ensures Steady(n, Phase2(n, at, i), slot)
  {
    if Choice(i).Some? {
      var value := Choice(i).value;
      var voted := SelfVoted(i, n.id, value);
      if |voted.accepts| >= n.quorum {
        ConcludeFresh(n, at, value);
        ConcludePolled(n, at, value, voted.accepts, i.number, slot);
      } else {
        PutFresh(n, at, voted);
        PutPolled(n, at, voted, slot);
      }
      Quiet(n, Phase2(n, at, i), slot);
    }
  }

  lemma Phase1Steady(n: Paxos, at: nat, i: Instance, slot: nat)
    requires Fresh(n) && at !in n.decided && at < n.next && i.number.round > 0 && i.best == None && i.accepts <= Voters(n, at, i.number)
    requires |i.promises| >= n.quorum ==> Phase2(n, at, i).Ran? ==> at in Phase2(n, at, i).node.decided || i.best == Lookup(n.instances, at).best
    ensures Steady(n, Phase1(n, at, i), slot)
  {
    if |i.promises| >= n.quorum {
      Phase2Steady(n, at, i, slot);
    } else {
      PutFresh(n, at, i);
      PutPolled(n, at, i, slot);
      OnePrepare(at, i.number, slot);
    }
  }

  lemma PressSteady(n: Paxos, at: nat, i: Instance, value: Pending, slot: nat)
    requires Fresh(n) && at !in n.decided && at < n.next && i.number.round > 0 && i.best == Lookup(n.instances, at).best
    requires i.accepts <= Voters(n, at, i.number)
    ensures Steady(n, Press(n, at, i, value), slot)
  {
    if |i.accepts| >= n.quorum {
      ConcludeFresh(n, at, value);
      ConcludePolled(n, at, value, i.accepts, i.number, slot);
    } else {
      PutFresh(n, at, i);
      PutPolled(n, at, i, slot);
    }
    Quiet(n, Press(n, at, i, value), slot);
  }

  lemma RetrySteady(n: Paxos, at: nat, loaded: set<nat>, delivered: seq<Decision>, slot: nat)
    requires Good(n, loaded, delivered) && Fresh(n)
    ensures Steady(n, RetryProposal(n, at), slot)
  {
    if at in n.instances && n.instances[at].proposer {
      var i := Retrying(n.instances[at], n.id);
      assert FreshAt(n.instances[at], at, n.next);
      assert {} + {n.id} == {n.id};
      Phase1Steady(n, at, i, slot);
    }
  }

  lemma FastSteady(n: Paxos, value: Pending, slot: nat)
    requires Fresh(n) && n.next !in n.decided && n.role.Leading?
    ensures Steady(n, InnerPropose(n, value), slot)
  {
    var m, i := n.(next := n.next + 1), Lookup(n.instances, n.next);
    NextFresh(n, n.next + 1);
    if n.next in n.instances { assert FreshAt(n.instances[n.next], n.next, n.next); }
    PressSteady(m, n.next, Leadered(i, n.id, Ballot(n.role.term, n.id), value, i.accepts + {n.id}, i.promises + {n.id}), value, slot);
    SteadyFrom(n, m, InnerPropose(n, value), slot);
  }

  lemma FullSteady(n: Paxos, value: Pending, slot: nat)
    requires Fresh(n) && n.next !in n.decided
    ensures Steady(n, ProposeFullPaxos(n, value), slot)
  {
    var m, i := n.(next := n.next + 1), Lookup(n.instances, n.next);
    NextFresh(n, n.next + 1);
    if n.next in n.instances { assert FreshAt(n.instances[n.next], n.next, n.next); }
    Phase1Steady(m, n.next, Proposing(i, n.id, value), slot);
    SteadyFrom(n, m, ProposeFullPaxos(n, value), slot);
  }

  lemma ProposeSteady(n: Paxos, value: Pending, loaded: set<nat>, delivered: seq<Decision>, slot: nat)
    requires Good(n, loaded, delivered) && Fresh(n)
    ensures Steady(n, InnerPropose(n, value), slot)
  {
    OpenNext(n, loaded, delivered);
    if n.role.Leading? { FastSteady(n, value, slot); } else { FullSteady(n, value, slot); }
  }

  lemma {:induction false} RetryAllSteady(n: Paxos, slots: seq<nat>, loaded: set<nat>, delivered: seq<Decision>, slot: nat)
    requires Good(n, loaded, delivered) && Fresh(n)
    ensures Steady(n, RetryAll(n, slots), slot)
    decreases |slots|
  {
    if slots == [] {
      Quiet(n, Ran(n, []), slot);
    } else {
      RetryAllSteady(n, slots[..|slots| - 1], loaded, delivered, slot);
      RetryAllKept(n, slots[..|slots| - 1], loaded, delivered);
      var r := RetryAll(n, slots[..|slots| - 1]);
      RetrySteady(r.node, slots[|slots| - 1], loaded, delivered, slot);
      SteadyOn(n, r, RetryProposal(r.node, slots[|slots| - 1]), slot);
    }
  }

  lemma {:induction false} ProposeAllSteady(n: Paxos, values: seq<Pending>, loaded: set<nat>, delivered: seq<Decision>, slot: nat)
    requires Good(n, loaded, delivered) && Fresh(n)
    ensures Steady(n, ProposeAll(n, values), slot)
    decreases |values|
  {
    if values == [] {
      Quiet(n, Ran(n, []), slot);
    } else {
      ProposeAllSteady(n, values[..|values| - 1], loaded, delivered, slot);
      ProposeAllKept(n, values[..|values| - 1], loaded, delivered);
      var r := ProposeAll(n, values[..|values| - 1]);
      ProposeSteady(r.node, values[|values| - 1], loaded, delivered, slot);
      SteadyOn(n, r, InnerPropose(r.node, values[|values| - 1]), slot);
    }
  }

  lemma {:induction false} ReplayAllSteady(n: Paxos, best: map<nat, Vote>, number: Ballot, order: seq<nat>, slot: nat)
    requires Fresh(n) && number.round > 0 && forall s :: s in best ==> s < n.next
    ensures Steady(n, ReplayAll(n, best, number, order), slot) && n.next <= ReplayAll(n, best, number, order).node.next
    decreases |order|
  {
    if order == [] {
      Quiet(n, Ran(n, []), slot);
    } else {
      ReplayAllSteady(n, best, number, order[..|order| - 1], slot);
      var r, s := ReplayAll(n, best, number, order[..|order| - 1]), order[|order| - 1];
      if s in best {
        if s in r.node.decided {
          Quiet(r.node, ReplayAccept(r.node, s, number, best[s].value), slot);
        } else {
          var i := Leadered(Lookup(r.node.instances, s), r.node.id, number, best[s].value, {r.node.id}, {r.node.id});
          PressSteady(r.node, s, i, best[s].value, slot);
        }
        SteadyOn(n, r, ReplayAccept(r.node, s, number, best[s].value), slot);
      }
    }
  }

  // ---------- Events ----------

  lemma CompleteSteady(n: Paxos, order: seq<nat>, slot: nat)
    requires Fresh(n) && n.election.Some?
    ensures Steady(n, CompleteLeaderElection(n, order), slot)
  {
    var m, best := Elected(n), HighestPerSlot(n.election.value.votes, n.decided);
    NextFresh(n, m.next);
    assert Fresh(m);
    Quiet(n, Ran(m, []), slot);
    ReplayAllSteady(m, best, n.election.value.number, order, slot);
    SteadyOn(n, Ran(m, []), CompleteLeaderElection(n, order), slot);
  }

  lemma ElectionSteady(n: Paxos, order: seq<nat>, replay: seq<nat>, slot: nat)
    requires Fresh(n)
    ensures Steady(n, StartElection(n, order, replay), slot)
  {
    var m := Candidate(n, order);
    Quiet(n, Ran(m, []), slot);
    if 1 >= n.quorum {
      CompleteSteady(m, replay, slot);
      SteadyOn(n, Ran(m, []), CompleteLeaderElection(m, replay), slot);
    } else {
      Quiet(n, StartElection(n, order, replay), slot);
    }
  }

  lemma PromiseLeaderSteady(n: Paxos, from: NodeId, number: Ballot, votes: seq<Recovered>, order: seq<nat>, slot: nat)
    requires Fresh(n)
    ensures Steady(n, HandlePromiseLeader(n, from, number, votes, order), slot)
  {
    if n.election.Some? && n.election.value.number == number {
      var e := n.election.value;
      var m := n.(election := Some(e.(promises := e.promises + {from}, votes := e.votes + votes)));
      Quiet(n, Ran(m, []), slot);
      if |m.election.value.promises| >= n.quorum {
        CompleteSteady(m, order, slot);
        SteadyOn(n, Ran(m, []), CompleteLeaderElection(m, order), slot);
      }
    } else {
      Quiet(n, Ran(n, []), slot);
    }
  }

  /** A change to one slot that leaves both records alone. */
  lemma TouchSteady(n: Paxos, at: nat, i: Instance, out: seq<Sent>, slot: nat)
    requires Fresh(n) && at !in n.decided && (forall k :: 0 <= k < |out| ==> !out[k].message.Prepare?)
    requires var o := Lookup(n.instances, at);
      i.number == o.number && i.best == o.best && i.accepts == o.accepts && i.proposer == o.proposer && i.promises == o.promises
    ensures Steady(n, Ran(Put(n, at, i), out), slot)
  {
    if at in n.instances { assert FreshAt(n.instances[at], at, n.next); }
    PutFresh(n, at, i);
    PutPolled(n, at, i, slot);
    Quiet(n, Ran(Put(n, at, i), out), slot);
  }

  /** The acceptor's handlers change neither record. */
  lemma PrepareSteady(n: Paxos, from: NodeId, at: nat, number: Ballot, slot: nat)
    requires Fresh(n)
    ensures Steady(n, HandlePrepare(n, from, at, number), slot)
  {
    var r := HandlePrepare(n, from, at, number);
    if at in n.decided { Idle(n, n, r.out, slot); } else { TouchSteady(n, at, r.node.instances[at], r.out, slot); }
  }

  lemma AcceptSteady(n: Paxos, from: NodeId, at: nat, number: Ballot, value: Pending, slot: nat)
    requires Fresh(n)
    ensures Steady(n, HandleAccept(n, from, at, number, value), slot)
  {
    var r := HandleAccept(n, from, at, number, value);
    if at in n.decided { Idle(n, n, r.out, slot); } else { TouchSteady(n, at, r.node.instances[at], r.out, slot); }
  }

  lemma RoleSteady(n: Paxos, from: NodeId, term: nat, number: Ballot, since: nat, order: seq<nat>, slot: nat)
    requires Fresh(n)
    ensures Steady(n, Ran(HandleHeartbeat(n, from, term), []), slot) && Steady(n, Ran(HandleNackLeader(n, number), []), slot)
    ensures Steady(n, HandlePrepareLeader(n, from, number, since, order), slot)
  {
    Idle(n, HandleHeartbeat(n, from, term), [], slot);
    Idle(n, HandleNackLeader(n, number), [], slot);
    var r := HandlePrepareLeader(n, from, number, since, order);
    Idle(n, r.node, r.out, slot);
  }

  lemma NackSteady(n: Paxos, at: nat, highest: Ballot, slot: nat)
    requires Fresh(n)
    ensures Steady(n, Ran(HandleNack(n, at, highest), []), slot)
  {
    var m := HandleNack(n, at, highest);
    if at in n.instances && at !in n.decided {
      TouchSteady(n, at, m.instances[at], [], slot);
      Idle(Put(n, at, m.instances[at]), m, [], slot);
      SteadyOn(n, Ran(Put(n, at, m.instances[at]), []), Ran(m, []), slot);
    } else if at in n.instances {
      assert FreshAt(n.instances[at], at, n.next);
      Quiet(n, Ran(m, []), slot);
    } else {
      Idle(n, m, [], slot);
    }
  }

  lemma LeaderTickSteady(n: Paxos, c: Clock, slot: nat)
    requires Fresh(n)
    ensures Steady(n, LeaderTick(n, c.beat, c.stalled, c.silent, c.order, c.replay), slot)
  {
    var m := if c.stalled && n.election.Some? then n.(election := None, role := Following(None)) else n;
    var beats := if c.beat && n.role.Leading? then [Sent(Broadcast, Beat(n.role.term))] else [];
    Quiet(n, Ran(m, beats), slot);
    if c.silent && m.role.Following? && (m.role.leader.Some? || m.instances != map[]) {
      ElectionSteady(m, c.order, c.replay, slot);
      SteadyOn(n, Ran(m, beats), StartElection(m, c.order, c.replay), slot);
    }
  }

  lemma ReproposeSteady(n: Paxos, late: nat, loaded: set<nat>, delivered: seq<Decision>, slot: nat)
    requires Good(n, loaded, delivered) && Fresh(n)
    ensures Steady(n, ReproposeForwarded(n, late), slot)
  {
    var k := Min(late, |n.forwarded|);
    var m := n.(forwarded := n.forwarded[k..]);
    ProposeAllSteady(m, n.forwarded[..k], loaded, delivered, slot);
    SteadyFrom(n, m, ReproposeForwarded(n, late), slot);
  }

  lemma RebroadcastSteady(n: Paxos, expired: nat, slot: nat)
    requires Fresh(n)
    ensures Steady(n, Rebroadcast(n, expired), slot)
  {
    Quiet(n, Rebroadcast(n, expired), slot);
  }

  lemma TickSteady(n: Paxos, c: Clock, loaded: set<nat>, delivered: seq<Decision>, slot: nat)
    requires Good(n, loaded, delivered) && Fresh(n)
    ensures Steady(n, OnTick(n, c), slot)
  {
    var a := RetryAll(n, c.retry);
    RetryAllSteady(n, c.retry, loaded, delivered, slot);
    RetryAllKept(n, c.retry, loaded, delivered);
    var b := Rebroadcast(a.node, c.expired);
    RebroadcastSteady(a.node, c.expired, slot);
    RebroadcastKept(a.node, c.expired, loaded, delivered);
    SteadyOn(n, a, b, slot);
    var d := LeaderTick(b.node, c.beat, c.stalled, c.silent, c.order, c.replay);
    LeaderTickSteady(b.node, c, slot);
    LeaderTickKept(b.node, c, loaded, delivered);
    SteadyOn(n, After(a.out, b), d, slot);
    ReproposeSteady(d.node, c.late, loaded, delivered, slot);
    SteadyOn(n, After(a.out + b.out, d), ReproposeForwarded(d.node, c.late), slot);
  }

  /** Numbers of real nodes start at round 1. */
  predicate Numbered(e: Event) { e.Receive? && (e.message.Promise? || e.message.Accepted?) ==> e.message.number.round > 0 }

  /** A Promise, an Accepted or a Decide for the slot. */
  predicate Concerns(e: Event, slot: nat) {
    e.Receive? && (e.message.Promise? || e.message.Accepted? || e.message.Decide?) && e.message.slot == slot
  }

  /** A promise that counts adds its sender and, if it is the highest yet, the vote it reports. */
  lemma PromiseFresh(n: Paxos, from: NodeId, at: nat, number: Ballot, accepted: Option<Vote>)
    requires Fresh(n) && number.round > 0 && Live(n, at, number)
    ensures var i := Tracked(n.instances[at], from, accepted); at < n.next && i.number.round > 0 && FreshAt(i, at, n.next)
  {
    assert FreshAt(n.instances[at], at, n.next);
  }

  lemma PromiseElsewhere(n: Paxos, from: NodeId, at: nat, number: Ballot, accepted: Option<Vote>, slot: nat)
    requires Fresh(n) && number.round > 0 && at != slot
    ensures Steady(n, HandlePromise(n, from, at, number, accepted), slot)
  {
    if Live(n, at, number) {
      var i := Tracked(n.instances[at], from, accepted);
      PromiseFresh(n, from, at, number, accepted);
      PutFresh(n, at, i);
      var m := Put(n, at, i);
      Quiet(n, Ran(m, []), slot);
      if |i.promises| >= n.quorum {
        Phase2Steady(m, at, i, slot);
        Phase2Put(n, at, i);
        SteadyOn(n, Ran(m, []), Phase2(m, at, i), slot);
      }
    } else {
      Idle(n, n, [], slot);
    }
  }

  /** Phase 2 overwrites or removes what the slot held. */
  lemma Phase2Put(n: Paxos, at: nat, i: Instance)
    ensures Phase2(Put(n, at, i), at, i) == Phase2(n, at, i)
  {
    assert Put(n, at, i).instances - {at} == n.instances - {at};
    if Choice(i).Some? { assert Put(Put(n, at, i), at, SelfVoted(i, n.id, Choice(i).value)) == Put(n, at, SelfVoted(i, n.id, Choice(i).value)); }
  }

  lemma AcceptedElsewhere(n: Paxos, from: NodeId, at: nat, number: Ballot, slot: nat)
    requires Fresh(n) && number.round > 0 && at != slot
    ensures Steady(n, HandleAccepted(n, from, at, number), slot)
  {
    var r := HandleAccepted(n, from, at, number);
    if r.Ran? && Live(n, at, number) {
      assert FreshAt(n.instances[at], at, n.next);
      if at in r.node.decided { ConcludeFresh(n, at, r.node.decided[at]); } else { PutFresh(n, at, r.node.instances[at]); }
      Quiet(n, r, slot);
    } else {
      Idle(n, n, [], slot);
    }
  }

  lemma DecideFresh(n: Paxos, at: nat, value: Pending, slot: nat)
    requires Fresh(n)
    ensures Fresh(HandleDecide(n, at, value)) && (at != slot ==> Steady(n, Ran(HandleDecide(n, at, value), []), slot))
  {
    var m := HandleDecide(n, at, value);
    if at !in n.decided {
      var i := Lookup(n.instances, at);
      ConcludeFresh(n, at, value);
      if i.proposed.Some? { ConcludeFresh(n.(lost := n.lost + [i.proposed.value]), at, value); }
      if at != slot { Quiet(n, Ran(m, []), slot); }
    } else {
      Idle(n, n, [], slot);
    }
  }

  lemma MessageSteady(n: Paxos, from: NodeId, m: PaxosMessage, order: seq<nat>, loaded: set<nat>, delivered: seq<Decision>, slot: nat)
    requires Good(n, loaded, delivered) && Fresh(n) && Numbered(Receive(from, m, order)) && !Concerns(Receive(from, m, order), slot)
    ensures Steady(n, HandleMessage(n, from, m, order), slot)
  {
    match m
    case Prepare(at, number) => PrepareSteady(n, from, at, number, slot);
    case Promise(at, number, accepted) => PromiseElsewhere(n, from, at, number, accepted, slot);
    case Accept(at, number, value) => AcceptSteady(n, from, at, number, value, slot);
    case Accepted(at, number, _) => AcceptedElsewhere(n, from, at, number, slot);
    case Decide(at, value) => DecideFresh(n, at, value, slot);
    case NackPrepare(at, _, highest) => NackSteady(n, at, highest, slot);
    case NackAccept(at, _, highest) => NackSteady(n, at, highest, slot);
    case Forwarded(value) => if n.role.Leading? { ProposeSteady(n, value, loaded, delivered, slot); } else { Idle(n, n, [], slot); }
    case Beat(term) => RoleSteady(n, from, term, Ballot(0, 0), 0, [], slot);
    case PrepareLeader(number, since) => RoleSteady(n, from, 0, number, since, order, slot);
    case PromiseLeader(number, votes) => PromiseLeaderSteady(n, from, number, votes, order, slot);
    case NackLeader(_, highest) => RoleSteady(n, from, 0, highest, 0, [], slot);
  }

  lemma SubmitSteady(n: Paxos, value: Pending, loaded: set<nat>, delivered: seq<Decision>, slot: nat)
    requires Good(n, loaded, delivered) && Fresh(n)
    ensures Steady(n, Propose(n, value), slot)
  {
    var r := Propose(n, value);
    if n.role.Following? && n.role.leader.Some? && n.role.leader.value != n.id {
      Idle(n, r.node, r.out, slot);
    } else {
      ProposeSteady(n, value, loaded, delivered, slot);
    }
  }

  /** Every event that does not concern the slot keeps what is on record for it, or asks for promises anew. */
  lemma EventSteady(n: Paxos, e: Event, loaded: set<nat>, delivered: seq<Decision>, slot: nat)
    requires Good(n, loaded, delivered) && Fresh(n) && Numbered(e) && !Concerns(e, slot)
    ensures Steady(n, Handle(n, e), slot)
  {
    match e
    case Receive(from, message, order) => MessageSteady(n, from, message, order, loaded, delivered, slot);
    case Submit(value) => SubmitSteady(n, value, loaded, delivered, slot);
    case Tick(clock) => TickSteady(n, clock, loaded, delivered, slot);
  }

  // ---------- Events that concern the slot ----------

  /** The higher of two reported votes; of equals the first. */
  function Better(best: Option<Vote>, accepted: Option<Vote>): Option<Vote> {
    if accepted.Some? && (best.None? || Over(accepted.value.number, best.value.number)) then accepted else best
  }

  /** The value a message proposes or announces for the slot. */
  predicate Puts(m: PaxosMessage, slot: nat, number: Ballot, value: Pending) { m == Accept(slot, number, value) || m == Decide(slot, value) }

  /** What a Promise for the slot leaves on record, and what it makes the node send. */
  ghost predicate Promised(n: Paxos, r: Reply, slot: nat, number: Ballot, accepted: Option<Vote>)
    requires r.Ran?
  {
    var i := Lookup(n.instances, slot);
    var best := if Live(n, slot, number) then Better(i.best, accepted) else i.best;
    && (slot !in r.node.decided ==> Lookup(r.node.instances, slot).best == best)
    && (forall k :: 0 <= k < |r.out| ==>
          Live(n, slot, number) && (best.Some? || i.proposed.Some?)
          && Puts(r.out[k].message, slot, number, if best.Some? then best.value.value else i.proposed.value))
  }

  lemma PromiseHere(n: Paxos, from: NodeId, slot: nat, number: Ballot, accepted: Option<Vote>, loaded: set<nat>, delivered: seq<Decision>)
    requires Good(n, loaded, delivered) && Fresh(n) && number.round > 0 && HandlePromise(n, from, slot, number, accepted).Ran?
    ensures var r := HandlePromise(n, from, slot, number, accepted); Polled(n, r.node, slot) && Promised(n, r, slot, number, accepted)
  {
    var r := HandlePromise(n, from, slot, number, accepted);
    if Live(n, slot, number) {
      var i := Tracked(n.instances[slot], from, accepted);
      assert i.best == Better(n.instances[slot].best, accepted);
      if |i.promises| >= n.quorum {
        var voted := SelfVoted(i, n.id, Choice(i).value);
        if |voted.accepts| >= n.quorum {
          ConcludePolled(n, slot, Choice(i).value, voted.accepts, number, slot);
        } else {
          PutPolled(n, slot, voted, slot);
        }
      } else {
        PutPolled(n, slot, i, slot);
      }
    }
  }

  /** What an Accepted for the slot leaves on record: one more vote, if it is for the slot's number. */
  lemma AcceptedHere(n: Paxos, from: NodeId, slot: nat, number: Ballot)
    requires HandleAccepted(n, from, slot, number).Ran?
    ensures var r, i := HandleAccepted(n, from, slot, number), Lookup(n.instances, slot);
      && (slot !in r.node.decided ==>
            var o := Lookup(r.node.instances, slot);
            o.best == i.best && o.number == i.number && o.accepts <= i.accepts + (if number == i.number then {from} else {}))
      && (slot in r.node.decided && slot !in n.decided ==> Live(n, slot, number) && |i.accepts + {from}| >= n.quorum)
      && (forall k :: 0 <= k < |r.out| ==> !r.out[k].message.Prepare?) && r.node.id == n.id && r.node.quorum == n.quorum
  {
  }
}
