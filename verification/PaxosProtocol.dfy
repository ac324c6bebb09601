/**
 The Multi-Paxos protocol object. Each method is proved to do to the object's value what the
 function of the same name in `PaxosNode` says. `ok == false` means the node stops: the source
 unwraps a missing value there. A ghost result lists the keys of a hash map in the order in which
 the method went through them.
 */
module PaxosProtocol {
  import opened Types
  import opened PaxosNode

  function Result(ok: bool, node: Paxos, out: seq<Sent>): Reply { if ok then Ran(node, out) else Stopped }

  /** The keys, each once. */
  ghost predicate Lists(order: seq<nat>, keys: set<nat>) {
    && (forall s :: s in order <==> s in keys)
    && (forall i, j :: 0 <= i < j < |order| ==> order[i] != order[j])
  }

  lemma ListsMore(order: seq<nat>, done: set<nat>, s: nat)
    requires Lists(order, done) && s !in done
    ensures Lists(order + [s], done + {s})
  {
  }

  class PaxosProtocol {
    const id: NodeId
    const quorum: nat
    var instances: map<nat, Instance>
    var next: nat
    var decided: map<nat, Pending>
    var pending: seq<Decision>
    var lost: seq<Pending>
    var recent: seq<Decision>
    var forwarded: seq<Pending>
    var role: Leadership
    var seen: nat
    var promise: Option<Ballot>
    var election: Option<Election>

    ghost function Value(): Paxos
      reads this
    {
      Paxos(id, quorum, instances, next, decided, pending, lost, recent, forwarded, role, seen, promise, election)
    }

    constructor (id: NodeId, total: nat)
      ensures Value() == Started(id, total, map[])
    {
      this.id, quorum := id, Quorum(total);
      instances, next, decided, pending, lost, forwarded, recent := map[], 0, map[], [], [], [], [];
      role, seen, promise, election := Following(None), 0, None, None;
    }

    /** Takes in the stored decisions of an earlier life, before anything else happens. */
    method InitializeFromDecisions(stored: map<nat, Pending>, ghost total: nat)
      requires Value() == Started(id, total, map[])
      modifies `decided, `next
      ensures Value() == Started(id, total, stored)
    {
      var rest := stored.Keys;
      while rest != {}
        invariant rest <= stored.Keys && decided == map s | s in stored && s !in rest :: stored[s]
        invariant (forall s :: s in decided ==> s < next) && (next == 0 || next - 1 in decided)
        decreases rest
      {
        var s: nat :| s in rest;
        decided := decided[s := stored[s]];
        if s >= next { next := s + 1; }
        rest := rest - {s};
      }
      assert decided == stored;
      BeyondIs(0, stored.Keys, next);
    }

    // ----- Deciding -----

    method AckDecidedValue(value: Pending)
      modifies `forwarded
      ensures forwarded == Without(old(forwarded), value)
    {
      var i := 0;
      while i < |forwarded| && forwarded[i] != value
        invariant i <= |forwarded| && forwarded == old(forwarded) && value !in forwarded[..i]
      {
        i := i + 1;
      }
      WithoutFrom(forwarded, value, i);
      if i < |forwarded| { forwarded := forwarded[..i] + forwarded[i + 1..]; }
    }

    method Record(slot: nat, value: Pending)
      modifies `decided, `next, `recent
      ensures decided == old(decided)[slot := value] && next == Max(old(next), slot + 1) && recent == old(recent) + [Decision(slot, value)]
    {
      decided := decided[slot := value];
      recent := recent + [Decision(slot, value)];
      if slot >= next { next := slot + 1; }
    }

    method Conclude(slot: nat, value: Pending)
      modifies `decided, `next, `pending, `forwarded, `instances, `recent
      ensures Value() == PaxosNode.Conclude(old(Value()), slot, value)
    {
      Record(slot, value);
      AckDecidedValue(value);
      pending := pending + [Decision(slot, value)];
      instances := instances - {slot};
    }

    method HandleDecide(slot: nat, value: Pending)
      modifies `decided, `next, `pending, `forwarded, `instances, `recent, `lost
      ensures Value() == PaxosNode.HandleDecide(old(Value()), slot, value)
    {
      if slot in decided { return; }
      if slot in instances && instances[slot].proposer && instances[slot].proposed.Some? && instances[slot].proposed.value != value {
        lost := lost + [instances[slot].proposed.value];
      }
      Conclude(slot, value);
    }

    // ----- Acceptor -----

    method HandlePrepare(from: NodeId, slot: nat, number: Ballot) returns (out: seq<Sent>)
      modifies `instances
      ensures Ran(Value(), out) == PaxosNode.HandlePrepare(old(Value()), from, slot, number)
    {
      if slot in decided {
        return [Sent(Peer(from), Decide(slot, decided[slot]))];
      }
      var i := Lookup(instances, slot);
      if OverAll(number, i.promised) {
        instances := instances[slot := i.(promised := Some(number))];
        out := [Sent(Peer(from), Promise(slot, number, i.accepted))];
      } else {
        instances := instances[slot := i];
        out := [Sent(Peer(from), NackPrepare(slot, number, i.promised.value))];
      }
    }

    method HandleAccept(from: NodeId, slot: nat, number: Ballot, value: Pending) returns (out: seq<Sent>)
      modifies `instances
      ensures Ran(Value(), out) == PaxosNode.HandleAccept(old(Value()), from, slot, number, value)
    {
      if slot in decided {
        return [Sent(Peer(from), Decide(slot, decided[slot]))];
      }
      var i := Lookup(instances, slot);
      var floor := if i.promised.None? then promise else if promise.None? || AtLeast(i.promised.value, promise.value) then i.promised else promise;
      if floor.None? || AtLeast(number, floor.value) {
        instances := instances[slot := i.(promised := Some(number), accepted := Some(Vote(number, value)))];
        out := [Sent(Peer(from), Accepted(slot, number, value))];
      } else {
        instances := instances[slot := i];
        out := [Sent(Peer(from), NackAccept(slot, number, floor.value))];
      }
    }

    // ----- Proposer -----

    method StartPhase2(slot: nat) returns (ok: bool, out: seq<Sent>)
      requires slot in instances
      modifies `decided, `next, `pending, `forwarded, `instances, `recent
      ensures Result(ok, Value(), out) == Phase2(old(Value()), slot, old(instances)[slot])
    {
      var i := instances[slot];
      if i.best.None? && i.proposed.None? { return false, []; }
      var value := if i.best.Some? then i.best.value.value else i.proposed.value;
      if i.promised.None? || AtLeast(i.number, i.promised.value) {
        i := i.(promised := Some(i.number), accepted := Some(Vote(i.number, value)), accepts := i.accepts + {id});
      }
      ok := true;
      if |i.accepts| >= quorum {
        Conclude(slot, value);
        out := [Sent(Broadcast, Decide(slot, value))];
      } else {
        instances := instances[slot := i];
        out := [Sent(Broadcast, Accept(slot, i.number, value))];
      }
    }

    /** Phase 2 of an instance just stored. */
    method EnterPhase2(slot: nat, i: Instance) returns (ok: bool, out: seq<Sent>)
      modifies `decided, `next, `pending, `forwarded, `instances, `recent
      ensures Result(ok, Value(), out) == Phase2(old(Value()), slot, i)
    {
      instances := instances[slot := i];
      ghost var put := Value();
      ok, out := StartPhase2(slot);
      Phase2Alike(old(Value()), put, slot, i);
    }

    method HandlePromise(from: NodeId, slot: nat, number: Ballot, accepted: Option<Vote>) returns (ok: bool, out: seq<Sent>)
      modifies `decided, `next, `pending, `forwarded, `instances, `recent
      ensures Result(ok, Value(), out) == PaxosNode.HandlePromise(old(Value()), from, slot, number, accepted)
    {
      ok, out := true, [];
      if slot in decided || slot !in instances || instances[slot].number != number { return; }
      var i := instances[slot];
      i := i.(promises := i.promises + {from});
      if accepted.Some? && (i.best.None? || Over(accepted.value.number, i.best.value.number)) {
        i := i.(best := accepted);
      }
      assert i == Tracked(instances[slot], from, accepted);
      if |i.promises| >= quorum {
        ok, out := EnterPhase2(slot, i);
      } else {
        instances := instances[slot := i];
      }
    }

    method HandleAccepted(from: NodeId, slot: nat, number: Ballot) returns (ok: bool, out: seq<Sent>)
      modifies `decided, `next, `pending, `forwarded, `instances, `recent
      ensures Result(ok, Value(), out) == PaxosNode.HandleAccepted(old(Value()), from, slot, number)
    {
      ok, out := true, [];
      if slot in decided || slot !in instances || instances[slot].number != number { return; }
      var i := instances[slot];
      i := i.(accepts := i.accepts + {from});
      if |i.accepts| < quorum {
        instances := instances[slot := i];
      } else if i.accepted.None? {
        ok := false;
      } else {
        var value := i.accepted.value.value;
        Conclude(slot, value);
        out := [Sent(Broadcast, Decide(slot, value))];
      }
    }

    method ProposeFullPaxos(value: Pending) returns (ok: bool, out: seq<Sent>)
      modifies `decided, `next, `pending, `forwarded, `instances, `recent
      ensures Result(ok, Value(), out) == PaxosNode.ProposeFullPaxos(old(Value()), value)
    {
      var slot := next;
      next := next + 1;
      var number := Ballot(1, id);
      var i := Lookup(instances, slot);
      i := i.(number := number, proposed := Some(value), proposer := true, promised := Some(number), promises := i.promises + {id});
      if |i.promises| >= quorum {
        ok, out := EnterPhase2(slot, i);
      } else {
        instances := instances[slot := i];
        ok, out := true, [Sent(Broadcast, Prepare(slot, number))];
      }
    }

    /** An instance the node has voted for as leader. */
    method Press(slot: nat, i: Instance, value: Pending) returns (out: seq<Sent>)
      modifies `decided, `next, `pending, `forwarded, `instances, `recent
      ensures Ran(Value(), out) == PaxosNode.Press(old(Value()), slot, i, value)
    {
      if |i.accepts| >= quorum {
        Conclude(slot, value);
        out := [Sent(Broadcast, Decide(slot, value))];
      } else {
        instances := instances[slot := i];
        out := [Sent(Broadcast, Accept(slot, i.number, value))];
      }
    }

    method ProposeFastPath(value: Pending, term: nat) returns (out: seq<Sent>)
      modifies `decided, `next, `pending, `forwarded, `instances, `recent
      ensures Ran(Value(), out) == PaxosNode.ProposeFastPath(old(Value()), value, term)
    {
      var slot := next;
      next := next + 1;
      var number := Ballot(term, id);
      var i := Lookup(instances, slot);
      i := i.(number := number, proposed := Some(value), proposer := true, promised := Some(number), accepted := Some(Vote(number, value)),
              accepts := i.accepts + {id}, promises := i.promises + {id});
      out := Press(slot, i, value);
    }

    method InnerPropose(value: Pending) returns (ok: bool, out: seq<Sent>)
      modifies `decided, `next, `pending, `forwarded, `instances, `recent
      ensures Result(ok, Value(), out) == PaxosNode.InnerPropose(old(Value()), value)
    {
      if role.Leading? {
        out := ProposeFastPath(value, role.term);
        ok := true;
      } else {
        ok, out := ProposeFullPaxos(value);
      }
    }

    method RetryProposal(slot: nat) returns (ok: bool, out: seq<Sent>)
      modifies `decided, `next, `pending, `forwarded, `instances, `recent
      ensures Result(ok, Value(), out) == PaxosNode.RetryProposal(old(Value()), slot)
    {
      if slot !in instances || !instances[slot].proposer { return true, []; }
      var i := instances[slot];
      var acceptorRound := if i.promised.Some? then i.promised.value.round else 0;
      var nackRound := if i.nackRound.Some? then i.nackRound.value else 0;
      var number := Ballot(Max(Max(acceptorRound, nackRound), i.number.round) + 1, id);
      i := i.(number := number, promises := {id}, accepts := {}, best := None, nacked := false, nackRound := None,
              retries := i.retries + 1, promised := Some(number));
      if |i.promises| >= quorum {
        ok, out := EnterPhase2(slot, i);
      } else {
        instances := instances[slot := i];
        ok, out := true, [Sent(Broadcast, Prepare(slot, number))];
      }
    }

    method RetryAll(due: set<nat>) returns (ok: bool, out: seq<Sent>, ghost order: seq<nat>)
      modifies `decided, `next, `pending, `forwarded, `instances, `recent
      ensures Result(ok, Value(), out) == PaxosNode.RetryAll(old(Value()), order)
      ensures ok ==> Lists(order, set s | s in due && s in old(instances) && WantsRetry(old(instances)[s], quorum))
    {
      ok, out, order := true, [], [];
      var rest := set s | s in due && s in instances && WantsRetry(instances[s], quorum);
      ghost var all, done: set<nat> := rest, {};
      while rest != {}
        invariant all == rest + done && rest !! done && Lists(order, done)
        invariant Ran(Value(), out) == PaxosNode.RetryAll(old(Value()), order)
        decreases rest
      {
        var s: nat :| s in rest;
        ListsMore(order, done, s);
        assert (order + [s])[..|order|] == order;
        rest, done, order := rest - {s}, done + {s}, order + [s];
        var more;
        ok, more := RetryProposal(s);
        if !ok { return; }
        out := out + more;
      }
    }

    // ----- Leadership -----

    method StepDown(leader: Option<NodeId>)
      modifies `role
      ensures role == Following(leader)
    {
      role := Following(leader);
    }

    method HandleNack(slot: nat, highest: Ballot)
      modifies `instances, `seen, `role
      ensures Value() == PaxosNode.HandleNack(old(Value()), slot, highest)
    {
      if slot in instances {
        var i := instances[slot];
        i := i.(nacked := true);
        if i.nackRound.None? || highest.round > i.nackRound.value { i := i.(nackRound := Some(highest.round)); }
        instances := instances[slot := i];
      }
      seen := Max(seen, highest.round);
      if role.Leading? { StepDown(None); }
    }

    method HandleHeartbeat(from: NodeId, term: nat)
      modifies `seen, `role
      ensures Value() == PaxosNode.HandleHeartbeat(old(Value()), from, term)
    {
      if term < seen { return; }
      seen := Max(seen, term);
      match role {
        case Leading(mine) => if term > mine { StepDown(Some(from)); }
        case _ => role := Following(Some(from));
      }
    }

    method CollectAccepted(since: nat) returns (votes: seq<Recovered>, ghost order: seq<nat>)
      ensures votes == VotesIn(Value(), since, order) && Lists(order, instances.Keys)
    {
      votes, order := [], [];
      var rest := instances.Keys;
      ghost var done: set<nat> := {};
      while rest != {}
        invariant instances.Keys == rest + done && rest !! done && Lists(order, done)
        invariant votes == VotesIn(Value(), since, order)
        decreases rest
      {
        var s: nat :| s in rest;
        ListsMore(order, done, s);
        assert (order + [s])[..|order|] == order;
        rest, done, order := rest - {s}, done + {s}, order + [s];
        if s >= since && s !in decided && instances[s].accepted.Some? {
          votes := votes + [Recovered(s, instances[s].accepted.value)];
        }
      }
    }

    method LowestSlot() returns (low: nat)
      ensures low == Lowest(instances.Keys, next)
    {
      if instances == map[] { return next; }
      var rest := instances.Keys;
      low :| low in rest;
      rest := rest - {low};
      while rest != {}
        invariant rest <= instances.Keys && low in instances
        invariant forall s :: s in instances && s !in rest ==> low <= s
        decreases rest
      {
        var s: nat :| s in rest;
        rest := rest - {s};
        if s < low { low := s; }
      }
      LowestIs(instances.Keys, next, low);
    }

    method HandlePrepareLeader(from: NodeId, number: Ballot, since: nat) returns (out: seq<Sent>, ghost order: seq<nat>)
      modifies `promise, `seen, `role, `election
      ensures Ran(Value(), out) == PaxosNode.HandlePrepareLeader(old(Value()), from, number, since, order)
      ensures OverAll(number, old(promise)) ==> Lists(order, instances.Keys)
    {
      order := [];
      if promise.None? || Over(number, promise.value) {
        var votes;
        votes, order := CollectAccepted(since);
        promise := Some(number);
        seen := Max(seen, number.round);
        if role.Leading? { StepDown(Some(from)); }
        if election.Some? && Over(number, election.value.number) { election := None; }
        out := [Sent(Peer(from), PromiseLeader(number, votes))];
      } else {
        out := [Sent(Peer(from), NackLeader(number, promise.value))];
      }
    }

    method HandleNackLeader(highest: Ballot)
      modifies `seen, `election, `role
      ensures Value() == PaxosNode.HandleNackLeader(old(Value()), highest)
    {
      seen := Max(seen, highest.round);
      election := None;
      if role.Running? { role := Following(None); }
    }

    method Highest(votes: seq<Recovered>) returns (best: map<nat, Vote>)
      ensures best == HighestPerSlot(votes, decided)
    {
      best := map[];
      for k := 0 to |votes|
        invariant best == HighestPerSlot(votes[..k], decided)
      {
        var v := votes[k];
        assert votes[..k + 1][..k] == votes[..k];
        if v.slot !in decided && (v.slot !in best || Over(v.vote.number, best[v.slot].number)) {
          best := best[v.slot := v.vote];
        }
      }
      assert votes[..|votes|] == votes;
    }

    /** Moves the next slot past all of these. */
    method Pass(slots: set<nat>)
      modifies `next
      ensures next == Beyond(old(next), slots)
    {
      var rest := slots;
      while rest != {}
        invariant rest <= slots && old(next) <= next && forall s :: s in slots && s !in rest ==> s < next
        invariant next == old(next) || (0 < next && next - 1 in slots)
        decreases rest
      {
        var s: nat :| s in rest;
        rest := rest - {s};
        if s + 1 > next { next := s + 1; }
      }
      BeyondIs(old(next), slots, next);
    }

    method ReplayAccept(slot: nat, number: Ballot, value: Pending) returns (out: seq<Sent>)
      modifies `decided, `next, `pending, `forwarded, `instances, `recent
      ensures Ran(Value(), out) == PaxosNode.ReplayAccept(old(Value()), slot, number, value)
    {
      if slot in decided { return []; }
      var i := Lookup(instances, slot);
      i := i.(number := number, proposed := Some(value), proposer := true, promised := Some(number), accepted := Some(Vote(number, value)),
              accepts := {id}, promises := {id});
      out := Press(slot, i, value);
    }

    method ReplayAll(best: map<nat, Vote>, number: Ballot) returns (out: seq<Sent>, ghost order: seq<nat>)
      modifies `decided, `next, `pending, `forwarded, `instances, `recent
      ensures Ran(Value(), out) == PaxosNode.ReplayAll(old(Value()), best, number, order) && Lists(order, best.Keys)
    {
      out, order := [], [];
      var rest := best.Keys;
      ghost var done: set<nat> := {};
      while rest != {}
        invariant best.Keys == rest + done && rest !! done && Lists(order, done)
        invariant Ran(Value(), out) == PaxosNode.ReplayAll(old(Value()), best, number, order)
        decreases rest
      {
        var s: nat :| s in rest;
        ListsMore(order, done, s);
        assert (order + [s])[..|order|] == order;
        rest, done, order := rest - {s}, done + {s}, order + [s];
        var more := ReplayAccept(s, number, best[s].value);
        out := out + more;
      }
    }

    method CompleteLeaderElection() returns (out: seq<Sent>, ghost order: seq<nat>)
      requires election.Some?
      modifies `decided, `next, `pending, `forwarded, `instances, `recent, `role, `seen, `election
      ensures Ran(Value(), out) == PaxosNode.CompleteLeaderElection(old(Value()), order)
      ensures Lists(order, HighestPerSlot(old(election).value.votes, old(decided)).Keys)
    {
      var won := election.value;
      election := None;
      var best := Highest(won.votes);
      Pass(best.Keys);
      Pass(instances.Keys);
      role := Leading(won.number.round);
      seen := Max(seen, won.number.round);
      assert Value() == Elected(old(Value()));
      out, order := ReplayAll(best, won.number);
    }

    method StartElection() returns (out: seq<Sent>, ghost order: seq<nat>, ghost replay: seq<nat>)
      modifies `decided, `next, `pending, `forwarded, `instances, `recent, `role, `seen, `election, `promise
      ensures Ran(Value(), out) == PaxosNode.StartElection(old(Value()), order, replay) && Lists(order, old(instances).Keys)
    {
      var number := Ballot(seen + 1, id);
      var since := LowestSlot();
      var votes;
      votes, order := CollectAccepted(since);
      replay := [];
      role := Running;
      election := Some(Election(number, since, {id}, votes));
      if promise.None? || Over(number, promise.value) { promise := Some(number); }
      seen := seen + 1;
      assert Value() == Candidate(old(Value()), order);
      if 1 >= quorum {
        out, replay := CompleteLeaderElection();
      } else {
        out := [Sent(Broadcast, PrepareLeader(number, since))];
      }
    }

    method HandlePromiseLeader(from: NodeId, number: Ballot, votes: seq<Recovered>) returns (out: seq<Sent>, ghost order: seq<nat>)
      modifies `decided, `next, `pending, `forwarded, `instances, `recent, `role, `seen, `election
      ensures Ran(Value(), out) == PaxosNode.HandlePromiseLeader(old(Value()), from, number, votes, order)
    {
      out, order := [], [];
      if election.None? || election.value.number != number { return; }
      election := Some(election.value.(promises := election.value.promises + {from}, votes := election.value.votes + votes));
      if |election.value.promises| >= quorum { out, order := CompleteLeaderElection(); }
    }

    // ----- Events -----

    method HandleForward(value: Pending) returns (ok: bool, out: seq<Sent>)
      modifies `decided, `next, `pending, `forwarded, `instances, `recent
      ensures Result(ok, Value(), out) == PaxosNode.HandleForward(old(Value()), value)
    {
      ok, out := true, [];
      if role.Leading? { ok, out := InnerPropose(value); }
    }

    method HandleSlotMessage(from: NodeId, m: PaxosMessage) returns (ok: bool, out: seq<Sent>)
      requires m.Prepare? || m.Promise? || m.Accept? || m.Accepted? || m.Decide? || m.Forwarded?
      modifies `decided, `next, `pending, `forwarded, `instances, `recent, `lost
      ensures Result(ok, Value(), out) == PaxosNode.HandleMessage(old(Value()), from, m, [])
    {
      ok, out := true, [];
      match m
      case Prepare(slot, number) => out := HandlePrepare(from, slot, number);
      case Promise(slot, number, accepted) => ok, out := HandlePromise(from, slot, number, accepted);
      case Accept(slot, number, value) => out := HandleAccept(from, slot, number, value);
      case Accepted(slot, number, _) => ok, out := HandleAccepted(from, slot, number);
      case Decide(slot, value) => HandleDecide(slot, value);
      case Forwarded(value) => ok, out := HandleForward(value);
    }

    method HandleMessage(from: NodeId, m: PaxosMessage) returns (ok: bool, out: seq<Sent>, ghost order: seq<nat>)
      modifies this
      ensures Result(ok, Value(), out) == PaxosNode.HandleMessage(old(Value()), from, m, order)
    {
      ok, out, order := true, [], [];
      match m
      case NackPrepare(slot, _, highest) => HandleNack(slot, highest);
      case NackAccept(slot, _, highest) => HandleNack(slot, highest);
      case Beat(term) => HandleHeartbeat(from, term);
      case PrepareLeader(number, since) => out, order := HandlePrepareLeader(from, number, since);
      case PromiseLeader(number, votes) => out, order := HandlePromiseLeader(from, number, votes);
      case NackLeader(_, highest) => HandleNackLeader(highest);
      case _ => ok, out := HandleSlotMessage(from, m);
    }

    method Propose(value: Pending) returns (ok: bool, out: seq<Sent>)
      modifies this
      ensures Result(ok, Value(), out) == PaxosNode.Propose(old(Value()), value)
    {
      if role.Following? && role.leader.Some? && role.leader.value != id {
        forwarded := forwarded + [value];
        ok, out := true, [Sent(Peer(role.leader.value), Forwarded(value))];
      } else {
        ok, out := InnerPropose(value);
      }
    }

    /** Announces recent decisions again; the oldest `expired` of them are forgotten. */
    method Rebroadcast(expired: nat) returns (out: seq<Sent>)
      modifies `recent
      ensures Ran(Value(), out) == PaxosNode.Rebroadcast(old(Value()), expired)
    {
      recent := recent[Min(expired, |recent|)..];
      var ds := recent;
      out := seq(|ds|, i requires 0 <= i < |ds| => Sent(Broadcast, Decide(ds[i].slot, ds[i].value)));
    }

    method ReproposeForwarded(late: nat) returns (ok: bool, out: seq<Sent>)
      modifies `decided, `next, `pending, `forwarded, `instances, `recent
      ensures Result(ok, Value(), out) == PaxosNode.ReproposeForwarded(old(Value()), late)
    {
      ok, out := true, [];
      var k := Min(late, |forwarded|);
      var values := forwarded[..k];
      forwarded := forwarded[k..];
      ghost var n := Value();
      for i := 0 to |values|
        invariant Ran(Value(), out) == ProposeAll(n, values[..i])
      {
        assert values[..i + 1][..i] == values[..i];
        var more;
        ok, more := InnerPropose(values[i]);
        if !ok {
          StaysStopped(n, values, i + 1);
          return;
        }
        out := out + more;
      }
      assert values[..|values|] == values;
      ok := true;
    }

    method LeaderTick(beat: bool, stalled: bool, silent: bool) returns (out: seq<Sent>, ghost order: seq<nat>, ghost replay: seq<nat>)
      modifies `decided, `next, `pending, `forwarded, `instances, `recent, `role, `seen, `election, `promise
      ensures Ran(Value(), out) == PaxosNode.LeaderTick(old(Value()), beat, stalled, silent, order, replay)
    {
      out, order, replay := [], [], [];
      if beat && role.Leading? { out := [Sent(Broadcast, Beat(role.term))]; }
      if stalled && election.Some? { election, role := None, Following(None); }
      if silent && role.Following? && (role.leader.Some? || instances != map[]) {
        var more;
        more, order, replay := StartElection();
        out := out + more;
      }
    }

    /** What the clock says: slots to retry, decisions to forget, the leader's timers, values forwarded too long ago. */
    method OnTick(due: set<nat>, expired: nat, beat: bool, stalled: bool, silent: bool, late: nat)
        returns (ok: bool, out: seq<Sent>, ghost clock: Clock)
      modifies this
      ensures Result(ok, Value(), out) == PaxosNode.OnTick(old(Value()), clock)
      ensures clock == Clock(clock.retry, expired, beat, stalled, silent, clock.order, clock.replay, late)
      ensures ok ==> Lists(clock.retry, set s | s in due && s in old(instances) && WantsRetry(old(instances)[s], quorum))
    {
      ghost var retry, order, replay: seq<nat> := [], [], [];
      ok, out, retry := RetryAll(due);
      clock := Clock(retry, expired, beat, stalled, silent, order, replay, late);
      if !ok { return; }
      var again := Rebroadcast(expired);
      var led;
      led, order, replay := LeaderTick(beat, stalled, silent);
      clock := Clock(retry, expired, beat, stalled, silent, order, replay, late);
      var proposed;
      ok, proposed := ReproposeForwarded(late);
      out := out + again + led + proposed;
    }

    method TakeDecisions() returns (ds: seq<Decision>)
      modifies `pending
      ensures Value() == old(Value()).(pending := []) && ds == old(pending)
    {
      ds := pending;
      pending := [];
    }
  }

  lemma BeyondIs(next: nat, slots: set<nat>, r: nat)
    requires next <= r && (forall s :: s in slots ==> s < r) && (r == next || (0 < r && r - 1 in slots))
    ensures r == Beyond(next, slots)
  {
  }

  lemma LowestIs(slots: set<nat>, next: nat, r: nat)
    requires r in slots && forall s :: s in slots ==> r <= s
    ensures r == Lowest(slots, next)
  {
  }

  lemma Phase2Alike(n: Paxos, put: Paxos, slot: nat, i: Instance)
    requires put == Put(n, slot, i)
    ensures Phase2(put, slot, i) == Phase2(n, slot, i)
  {
    assert n.instances[slot := i] - {slot} == n.instances - {slot};
    if Choice(i).Some? {
      var voted := SelfVoted(i, n.id, Choice(i).value);
      assert n.instances[slot := i][slot := voted] == n.instances[slot := voted];
    }
  }

  lemma {:induction false} WithoutFrom(values: seq<Pending>, value: Pending, i: nat)
    requires i <= |values| && value !in values[..i] && (i == |values| || values[i] == value)
    ensures Without(values, value) == if i == |values| then values else values[..i] + values[i + 1..]
    decreases |values|
  {
    if i > 0 {
      assert values[0] in values[..i];
      assert values[1..][..i - 1] == values[..i][1..];
      WithoutFrom(values[1..], value, i - 1);
    }
  }

  lemma {:induction false} StaysStopped(n: Paxos, values: seq<Pending>, i: nat)
    requires i <= |values| && ProposeAll(n, values[..i]).Stopped?
    ensures ProposeAll(n, values).Stopped?
    decreases |values| - i
  {
    if i == |values| {
      assert values[..i] == values;
    } else {
      assert values[..i + 1][..i] == values[..i];
      StaysStopped(n, values, i + 1);
    }
  }
}
