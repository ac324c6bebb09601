/**
 One Multi-Paxos node as a value, and what each handler does to it. These functions are the
 specification of the methods of `PaxosProtocol`. Clocks are replaced by arguments that say what
 is due, and the order in which a hash map is gone through by an argument that lists its keys.
 */
module PaxosNode {
  import opened Types

  /** Proposal numbers, ordered by round and then by node. */
  datatype Ballot = Ballot(round: nat, node: NodeId)

  predicate Over(a: Ballot, b: Ballot) { a.round > b.round || (a.round == b.round && a.node > b.node) }

  predicate AtLeast(a: Ballot, b: Ballot) { a == b || Over(a, b) }

  predicate OverAll(a: Ballot, b: Option<Ballot>) { b.None? || Over(a, b.value) }

  predicate Reaches(a: Ballot, b: Option<Ballot>) { b.None? || AtLeast(a, b.value) }

  /** The higher of two optional promises. */
  function Floor(a: Option<Ballot>, b: Option<Ballot>): Option<Ballot> {
    if a.None? then b else if b.None? || AtLeast(a.value, b.value) then a else b
  }

  datatype Vote = Vote(number: Ballot, value: Pending)

  datatype Instance = Instance(
    number: Ballot, promises: set<NodeId>, accepts: set<NodeId>, best: Option<Vote>, proposed: Option<Pending>,
    promised: Option<Ballot>, accepted: Option<Vote>, proposer: bool, nacked: bool, nackRound: Option<nat>, retries: nat)

  /** An instance nobody has touched. Its number stands for one that no message of a real node carries. */
  const BLANK := Instance(Ballot(0, 0), {}, {}, None, None, None, None, false, false, None, 0)

  function Lookup(instances: map<nat, Instance>, slot: nat): Instance { if slot in instances then instances[slot] else BLANK }

  datatype Recovered = Recovered(slot: nat, vote: Vote)

  datatype PaxosMessage =
    | Prepare(slot: nat, number: Ballot)
    | Promise(slot: nat, number: Ballot, accepted: Option<Vote>)
    | Accept(slot: nat, number: Ballot, value: Pending)
    | Accepted(slot: nat, number: Ballot, value: Pending)
    | Decide(slot: nat, value: Pending)
    | NackPrepare(slot: nat, number: Ballot, highest: Ballot)
    | NackAccept(slot: nat, number: Ballot, highest: Ballot)
    | Forwarded(value: Pending)
    | Beat(term: nat)
    | PrepareLeader(number: Ballot, since: nat)
    | PromiseLeader(number: Ballot, votes: seq<Recovered>)
    | NackLeader(number: Ballot, highest: Ballot)

  datatype Sent = Sent(target: Target, message: PaxosMessage)

  datatype Leadership = Following(leader: Option<NodeId>) | Running | Leading(term: nat)

  datatype Election = Election(number: Ballot, since: nat, promises: set<NodeId>, votes: seq<Recovered>)

  /** The fields of the protocol object. `pending` waits to be delivered, `recent` is announced again now and then. */
  datatype Paxos = Paxos(
    id: NodeId, quorum: nat,
    instances: map<nat, Instance>, next: nat, decided: map<nat, Pending>, pending: seq<Decision>,
    lost: seq<Pending>, recent: seq<Decision>, forwarded: seq<Pending>,
    role: Leadership, seen: nat, promise: Option<Ballot>, election: Option<Election>)

  /** A handler runs to its end, or stops the node where the source unwraps a missing value. */
  datatype Reply = Ran(node: Paxos, out: seq<Sent>) | Stopped

  function After(out: seq<Sent>, r: Reply): Reply { if r.Ran? then Ran(r.node, out + r.out) else Stopped }

  // ---------- Deciding ----------

  /** A list without the first occurrence of a value. */
  function Without(values: seq<Pending>, value: Pending): seq<Pending> {
    if values == [] then [] else if values[0] == value then values[1..] else [values[0]] + Without(values[1..], value)
  }

  /** Records a decision, emits it, and ends the slot's instance. */
  function Conclude(n: Paxos, slot: nat, value: Pending): Paxos {
    n.(instances := n.instances - {slot}, next := Max(n.next, slot + 1), decided := n.decided[slot := value],
       pending := n.pending + [Decision(slot, value)], recent := n.recent + [Decision(slot, value)],
       forwarded := Without(n.forwarded, value))
  }

  function Put(n: Paxos, slot: nat, i: Instance): Paxos { n.(instances := n.instances[slot := i]) }

  function HandleDecide(n: Paxos, slot: nat, value: Pending): Paxos {
    if slot in n.decided then n
    else
      var i := Lookup(n.instances, slot);
      var beaten := i.proposer && i.proposed.Some? && i.proposed.value != value;
      Conclude(if beaten then n.(lost := n.lost + [i.proposed.value]) else n, slot, value)
  }

  // ---------- Acceptor ----------

  function HandlePrepare(n: Paxos, from: NodeId, slot: nat, number: Ballot): Reply {
    if slot in n.decided then Ran(n, [Sent(Peer(from), Decide(slot, n.decided[slot]))])
    else
      var i := Lookup(n.instances, slot);
      if OverAll(number, i.promised)
      then Ran(Put(n, slot, i.(promised := Some(number))), [Sent(Peer(from), Promise(slot, number, i.accepted))])
      else Ran(Put(n, slot, i), [Sent(Peer(from), NackPrepare(slot, number, i.promised.value))])
  }

  function HandleAccept(n: Paxos, from: NodeId, slot: nat, number: Ballot, value: Pending): Reply {
    if slot in n.decided then Ran(n, [Sent(Peer(from), Decide(slot, n.decided[slot]))])
    else
      var i := Lookup(n.instances, slot);
      var floor := Floor(i.promised, n.promise);
      if Reaches(number, floor)
      then Ran(Put(n, slot, i.(promised := Some(number), accepted := Some(Vote(number, value)))), [Sent(Peer(from), Accepted(slot, number, value))])
      else Ran(Put(n, slot, i), [Sent(Peer(from), NackAccept(slot, number, floor.value))])
  }

  // ---------- Proposer ----------

  /** The value phase 2 proposes: the best vote promised, or the node's own. */
  function Choice(i: Instance): Option<Pending> { if i.best.Some? then Some(i.best.value.value) else i.proposed }

  /** The instance with the node's own vote, if its promise allows. */
  function SelfVoted(i: Instance, id: NodeId, value: Pending): Instance {
    if Reaches(i.number, i.promised)
    then i.(promised := Some(i.number), accepted := Some(Vote(i.number, value)), accepts := i.accepts + {id})
    else i
  }

  /** Phase 2 of instance i: a decision if the node's own vote completes a quorum, a call for votes if not. */
  function Phase2(n: Paxos, slot: nat, i: Instance): Reply {
    if Choice(i).None? then Stopped
    else
      var value := Choice(i).value;
      var voted := SelfVoted(i, n.id, value);
      if |voted.accepts| >= n.quorum then Ran(Conclude(n, slot, value), [Sent(Broadcast, Decide(slot, value))])
      else Ran(Put(n, slot, voted), [Sent(Broadcast, Accept(slot, i.number, value))])
  }

  /** An instance whose own promise has been counted: phase 2 with a quorum, a call for promises if not. */
  function Phase1(n: Paxos, slot: nat, i: Instance): Reply {
    if |i.promises| >= n.quorum then Phase2(n, slot, i) else Ran(Put(n, slot, i), [Sent(Broadcast, Prepare(slot, i.number))])
  }

  /** The instance once a promise has come in; the best vote reported is kept. */
  function Tracked(i: Instance, from: NodeId, accepted: Option<Vote>): Instance {
    i.(promises := i.promises + {from},
       best := if accepted.Some? && (i.best.None? || Over(accepted.value.number, i.best.value.number)) then accepted else i.best)
  }

  /** The slot is open, and the number is the one this node proposes with there. */
  predicate Live(n: Paxos, slot: nat, number: Ballot) {
    slot !in n.decided && slot in n.instances && n.instances[slot].number == number
  }

  function HandlePromise(n: Paxos, from: NodeId, slot: nat, number: Ballot, accepted: Option<Vote>): Reply {
    if !Live(n, slot, number) then Ran(n, [])
    else
      var i := Tracked(n.instances[slot], from, accepted);
      if |i.promises| >= n.quorum then Phase2(n, slot, i) else Ran(Put(n, slot, i), [])
  }

  function HandleAccepted(n: Paxos, from: NodeId, slot: nat, number: Ballot): Reply {
    if !Live(n, slot, number) then Ran(n, [])
    else
      var i := n.instances[slot].(accepts := n.instances[slot].accepts + {from});
      if |i.accepts| < n.quorum then Ran(Put(n, slot, i), [])
      else if i.accepted.None? then Stopped
      else Ran(Conclude(n, slot, i.accepted.value.value), [Sent(Broadcast, Decide(slot, i.accepted.value.value))])
  }

  /** The instance a local proposal starts, with the node's own promise. */
  function Proposing(i: Instance, id: NodeId, value: Pending): Instance {
    i.(number := Ballot(1, id), proposed := Some(value), proposer := true, promised := Some(Ballot(1, id)), promises := i.promises + {id})
  }

  function ProposeFullPaxos(n: Paxos, value: Pending): Reply {
    Phase1(n.(next := n.next + 1), n.next, Proposing(Lookup(n.instances, n.next), n.id, value))
  }

  /** The instance with the node's own vote at a leader's number. */
  function Leadered(i: Instance, id: NodeId, number: Ballot, value: Pending, accepts: set<NodeId>, promises: set<NodeId>): Instance {
    i.(number := number, proposed := Some(value), proposer := true, promised := Some(number), accepted := Some(Vote(number, value)),
       accepts := accepts, promises := promises)
  }

  /** An instance the node has voted for as leader: a decision if that makes a quorum, a call for votes if not. */
  function Press(n: Paxos, slot: nat, i: Instance, value: Pending): Reply {
    if |i.accepts| >= n.quorum then Ran(Conclude(n, slot, value), [Sent(Broadcast, Decide(slot, value))])
    else Ran(Put(n, slot, i), [Sent(Broadcast, Accept(slot, i.number, value))])
  }

  function ProposeFastPath(n: Paxos, value: Pending, term: nat): Reply {
    var i := Lookup(n.instances, n.next);
    Press(n.(next := n.next + 1), n.next, Leadered(i, n.id, Ballot(term, n.id), value, i.accepts + {n.id}, i.promises + {n.id}), value)
  }

  function InnerPropose(n: Paxos, value: Pending): Reply {
    if n.role.Leading? then ProposeFastPath(n, value, n.role.term) else ProposeFullPaxos(n, value)
  }

  function RetryRound(i: Instance): nat {
    Max(Max(if i.promised.Some? then i.promised.value.round else 0, if i.nackRound.Some? then i.nackRound.value else 0), i.number.round) + 1
  }

  /** The instance started over at a higher round; what it has accepted stays. */
  function Retrying(i: Instance, id: NodeId): Instance {
    i.(number := Ballot(RetryRound(i), id), promises := {id}, accepts := {}, best := None, nacked := false, nackRound := None,
       retries := i.retries + 1, promised := Some(Ballot(RetryRound(i), id)))
  }

  function RetryProposal(n: Paxos, slot: nat): Reply {
    if slot !in n.instances || !n.instances[slot].proposer then Ran(n, [])
    else Phase1(n, slot, Retrying(n.instances[slot], n.id))
  }

  predicate WantsRetry(i: Instance, quorum: nat) {
    i.proposer && (i.nacked || (if i.accepts != {} then |i.accepts| else |i.promises|) < quorum)
  }

  function RetryAll(n: Paxos, slots: seq<nat>): Reply {
    if slots == [] then Ran(n, [])
    else
      var r := RetryAll(n, slots[..|slots| - 1]);
      if r.Stopped? then Stopped else After(r.out, RetryProposal(r.node, slots[|slots| - 1]))
  }

  // ---------- Leadership ----------

  function HandleNack(n: Paxos, slot: nat, highest: Ballot): Paxos {
    var m := if slot !in n.instances then n else
      var i := n.instances[slot];
      var round := if i.nackRound.None? || highest.round > i.nackRound.value then Some(highest.round) else i.nackRound;
      Put(n, slot, i.(nacked := true, nackRound := round));
    m.(seen := Max(n.seen, highest.round), role := if n.role.Leading? then Following(None) else n.role)
  }

  function HandleHeartbeat(n: Paxos, from: NodeId, term: nat): Paxos {
    if term < n.seen then n
    else n.(seen := Max(n.seen, term), role := if n.role.Leading? && term <= n.role.term then n.role else Following(Some(from)))
  }

  predicate IsVote(n: Paxos, since: nat, slot: nat) {
    slot >= since && slot !in n.decided && slot in n.instances && n.instances[slot].accepted.Some?
  }

  /** The votes cast for open slots from `since` on, in the order of a list of slots. */
  function VotesIn(n: Paxos, since: nat, order: seq<nat>): seq<Recovered> {
    if order == [] then []
    else
      var s := order[|order| - 1];
      VotesIn(n, since, order[..|order| - 1]) + if IsVote(n, since, s) then [Recovered(s, n.instances[s].accepted.value)] else []
  }

  function HandlePrepareLeader(n: Paxos, from: NodeId, number: Ballot, since: nat, order: seq<nat>): Reply {
    if OverAll(number, n.promise) then
      Ran(n.(promise := Some(number), seen := Max(n.seen, number.round),
             role := if n.role.Leading? then Following(Some(from)) else n.role,
             election := if n.election.Some? && Over(number, n.election.value.number) then None else n.election),
          [Sent(Peer(from), PromiseLeader(number, VotesIn(n, since, order)))])
    else Ran(n, [Sent(Peer(from), NackLeader(number, n.promise.value))])
  }

  function HandleNackLeader(n: Paxos, highest: Ballot): Paxos {
    n.(seen := Max(n.seen, highest.round), election := None, role := if n.role.Running? then Following(None) else n.role)
  }

  /** For each open slot reported, a vote of the highest number; of equals the first. */
  function HighestPerSlot(votes: seq<Recovered>, decided: map<nat, Pending>): map<nat, Vote> {
    if votes == [] then map[]
    else
      var best := HighestPerSlot(votes[..|votes| - 1], decided);
      var v := votes[|votes| - 1];
      if v.slot !in decided && (v.slot !in best || Over(v.vote.number, best[v.slot].number)) then best[v.slot := v.vote] else best
  }

  /** The least bound of some slots that is at least `next`. */
  ghost function Beyond(next: nat, slots: set<nat>): (r: nat)
    ensures next <= r && forall s :: s in slots ==> s < r
    ensures r == next || (0 < r && r - 1 in slots)
  {
    if slots == {} then next
    else
      var s :| s in slots;
      assert forall x :: x in slots ==> x == s || x in slots - {s};
      Max(s + 1, Beyond(next, slots - {s}))
  }

  function ReplayAccept(n: Paxos, slot: nat, number: Ballot, value: Pending): Reply {
    if slot in n.decided then Ran(n, [])
    else Press(n, slot, Leadered(Lookup(n.instances, slot), n.id, number, value, {n.id}, {n.id}), value)
  }

  function ReplayAll(n: Paxos, best: map<nat, Vote>, number: Ballot, order: seq<nat>): (r: Reply)
    ensures r.Ran?
  {
    if order == [] then Ran(n, [])
    else
      var r := ReplayAll(n, best, number, order[..|order| - 1]);
      var s := order[|order| - 1];
      if s in best then After(r.out, ReplayAccept(r.node, s, number, best[s].value)) else r
  }

  /** The winner in office: past every slot in play, before it replays anything. */
  ghost function Elected(n: Paxos): Paxos
    requires n.election.Some?
  {
    var won := n.election.value;
    var best := HighestPerSlot(won.votes, n.decided);
    n.(election := None, next := Beyond(Beyond(n.next, best.Keys), n.instances.Keys),
       role := Leading(won.number.round), seen := Max(n.seen, won.number.round))
  }

  ghost function CompleteLeaderElection(n: Paxos, order: seq<nat>): (r: Reply)
    requires n.election.Some?
    ensures r.Ran?
  {
    ReplayAll(Elected(n), HighestPerSlot(n.election.value.votes, n.decided), n.election.value.number, order)
  }

  /** The lowest slot in play, or the next one. */
  ghost function Lowest(slots: set<nat>, next: nat): (r: nat)
    ensures slots == {} ==> r == next
    ensures slots != {} ==> r in slots && forall s :: s in slots ==> r <= s
  {
    if slots == {} then next
    else
      var s :| s in slots;
      if slots - {s} == {} then
        assert slots == {s};
        s
      else
        var r := Lowest(slots - {s}, next);
        assert forall x :: x in slots ==> x == s || x in slots - {s};
        if s < r then s else r
  }

  /** The node as a candidate for leader, before anything is sent. */
  ghost function Candidate(n: Paxos, order: seq<nat>): Paxos {
    var number := Ballot(n.seen + 1, n.id);
    var since := Lowest(n.instances.Keys, n.next);
    n.(role := Running, seen := n.seen + 1, promise := if OverAll(number, n.promise) then Some(number) else n.promise,
       election := Some(Election(number, since, {n.id}, VotesIn(n, since, order))))
  }

  ghost function StartElection(n: Paxos, order: seq<nat>, replay: seq<nat>): (r: Reply)
    ensures r.Ran?
  {
    var m := Candidate(n, order);
    if 1 >= n.quorum then CompleteLeaderElection(m, replay)
    else Ran(m, [Sent(Broadcast, PrepareLeader(m.election.value.number, m.election.value.since))])
  }

  ghost function HandlePromiseLeader(n: Paxos, from: NodeId, number: Ballot, votes: seq<Recovered>, order: seq<nat>): (r: Reply)
    ensures r.Ran?
  {
    if n.election.None? || n.election.value.number != number then Ran(n, [])
    else
      var e := n.election.value;
      var m := n.(election := Some(e.(promises := e.promises + {from}, votes := e.votes + votes)));
      if |m.election.value.promises| >= n.quorum then CompleteLeaderElection(m, order) else Ran(m, [])
  }

  // ---------- Events ----------

  function HandleForward(n: Paxos, value: Pending): Reply {
    if n.role.Leading? then InnerPropose(n, value) else Ran(n, [])
  }

  function Propose(n: Paxos, value: Pending): Reply {
    if n.role.Following? && n.role.leader.Some? && n.role.leader.value != n.id
    then Ran(n.(forwarded := n.forwarded + [value]), [Sent(Peer(n.role.leader.value), Forwarded(value))])
    else InnerPropose(n, value)
  }

  /** `order` lists the slots of the hash map the handler goes through. */
  ghost function HandleMessage(n: Paxos, from: NodeId, m: PaxosMessage, order: seq<nat>): Reply {
    match m
    case Prepare(slot, number) => HandlePrepare(n, from, slot, number)
    case Promise(slot, number, accepted) => HandlePromise(n, from, slot, number, accepted)
    case Accept(slot, number, value) => HandleAccept(n, from, slot, number, value)
    case Accepted(slot, number, _) => HandleAccepted(n, from, slot, number)
    case Decide(slot, value) => Ran(HandleDecide(n, slot, value), [])
    case NackPrepare(slot, _, highest) => Ran(HandleNack(n, slot, highest), [])
    case NackAccept(slot, _, highest) => Ran(HandleNack(n, slot, highest), [])
    case Forwarded(value) => HandleForward(n, value)
    case Beat(term) => Ran(HandleHeartbeat(n, from, term), [])
    case PrepareLeader(number, since) => HandlePrepareLeader(n, from, number, since, order)
    case PromiseLeader(number, votes) => HandlePromiseLeader(n, from, number, votes, order)
    case NackLeader(_, highest) => Ran(HandleNackLeader(n, highest), [])
  }

  function Rebroadcast(n: Paxos, expired: nat): Reply {
    var recent := n.recent[Min(expired, |n.recent|)..];
    Ran(n.(recent := recent), seq(|recent|, i requires 0 <= i < |recent| => Sent(Broadcast, Decide(recent[i].slot, recent[i].value))))
  }

  /** What the leader's timers bring: a heartbeat, the end of a stalled election, a new election when the leader is silent. */
  ghost function LeaderTick(n: Paxos, beat: bool, stalled: bool, silent: bool, order: seq<nat>, replay: seq<nat>): (r: Reply)
    ensures r.Ran?
  {
    var beats := if beat && n.role.Leading? then [Sent(Broadcast, Beat(n.role.term))] else [];
    var m := if stalled && n.election.Some? then n.(election := None, role := Following(None)) else n;
    if silent && m.role.Following? && (m.role.leader.Some? || m.instances != map[]) then After(beats, StartElection(m, order, replay))
    else Ran(m, beats)
  }

  function ProposeAll(n: Paxos, values: seq<Pending>): Reply {
    if values == [] then Ran(n, [])
    else
      var r := ProposeAll(n, values[..|values| - 1]);
      if r.Stopped? then Stopped else After(r.out, InnerPropose(r.node, values[|values| - 1]))
  }

  /** The oldest `late` values forwarded are proposed here. */
  function ReproposeForwarded(n: Paxos, late: nat): Reply {
    var k := Min(late, |n.forwarded|);
    ProposeAll(n.(forwarded := n.forwarded[k..]), n.forwarded[..k])
  }

  /** What the clock makes due. `retry`, `order` and `replay` list the slots that are gone through. */
  datatype Clock = Clock(
    retry: seq<nat>, expired: nat, beat: bool, stalled: bool, silent: bool, order: seq<nat>, replay: seq<nat>, late: nat)

  ghost function OnTick(n: Paxos, c: Clock): Reply {
    var a := RetryAll(n, c.retry);
    if a.Stopped? then Stopped
    else
      var b := Rebroadcast(a.node, c.expired);
      var d := LeaderTick(b.node, c.beat, c.stalled, c.silent, c.order, c.replay);
      After(a.out + b.out + d.out, ReproposeForwarded(d.node, c.late))
  }

  datatype Event = Receive(from: NodeId, message: PaxosMessage, order: seq<nat>) | Submit(value: Pending) | Tick(clock: Clock)

  ghost function Handle(n: Paxos, e: Event): Reply {
    match e
    case Receive(from, message, order) => HandleMessage(n, from, message, order)
    case Submit(value) => Propose(n, value)
    case Tick(clock) => OnTick(n, clock)
  }

  /** A node as it starts, with the decisions an earlier life has stored. */
  ghost function Started(id: NodeId, total: nat, stored: map<nat, Pending>): Paxos {
    Paxos(id, Quorum(total), map[], Beyond(0, stored.Keys), stored, [], [], [], [], Following(None), 0, None, None)
  }
}
