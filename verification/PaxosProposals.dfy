/**
 What a Multi-Paxos node proposes and decides, said of the messages it has sent and received: phase 2
 carries the highest vote reported, and a decision has a quorum of votes behind it.
 */
module PaxosProposals {
  import opened Types
  import opened PaxosNode
  import opened PaxosTheorems
  import opened PaxosRecords

  // ---------- Runs ----------

  ghost predicate AllNumbered(steps: seq<Step>) { forall i :: 0 <= i < |steps| && steps[i].Act? ==> Numbered(steps[i].event) }

  lemma EventFresh(n: Paxos, e: Event, loaded: set<nat>, delivered: seq<Decision>)
    requires Good(n, loaded, delivered) && Fresh(n) && Numbered(e) && Handle(n, e).Ran?
    ensures Fresh(Handle(n, e).node)
  {
    var slot: nat := if e.Receive? && (e.message.Promise? || e.message.Accepted? || e.message.Decide?) then e.message.slot + 1 else 0;
    EventSteady(n, e, loaded, delivered, slot);
  }

  lemma {:induction false} FreshRun(worlds: seq<World>, steps: seq<Step>, j: nat)
    requires Run(worlds, steps) && AllNumbered(steps) && j < |worlds|
    ensures Fresh(worlds[j].node) && GoodWorld(worlds[j])
  {
    if j == 0 {
      RunGood(worlds, steps, 0);
    } else {
      FreshRun(worlds, steps, j - 1);
      StepFresh(worlds[j - 1], steps[j - 1], worlds[j]);
    }
  }

  lemma StepFresh(a: World, step: Step, b: World)
    requires GoodWorld(a) && Fresh(a.node) && Next(a, step, b) && (step.Act? ==> Numbered(step.event))
    ensures Fresh(b.node) && GoodWorld(b)
  {
    NextGood(a, step, b);
    if step.Act? { EventFresh(a.node, step.event, a.loaded, a.delivered); }
  }

  /** The messages of step j. */
  ghost function OutOf(worlds: seq<World>, steps: seq<Step>, j: nat): seq<Sent>
    requires j < |steps| <= |worlds|
  {
    if steps[j].Act? && Handle(worlds[j].node, steps[j].event).Ran? then Handle(worlds[j].node, steps[j].event).out else []
  }

  /** Step j hands the node a Promise for the number it has for the slot, which reports vote v. */
  ghost predicate Told(worlds: seq<World>, steps: seq<Step>, j: nat, slot: nat, v: Vote) {
    && j < |steps| <= |worlds| && steps[j].Act? && steps[j].event.Receive? && steps[j].event.message.Promise?
    && var m := steps[j].event.message; m.slot == slot && m.accepted == Some(v) && Live(worlds[j].node, slot, m.number)
  }

  /** The vote is one of the highest told in steps a to k - 1, or none was. */
  ghost predicate HighestTold(worlds: seq<World>, steps: seq<Step>, a: nat, k: nat, slot: nat, best: Option<Vote>) {
    && (best.Some? ==> exists j :: a <= j < k && Told(worlds, steps, j, slot, best.value))
    && (forall j, v :: a <= j < k && Told(worlds, steps, j, slot, v) ==> best.Some? && AtLeast(best.value.number, v.number))
  }

  /** Which steps ask for promises for the slot. */
  ghost function Asks(worlds: seq<World>, steps: seq<Step>, slot: nat): (r: seq<bool>)
    requires |steps| <= |worlds|
    ensures |r| == |steps|
  {
    seq(|steps|, j requires 0 <= j < |steps| => SentPrepare(OutOf(worlds, steps, j), slot))
  }

  /** The step before a is the last before k to ask; if a is 0, none does. */
  ghost predicate LastAsked(asks: seq<bool>, a: nat, k: nat) {
    a <= k <= |asks| && (a == 0 || asks[a - 1]) && forall j :: a <= j < k ==> !asks[j]
  }

  /** There always is such a step. */
  lemma {:induction false} AskedSometime(asks: seq<bool>, k: nat) returns (a: nat)
    requires k <= |asks|
    ensures LastAsked(asks, a, k)
  {
    if k == 0 || asks[k - 1] { a := k; } else { a := AskedSometime(asks, k - 1); }
  }

  lemma ToldMore(worlds: seq<World>, steps: seq<Step>, a: nat, k: nat, slot: nat, best: Option<Vote>, accepted: Option<Vote>)
    requires HighestTold(worlds, steps, a, k, slot, best) && a <= k < |steps|
    requires forall v :: Told(worlds, steps, k, slot, v) <==> accepted == Some(v)
    ensures HighestTold(worlds, steps, a, k + 1, slot, Better(best, accepted))
  {
    if accepted.Some? && Better(best, accepted) == accepted { assert Told(worlds, steps, k, slot, accepted.value); }
  }

  /** One step of the record. */
  lemma BestStep(worlds: seq<World>, steps: seq<Step>, k: nat, slot: nat) returns (accepted: Option<Vote>)
    requires Run(worlds, steps) && AllNumbered(steps) && k < |steps| && slot !in worlds[k + 1].node.decided
    ensures slot !in worlds[k].node.decided
    ensures forall v :: Told(worlds, steps, k, slot, v) <==> accepted == Some(v)
    ensures Lookup(worlds[k + 1].node.instances, slot).best ==
      if Asks(worlds, steps, slot)[k] then None else Better(Lookup(worlds[k].node.instances, slot).best, accepted)
  {
    var a, b := worlds[k], worlds[k + 1];
    accepted := None;
    FreshRun(worlds, steps, k);
    RunLater(worlds, steps, k, k + 1);
    assert Next(a, steps[k], b);
    if steps[k].Act? {
      var e := steps[k].event;
      if !Concerns(e, slot) {
        EventSteady(a.node, e, a.loaded, a.delivered, slot);
      } else if e.message.Promise? {
        PromiseHere(a.node, e.from, slot, e.message.number, e.message.accepted, a.loaded, a.delivered);
        accepted := if Live(a.node, slot, e.message.number) then e.message.accepted else None;
      } else if e.message.Accepted? {
        AcceptedHere(a.node, e.from, slot, e.message.number);
      }
    }
  }

  /** What step k does to the vote on record for the slot, if it leaves the slot open; `accepted` is the vote it tells. */
  ghost predicate Records(worlds: seq<World>, steps: seq<Step>, k: nat, slot: nat, asks: bool, accepted: Option<Vote>) {
    && k + 1 < |worlds| && slot !in worlds[k].node.decided && (forall v :: Told(worlds, steps, k, slot, v) <==> accepted == Some(v))
    && Lookup(worlds[k + 1].node.instances, slot).best ==
         if asks then None else Better(Lookup(worlds[k].node.instances, slot).best, accepted)
  }

  ghost predicate AllRecord(worlds: seq<World>, steps: seq<Step>, slot: nat, asks: seq<bool>) {
    && |worlds| == |steps| + 1 == |asks| + 1 && Lookup(worlds[0].node.instances, slot).best == None
    && forall k :: 0 <= k < |asks| ==> Recordable(worlds, steps, k, slot, asks[k])
  }

  ghost predicate Recordable(worlds: seq<World>, steps: seq<Step>, k: nat, slot: nat, asks: bool) {
    k + 1 < |worlds| && slot !in worlds[k + 1].node.decided ==> exists accepted :: Records(worlds, steps, k, slot, asks, accepted)
  }

  lemma RunRecords(worlds: seq<World>, steps: seq<Step>, slot: nat)
    requires Run(worlds, steps) && AllNumbered(steps)
    ensures AllRecord(worlds, steps, slot, Asks(worlds, steps, slot))
  {
    var asks := Asks(worlds, steps, slot);
    forall k | 0 <= k < |asks| ensures Recordable(worlds, steps, k, slot, asks[k]) {
      if slot !in worlds[k + 1].node.decided {
        var accepted := BestStep(worlds, steps, k, slot);
        assert Records(worlds, steps, k, slot, asks[k], accepted);
      }
    }
  }

  /** As long as the slot is open, the vote on record is a highest one told since promises were last asked for. */
  lemma {:induction false} BestChain(worlds: seq<World>, steps: seq<Step>, a: nat, k: nat, slot: nat, asks: seq<bool>)
    requires AllRecord(worlds, steps, slot, asks) && LastAsked(asks, a, k) && slot !in worlds[k].node.decided
    ensures HighestTold(worlds, steps, a, k, slot, Lookup(worlds[k].node.instances, slot).best)
    decreases k
  {
    if k > 0 {
      assert Recordable(worlds, steps, k - 1, slot, asks[k - 1]);
      var accepted :| Records(worlds, steps, k - 1, slot, asks[k - 1], accepted);
      if a < k {
        BestChain(worlds, steps, a, k - 1, slot, asks);
        ToldMore(worlds, steps, a, k - 1, slot, Lookup(worlds[k - 1].node.instances, slot).best, accepted);
      }
    }
  }

  /** What step k proposes for the slot: the value of a highest vote told from step a on, or else the node's own. */
  ghost predicate Proposes(worlds: seq<World>, steps: seq<Step>, a: nat, k: nat, slot: nat, value: Pending)
    requires k < |worlds|
  {
    if exists j, v :: a <= j <= k && Told(worlds, steps, j, slot, v)
    then exists best: Vote :: best.value == value && HighestTold(worlds, steps, a, k + 1, slot, Some(best))
    else Lookup(worlds[k].node.instances, slot).proposed == Some(value)
  }

  /**
   The core rule of Paxos, on the messages of any run: what a Promise makes the node propose or
   announce has the value of a highest vote reported to it since it last asked for promises for the
   slot; if none was reported, it is the value the node itself has for the slot.
   */
  lemma PhaseTwoProposes(worlds: seq<World>, steps: seq<Step>, a: nat, k: nat, i: nat)
    requires Run(worlds, steps) && AllNumbered(steps) && k < |steps| && i < |OutOf(worlds, steps, k)|
    requires steps[k].Act? && steps[k].event.Receive? && steps[k].event.message.Promise?
    requires LastAsked(Asks(worlds, steps, steps[k].event.message.slot), a, k)
    ensures var m := steps[k].event.message; var o := OutOf(worlds, steps, k)[i].message;
      && (o.Accept? || o.Decide?) && o.slot == m.slot && (o.Accept? ==> o.number == m.number) && Proposes(worlds, steps, a, k, m.slot, o.value)
  {
    var e := steps[k].event;
    var m := e.message;
    var n := worlds[k].node;
    FreshRun(worlds, steps, k);
    assert Next(worlds[k], steps[k], worlds[k + 1]);
    PromiseHere(n, e.from, m.slot, m.number, m.accepted, worlds[k].loaded, worlds[k].delivered);
    RunRecords(worlds, steps, m.slot);
    BestChain(worlds, steps, a, k, m.slot, Asks(worlds, steps, m.slot));
    var was := Lookup(n.instances, m.slot).best;
    ToldMore(worlds, steps, a, k, m.slot, was, m.accepted);
    var best := Better(was, m.accepted);
    if best.Some? { assert HighestTold(worlds, steps, a, k + 1, m.slot, Some(best.value)); }
  }

  // ---------- The node's own value ----------

  /** A slot already opened keeps the value this node has for it. */
  ghost predicate KeepsValue(a: Paxos, b: Paxos, slot: nat) {
    && a.next <= b.next && a.decided.Keys <= b.decided.Keys && b.quorum == a.quorum
    && (slot < a.next && slot !in b.decided && slot in a.instances ==>
          slot in b.instances && b.instances[slot].proposed == a.instances[slot].proposed)
  }

  ghost predicate KeptValue(n: Paxos, r: Reply, slot: nat) { r.Ran? ==> KeepsValue(n, r.node, slot) }

  lemma {:induction false} RetryAllValue(n: Paxos, slots: seq<nat>, slot: nat)
    ensures KeptValue(n, RetryAll(n, slots), slot)
    decreases |slots|
  {
    if slots != [] {
      RetryAllValue(n, slots[..|slots| - 1], slot);
      var r := RetryAll(n, slots[..|slots| - 1]);
      if r.Ran? { RetryValue(r.node, slots[|slots| - 1], slot); }
    }
  }

  lemma RetryValue(n: Paxos, at: nat, slot: nat)
    ensures KeptValue(n, RetryProposal(n, at), slot)
  {
  }

  lemma ProposeValue(n: Paxos, value: Pending, slot: nat)
    ensures KeptValue(n, InnerPropose(n, value), slot)
  {
  }

  lemma {:induction false} ProposeAllValue(n: Paxos, values: seq<Pending>, slot: nat)
    ensures KeptValue(n, ProposeAll(n, values), slot)
    decreases |values|
  {
    if values != [] {
      ProposeAllValue(n, values[..|values| - 1], slot);
      var r := ProposeAll(n, values[..|values| - 1]);
      if r.Ran? { ProposeValue(r.node, values[|values| - 1], slot); }
    }
  }

  lemma TickValue(n: Paxos, c: Clock, slot: nat)
    requires n.quorum > 1
    ensures KeptValue(n, OnTick(n, c), slot)
  {
    var a := RetryAll(n, c.retry);
    RetryAllValue(n, c.retry, slot);
    if a.Ran? {
      var b := Rebroadcast(a.node, c.expired);
      var d := LeaderTick(b.node, c.beat, c.stalled, c.silent, c.order, c.replay);
      assert KeepsValue(n, d.node, slot);
      var k := Min(c.late, |d.node.forwarded|);
      ProposeAllValue(d.node.(forwarded := d.node.forwarded[k..]), d.node.forwarded[..k], slot);
    }
  }

  /** Only winning an election changes the value a node has for a slot it has opened. */
  lemma EventValue(n: Paxos, e: Event, slot: nat)
    requires n.quorum > 1 && !(e.Receive? && e.message.PromiseLeader?)
    ensures KeptValue(n, Handle(n, e), slot)
  {
    match e
    case Receive(from, message, order) => MessageValue(n, from, message, order, slot);
    case Submit(value) => ProposeValue(n, value, slot);
    case Tick(clock) => TickValue(n, clock, slot);
  }

  lemma MessageValue(n: Paxos, from: NodeId, m: PaxosMessage, order: seq<nat>, slot: nat)
    requires !m.PromiseLeader?
    ensures KeptValue(n, HandleMessage(n, from, m, order), slot)
  {
    match m
    case Promise(at, number, accepted) => PromiseValue(n, from, at, number, accepted, slot);
    case Accepted(at, number, _) => AcceptedValue(n, from, at, number, slot);
    case Forwarded(value) => ProposeValue(n, value, slot);
    case _ =>
  }

  lemma PromiseValue(n: Paxos, from: NodeId, at: nat, number: Ballot, accepted: Option<Vote>, slot: nat)
    ensures KeptValue(n, HandlePromise(n, from, at, number, accepted), slot)
  {
  }

  lemma AcceptedValue(n: Paxos, from: NodeId, at: nat, number: Ballot, slot: nat)
    ensures KeptValue(n, HandleAccepted(n, from, at, number), slot)
  {
  }

  /** What the node proposes for a slot of its own, from the moment it opens it. */
  lemma Opens(n: Paxos, value: Pending)
    requires !n.role.Leading? && !(n.role.Following? && n.role.leader.Some? && n.role.leader.value != n.id) && n.next !in n.decided
    ensures var r := Handle(n, Submit(value)); r.Ran? ==>
      r.node.next == n.next + 1 && (n.next !in r.node.decided ==> n.next in r.node.instances && r.node.instances[n.next].proposed == Some(value))
  {
  }

  lemma StepValue(a: World, step: Step, b: World, slot: nat)
    requires Next(a, step, b) && a.node.quorum > 1 && !(step.Act? && step.event.Receive? && step.event.message.PromiseLeader?)
    ensures KeepsValue(a.node, b.node, slot)
  {
    if step.Act? { EventValue(a.node, step.event, slot); }
  }

  /** As long as it wins no election, a node's own value for a slot is the one submitted when it opened the slot. */
  lemma {:induction false} OwnValue(worlds: seq<World>, steps: seq<Step>, s: nat, k: nat)
    requires Run(worlds, steps) && s < k < |worlds| && steps[s].Act? && steps[s].event.Submit? && worlds[s].node.quorum > 1
    requires var n := worlds[s].node; !n.role.Leading? && !(n.role.Following? && n.role.leader.Some? && n.role.leader.value != n.id)
    requires forall j :: s < j < k && steps[j].Act? && steps[j].event.Receive? ==> !steps[j].event.message.PromiseLeader?
    ensures var slot := worlds[s].node.next;
      && slot < worlds[k].node.next && worlds[k].node.quorum > 1
      && (slot !in worlds[k].node.decided ==>
            slot in worlds[k].node.instances && worlds[k].node.instances[slot].proposed == Some(steps[s].event.value))
    decreases k
  {
    var slot := worlds[s].node.next;
    if k == s + 1 {
      OpensAt(worlds, steps, s);
    } else {
      OwnValue(worlds, steps, s, k - 1);
      ValueAt(worlds, steps, k - 1, slot);
    }
  }

  lemma ValueAt(worlds: seq<World>, steps: seq<Step>, k: nat, slot: nat)
    requires Run(worlds, steps) && k < |steps| && worlds[k].node.quorum > 1
    requires !(steps[k].Act? && steps[k].event.Receive? && steps[k].event.message.PromiseLeader?)
    ensures KeepsValue(worlds[k].node, worlds[k + 1].node, slot)
  {
    assert Next(worlds[k], steps[k], worlds[k + 1]);
    StepValue(worlds[k], steps[k], worlds[k + 1], slot);
  }

  lemma OpensAt(worlds: seq<World>, steps: seq<Step>, s: nat)
    requires Run(worlds, steps) && s < |steps| && steps[s].Act? && steps[s].event.Submit? && worlds[s].node.quorum > 1
    requires var n := worlds[s].node; !n.role.Leading? && !(n.role.Following? && n.role.leader.Some? && n.role.leader.value != n.id)
    ensures var n, f := worlds[s].node, worlds[s + 1].node;
      && n.next < f.next && f.quorum > 1
      && (n.next !in f.decided ==> n.next in f.instances && f.instances[n.next].proposed == Some(steps[s].event.value))
  {
    assert Next(worlds[s], steps[s], worlds[s + 1]);
    RunGood(worlds, steps, s);
    OpenNext(worlds[s].node, worlds[s].loaded, worlds[s].delivered);
    Opens(worlds[s].node, steps[s].event.value);
    StepValue(worlds[s], steps[s], worlds[s + 1], 0);
  }

  // ---------- Decisions ----------

  /** Before step k, node a has sent this node its vote for the slot at the number. */
  ghost predicate VotedFor(steps: seq<Step>, k: nat, slot: nat, number: Ballot, a: NodeId) {
    exists j :: 0 <= j < k && j < |steps| && VotesAt(steps[j], slot, number, a)
  }

  predicate VotesAt(step: Step, slot: nat, number: Ballot, a: NodeId) {
    step.Act? && step.event.Receive? && step.event.from == a && step.event.message.Accepted?
    && step.event.message.slot == slot && step.event.message.number == number
  }

  /** Every vote counted for the slot is the node's own or was sent to it, at the slot's number. */
  ghost predicate Sourced(n: Paxos, steps: seq<Step>, k: nat, slot: nat) {
    var i := Lookup(n.instances, slot);
    slot !in n.decided ==> forall a :: a in i.accepts ==> a == n.id || VotedFor(steps, k, slot, i.number, a)
  }

  lemma VotedMore(steps: seq<Step>, k: nat, slot: nat, number: Ballot, a: NodeId)
    requires VotedFor(steps, k, slot, number, a)
    ensures VotedFor(steps, k + 1, slot, number, a)
  {
    var j :| 0 <= j < k && j < |steps| && VotesAt(steps[j], slot, number, a);
  }

  lemma PolledSourced(n: Paxos, f: Paxos, steps: seq<Step>, k: nat, slot: nat)
    requires Sourced(n, steps, k, slot) && Polled(n, f, slot) && KeepsDecisions(n.decided, f.decided)
    ensures Sourced(f, steps, k + 1, slot)
  {
    if slot !in f.decided {
      forall a | a in Lookup(f.instances, slot).accepts && a != f.id ensures VotedFor(steps, k + 1, slot, Lookup(f.instances, slot).number, a) {
        VotedMore(steps, k, slot, Lookup(n.instances, slot).number, a);
      }
    }
  }

  lemma AcceptedSourced(n: Paxos, from: NodeId, steps: seq<Step>, k: nat, slot: nat, number: Ballot)
    requires Sourced(n, steps, k, slot) && k < |steps| && VotesAt(steps[k], slot, number, from) && HandleAccepted(n, from, slot, number).Ran?
    requires slot in n.decided ==> slot in HandleAccepted(n, from, slot, number).node.decided
    ensures Sourced(HandleAccepted(n, from, slot, number).node, steps, k + 1, slot)
  {
    AcceptedHere(n, from, slot, number);
    var f, i := HandleAccepted(n, from, slot, number).node, Lookup(n.instances, slot);
    if slot !in f.decided {
      forall a | a in Lookup(f.instances, slot).accepts && a != f.id ensures VotedFor(steps, k + 1, slot, i.number, a) {
        if a in i.accepts { VotedMore(steps, k, slot, i.number, a); } else { assert VotesAt(steps[k], slot, i.number, a); }
      }
    }
  }

  lemma StepSourced(worlds: seq<World>, steps: seq<Step>, k: nat, slot: nat)
    requires Run(worlds, steps) && AllNumbered(steps) && k < |steps| && Sourced(worlds[k].node, steps, k, slot)
    ensures Sourced(worlds[k + 1].node, steps, k + 1, slot)
  {
    var a, b := worlds[k], worlds[k + 1];
    FreshRun(worlds, steps, k);
    RunLater(worlds, steps, k, k + 1);
    assert Next(a, steps[k], b);
    if steps[k].Act? {
      var e := steps[k].event;
      if !Concerns(e, slot) {
        EventSteady(a.node, e, a.loaded, a.delivered, slot);
        PolledSourced(a.node, b.node, steps, k, slot);
      } else if e.message.Promise? {
        PromiseHere(a.node, e.from, slot, e.message.number, e.message.accepted, a.loaded, a.delivered);
        PolledSourced(a.node, b.node, steps, k, slot);
      } else if e.message.Accepted? {
        AcceptedSourced(a.node, e.from, steps, k, slot, e.message.number);
      }
    } else {
      TakeSourced(a.node, b.node, steps, k, slot);
    }
  }

  lemma TakeSourced(n: Paxos, f: Paxos, steps: seq<Step>, k: nat, slot: nat)
    requires Sourced(n, steps, k, slot) && f == n.(pending := [])
    ensures Sourced(f, steps, k + 1, slot)
  {
    if slot !in f.decided {
      forall a | a in Lookup(f.instances, slot).accepts && a != f.id ensures VotedFor(steps, k + 1, slot, Lookup(f.instances, slot).number, a) {
        VotedMore(steps, k, slot, Lookup(n.instances, slot).number, a);
      }
    }
  }

  lemma {:induction false} RunSourced(worlds: seq<World>, steps: seq<Step>, k: nat, slot: nat)
    requires Run(worlds, steps) && AllNumbered(steps) && k < |worlds|
    ensures Sourced(worlds[k].node, steps, k, slot)
  {
    if k > 0 {
      RunSourced(worlds, steps, k - 1, slot);
      StepSourced(worlds, steps, k - 1, slot);
    }
  }

  /** These nodes make a quorum, and each is this one or has sent it a vote for the slot at the number, up to step k. */
  ghost predicate QuorumVoted(n: Paxos, steps: seq<Step>, k: nat, slot: nat, number: Ballot, voters: set<NodeId>) {
    |voters| >= n.quorum && forall a :: a in voters ==> a == n.id || VotedFor(steps, k + 1, slot, number, a)
  }

  lemma VotersQuorum(n: Paxos, steps: seq<Step>, k: nat, slot: nat, number: Ballot)
    requires Sourced(n, steps, k, slot) && slot !in n.decided && |Voters(n, slot, number)| >= n.quorum
    ensures QuorumVoted(n, steps, k, slot, number, Voters(n, slot, number))
  {
    forall a | a in Voters(n, slot, number) && a != n.id ensures VotedFor(steps, k + 1, slot, number, a) {
      VotedMore(steps, k, slot, number, a);
    }
  }

  lemma AcceptedQuorum(n: Paxos, from: NodeId, steps: seq<Step>, k: nat, slot: nat, number: Ballot) returns (voters: set<NodeId>)
    requires Sourced(n, steps, k, slot) && slot !in n.decided && k < |steps| && VotesAt(steps[k], slot, number, from) && Live(n, slot, number)
    requires |n.instances[slot].accepts + {from}| >= n.quorum
    ensures QuorumVoted(n, steps, k, slot, number, voters)
  {
    var i := Lookup(n.instances, slot);
    voters := i.accepts + {from};
    forall a | a in voters && a != n.id ensures VotedFor(steps, k + 1, slot, number, a) {
      if a in i.accepts { VotedMore(steps, k, slot, number, a); } else { assert VotesAt(steps[k], slot, number, a); }
    }
  }

  /**
   In any run a slot is decided either because a Decide for it has come in, or because a quorum, this
   node counted once, has voted for it at one number.
   */
  lemma DecisionHasQuorum(worlds: seq<World>, steps: seq<Step>, k: nat, slot: nat) returns (number: Ballot, voters: set<NodeId>)
    requires Run(worlds, steps) && AllNumbered(steps) && k < |steps| && slot !in worlds[k].node.decided && slot in worlds[k + 1].node.decided
    requires !(steps[k].Act? && steps[k].event.Receive? && steps[k].event.message.Decide? && steps[k].event.message.slot == slot)
    ensures QuorumVoted(worlds[k].node, steps, k, slot, number, voters)
  {
    var a, b := worlds[k], worlds[k + 1];
    FreshRun(worlds, steps, k);
    RunSourced(worlds, steps, k, slot);
    assert Next(a, steps[k], b);
    var e := steps[k].event;
    if Concerns(e, slot) && e.message.Accepted? {
      AcceptedHere(a.node, e.from, slot, e.message.number);
      number := e.message.number;
      voters := AcceptedQuorum(a.node, e.from, steps, k, slot, number);
    } else {
      if Concerns(e, slot) {
        PromiseHere(a.node, e.from, slot, e.message.number, e.message.accepted, a.loaded, a.delivered);
      } else {
        EventSteady(a.node, e, a.loaded, a.delivered, slot);
      }
      number :| |Voters(a.node, slot, number)| >= a.node.quorum;
      voters := Voters(a.node, slot, number);
      VotersQuorum(a.node, steps, k, slot, number);
    }
  }

  // ---------- Values forwarded too long ago ----------

  /** The node asks for promises or votes for the slot. */
  predicate AsksFor(o: Sent, slot: nat) { o.target == Broadcast && (o.message.Prepare? || o.message.Accept?) && o.message.slot == slot }

  lemma ProposesNext(n: Paxos, value: Pending, loaded: set<nat>, delivered: seq<Decision>)
    requires Good(n, loaded, delivered) && Fresh(n) && n.quorum > 1
    ensures var r := InnerPropose(n, value);
      && r.Ran? && r.node == n.(next := n.next + 1, instances := n.instances[n.next := r.node.instances[n.next]])
      && r.node.instances[n.next].proposed == Some(value) && |r.out| == 1 && AsksFor(r.out[0], n.next)
  {
    OpenNext(n, loaded, delivered);
    if n.next in n.instances { assert FreshAt(n.instances[n.next], n.next, n.next); }
    assert {} + {n.id} == {n.id} && |{n.id}| == 1;
  }

  /** Value i of the list is proposed in the i-th slot from n's next one on. */
  ghost predicate InTurn(n: Paxos, r: Reply, values: seq<Pending>) {
    && r.Ran? && |r.out| == |values| && r.node.next == n.next + |values| && r.node.quorum == n.quorum && r.node.forwarded == n.forwarded
    && forall i :: 0 <= i < |values| ==> TurnOf(r.node, r.out, n.next, i, values[i])
  }

  ghost predicate TurnOf(n: Paxos, out: seq<Sent>, next: nat, i: nat, value: Pending) {
    next + i in n.instances && n.instances[next + i].proposed == Some(value) && i < |out| && AsksFor(out[i], next + i)
  }

  lemma {:induction false} ProposesInTurn(n: Paxos, values: seq<Pending>, loaded: set<nat>, delivered: seq<Decision>)
    requires Good(n, loaded, delivered) && Fresh(n) && n.quorum > 1
    ensures InTurn(n, ProposeAll(n, values), values)
    decreases |values|
  {
    if values != [] {
      var k := |values| - 1;
      ProposesInTurn(n, values[..k], loaded, delivered);
      ProposeAllKept(n, values[..k], loaded, delivered);
      ProposeAllSteady(n, values[..k], loaded, delivered, 0);
      var r := ProposeAll(n, values[..k]);
      ProposesNext(r.node, values[k], loaded, delivered);
      InTurnMore(n, r, InnerPropose(r.node, values[k]), values);
    }
  }

  lemma InTurnMore(n: Paxos, r: Reply, q: Reply, values: seq<Pending>)
    requires values != [] && InTurn(n, r, values[..|values| - 1]) && q.Ran?
    requires q.node == r.node.(next := r.node.next + 1, instances := q.node.instances) && |q.out| == 1 && AsksFor(q.out[0], r.node.next)
    requires r.node.next in q.node.instances && q.node.instances[r.node.next].proposed == Some(values[|values| - 1])
    requires forall s :: s in r.node.instances && s != r.node.next ==> s in q.node.instances && q.node.instances[s] == r.node.instances[s]
    ensures InTurn(n, After(r.out, q), values)
  {
    var k := |values| - 1;
    forall i | 0 <= i < |values| ensures TurnOf(q.node, r.out + q.out, n.next, i, values[i]) {
      if i < k { assert TurnOf(r.node, r.out, n.next, i, values[..k][i]); }
    }
  }

  /** The values forwarded too long ago are proposed here, the oldest first, each in a slot of its own; the others wait on. */
  lemma ReproposesExactly(n: Paxos, late: nat, loaded: set<nat>, delivered: seq<Decision>)
    requires Good(n, loaded, delivered) && Fresh(n) && n.quorum > 1
    ensures var r, k := ReproposeForwarded(n, late), if late < |n.forwarded| then late else |n.forwarded|;
      InTurn(n.(forwarded := n.forwarded[k..]), r, n.forwarded[..k])
  {
    var k := if late < |n.forwarded| then late else |n.forwarded|;
    ProposesInTurn(n.(forwarded := n.forwarded[k..]), n.forwarded[..k], loaded, delivered);
  }
}
