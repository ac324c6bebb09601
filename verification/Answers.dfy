/**
 The callers of one node along a run of the cluster. A caller's proposal is a client step at the
 node; the decisions of each event answer callers; a crash or a restart lets all of them go.
 */
module Answers {
  import opened Types
  import opened RaftNode
  import opened Persistence
  import opened Cluster
  import opened Delivery
  import opened Safety
  import opened RunTheorems
  import opened Completion
  import opened Integrity

  predicate Stops(step: Step, v: NodeId) { step.node == v && (step.Restart? || step.crash.Some?) }

  /** The steps at which a caller came to the node, each with a live nonce; other client steps propose something again. */
  ghost predicate Calls(steps: seq<Step>, v: NodeId, asks: set<nat>) {
    forall a :: a in asks && a < |steps| ==>
      steps[a].Act? && steps[a].node == v && steps[a].cause.Client? && steps[a].cause.value.nonce != 0
  }

  predicate IsClient(step: Step) { step.Act? && step.cause.Client? }

  /** Nonces are drawn at random from 64 bits and taken not to repeat. */
  ghost predicate Distinct(steps: seq<Step>, asks: set<nat>) {
    && (forall p, q :: p in Proposed(steps) && q in Proposed(steps) && p.nonce == q.nonce ==> p == q)
    && (forall a, b :: a in asks && b in asks && a < b < |steps| && IsClient(steps[a]) && IsClient(steps[b]) ==>
          steps[a].cause.value.nonce != steps[b].cause.value.nonce)
  }

  /** The desk once a caller of this step, if there is one, has come in. */
  ghost function Opened(k: Desk, step: Step, asking: bool, ticket: nat): Desk {
    if asking && step.Act? && step.cause.Client? then Submitted(k, step.cause.value, ticket) else k
  }

  /** What the step leaves of a desk that a caller of this step has come to. */
  ghost predicate Served(k: Desk, s: State, step: Step, v: NodeId, l: Desk)
    requires v < |s.nodes| && (step.Act? && step.cause.Packet? ==> step.cause.index < |s.net|)
  {
    if step.node != v then l == k
    else if Stops(step, v) then Closes(k, l)
    else SettlesAll(k, Handle(s.nodes[v], EventOf(s, step.cause)).node.decided, l)
  }

  ghost predicate AttendedTo(desks: seq<Desk>, states: seq<State>, steps: seq<Step>, v: NodeId, asks: set<nat>, i: nat) {
    && i <= |steps| < |states| && |desks| == i + 1 && desks[0] == Desk(map[], map[], map[])
    && forall h :: 0 <= h < i ==>
         && v < |states[h].nodes| && (steps[h].Act? && steps[h].cause.Packet? ==> steps[h].cause.index < |states[h].net|)
         && Served(Opened(desks[h], steps[h], h in asks, h), states[h], steps[h], v, desks[h + 1])
  }

  /** The desk of node v at each moment of a run. */
  ghost predicate Attended(desks: seq<Desk>, states: seq<State>, steps: seq<Step>, v: NodeId, asks: set<nat>) {
    |states| == |steps| + 1 && AttendedTo(desks, states, steps, v, asks, |steps|)
  }

  // ---------- The invariant ----------

  /** Whoever waits came in at an earlier step with that nonce and value. */
  ghost predicate Waiters(k: Desk, steps: seq<Step>, i: nat, asks: set<nat>) {
    forall n :: n in k.inner ==>
      var t := k.inner[n].ticket;
      t < i && t in asks && t < |steps| && steps[t].Act? && steps[t].cause.Client? && steps[t].cause.value == Pending(n, k.inner[n].value)
  }

  /** Exactly the callers that came in have asked, each for what it proposed. */
  ghost predicate Askers(k: Desk, steps: seq<Step>, i: nat, asks: set<nat>) {
    && (forall t :: t in k.asked <==> t in asks && t < i)
    && (forall t :: t in k.asked ==> t < |steps| && steps[t].Act? && steps[t].cause.Client? && k.asked[t] == steps[t].cause.value.value)
  }

  /** An answer carries the caller's value at a slot stored with it; a caller is let go only by a stop after it came. */
  ghost predicate Right(k: Desk, t: nat, d: Disk, steps: seq<Step>, v: NodeId, i: nat)
    requires t in k.outcomes && t in k.asked
  {
    match k.outcomes[t]
    case Done(slot, value) => value == k.asked[t] && slot in d.decisions && d.decisions[slot] == value
    case Cancelled => exists h :: t <= h < i && h < |steps| && Stops(steps[h], v)
  }

  ghost predicate Truths(k: Desk, d: Disk, steps: seq<Step>, v: NodeId, i: nat) {
    forall t :: t in k.outcomes ==> t in k.asked && Right(k, t, d, steps, v, i)
  }

  ghost predicate Good(k: Desk, d: Disk, steps: seq<Step>, v: NodeId, i: nat, asks: set<nat>) {
    Sound(k) && Waiters(k, steps, i, asks) && Askers(k, steps, i, asks) && Truths(k, d, steps, v, i)
  }

  // ---------- Coming in ----------

  /** A new caller's nonce is nobody else's. */
  lemma NonceFree(k: Desk, steps: seq<Step>, i: nat, asks: set<nat>)
    requires Waiters(k, steps, i, asks) && i < |steps| && i in asks && steps[i].Act? && steps[i].cause.Client? && Distinct(steps, asks)
    ensures steps[i].cause.value.nonce !in k.inner
  {
  }

  lemma LaterGood(k: Desk, d: Disk, steps: seq<Step>, v: NodeId, i: nat, asks: set<nat>)
    requires Good(k, d, steps, v, i, asks) && i !in asks
    ensures Good(k, d, steps, v, i + 1, asks)
  {
    forall t | t in k.outcomes ensures Right(k, t, d, steps, v, i + 1) { assert Right(k, t, d, steps, v, i); }
  }

  lemma PlacedAskers(k: Desk, steps: seq<Step>, i: nat, asks: set<nat>)
    requires Waiters(k, steps, i, asks) && Askers(k, steps, i, asks) && i < |steps| && i in asks && steps[i].Act? && steps[i].cause.Client?
    ensures var l := Placed(k, steps[i].cause.value, i); Waiters(l, steps, i + 1, asks) && Askers(l, steps, i + 1, asks)
  {
  }

  lemma PlacedGood(k: Desk, d: Disk, steps: seq<Step>, v: NodeId, i: nat, asks: set<nat>)
    requires Good(k, d, steps, v, i, asks) && i < |steps| && i in asks && steps[i].Act? && steps[i].cause.Client?
    requires steps[i].cause.value.nonce !in k.inner
    ensures Good(Placed(k, steps[i].cause.value, i), d, steps, v, i + 1, asks)
  {
    var l := Placed(k, steps[i].cause.value, i);
    PlacedSound(k, steps[i].cause.value, i);
    PlacedAskers(k, steps, i, asks);
    forall t | t in l.outcomes ensures t in l.asked && Right(l, t, d, steps, v, i + 1) { assert Right(k, t, d, steps, v, i); }
  }

  lemma OpenedGood(k: Desk, d: Disk, steps: seq<Step>, v: NodeId, i: nat, asks: set<nat>)
    requires Good(k, d, steps, v, i, asks) && i < |steps| && Calls(steps, v, asks) && Distinct(steps, asks)
    ensures Good(Opened(k, steps[i], i in asks, i), d, steps, v, i + 1, asks) && Grows(k, Opened(k, steps[i], i in asks, i))
  {
    if i in asks {
      NonceFree(k, steps, i, asks);
      PlacedGood(k, d, steps, v, i, asks);
    } else {
      LaterGood(k, d, steps, v, i, asks);
    }
  }

  // ---------- Answers ----------

  ghost predicate StoredAs(d: Disk, x: Decision) { x.slot in d.decisions && d.decisions[x.slot] == x.value.value }

  lemma WaiterProposed(k: Desk, steps: seq<Step>, i: nat, asks: set<nat>, n: nat)
    requires Waiters(k, steps, i, asks) && i <= |steps| && n in k.inner
    ensures Pending(n, k.inner[n].value) in Proposed(steps)
  {
  }

  lemma SettledGood(k: Desk, x: Decision, n: nat, d: Disk, steps: seq<Step>, v: NodeId, i: nat, asks: set<nat>)
    requires Good(k, d, steps, v, i, asks) && i <= |steps| && Distinct(steps, asks) && n in Candidates(k, x)
    requires From(x.value, Proposed(steps)) && StoredAs(d, x) && Calls(steps, v, asks)
    ensures Good(Settled(k, x, n), d, steps, v, i, asks)
  {
    AnsweredSound(k, n, Done(x.slot, x.value.value));
    var l := Settled(k, x, n);
    if x.value.nonce != 0 {
      WaiterProposed(k, steps, i, asks, n);
      assert x.value == Pending(n, k.inner[n].value);
    }
    forall t | t in l.outcomes ensures t in l.asked && Right(l, t, d, steps, v, i) {
      if t in k.outcomes { assert Right(k, t, d, steps, v, i); }
    }
  }

  lemma {:induction false} SettlesAllGood(k: Desk, ds: seq<Decision>, l: Desk, d: Disk, steps: seq<Step>, v: NodeId, i: nat, asks: set<nat>)
    requires Good(k, d, steps, v, i, asks) && i <= |steps| && Distinct(steps, asks) && Calls(steps, v, asks) && SettlesAll(k, ds, l)
    requires forall x :: x in ds ==> From(x.value, Proposed(steps)) && StoredAs(d, x)
    ensures Good(l, d, steps, v, i, asks)
    decreases |ds|
  {
    if ds != [] {
      var before, last := ds[..|ds| - 1], ds[|ds| - 1];
      var m :| SettlesAll(k, before, m) && Settles(m, last, l);
      SettlesAllGood(k, before, m, d, steps, v, i, asks);
      if Candidates(m, last) != {} {
        var n :| n in Candidates(m, last) && l == Settled(m, last, n);
        SettledGood(m, last, n, d, steps, v, i, asks);
      }
    }
  }

  lemma ClosesGood(k: Desk, l: Desk, d: Disk, steps: seq<Step>, v: NodeId, i: nat, asks: set<nat>)
    requires Good(k, d, steps, v, i + 1, asks) && i < |steps| && Closes(k, l) && Stops(steps[i], v)
    ensures Good(l, d, steps, v, i + 1, asks)
  {
    forall t | t in l.outcomes ensures t in l.asked && Right(l, t, d, steps, v, i + 1) {
      if t in k.outcomes { assert Right(k, t, d, steps, v, i + 1); }
    }
  }

  lemma LaterDisk(k: Desk, d: Disk, d': Disk, steps: seq<Step>, v: NodeId, i: nat, asks: set<nat>)
    requires Good(k, d, steps, v, i, asks) && forall s :: s in d.decisions ==> s in d'.decisions && d'.decisions[s] == d.decisions[s]
    ensures Good(k, d', steps, v, i, asks)
  {
    forall t | t in k.outcomes ensures Right(k, t, d', steps, v, i) { assert Right(k, t, d, steps, v, i); }
  }

  // ---------- Along the run ----------

  lemma DeliveredAt(states: seq<State>, steps: seq<Step>, cores: seq<RaftCore.Core>, i: nat, v: NodeId)
    requires Run(states, steps) && Histories(states, cores) && i < |steps| && steps[i].Act? && steps[i].node == v && steps[i].crash.None?
    ensures var ds := Handle(states[i].nodes[v], EventOf(states[i], steps[i].cause)).node.decided;
      v < |states[i + 1].disks| && forall x :: x in ds ==> StoredAs(states[i + 1].disks[v], x)
  {
    StepAt(states, steps, i);
    var n, e := states[i].nodes[v], EventOf(states[i], steps[i].cause);
    var f := Handle(n, e).node;
    NodeOkAt(states, cores, i, v);
    NodeOkAt(states, cores, i + 1, v);
    CommittedStaysForever(states, steps, i, i + 1, v);
    HandleGrown(n, e);
    GrownAwaits(n, f, |states[i].disks[v].decisions|);
    AwaitedStored(f, |states[i].disks[v].decisions|, states[i + 1].disks[v]);
  }

  lemma AwaitedStored(f: Node, k: nat, d: Disk)
    requires Awaiting(f, k) && Stored(d) && d.log == Strip(f.log) && |d.decisions| == Length(f.commit)
    ensures forall x :: x in f.decided ==> StoredAs(d, x)
  {
  }

  lemma DecidedFromAll(states: seq<State>, steps: seq<Step>, i: nat, v: NodeId)
    requires Run(states, steps) && i < |steps| && steps[i].Act? && steps[i].node == v
    ensures v < |states[i].nodes| && (steps[i].cause.Packet? ==> steps[i].cause.index < |states[i].net|)
    ensures DecidedFrom(Handle(states[i].nodes[v], EventOf(states[i], steps[i].cause)).node.decided, Proposed(steps))
  {
    StepAt(states, steps, i);
    RunFrom(states, steps, i);
    assert Proposed(steps[..i]) <= Proposed(steps);
    StateFromMore(states[i], Proposed(steps[..i]), Proposed(steps));
    HandleFrom(states[i].nodes[v], EventOf(states[i], steps[i].cause), Proposed(steps));
  }

  lemma DiskGrows(states: seq<State>, steps: seq<Step>, i: nat, v: NodeId)
    requires Run(states, steps) && i < |steps| && Reached(states, i, v)
    ensures Reached(states, i + 1, v)
    ensures forall s :: s in states[i].disks[v].decisions ==>
      s in states[i + 1].disks[v].decisions && states[i + 1].disks[v].decisions[s] == states[i].disks[v].decisions[s]
  {
    StepAt(states, steps, i);
    WriteBack(states, steps);
    forall s | s in states[i].disks[v].decisions
      ensures s in states[i + 1].disks[v].decisions && states[i + 1].disks[v].decisions[s] == states[i].disks[v].decisions[s]
    {
      DecisionsPersist(states, steps, i, i + 1, v, s);
    }
  }

  lemma ServedAt(desks: seq<Desk>, states: seq<State>, steps: seq<Step>, v: NodeId, asks: set<nat>, i: nat)
    requires Attended(desks, states, steps, v, asks) && Calls(steps, v, asks) && i < |steps|
    ensures v < |states[i].nodes| && (steps[i].Act? && steps[i].cause.Packet? ==> steps[i].cause.index < |states[i].net|)
    ensures Served(Opened(desks[i], steps[i], i in asks, i), states[i], steps[i], v, desks[i + 1])
  {
  }

  lemma ServedGood(k: Desk, l: Desk, states: seq<State>, steps: seq<Step>, v: NodeId, asks: set<nat>, i: nat)
    requires Run(states, steps) && Calls(steps, v, asks) && Distinct(steps, asks) && i < |steps| && Reached(states, i + 1, v)
    requires Good(k, states[i + 1].disks[v], steps, v, i + 1, asks)
    requires v < |states[i].nodes| && (steps[i].Act? && steps[i].cause.Packet? ==> steps[i].cause.index < |states[i].net|)
    requires Served(k, states[i], steps[i], v, l)
    ensures Good(l, states[i + 1].disks[v], steps, v, i + 1, asks) && Grows(k, l)
  {
    if steps[i].node == v {
      if Stops(steps[i], v) {
        ClosesGood(k, l, states[i + 1].disks[v], steps, v, i, asks);
      } else {
        AnswersGood(k, l, states, steps, v, asks, i);
      }
    }
  }

  lemma GrowsOn(a: Desk, b: Desk, c: Desk)
    requires Grows(a, b) && Grows(b, c)
    ensures Grows(a, c)
  {
  }

  lemma StepGood(desks: seq<Desk>, states: seq<State>, steps: seq<Step>, v: NodeId, asks: set<nat>, i: nat)
    requires Run(states, steps) && Attended(desks, states, steps, v, asks) && Calls(steps, v, asks) && Distinct(steps, asks)
    requires i < |steps| && Reached(states, i, v) && Good(desks[i], states[i].disks[v], steps, v, i, asks)
    ensures Reached(states, i + 1, v) && Good(desks[i + 1], states[i + 1].disks[v], steps, v, i + 1, asks) && Grows(desks[i], desks[i + 1])
  {
    var k := Opened(desks[i], steps[i], i in asks, i);
    DiskGrows(states, steps, i, v);
    OpenedGood(desks[i], states[i].disks[v], steps, v, i, asks);
    LaterDisk(k, states[i].disks[v], states[i + 1].disks[v], steps, v, i + 1, asks);
    ServedAt(desks, states, steps, v, asks, i);
    ServedGood(k, desks[i + 1], states, steps, v, asks, i);
    GrowsOn(desks[i], k, desks[i + 1]);
  }

  lemma AnswersGood(k: Desk, l: Desk, states: seq<State>, steps: seq<Step>, v: NodeId, asks: set<nat>, i: nat)
    requires Run(states, steps) && Calls(steps, v, asks) && Distinct(steps, asks) && i < |steps| && Reached(states, i + 1, v)
    requires Good(k, states[i + 1].disks[v], steps, v, i + 1, asks) && steps[i].node == v && !Stops(steps[i], v)
    requires v < |states[i].nodes| && (steps[i].cause.Packet? ==> steps[i].cause.index < |states[i].net|)
    requires SettlesAll(k, Handle(states[i].nodes[v], EventOf(states[i], steps[i].cause)).node.decided, l)
    ensures Good(l, states[i + 1].disks[v], steps, v, i + 1, asks) && Grows(k, l)
  {
    var ds := Handle(states[i].nodes[v], EventOf(states[i], steps[i].cause)).node.decided;
    var cores := RunLinked(states, steps);
    DeliveredAt(states, steps, cores, i, v);
    DecidedFromAll(states, steps, i, v);
    SettlesAllGood(k, ds, l, states[i + 1].disks[v], steps, v, i + 1, asks);
    SettlesAllSound(k, ds, l);
  }

  lemma {:induction false} AttendedGood(desks: seq<Desk>, states: seq<State>, steps: seq<Step>, v: NodeId, asks: set<nat>, j: nat)
    requires Run(states, steps) && Attended(desks, states, steps, v, asks) && Calls(steps, v, asks) && Distinct(steps, asks)
    requires j < |states| && v < |states[0].nodes|
    ensures Reached(states, j, v) && Good(desks[j], states[j].disks[v], steps, v, j, asks)
  {
    if j > 0 {
      AttendedGood(desks, states, steps, v, asks, j - 1);
      StepGood(desks, states, steps, v, asks, j - 1);
    }
  }

  lemma {:induction false} AttendedGrows(desks: seq<Desk>, states: seq<State>, steps: seq<Step>, v: NodeId, asks: set<nat>, i: nat, j: nat)
    requires Run(states, steps) && Attended(desks, states, steps, v, asks) && Calls(steps, v, asks) && Distinct(steps, asks)
    requires i <= j < |states| && v < |states[0].nodes|
    ensures Grows(desks[i], desks[j])
    decreases j - i
  {
    if i < j {
      AttendedGrows(desks, states, steps, v, asks, i, j - 1);
      AttendedGood(desks, states, steps, v, asks, j - 1);
      StepGood(desks, states, steps, v, asks, j - 1);
    }
  }

  /**
   In every run each caller of a node is waiting or has one answer, which never changes. An answer
   is the value the caller proposed, at a slot where the node has that value stored; or the caller
   was let go, which happens only if the node went down after the caller came.
   */
  lemma CallersAnswered(desks: seq<Desk>, states: seq<State>, steps: seq<Step>, v: NodeId, asks: set<nat>, i: nat, j: nat, t: nat)
    requires Run(states, steps) && Attended(desks, states, steps, v, asks) && Calls(steps, v, asks) && Distinct(steps, asks)
    requires i <= j < |states| && v < |states[0].nodes| && t in asks && t < j
    ensures Reached(states, j, v) && Grows(desks[i], desks[j])
    ensures t in desks[j].outcomes <==> !Waits(desks[j], t)
    ensures t in desks[j].outcomes && desks[j].outcomes[t].Done? ==>
      var Done(slot, value) := desks[j].outcomes[t];
      && value == steps[t].cause.value.value
      && slot in states[j].disks[v].decisions && states[j].disks[v].decisions[slot] == value
    ensures t in desks[j].outcomes && desks[j].outcomes[t].Cancelled? ==> exists h :: t <= h < j && Stops(steps[h], v)
  {
    AttendedGood(desks, states, steps, v, asks, j);
    AttendedGrows(desks, states, steps, v, asks, i, j);
    if t in desks[j].outcomes { assert Right(desks[j], t, states[j].disks[v], steps, v, j); }
  }

  lemma WaitersAgree(k: Desk, steps: seq<Step>, i: nat, asks: set<nat>, d: Decision)
    requires Waiters(k, steps, i, asks) && i <= |steps| && Distinct(steps, asks) && From(d.value, Proposed(steps))
    ensures Agree(k.inner, d)
  {
    if d.value.nonce != 0 && d.value.nonce in k.inner { WaiterProposed(k, steps, i, asks, d.value.nonce); }
  }

  /**
   In every run, each recovered decision of x that an event hands over leaves one caller fewer waiting
   for x at the node, until none is left; and no more of them stop waiting than x is decided.
   */
  lemma RecoveredAnswers(desks: seq<Desk>, states: seq<State>, steps: seq<Step>, v: NodeId, asks: set<nat>, i: nat, x: Value)
    requires Run(states, steps) && Attended(desks, states, steps, v, asks) && Calls(steps, v, asks) && Distinct(steps, asks)
    requires i < |steps| && v < |states[0].nodes| && steps[i].node == v && !Stops(steps[i], v)
    ensures v < |states[i].nodes| && (steps[i].cause.Packet? ==> steps[i].cause.index < |states[i].net|)
    ensures var ds := Handle(states[i].nodes[v], EventOf(states[i], steps[i].cause)).node.decided;
      var before, after := WaitingFor(Opened(desks[i], steps[i], i in asks, i).inner, x), WaitingFor(desks[i + 1].inner, x);
      && (|after| + CountOf(ds, x, true) <= |before| || after == {})
      && |before| <= |after| + CountOf(ds, x, false)
  {
    var k := Opened(desks[i], steps[i], i in asks, i);
    ServedAt(desks, states, steps, v, asks, i);
    AttendedGood(desks, states, steps, v, asks, i);
    OpenedGood(desks[i], states[i].disks[v], steps, v, i, asks);
    DecidedFromAll(states, steps, i, v);
    var ds := Handle(states[i].nodes[v], EventOf(states[i], steps[i].cause)).node.decided;
    forall d | d in ds ensures Agree(k.inner, d) { WaitersAgree(k, steps, i + 1, asks, d); }
    FewerWait(k, ds, desks[i + 1], x);
  }

  // ---------- Every run has such callers ----------

  lemma {:induction false} SomeSettlesAll(k: Desk, ds: seq<Decision>) returns (l: Desk)
    ensures SettlesAll(k, ds, l)
    decreases |ds|
  {
    l := k;
    if ds != [] {
      var m := SomeSettlesAll(k, ds[..|ds| - 1]);
      l := m;
      if Candidates(m, ds[|ds| - 1]) != {} {
        var n :| n in Candidates(m, ds[|ds| - 1]);
        l := Settled(m, ds[|ds| - 1], n);
      }
    }
  }

  lemma SomeCloses(k: Desk) returns (l: Desk)
    requires k.outcomes.Keys <= k.asked.Keys
    ensures Closes(k, l)
  {
    l := Desk(map[], map t | t in k.asked :: if t in k.outcomes then k.outcomes[t] else Cancelled, k.asked);
  }

  lemma SomeServed(k: Desk, s: State, step: Step, v: NodeId) returns (l: Desk)
    requires Sound(k) && v < |s.nodes| && (step.Act? && step.cause.Packet? ==> step.cause.index < |s.net|)
    ensures Served(k, s, step, v, l) && Sound(l) && l.asked == k.asked
  {
    if step.node != v {
      l := k;
    } else if Stops(step, v) {
      l := SomeCloses(k);
    } else {
      l := SomeSettlesAll(k, Handle(s.nodes[v], EventOf(s, step.cause)).node.decided);
      SettlesAllSound(k, Handle(s.nodes[v], EventOf(s, step.cause)).node.decided, l);
    }
  }

  ghost predicate AskedBy(k: Desk, i: nat) { forall t :: t in k.asked ==> t < i }

  lemma OpenedSound(k: Desk, step: Step, asking: bool, ticket: nat)
    requires Sound(k) && AskedBy(k, ticket)
    ensures Sound(Opened(k, step, asking, ticket)) && AskedBy(Opened(k, step, asking, ticket), ticket + 1)
  {
    if Opened(k, step, asking, ticket) != k { SubmittedSound(k, step.cause.value, ticket); }
  }

  lemma Attendable(states: seq<State>, steps: seq<Step>, v: NodeId, i: nat)
    requires Run(states, steps) && i < |steps| && v < |states[i].nodes|
    ensures i + 1 < |states| && v < |states[i + 1].nodes|
    ensures steps[i].Act? && steps[i].cause.Packet? ==> steps[i].cause.index < |states[i].net|
  {
    StepAt(states, steps, i);
  }

  lemma NextDesk(before: seq<Desk>, states: seq<State>, steps: seq<Step>, v: NodeId, asks: set<nat>, i: nat) returns (desks: seq<Desk>)
    requires AttendedTo(before, states, steps, v, asks, i) && i < |steps| && Sound(before[i]) && AskedBy(before[i], i)
    requires v < |states[i].nodes| && (steps[i].Act? && steps[i].cause.Packet? ==> steps[i].cause.index < |states[i].net|)
    ensures AttendedTo(desks, states, steps, v, asks, i + 1) && Sound(desks[i + 1]) && AskedBy(desks[i + 1], i + 1)
  {
    OpenedSound(before[i], steps[i], i in asks, i);
    var l := SomeServed(Opened(before[i], steps[i], i in asks, i), states[i], steps[i], v);
    desks := AttendedMore(before, states, steps, v, asks, i, l);
  }

  lemma {:induction false} SomeAttended(states: seq<State>, steps: seq<Step>, v: NodeId, asks: set<nat>, i: nat) returns (desks: seq<Desk>)
    requires Run(states, steps) && v < |states[0].nodes| && i <= |steps|
    ensures AttendedTo(desks, states, steps, v, asks, i) && Sound(desks[i]) && AskedBy(desks[i], i)
    ensures v < |states[i].nodes|
  {
    if i == 0 {
      desks := [Desk(map[], map[], map[])];
    } else {
      desks := SomeAttended(states, steps, v, asks, i - 1);
      Attendable(states, steps, v, i - 1);
      desks := NextDesk(desks, states, steps, v, asks, i - 1);
    }
  }

  lemma AttendedMore(before: seq<Desk>, states: seq<State>, steps: seq<Step>, v: NodeId, asks: set<nat>, i: nat, l: Desk)
      returns (desks: seq<Desk>)
    requires AttendedTo(before, states, steps, v, asks, i) && i < |steps|
    requires v < |states[i].nodes| && (steps[i].Act? && steps[i].cause.Packet? ==> steps[i].cause.index < |states[i].net|)
    requires Served(Opened(before[i], steps[i], i in asks, i), states[i], steps[i], v, l)
    ensures desks == before + [l] && AttendedTo(desks, states, steps, v, asks, i + 1)
  {
    desks := before + [l];
    forall h | 0 <= h < i + 1
      ensures v < |states[h].nodes| && (steps[h].Act? && steps[h].cause.Packet? ==> steps[h].cause.index < |states[h].net|)
      ensures Served(Opened(desks[h], steps[h], h in asks, h), states[h], steps[h], v, desks[h + 1])
    {
      if h < i { assert desks[h] == before[h] && desks[h + 1] == before[h + 1]; }
    }
  }

  /** Any run and any choice of callers has its history of answers. */
  lemma CallersExist(states: seq<State>, steps: seq<Step>, v: NodeId, asks: set<nat>) returns (desks: seq<Desk>)
    requires Run(states, steps) && v < |states[0].nodes|
    ensures Attended(desks, states, steps, v, asks)
  {
    desks := SomeAttended(states, steps, v, asks, |steps|);
  }
}
