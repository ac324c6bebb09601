/** Callers waiting for their proposals: each is answered once, when its proposal is decided or the node stops. */
module Completion {
  import opened Types

  /** A caller is known by its ticket; it waits for the value it proposed. */
  datatype Waiting = Waiting(value: Value, ticket: nat)

  datatype Outcome = Done(slot: nat, value: Value) | Cancelled

  /** Who waits under which nonce, what has been answered, and what each caller ever asked for. */
  datatype Desk = Desk(inner: map<nat, Waiting>, outcomes: map<nat, Outcome>, asked: map<nat, Value>)

  ghost predicate Waits(k: Desk, t: nat) { exists n :: n in k.inner && k.inner[n].ticket == t }

  /** Every caller waits at one place or has one answer, never both. */
  ghost predicate Sound(k: Desk) {
    && (forall n :: n in k.inner ==>
          k.inner[n].ticket in k.asked && k.asked[k.inner[n].ticket] == k.inner[n].value && k.inner[n].ticket !in k.outcomes)
    && (forall n, m :: n in k.inner && m in k.inner && n != m ==> k.inner[n].ticket != k.inner[m].ticket)
    && k.outcomes.Keys <= k.asked.Keys
    && (forall t :: t in k.asked && t !in k.outcomes ==> Waits(k, t))
  }

  /** No answer is ever taken back or changed. */
  ghost predicate Grows(k: Desk, l: Desk) {
    && (forall t :: t in k.outcomes ==> t in l.outcomes && l.outcomes[t] == k.outcomes[t])
    && (forall t :: t in k.asked ==> t in l.asked && l.asked[t] == k.asked[t])
  }

  // ---------- Steps ----------

  function Answered(k: Desk, n: nat, o: Outcome): Desk
    requires n in k.inner
  {
    Desk(k.inner - {n}, k.outcomes[k.inner[n].ticket := o], k.asked)
  }

  function Placed(k: Desk, p: Pending, ticket: nat): Desk {
    Desk(k.inner[p.nonce := Waiting(p.value, ticket)], k.outcomes, k.asked[ticket := p.value])
  }

  /** A caller comes in. One that waited under the same nonce is let go: its sender is dropped. */
  function Submitted(k: Desk, p: Pending, ticket: nat): Desk {
    Placed(if p.nonce in k.inner then Answered(k, p.nonce, Cancelled) else k, p, ticket)
  }

  /** The callers a decision may answer: the one under its nonce, or any that waits for the value if the nonce is gone. */
  function Candidates(k: Desk, d: Decision): set<nat> {
    if d.value.nonce != 0 then set n | n in k.inner && n == d.value.nonce
    else set n | n in k.inner && k.inner[n].value == d.value.value
  }

  function Settled(k: Desk, d: Decision, n: nat): Desk
    requires n in k.inner
  {
    Answered(k, n, Done(d.slot, d.value.value))
  }

  ghost predicate Settles(k: Desk, d: Decision, l: Desk) {
    if Candidates(k, d) == {} then l == k else exists n :: n in Candidates(k, d) && l == Settled(k, d, n)
  }

  ghost predicate SettlesAll(k: Desk, ds: seq<Decision>, l: Desk)
    decreases |ds|
  {
    if ds == [] then l == k
    else
      var before, last := ds[..|ds| - 1], ds[|ds| - 1];
      exists m :: SettlesAll(k, before, m) && Settles(m, last, l)
  }

  /** The node stops: everyone still waiting is told so. */
  ghost predicate Closes(k: Desk, l: Desk) {
    && l.inner == map[] && l.asked == k.asked && Grows(k, l) && l.outcomes.Keys == k.asked.Keys
    && forall t :: t in l.outcomes && t !in k.outcomes ==> l.outcomes[t] == Cancelled
  }

  // ---------- Every caller is answered exactly once ----------

  lemma AnsweredSound(k: Desk, n: nat, o: Outcome)
    requires Sound(k) && n in k.inner
    ensures Sound(Answered(k, n, o)) && Grows(k, Answered(k, n, o))
  {
    var l := Answered(k, n, o);
    forall t | t in l.asked && t !in l.outcomes ensures Waits(l, t) {
      assert Waits(k, t);
      var m :| m in k.inner && k.inner[m].ticket == t;
      assert m in l.inner && l.inner[m] == k.inner[m];
    }
  }

  lemma PlacedSound(k: Desk, p: Pending, ticket: nat)
    requires Sound(k) && ticket !in k.asked && p.nonce !in k.inner
    ensures Sound(Placed(k, p, ticket)) && Grows(k, Placed(k, p, ticket))
  {
    var l := Placed(k, p, ticket);
    forall t | t in l.asked && t !in l.outcomes ensures Waits(l, t) {
      if t == ticket {
        assert l.inner[p.nonce].ticket == t;
      } else {
        assert Waits(k, t);
        var n :| n in k.inner && k.inner[n].ticket == t;
        assert l.inner[n] == k.inner[n];
      }
    }
  }

  lemma SubmittedSound(k: Desk, p: Pending, ticket: nat)
    requires Sound(k) && ticket !in k.asked
    ensures Sound(Submitted(k, p, ticket)) && Grows(k, Submitted(k, p, ticket))
  {
    if p.nonce in k.inner {
      AnsweredSound(k, p.nonce, Cancelled);
      PlacedSound(Answered(k, p.nonce, Cancelled), p, ticket);
      assert Placed(Answered(k, p.nonce, Cancelled), p, ticket) == Submitted(k, p, ticket);
    } else {
      PlacedSound(k, p, ticket);
    }
  }

  lemma SettlesSound(k: Desk, d: Decision, l: Desk)
    requires Sound(k) && Settles(k, d, l)
    ensures Sound(l) && Grows(k, l) && l.asked == k.asked
  {
    if Candidates(k, d) != {} {
      var n :| n in Candidates(k, d) && l == Settled(k, d, n);
      AnsweredSound(k, n, Done(d.slot, d.value.value));
    }
  }

  lemma {:induction false} SettlesAllSound(k: Desk, ds: seq<Decision>, l: Desk)
    requires Sound(k) && SettlesAll(k, ds, l)
    ensures Sound(l) && Grows(k, l) && l.asked == k.asked
    decreases |ds|
  {
    if ds != [] {
      var m :| SettlesAll(k, ds[..|ds| - 1], m) && Settles(m, ds[|ds| - 1], l);
      SettlesAllSound(k, ds[..|ds| - 1], m);
      SettlesSound(m, ds[|ds| - 1], l);
    }
  }

  /** A decision leaves nobody waiting under its nonce, and answers one caller if any is waiting for it. */
  lemma SettlesSomeone(k: Desk, d: Decision, l: Desk)
    requires Sound(k) && Settles(k, d, l)
    ensures d.value.nonce != 0 ==> d.value.nonce !in l.inner
    ensures Candidates(k, d) != {} ==>
      exists t :: Waits(k, t) && t !in k.outcomes && l.outcomes == k.outcomes[t := Done(d.slot, d.value.value)]
  {
    if d.value.nonce != 0 && d.value.nonce in k.inner { assert d.value.nonce in Candidates(k, d); }
    if Candidates(k, d) != {} {
      var n :| n in Candidates(k, d) && l == Settled(k, d, n);
      assert Waits(k, k.inner[n].ticket);
    }
  }

  /**
   The answer a caller gets carries the value it proposed, if and only if the decision under its
   nonce does. A decision without a nonce is matched by value, so it is always right.
   */
  lemma AnswersRight(k: Desk, d: Decision, n: nat)
    requires Sound(k) && n in Candidates(k, d)
    ensures var t := k.inner[n].ticket;
      Settled(k, d, n).outcomes[t] == Done(d.slot, k.asked[t]) <==> d.value.nonce == 0 || k.inner[d.value.nonce].value == d.value.value
  {
  }

  // ---------- Who is answered ----------

  /** The callers that wait for a value, by nonce. */
  function WaitingFor(inner: map<nat, Waiting>, x: Value): set<nat> { set n | n in inner && inner[n].value == x }

  /** Caller n leaves, with this decision as its answer, and nothing else happens. */
  ghost predicate Leaves(k: Desk, d: Decision, n: nat, l: Desk) {
    && n in k.inner && l.inner == k.inner - {n} && l.asked == k.asked
    && l.outcomes == k.outcomes[k.inner[n].ticket := Done(d.slot, d.value.value)]
  }

  /**
   A decision with a nonce answers the caller under that nonce, if there is one. A recovered one, whose
   nonce is gone, answers one of the callers that wait for its value, if there is any.
   */
  lemma SettlesExactly(k: Desk, d: Decision, l: Desk)
    requires Settles(k, d, l)
    ensures d.value.nonce != 0 ==> if d.value.nonce in k.inner then Leaves(k, d, d.value.nonce, l) else l == k
    ensures d.value.nonce == 0 ==>
      if exists n :: n in k.inner && k.inner[n].value == d.value.value
      then exists n :: n in k.inner && k.inner[n].value == d.value.value && Leaves(k, d, n, l)
      else l == k
  {
    forall n | n in k.inner && (if d.value.nonce != 0 then n == d.value.nonce else k.inner[n].value == d.value.value)
      ensures n in Candidates(k, d)
    {
    }
    if Candidates(k, d) != {} {
      var n :| n in Candidates(k, d) && l == Settled(k, d, n);
      assert Leaves(k, d, n, l);
    }
  }

  /** A new caller waits under its nonce, and everyone else waits on, but one under the same nonce, who is cancelled. */
  lemma ComesIn(k: Desk, p: Pending, ticket: nat)
    requires Sound(k) && ticket !in k.asked
    ensures var l := Submitted(k, p, ticket);
      && l.inner == k.inner[p.nonce := Waiting(p.value, ticket)] && l.asked == k.asked[ticket := p.value]
      && l.outcomes == if p.nonce in k.inner then k.outcomes[k.inner[p.nonce].ticket := Cancelled] else k.outcomes
  {
  }

  /** How many of the decisions are of value x, and how many of these are recovered ones. */
  function CountOf(ds: seq<Decision>, x: Value, recovered: bool): nat {
    if ds == [] then 0
    else
      var d := ds[|ds| - 1];
      CountOf(ds[..|ds| - 1], x, recovered) + if d.value.value == x && (recovered ==> d.value.nonce == 0) then 1 else 0
  }

  /** No caller waits under the nonce of a decision for anything but its value. */
  ghost predicate Agree(inner: map<nat, Waiting>, d: Decision) {
    d.value.nonce != 0 && d.value.nonce in inner ==> inner[d.value.nonce].value == d.value.value
  }

  lemma LeavesOne(k: Desk, d: Decision, n: nat, l: Desk, x: Value)
    requires Leaves(k, d, n, l)
    ensures WaitingFor(l.inner, x) == WaitingFor(k.inner, x) - {n}
    ensures |WaitingFor(l.inner, x)| == |WaitingFor(k.inner, x)| - if k.inner[n].value == x then 1 else 0
    ensures forall m :: m in l.inner ==> m in k.inner && l.inner[m] == k.inner[m]
  {
    forall m ensures m in WaitingFor(l.inner, x) <==> m in WaitingFor(k.inner, x) - {n} { }
  }

  lemma OneLess(k: Desk, d: Decision, l: Desk, x: Value)
    requires Settles(k, d, l)
    ensures |WaitingFor(l.inner, x)| <= |WaitingFor(k.inner, x)|
    ensures d.value == Pending(0, x) ==> |WaitingFor(l.inner, x)| == if WaitingFor(k.inner, x) == {} then 0 else |WaitingFor(k.inner, x)| - 1
    ensures Agree(k.inner, d) ==> |WaitingFor(l.inner, x)| >= |WaitingFor(k.inner, x)| - if d.value.value == x then 1 else 0
    ensures forall n :: n in l.inner ==> n in k.inner && l.inner[n] == k.inner[n]
  {
    SettlesExactly(k, d, l);
    if d.value.nonce != 0 {
      if d.value.nonce in k.inner { LeavesOne(k, d, d.value.nonce, l, x); }
    } else if exists n :: n in k.inner && k.inner[n].value == d.value.value {
      var n :| n in k.inner && k.inner[n].value == d.value.value && Leaves(k, d, n, l);
      LeavesOne(k, d, n, l, x);
    }
  }

  /**
   Every recovered decision of x leaves one caller fewer waiting for x, until none does; and no more
   callers stop waiting for x than there are decisions of x.
   */
  lemma {:induction false} FewerWait(k: Desk, ds: seq<Decision>, l: Desk, x: Value)
    requires SettlesAll(k, ds, l)
    ensures |WaitingFor(l.inner, x)| + CountOf(ds, x, true) <= |WaitingFor(k.inner, x)| || WaitingFor(l.inner, x) == {}
    ensures (forall d :: d in ds ==> Agree(k.inner, d)) ==> |WaitingFor(k.inner, x)| <= |WaitingFor(l.inner, x)| + CountOf(ds, x, false)
    ensures forall n :: n in l.inner ==> n in k.inner && l.inner[n] == k.inner[n]
    decreases |ds|
  {
    if ds != [] {
      var before, last := ds[..|ds| - 1], ds[|ds| - 1];
      var m :| SettlesAll(k, before, m) && Settles(m, last, l);
      FewerWait(k, before, m, x);
      OneLess(m, last, l, x);
      assert last in ds && forall d :: d in before ==> d in ds;
    }
  }

  // ---------- Whole lives of a node ----------

  datatype Happening = Submitting(p: Pending, ticket: nat) | Decide(ds: seq<Decision>) | Stop

  ghost predicate Next(k: Desk, step: Happening, l: Desk) {
    match step
    case Submitting(p, ticket) => ticket !in k.asked && l == Submitted(k, p, ticket)
    case Decide(ds) => SettlesAll(k, ds, l)
    case Stop => Closes(k, l)
  }

  ghost predicate Life(desks: seq<Desk>, steps: seq<Happening>) {
    && |desks| == |steps| + 1 && desks[0] == Desk(map[], map[], map[])
    && forall i :: 0 <= i < |steps| ==> Next(desks[i], steps[i], desks[i + 1])
  }

  lemma StepSound(k: Desk, step: Happening, l: Desk)
    requires Sound(k) && Next(k, step, l)
    ensures Sound(l) && Grows(k, l)
  {
    match step
    case Submitting(p, ticket) => SubmittedSound(k, p, ticket);
    case Decide(ds) => SettlesAllSound(k, ds, l);
    case Stop =>
  }

  lemma {:induction false} LifeSound(desks: seq<Desk>, steps: seq<Happening>, j: nat)
    requires Life(desks, steps) && j < |desks|
    ensures Sound(desks[j])
  {
    if j > 0 {
      LifeSound(desks, steps, j - 1);
      StepSound(desks[j - 1], steps[j - 1], desks[j]);
    }
  }

  /** Every caller waits until it has one answer, which never changes; once the node stops, all have one. */
  lemma {:induction false} AnsweredOnce(desks: seq<Desk>, steps: seq<Happening>, i: nat, j: nat)
    requires Life(desks, steps) && i <= j < |desks|
    ensures Grows(desks[i], desks[j])
    ensures forall t :: t in desks[j].asked ==> (t in desks[j].outcomes <==> !Waits(desks[j], t))
    ensures 0 < j && steps[j - 1].Stop? ==> desks[j].outcomes.Keys == desks[j].asked.Keys
    decreases j - i
  {
    LifeSound(desks, steps, j);
    if i < j {
      LifeSound(desks, steps, j - 1);
      AnsweredOnce(desks, steps, i, j - 1);
      StepSound(desks[j - 1], steps[j - 1], desks[j]);
    }
  }

  // ---------- The object ----------

  /** The pending map of the event loop, with the answers given so far. */
  class PendingMap {
    var inner: map<nat, Waiting>
    var outcomes: map<nat, Outcome>
    ghost var asked: map<nat, Value>

    ghost function State(): Desk
      reads this
    {
      Desk(inner, outcomes, asked)
    }

    constructor ()
      ensures State() == Desk(map[], map[], map[]) && Sound(State())
    {
      inner, outcomes, asked := map[], map[], map[];
    }

    /** Drops the sender of a caller that waits, which tells it that it was cancelled. */
    method Release(n: nat)
      requires Sound(State()) && n in inner
      modifies `inner, `outcomes
      ensures State() == Answered(old(State()), n, Cancelled) && Sound(State()) && Grows(old(State()), State())
    {
      AnsweredSound(State(), n, Cancelled);
      outcomes := outcomes[inner[n].ticket := Cancelled];
      inner := inner - {n};
    }

    method Insert(p: Pending, ticket: nat)
      requires Sound(State()) && ticket !in asked
      modifies this
      ensures State() == Submitted(old(State()), p, ticket) && Sound(State()) && Grows(old(State()), State())
    {
      SubmittedSound(State(), p, ticket);
      if p.nonce in inner { Release(p.nonce); }
      inner := inner[p.nonce := Waiting(p.value, ticket)];
      asked := asked[ticket := p.value];
    }

    /** Takes out the caller under the nonce, or one that waits for the value if the nonce is gone. */
    method RemoveForDecision(nonce: nat, value: Types.Value) returns (caller: Option<nat>)
      modifies this`inner
      ensures caller.None? ==> inner == old(inner)
      ensures nonce != 0 && nonce in old(inner) ==> caller == Some(old(inner)[nonce].ticket) && inner == old(inner) - {nonce}
      ensures nonce != 0 && nonce !in old(inner) ==> caller == None
      ensures nonce == 0 && WaitingFor(old(inner), value) != {} ==>
        exists n :: n in old(inner) && old(inner)[n].value == value && caller == Some(old(inner)[n].ticket) && inner == old(inner) - {n}
      ensures nonce == 0 && WaitingFor(old(inner), value) == {} ==> caller == None
    {
      caller := None;
      if nonce != 0 {
        if nonce in inner {
          caller := Some(inner[nonce].ticket);
          inner := inner - {nonce};
        }
        return;
      }
      var rest := inner.Keys;
      while rest != {}
        invariant rest <= inner.Keys && inner == old(inner) && caller == None
        invariant forall n :: n in inner && n !in rest ==> inner[n].value != value
        decreases rest
      {
        var n :| n in rest;
        if inner[n].value == value {
          assert n in WaitingFor(inner, value);
          caller := Some(inner[n].ticket);
          inner := inner - {n};
          return;
        }
        rest := rest - {n};
      }
    }

    method Settle(d: Decision)
      requires Sound(State())
      modifies this
      ensures Settles(old(State()), d, State()) && asked == old(asked)
    {
      ghost var k := State();
      assert Candidates(k, d) == if d.value.nonce == 0 then WaitingFor(inner, d.value.value)
                                 else if d.value.nonce in inner then {d.value.nonce} else {};
      var caller := RemoveForDecision(d.value.nonce, d.value.value);
      if caller.Some? {
        ghost var n :| n in Candidates(k, d) && caller == Some(k.inner[n].ticket) && inner == k.inner - {n};
        outcomes := outcomes[caller.value := Done(d.slot, d.value.value)];
        assert State() == Settled(k, d, n);
      }
    }

    /** Goes through the decisions of one event. */
    method ProcessDecisions(ds: seq<Decision>)
      requires Sound(State())
      modifies this
      ensures SettlesAll(old(State()), ds, State()) && Sound(State()) && Grows(old(State()), State()) && asked == old(asked)
    {
      for i := 0 to |ds|
        invariant SettlesAll(old(State()), ds[..i], State()) && Sound(State())
      {
        ghost var k := State();
        Settle(ds[i]);
        assert ds[..i + 1][..i] == ds[..i];
        assert SettlesAll(old(State()), ds[..i], k) && Settles(k, ds[..i + 1][i], State());
        SettlesAllSound(old(State()), ds[..i + 1], State());
      }
      assert ds[..|ds|] == ds;
      SettlesAllSound(old(State()), ds, State());
    }

    /** Runs when the map is dropped, on a normal shutdown or while unwinding. */
    method Drop()
      requires Sound(State())
      modifies this
      ensures Closes(old(State()), State()) && Sound(State())
    {
      while inner != map[]
        invariant Sound(State()) && Grows(old(State()), State()) && asked == old(asked)
        invariant forall t :: t in outcomes && t !in old(outcomes) ==> outcomes[t] == Cancelled
        decreases inner.Keys
      {
        var n :| n in inner;
        ghost var k := inner;
        Release(n);
        assert inner.Keys == k.Keys - {n};
      }
    }
  }
}
