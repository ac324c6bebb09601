/**
 Crashes and restarts. Storage always holds a state the core can be in, its decisions are a
 prefix of its committed log, and a restarted node takes up exactly where storage stands.
 */
module Recovery {
  import opened Types
  import opened RaftCore
  import opened RaftNode
  import opened Persistence
  import opened Cluster
  import opened Replica
  import opened Handlers
  import opened Replication
  import opened Events

  function OnDisk(d: Disk): Durable { Durable(d.term, d.vote, d.log, Length(d.commit)) }

  // ---------- Every stage of a flush is a state of the core ----------

  /** A lone node changes its term only by electing itself. */
  lemma LoneTerm(n: Node, e: Event)
    requires n.size == 1 && !e.Receive? && Handle(n, e).node.term != n.term
    ensures Handle(n, e).node.vote == Some(n.id)
  {
    if e.Submit? && n.role.Leader? { TakeInLook(n, [e.value]); }
    if e.Tick? { ElectionLook(n); }
  }

  lemma ElectionLook(n: Node)
    ensures StartElection(n).node.vote == Some(n.id) && StartElection(n).node.term == n.term + 1
  {
    var m := Standing(n);
    if m.buffered != [] { TakeInLook(Crowned(m), m.buffered); }
  }

  /** Storage with the new term but still the old vote. */
  lemma TermOnly(n: Node, c: Core, e: Event, a: Core) returns (x: Core)
    requires Base(n, c) && Solo(c) && Sensible(n, c, e) && Lawful(c, a, n.id)
    requires a.nodes[n.id] == View(n).(term := Handle(n, e).node.term, vote := Handle(n, e).node.vote)
    ensures Lawful(c, x, n.id) && x.nodes[n.id] == View(n).(term := Handle(n, e).node.term)
  {
    var u := Handle(n, e).node.term;
    ActsSelf(c, n.id);
    assert n.term <= u by { OpenActs(c, a, n.id); }
    if u == n.term {
      x := c;
    } else if n.vote == None || c.n != 1 {
      BumpedSound(c, n.id, u, n.vote);
      x := Bumped(c, n.id, u, n.vote);
    } else {
      LoneTerm(n, e);
      x := a;
    }
  }

  lemma StageShape(n: Node, f: Node, d: Disk)
    requires Synced(n, d) && Tracks(f, d) && Flushable(f)
    ensures Stage(f, d, 0) == d
    ensures OnDisk(Stage(f, d, 1)) == View(n).(term := f.term)
    ensures OnDisk(Stage(f, d, 2)) == View(f).(log := d.log, commit := Length(d.commit))
    ensures OnDisk(Stage(f, d, 3)) == View(f).(log := if f.cutFrom.Some? then d.log[..f.cutFrom.value] else d.log, commit := Length(d.commit))
    ensures OnDisk(Stage(f, d, 4)) == View(f).(commit := Length(d.commit))
    ensures OnDisk(Stage(f, d, 5)) == View(f)
  {
    FlushSyncs(f, d);
  }

  lemma QuietKeepCut(n: Node, e: Event)
    requires !e.Receive?
    ensures Handle(n, e).node.cutFrom == n.cutFrom
  {
    match e
    case Tick(_) => BecomeLeaderKeepsCut(Standing(n));
    case Submit(value) => ProposeKeepsCut(n, value);
  }

  /** The core once a later term is observed. */
  ghost function After(n: Node, c: Core, m: Message): Core
    requires n.id < |c.nodes|
  {
    if !m.Forward? && m.term > n.term then Bumped(c, n.id, m.term, None) else c
  }

  lemma AfterBase(n: Node, c: Core, e: Envelope)
    requires Base(n, c) && Solo(c) && MsgOk(e, c) && e.dst == n.id && Ordered(n, c, e.message)
    ensures var m := Observe(n, e.message); var d := After(n, c, e.message);
      Base(m, d) && Lawful(c, d, n.id) && MsgOk(e, d) && Ordered(m, d, e.message)
  {
    ActsSelf(c, n.id);
    if !e.message.Forward? && e.message.term > n.term {
      StepDownMoves(n, c, e.message.term);
      StepDownMsg(e, c, n.id, e.message.term, n);
    }
  }

  lemma CutThere(n: Node, c: Core, e: Envelope) returns (k: Core)
    requires Base(n, c) && Solo(c) && MsgOk(e, c) && e.dst == n.id && Ordered(n, c, e.message) && n.cutFrom == None
    requires e.message.AppendEntries? && e.message.term <= n.term && Dispatch(n, e.src, e.message).node.cutFrom.Some?
    ensures var f := Dispatch(n, e.src, e.message).node;
      && f.cutFrom.value <= |n.log| && Lawful(c, k, n.id)
      && k.nodes[n.id] == View(n).(log := Strip(n.log)[..f.cutFrom.value]) && f.term == n.term && f.vote == n.vote
  {
    WhereCut(n, e.src, e.message);
    k := CutMoves(n, c, e.src, e.message, Dispatch(n, e.src, e.message).node.cutFrom.value);
  }

  lemma CutStage(n: Node, c: Core, e: Event) returns (k: Core)
    requires Base(n, c) && Solo(c) && Sensible(n, c, e) && n.cutFrom == None && Handle(n, e).node.cutFrom.Some?
    ensures var f := Handle(n, e).node; f.cutFrom.value <= |n.log| && Lawful(c, k, n.id)
    ensures var f := Handle(n, e).node; k.nodes[n.id] == View(f).(log := Strip(n.log)[..f.cutFrom.value], commit := Length(n.commit))
  {
    if !e.Receive? { QuietKeepCut(n, e); }
    var m := Observe(n, e.message);
    if !e.message.AppendEntries? { OthersKeepCut(m, e.from, e.message); }
    var env := Envelope(e.from, n.id, e.message);
    AfterBase(n, c, env);
    var c1 := After(n, c, e.message);
    k := CutThere(m, c1, env);
    ActsTransitive(c, c1, k, n.id);
  }

  /** Wherever in its flush a node crashes, the core has a state that storage is in. */
  lemma StageCore(n: Node, c: Core, e: Event, d: Disk, j: nat, a: Core, b: Core, z: Core) returns (x: Core)
    requires Base(n, c) && Solo(c) && Sensible(n, c, e) && Clean(n) && Synced(n, d) && j <= 5
    requires Moves(n, c, Handle(n, e), a, b, z, EventReach(n, e))
    requires Tracks(Handle(n, e).node, d) && Flushable(Handle(n, e).node)
    ensures Lawful(c, x, n.id, EventReach(n, e)) && x.nodes[n.id] == OnDisk(Stage(Handle(n, e).node, d, j))
    ensures j == 5 ==> x == z
    ensures x == c || x.nodes[n.id].term == Handle(n, e).node.term
  {
    var f := Handle(n, e).node;
    StageShape(n, f, d);
    if j == 0 {
      x := c;
      ActsSelf(c, n.id);
    } else if j == 1 {
      x := TermOnly(n, c, e, a);
    } else if j == 2 || (j == 3 && f.cutFrom.None?) {
      x := a;
    } else if j == 3 {
      x := CutStage(n, c, e);
    } else if j == 4 {
      x := b;
    } else {
      x := z;
    }
    if j < 4 { ActsMore(c, x, n.id, EventReach(n, e)); }
  }
}
