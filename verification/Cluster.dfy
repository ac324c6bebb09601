/**
 A cluster of Raft nodes. Each step is one event at one node: its handler runs, the changes
 are flushed, the messages are sent, the decisions are stored. A crash may cut a step short
 after any single write; the node then restarts from what is stored.

 `net` is everything ever sent. Any message may be delivered any number of times or never,
 in any order, except that a node does not handle an AppendEntries after one that the same
 leader sent it later in the same term: `handled` remembers the latest for each term and node.
 */
module Cluster {
  import opened Types
  import opened RaftNode
  import opened Persistence

  datatype Envelope = Envelope(src: NodeId, dst: NodeId, message: Message)

  datatype State = State(nodes: seq<Node>, disks: seq<Disk>, net: seq<Envelope>, handled: map<(nat, NodeId), nat>)

  datatype Cause = Timer(due: bool) | Client(value: Pending) | Packet(index: nat)

  /** One event at a node. `crash` is the number of writes that reach storage before it goes down. */
  datatype Step = Act(node: NodeId, cause: Cause, crash: Option<nat>) | Restart(node: NodeId)

  // ---------- One node ----------

  datatype Outcome = Outcome(node: Node, disk: Disk, sent: seq<Outgoing>)

  ghost function Writes(n: Node, d: Disk, e: Event): seq<Op>
    requires Clean(n) && Synced(n, d)
  {
    HandleTracks(n, d, e);
    FlushOps(Handle(n, e).node) + DecisionOps(Handle(n, e).node.decided)
  }

  ghost function Process(n: Node, d: Disk, e: Event, crash: Option<nat>): Outcome
    requires Clean(n) && Synced(n, d) && Length(crash) <= |Writes(n, d, e)| + 1
  {
    HandleTracks(n, d, e);
    var done := Handle(n, e);
    if crash.None? then
      Outcome(Drained(done.node).(decided := []), WriteAll(d, Writes(n, d, e)), done.out)
    else
      var disk := WriteAll(d, Writes(n, d, e)[..crash.value]);
      Outcome(Restore(n.id, n.size, disk), disk, if |FlushOps(done.node)| <= crash.value then done.out else [])
  }

  // ---------- The network ----------

  /** The copies of a message to the first n nodes other than its sender. */
  function Copies(src: NodeId, n: nat, m: Message): seq<Envelope> {
    if n == 0 then [] else Copies(src, n - 1, m) + (if n - 1 == src then [] else [Envelope(src, n - 1, m)])
  }

  function Post(src: NodeId, n: nat, o: Outgoing): seq<Envelope> {
    match o.target
    case Peer(id) => if id < n && id != src then [Envelope(src, id, o.message)] else []
    case Broadcast => Copies(src, n, o.message)
  }

  function PostAll(src: NodeId, n: nat, out: seq<Outgoing>): seq<Envelope> {
    if out == [] then [] else PostAll(src, n, out[..|out| - 1]) + Post(src, n, out[|out| - 1])
  }

  // ---------- Steps ----------

  /** Every node is at rest between events, with storage level with memory. */
  predicate Ready(s: State) {
    && |s.nodes| == |s.disks|
    && forall v :: 0 <= v < |s.nodes| ==> Clean(s.nodes[v]) && Synced(s.nodes[v], s.disks[v])
  }

  function EventOf(s: State, cause: Cause): Event
    requires cause.Packet? ==> cause.index < |s.net|
  {
    match cause
    case Timer(due) => Tick(due)
    case Client(value) => Submit(value)
    case Packet(i) => Receive(s.net[i].src, s.net[i].message)
  }

  predicate InOrder(s: State, v: NodeId, i: nat)
    requires i < |s.net|
  {
    var m := s.net[i].message;
    m.AppendEntries? && (m.term, v) in s.handled ==> s.handled[(m.term, v)] <= i
  }

  /** The step makes sense: its node exists, its packet is addressed to that node, and it crashes no later than after its last write. */
  ghost predicate Doable(s: State, step: Step)
    requires Ready(s)
  {
    && step.node < |s.nodes|
    && (step.Act? ==>
          && (step.cause.Packet? ==> step.cause.index < |s.net| && s.net[step.cause.index].dst == step.node)
          && Length(step.crash) <= |Writes(s.nodes[step.node], s.disks[step.node], EventOf(s, step.cause))| + 1)
  }

  /** A doable step that respects the order of AppendEntries. */
  ghost predicate Possible(s: State, step: Step)
    requires Ready(s)
  {
    Doable(s, step) && (step.Act? && step.cause.Packet? ==> InOrder(s, step.node, step.cause.index))
  }

  function Note(s: State, v: NodeId, cause: Cause): map<(nat, NodeId), nat>
    requires cause.Packet? ==> cause.index < |s.net|
  {
    if cause.Packet? && s.net[cause.index].message.AppendEntries?
    then s.handled[(s.net[cause.index].message.term, v) := cause.index]
    else s.handled
  }

  ghost function Perform(s: State, step: Step): State
    requires Ready(s) && Doable(s, step)
  {
    var v := step.node;
    match step
    case Restart(_) => s.(nodes := s.nodes[v := Restore(s.nodes[v].id, s.nodes[v].size, s.disks[v])])
    case Act(_, cause, crash) =>
      var o := Process(s.nodes[v], s.disks[v], EventOf(s, cause), crash);
      State(s.nodes[v := o.node], s.disks[v := o.disk], s.net + PostAll(v, |s.nodes|, o.sent), Note(s, v, cause))
  }

  function Fresh(id: NodeId, size: nat): Node {
    Node(id, size, 0, None, [], None, None, Follower, None, map[], map[], {}, [], false, false, None, None, false, [], [])
  }

  function Empty(): Disk { Disk(0, None, [], None, map[]) }

  predicate Init(s: State) {
    && |s.nodes| == |s.disks| && s.net == [] && s.handled == map[]
    && forall v :: 0 <= v < |s.nodes| ==> s.nodes[v] == Fresh(v, |s.nodes|) && s.disks[v] == Empty()
  }

  /** A run: states joined by steps, from the initial state on. */
  ghost predicate Run(states: seq<State>, steps: seq<Step>) {
    && |states| == |steps| + 1 && Init(states[0])
    && forall i :: 0 <= i < |steps| ==> Ready(states[i]) && Possible(states[i], steps[i]) && states[i + 1] == Perform(states[i], steps[i])
  }

  // ---------- What a sent message looks like ----------

  lemma {:induction false} CopiesLook(src: NodeId, n: nat, m: Message, i: nat)
    requires i < |Copies(src, n, m)|
    ensures var e := Copies(src, n, m)[i]; e.src == src && e.dst < n && e.dst != src && e.message == m
  {
    if i < |Copies(src, n - 1, m)| { CopiesLook(src, n - 1, m, i); }
  }

  lemma {:induction false} PostAllLooks(src: NodeId, n: nat, out: seq<Outgoing>, i: nat) returns (k: nat)
    requires i < |PostAll(src, n, out)|
    ensures k < |out|
    ensures var e := PostAll(src, n, out)[i];
      && e.src == src
      && e.dst < n
      && e.dst != src
      && e.message == out[k].message
      && (out[k].target == Broadcast || out[k].target == Peer(e.dst))
  {
    var before := PostAll(src, n, out[..|out| - 1]);
    if i < |before| {
      k := PostAllLooks(src, n, out[..|out| - 1], i);
    } else {
      k := |out| - 1;
      if out[k].target.Broadcast? { CopiesLook(src, n, out[k].message, i - |before|); }
    }
  }
}
