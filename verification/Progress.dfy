/** Runs exist and get somewhere: any run goes on with any event, and a lone node decides what it is given. */
module Progress {
  import opened Types
  import opened RaftNode
  import opened Cluster
  import opened RunTheorems
  import opened CommitRule

  /** A run goes on with any step that is possible where it stands. */
  lemma RunExtends(states: seq<State>, steps: seq<Step>, step: Step)
    requires Run(states, steps) && Ready(states[|steps|]) && Possible(states[|steps|], step)
    ensures Run(states + [Perform(states[|steps|], step)], steps + [step])
  {
    var s := states[|steps|];
    var more, all := states + [Perform(s, step)], steps + [step];
    forall i | 0 <= i < |all| ensures Ready(more[i]) && Possible(more[i], all[i]) && more[i + 1] == Perform(more[i], all[i]) {
      if i < |steps| { StepAt(states, steps, i); }
    }
  }

  /** A run and one that goes on from where it ends. */
  ghost predicate Continues(states: seq<State>, steps: seq<Step>, ss: seq<State>, ts: seq<Step>) {
    Run(ss, ts) && states <= ss && steps <= ts
  }

  lemma ContinuesOn(states: seq<State>, steps: seq<Step>, ms: seq<State>, ns: seq<Step>, ss: seq<State>, ts: seq<Step>)
    requires Continues(states, steps, ms, ns) && Continues(ms, ns, ss, ts)
    ensures Continues(states, steps, ss, ts)
  {
  }

  /** The run goes on by one step. */
  lemma StepOn(states: seq<State>, steps: seq<Step>, step: Step, t: State) returns (ss: seq<State>, ts: seq<Step>)
    requires Run(states, steps) && Ready(states[|steps|]) && Possible(states[|steps|], step) && t == Perform(states[|steps|], step)
    ensures Continues(states, steps, ss, ts) && ts == steps + [step] && ss[|ts|] == t && Ready(t)
  {
    RunExtends(states, steps, step);
    ss, ts := states + [t], steps + [step];
    WriteBack(ss, ts);
  }

  /** Whatever has happened, any node can take a tick, a proposal or a restart next, and the run goes on. */
  lemma RunsGoOn(states: seq<State>, steps: seq<Step>, step: Step)
    requires Run(states, steps) && step.node < |states[|steps|].nodes|
    requires step.Act? ==> !step.cause.Packet? && step.crash == None
    ensures var s := states[|steps|]; Ready(s) && Possible(s, step) && Run(states + [Perform(s, step)], steps + [step])
  {
    WriteBack(states, steps);
    RunExtends(states, steps, step);
  }

  /** A lone node that holds k + 1 entries has them on a quorum. */
  lemma LoneHolds(matched: map<NodeId, Option<nat>>, id: NodeId, k: nat)
    requires matched == map[id := Some(k)]
    ensures HeldBy(matched, 1) == k + 1
  {
    assert Holders(matched, k + 1) == {id};
    assert Holders(matched, k + 2) == {};
    HeldByMeans(matched, 1);
    MostHeldUnique(matched, 1, k + 1, HeldBy(matched, 1));
  }

  /** Alone, in office, with everything logged also applied. */
  ghost predicate LoneLeader(n: Node) {
    n.size == 1 && n.role.Leader? && n.matched.Keys <= {n.id} && Length(n.commit) == Length(n.applied) == |n.log|
  }

  lemma LoneAdvances(m: Node)
    requires m.size == 1 && m.log != [] && m.matched == map[m.id := Some(|m.log| - 1)] && m.log[|m.log| - 1].term == m.term
    requires Length(m.commit) == Length(m.applied) == |m.log| - 1
    ensures var r := TryAdvance(m);
      && r.decided == m.decided + [Decision(|m.log| - 1, m.log[|m.log| - 1].value)]
      && Length(r.commit) == Length(r.applied) == |m.log|
  {
    LoneHolds(m.matched, m.id, |m.log| - 1);
  }

  /** A lone leader decides a proposal at once, in the next slot, and is ready for another. */
  lemma LoneLeaderDecides(n: Node, p: Pending)
    requires LoneLeader(n)
    ensures var r := Propose(n, p).node; LoneLeader(r) && r.decided == n.decided + [Decision(|n.log|, p)]
  {
    var m := TakenIn(n, [p]);
    assert m.matched == map[n.id := Some(|n.log|)];
    LoneAdvances(m);
  }

  /** A lone node is in office after its first tick. */
  lemma LoneNodeLeads(id: NodeId)
    ensures LoneLeader(Handle(Fresh(id, 1), Tick(true)).node)
  {
  }
}
