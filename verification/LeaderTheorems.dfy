/** The commit rule and log repair, for the leaders and followers of any run. */
module LeaderTheorems {
  import opened Types
  import opened RaftCore
  import opened RaftNode
  import opened Persistence
  import opened Cluster
  import opened Replica
  import opened Safety
  import opened RunTheorems
  import opened CommitRule
  import opened Proposals
  import opened Repair

  // ---------- The commit rule, event by event ----------

  /** The node as the commit rule finds it during an event, if the event consults the rule. */
  ghost function RuleSees(n: Node, e: Event): Option<Node> {
    match e
    case Tick(due) => if due && !n.role.Leader? && n.size < 2 then Inherits(Standing(n)) else None
    case Submit(value) => if n.role.Leader? then Some(TakenIn(n, [value])) else None
    case Receive(from, m) => HearsOf(Observe(n, m), from, m)
  }

  /** A winner consults the rule if it has values to publish. */
  ghost function Inherits(n: Node): Option<Node> {
    if n.buffered == [] then None else Some(TakenIn(Crowned(n), n.buffered))
  }

  ghost function HearsOf(n: Node, from: NodeId, m: Message): Option<Node> {
    match m
    case Forward(value, _) => if n.role.Leader? then Some(TakenIn(n, [value])) else None
    case RequestVoteResponse(term, granted) =>
      if n.role.Candidate? && term == n.term && granted && 2 * |n.votes + {from}| > n.size
      then Inherits(n.(votes := n.votes + {from})) else None
    case AppendEntriesResponse(term, success, matchIndex, _, _) =>
      if n.role.Leader? && term == n.term && success && matchIndex.Some? && matchIndex.value < |n.log|
      then Some(n.(matched := n.matched[from := matchIndex], next := n.next[from := matchIndex.value + 1])) else None
    case _ => None
  }

  /** Terms never fall along the log; a leader takes no replica to hold more than its log. */
  ghost predicate Sane(n: Node) {
    && (forall i, j :: 0 <= i <= j < |n.log| ==> n.log[i].term <= n.log[j].term <= n.term)
    && (n.role.Leader? ==> forall w :: w in n.matched ==> Length(n.matched[w]) <= |n.log|)
  }

  /** The commit index of m, and nothing else about it, is n's; the rule then turns m into f. */
  ghost predicate Ruled(n: Node, m: Node, f: Node) {
    LeaderSane(m) && m.commit == n.commit && f == TryAdvance(m)
  }

  lemma TakenInSane(n: Node, values: seq<Pending>)
    requires Sane(n) && n.role.Leader? && values != []
    ensures Ruled(n, TakenIn(n, values), TakeIn(n, values))
  {
  }

  lemma InheritsSane(n: Node)
    requires Sane(n.(role := Follower)) && n.buffered != []
    ensures Ruled(n, Inherits(n).value, BecomeLeader(n).node)
  {
    TakenInSane(Crowned(n), n.buffered);
  }

  lemma HearsRuled(n: Node, from: NodeId, m: Message)
    requires Sane(n) && HearsOf(n, from, m).Some?
    ensures Ruled(n, HearsOf(n, from, m).value, Dispatch(n, from, m).node)
  {
    match m
    case Forward(value, _) => TakenInSane(n, [value]);
    case RequestVoteResponse(_, _) => InheritsSane(n.(votes := n.votes + {from}));
    case AppendEntriesResponse(_, _, _, _, _) =>
  }

  lemma RuleAsked(n: Node, e: Event)
    requires Sane(n) && RuleSees(n, e).Some?
    ensures Ruled(n, RuleSees(n, e).value, Handle(n, e).node)
  {
    match e
    case Tick(_) => InheritsSane(Standing(n));
    case Submit(value) => TakenInSane(n, [value]);
    case Receive(from, m) => HearsRuled(Observe(n, m), from, m);
  }

  /** What the rule reads of a leader. */
  ghost predicate SameForRule(n: Node, f: Node) {
    f.log == n.log && f.matched == n.matched && f.commit == n.commit && f.term == n.term && f.size == n.size
  }

  /** Without the rule a leader changes nothing the rule reads, or has only just taken office and counts itself alone. */
  ghost predicate LeftAlone(n: Node, f: Node) {
    f.role.Leader? ==> f.commit == n.commit && ((n.role.Leader? && SameForRule(n, f)) || f.matched.Keys <= {f.id})
  }

  lemma DispatchAlone(n: Node, from: NodeId, m: Message)
    requires HearsOf(n, from, m).None?
    ensures LeftAlone(n, Dispatch(n, from, m).node)
  {
    if m.AppendEntries? && PrevOk(n.log, m.prevIndex, m.prevTerm) { AcceptKeeps(Loyal(n, m.leader), m.prevIndex, m.entries, m.leaderCommit); }
  }

  lemma RuleNotAsked(n: Node, e: Event)
    requires RuleSees(n, e).None?
    ensures LeftAlone(n, Handle(n, e).node)
  {
    if e.Receive? { DispatchAlone(Observe(n, e.message), e.from, e.message); }
  }

  // ---------- On runs ----------

  lemma SaneIn(n: Node, c: Core)
    requires Inv(c) && n.id < |c.nodes| && c.nodes[n.id].log == Strip(n.log) && c.nodes[n.id].term == n.term && RoleOk(n, c)
    requires n.role.Leader? ==> c.won[n.term].log == Strip(n.log)
    ensures Sane(n)
  {
    OnReignsSorted(c, Strip(n.log));
    forall i, j | 0 <= i <= j < |n.log| ensures n.log[i].term <= n.log[j].term <= n.term {
      assert Strip(n.log)[i].term <= Strip(n.log)[j].term <= n.term;
    }
  }

  lemma SaneAt(states: seq<State>, cores: seq<Core>, i: nat, v: NodeId)
    requires Histories(states, cores) && Reached(states, i, v)
    ensures Sane(states[i].nodes[v])
  {
    NodeOkAt(states, cores, i, v);
    if states[i].nodes[v].role.Leader? { LeaderLogAt(states, cores, i, v); }
    assert Inv(cores[i]) by { OpenSound(cores[i]); }
    SaneIn(states[i].nodes[v], cores[i]);
  }

  /**
   The commit rule is exact at every event of every run. Where an event consults the rule, the commit
   index moves if and only if some index of the leader's term above it is on a majority of what the
   leader has just learnt, and then to the highest such index. Where it does not, a leader's commit
   index stays.
   */
  lemma CommitsExactly(states: seq<State>, steps: seq<Step>, i: nat)
    requires Run(states, steps) && i < |steps| && steps[i].Act?
    ensures var n, e := states[i].nodes[steps[i].node], EventOf(states[i], steps[i].cause);
      var f := Handle(n, e).node;
      if RuleSees(n, e).None? then f.role.Leader? ==> f.commit == n.commit
      else var m := RuleSees(n, e).value;
        && (f.commit != n.commit <==> exists k: nat :: Committable(m, k))
        && (f.commit != n.commit ==> Committable(m, Length(f.commit)))
        && (forall k: nat :: Committable(m, k) ==> k <= Length(f.commit))
  {
    StepAt(states, steps, i);
    var n, e := states[i].nodes[steps[i].node], EventOf(states[i], steps[i].cause);
    if RuleSees(n, e).None? {
      RuleNotAsked(n, e);
    } else {
      var cores := RunLinked(states, steps);
      SaneAt(states, cores, i, steps[i].node);
      RuleAsked(n, e);
      CommitRuleExact(RuleSees(n, e).value);
    }
  }

  // ---------- Between events ----------

  /** Nothing is left to commit. */
  ghost predicate Rests(n: Node) {
    n.role.Leader? && n.size > 1 ==> forall k: nat :: !Committable(n, k)
  }

  lemma RuleRests(m: Node)
    requires LeaderSane(m)
    ensures forall k: nat :: !Committable(TryAdvance(m), k)
  {
    CommitRuleExact(m);
    forall k: nat | Committable(TryAdvance(m), k) ensures false { assert Committable(m, k); }
  }

  lemma AloneRests(f: Node)
    requires f.size > 1 && f.matched.Keys <= {f.id}
    ensures forall k: nat :: !Committable(f, k)
  {
    forall k: nat ensures |Holders(f.matched, k)| <= 1 { SubsetSize(Holders(f.matched, k), {f.id}); }
  }

  lemma RestsAlike(n: Node, f: Node)
    requires Rests(n) && n.role.Leader? && SameForRule(n, f)
    ensures Rests(f)
  {
    assert forall k: nat :: Committable(f, k) ==> Committable(n, k);
  }

  lemma HandleRests(n: Node, e: Event)
    requires Sane(n) && Rests(n)
    ensures Rests(Handle(n, e).node)
  {
    var f := Handle(n, e).node;
    if RuleSees(n, e).Some? {
      RuleAsked(n, e);
      RuleRests(RuleSees(n, e).value);
    } else {
      RuleNotAsked(n, e);
      if f.role.Leader? && f.size > 1 {
        if n.role.Leader? && SameForRule(n, f) { RestsAlike(n, f); } else { AloneRests(f); }
      }
    }
  }

  lemma RestoreRests(id: NodeId, size: nat, d: Disk)
    ensures Rests(Restore(id, size, d))
  {
  }

  lemma StepRests(s: State, step: Step)
    requires Ready(s) && Possible(s, step) && forall v :: 0 <= v < |s.nodes| ==> Sane(s.nodes[v]) && Rests(s.nodes[v])
    ensures forall v :: 0 <= v < |Perform(s, step).nodes| ==> Rests(Perform(s, step).nodes[v])
  {
    var n, d := s.nodes[step.node], s.disks[step.node];
    if step.Restart? {
      RestoreRests(n.id, n.size, d);
    } else {
      var e := EventOf(s, step.cause);
      HandleRests(n, e);
      RestoreRests(n.id, n.size, Process(n, d, e, step.crash).disk);
      assert Rests(Drained(Handle(n, e).node).(decided := [])) by { RestsDrained(Handle(n, e).node); }
    }
  }

  lemma RestsDrained(f: Node)
    requires Rests(f)
    ensures Rests(Drained(f).(decided := []))
  {
    if f.role.Leader? { RestsAlike(f, Drained(f).(decided := [])); }
  }

  ghost predicate AllRest(s: State) { forall v :: 0 <= v < |s.nodes| ==> Rests(s.nodes[v]) }

  lemma NextRests(states: seq<State>, steps: seq<Step>, cores: seq<Core>, i: nat)
    requires Run(states, steps) && Histories(states, cores) && i < |steps| && AllRest(states[i])
    ensures i + 1 < |states| && AllRest(states[i + 1])
  {
    StepAt(states, steps, i);
    var nodes := states[i].nodes;
    forall w | 0 <= w < |nodes| ensures Sane(nodes[w]) {
      assert Reached(states, i, w);
      SaneAt(states, cores, i, w);
    }
    StepRests(states[i], steps[i]);
  }

  lemma {:induction false} RunRests(states: seq<State>, steps: seq<Step>, cores: seq<Core>, i: nat)
    requires Run(states, steps) && Histories(states, cores) && i < |states|
    ensures AllRest(states[i])
  {
    if i > 0 {
      RunRests(states, steps, cores, i - 1);
      NextRests(states, steps, cores, i - 1);
    }
  }

  /** Between events no reachable leader of a cluster has anything left to commit. */
  lemma NothingLeftToCommit(states: seq<State>, steps: seq<Step>, i: nat, v: NodeId)
    requires Run(states, steps) && Reached(states, i, v)
    ensures Rests(states[i].nodes[v])
  {
    var cores := RunLinked(states, steps);
    RunRests(states, steps, cores, i);
  }

  // ---------- Log repair ----------

  lemma PairedAt(states: seq<State>, cores: seq<Core>, i: nat, v: NodeId, w: NodeId)
    requires Histories(states, cores) && Reached(states, i, v) && Reached(states, i, w) && v != w
    requires states[i].nodes[v].role.Leader? && states[i].nodes[w].term == states[i].nodes[v].term
    ensures Paired(cores[i].won, states[i].nodes[v], states[i].nodes[w])
  {
    LogAt(states, cores, i, i, v);
    LogAt(states, cores, i, i, w);
    LeaderAt(states, cores, i, i, v);
    if states[i].nodes[w].role.Leader? { LeaderAt(states, cores, i, i, w); }
  }

  lemma HeartbeatRepairs(won: map<nat, Reign>, l: Node, f: Node)
    requires Paired(won, l, f)
    ensures Carries(l, Heartbeat(l)) && Settle(won, l, f, Heartbeat(l)).1 <= |l.log|
    ensures Strip(Settle(won, l, f, Heartbeat(l)).0.log) == Strip(l.log) <==> l.log != [] || f.log == []
    ensures TermsRise(f.log) ==> Settle(won, l, f, Heartbeat(l)).1 <= 1 + |TermsOf(f.log, |f.log|)|
  {
    assert l.log[..|l.log|] == l.log;
    RepairExact(won, l, f, Heartbeat(l));
    if TermsRise(f.log) {
      OneRejectionATerm(won, l, f, Heartbeat(l));
      if l.log != [] && |l.log| <= |f.log| {
        assert TermsOf(f.log, |l.log|) <= TermsOf(f.log, |f.log|);
        SubsetSize(TermsOf(f.log, |l.log|), TermsOf(f.log, |f.log|));
      }
    }
  }

  /**
   From any reachable state, a leader's heartbeat to a node of its term, with the rejections and
   resends it sets off, ends within as many rounds as the leader has entries, and within one more
   than the follower's log has terms, and leaves the follower the leader's log, if and only if the
   leader's log has an entry or the follower's has none.
   */
  lemma RepairsExactly(states: seq<State>, steps: seq<Step>, i: nat, v: NodeId, w: NodeId) returns (won: map<nat, Reign>)
    requires Run(states, steps) && Reached(states, i, v) && Reached(states, i, w) && v != w
    requires states[i].nodes[v].role.Leader? && states[i].nodes[w].term == states[i].nodes[v].term
    ensures var l, f := states[i].nodes[v], states[i].nodes[w];
      && Paired(won, l, f) && Carries(l, Heartbeat(l))
      && Settle(won, l, f, Heartbeat(l)).1 <= |l.log| && Settle(won, l, f, Heartbeat(l)).1 <= 1 + |TermsOf(f.log, |f.log|)|
      && (Strip(Settle(won, l, f, Heartbeat(l)).0.log) == Strip(l.log) <==> l.log != [] || f.log == [])
  {
    var cores := RunLinked(states, steps);
    won := cores[i].won;
    PairedAt(states, cores, i, v, w);
    SaneAt(states, cores, i, w);
    HeartbeatRepairs(won, states[i].nodes[v], states[i].nodes[w]);
  }
}
