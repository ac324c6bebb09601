/**
 How a leader brings a follower's log in line: a rejection carries a hint, the leader resends
 from there, and the exchange goes on until the follower accepts. Also, what an AppendEntries
 that arrives late does to entries the follower has already confirmed.
 */
module Repair {
  import opened Types
  import opened RaftCore
  import opened RaftNode
  import opened Replica
  import opened Replication

  /** A leader and a follower of one term whose logs both stem from elected leaders. */
  ghost predicate Paired(won: map<nat, Reign>, l: Node, f: Node) {
    && l.role.Leader? && !f.role.Leader? && l.term == f.term
    && OnReigns(won, Strip(l.log)) && OnReigns(won, Strip(f.log))
  }

  /** A message that carries all of the leader's log from some point on, and its commit index. */
  ghost predicate Carries(l: Node, m: Message) {
    && m.AppendEntries? && m.term == l.term && Length(m.prevIndex) <= |l.log|
    && m == AppendEntries(l.term, l.id, m.prevIndex, LastTerm(l.log[..Length(m.prevIndex)]), l.log[Length(m.prevIndex)..], l.commit)
  }

  ghost function Receive(f: Node, m: Message): Effect
    requires m.AppendEntries?
  {
    HandleAppendEntries(f, m.term, m.leader, m.prevIndex, m.prevTerm, m.entries, m.leaderCommit)
  }

  predicate Fits(f: Node, m: Message)
    requires m.AppendEntries?
  {
    PrevOk(f.log, m.prevIndex, m.prevTerm)
  }

  /** The leader's state and next message after the follower rejects m. */
  ghost function Retry(l: Node, f: Node, m: Message): Effect
    requires m.AppendEntries? && !Fits(f, m)
  {
    var (conflictTerm, conflictIndex) := Hint(f.log, m.prevIndex.value);
    Resend(l, f.id, conflictTerm, conflictIndex)
  }

  /** The follower's rejection, handled by the leader, is a retry. */
  lemma RejectionIsRetried(l: Node, f: Node, m: Message)
    requires l.role.Leader? && !f.role.Leader? && l.term == f.term && m.AppendEntries? && m.term == l.term && !Fits(f, m)
    ensures Receive(f, m).node == Loyal(f, m.leader) && |Receive(f, m).out| == 1
    ensures var reply := Receive(f, m).out[0]; reply.target == Peer(m.leader) && HandleMessage(l, f.id, reply.message) == Retry(l, f, m)
  {
  }

  /** A log that has a term at or after an index agrees with any log that has that term at the index. */
  lemma SameTermEarlier(won: map<nat, Reign>, p: Log, q: Log, i: nat, j: nat)
    requires OnReigns(won, p) && OnReigns(won, q)
    requires i <= j < |p| && i < |q| && p[j].term == q[i].term
    ensures p[i] == q[i]
  {
    var l := won[q[i].term].log;
    assert p[..j + 1] <= l && q[..i + 1] <= l;
    assert p[..j + 1][i] == p[i] && q[..i + 1][i] == q[i];
  }

  /** The leader always resumes at or before the entry that did not fit. */
  lemma ResumeLower(won: map<nat, Reign>, l: Node, f: Node, m: Message)
    requires Paired(won, l, f) && Carries(l, m) && !Fits(f, m)
    ensures var (conflictTerm, conflictIndex) := Hint(f.log, m.prevIndex.value);
      Resume(l, f.id, conflictTerm, conflictIndex) <= m.prevIndex.value
  {
    var prev := m.prevIndex.value;
    if prev < |f.log| {
      var t := f.log[prev].term;
      assert LastTerm(l.log[..prev + 1]) == l.log[prev].term;
      var after := AfterLastOfTerm(l.log, t);
      if prev < after {
        assert Strip(l.log)[after - 1].term == t && Strip(f.log)[prev].term == t;
        SameTermEarlier(won, Strip(l.log), Strip(f.log), prev, after - 1);
      }
    }
  }

  /** Each round of reject and resend strictly lowers the point the leader sends from, and sends everything after it. */
  lemma RetryLowers(won: map<nat, Reign>, l: Node, f: Node, m: Message)
    requires Paired(won, l, f) && Carries(l, m) && !Fits(f, m)
    ensures var r := Retry(l, f, m); |r.out| == 1 && r.out[0].target == Peer(f.id)
    ensures var r := Retry(l, f, m); Carries(r.node, r.out[0].message) && Length(r.out[0].message.prevIndex) < Length(m.prevIndex)
    ensures var r := Retry(l, f, m); Paired(won, r.node, Loyal(f, m.leader)) && r.node == l.(next := r.node.next)
  {
    ResumeLower(won, l, f, m);
  }

  // ---------- The whole exchange ----------

  /** The follower once it has accepted, and the number of rejections on the way. */
  ghost function Settle(won: map<nat, Reign>, l: Node, f: Node, m: Message): (r: (Node, nat))
    requires Paired(won, l, f) && Carries(l, m)
    decreases Length(m.prevIndex)
  {
    if Fits(f, m) then (Receive(f, m).node, 0)
    else
      RetryLowers(won, l, f, m);
      var next := Retry(l, f, m);
      var (done, rounds) := Settle(won, next.node, Receive(f, m).node, next.out[0].message);
      (done, rounds + 1)
  }

  lemma LearnKeepsLog(n: Node, leaderCommit: Option<nat>, end: nat)
    requires end <= |n.log|
    ensures LearnCommit(n, leaderCommit, end).log == n.log
  {
  }

  lemma ReceivedLog(f: Node, m: Message)
    requires m.AppendEntries? && m.term == f.term && !f.role.Leader? && Fits(f, m)
    ensures Receive(f, m).node.log == if End(m) == 0 then f.log else Merged(f.log, Length(m.prevIndex), m.entries)
  {
    var p := Place(Loyal(f, m.leader), Length(m.prevIndex), m.entries);
    LearnKeepsLog(p, m.leaderCommit, End(m));
  }

  /** All of a log from `start` on, merged where the entry before fits, leaves that log. */
  lemma MergedIsAll(won: map<nat, Reign>, log: LiveLog, l: LiveLog, start: nat)
    requires OnReigns(won, Strip(log)) && OnReigns(won, Strip(l)) && start <= |log| && start <= |l|
    requires 0 < start ==> log[start - 1].term == l[start - 1].term
    ensures Strip(Merged(log, start, l[start..])) == Strip(l)
  {
    assert Strip(l[start..]) == Strip(l)[start..|l|];
    MergedIsLeaders(won, log, Strip(l), start, l[start..]);
    assert Strip(l)[..|l|] == Strip(l);
  }

  /** What an accepted message leaves in the follower's log. */
  lemma AcceptedLog(won: map<nat, Reign>, l: Node, f: Node, m: Message)
    requires Paired(won, l, f) && Carries(l, m) && Fits(f, m)
    ensures l.log != [] ==> Strip(Receive(f, m).node.log) == Strip(l.log)
    ensures l.log == [] ==> Receive(f, m).node.log == f.log
  {
    ReceivedLog(f, m);
    MergedIsAll(won, f.log, l.log, Length(m.prevIndex));
  }

  /**
   Log repair ends and is exact: whatever the leader sends first, it is rejected no more times
   than it reaches back, and then the two logs are the same, if and only if the leader's log has
   an entry or the follower's has none.
   */
  lemma {:induction false} RepairExact(won: map<nat, Reign>, l: Node, f: Node, m: Message)
    requires Paired(won, l, f) && Carries(l, m)
    ensures Settle(won, l, f, m).1 <= Length(m.prevIndex)
    ensures Strip(Settle(won, l, f, m).0.log) == Strip(l.log) <==> l.log != [] || f.log == []
    decreases Length(m.prevIndex)
  {
    if Fits(f, m) {
      AcceptedLog(won, l, f, m);
      if f.log != [] { assert Strip(f.log) != []; }
    } else {
      RetryLowers(won, l, f, m);
      var next := Retry(l, f, m);
      RepairExact(won, next.node, Receive(f, m).node, next.out[0].message);
    }
  }

  // ---------- One rejection a term ----------

  predicate TermsRise(log: LiveLog) { forall i, j :: 0 <= i <= j < |log| ==> log[i].term <= log[j].term }

  /** The terms of the first k entries. */
  ghost function TermsOf(log: LiveLog, k: nat): set<nat>
    requires k <= |log|
  {
    set i | 0 <= i < k :: log[i].term
  }

  /** How often a message that starts after this index can lead to rejections: once if the log is too short, and once a term. */
  ghost function Budget(log: LiveLog, prev: Option<nat>): nat {
    if prev.None? then 0 else if |log| <= prev.value then 1 + |TermsOf(log, |log|)| else |TermsOf(log, prev.value + 1)|
  }

  lemma FewerTerms(log: LiveLog, a: nat, b: nat)
    requires TermsRise(log) && a < b < |log| && log[a].term < log[b].term
    ensures |TermsOf(log, a + 1)| < |TermsOf(log, b + 1)|
  {
    assert log[b].term in TermsOf(log, b + 1);
    assert log[b].term !in TermsOf(log, a + 1);
    assert TermsOf(log, a + 1) <= TermsOf(log, b + 1) - {log[b].term};
    SubsetSize(TermsOf(log, a + 1), TermsOf(log, b + 1) - {log[b].term});
  }

  /** If the follower has an entry where the retry starts, and it does not fit either, its term is an earlier one than the last that did not. */
  lemma RetryEarlierTerm(won: map<nat, Reign>, l: Node, f: Node, m: Message)
    requires Paired(won, l, f) && Carries(l, m) && !Fits(f, m) && TermsRise(f.log) && m.prevIndex.value < |f.log|
    ensures var n := Retry(l, f, m).out[0].message;
      n.AppendEntries? && (n.prevIndex.Some? && !Fits(f, n) ==>
        n.prevIndex.value < m.prevIndex.value && f.log[n.prevIndex.value].term < f.log[m.prevIndex.value].term)
  {
    RetryLowers(won, l, f, m);
    var prev := m.prevIndex.value;
    var t := f.log[prev].term;
    var after := AfterLastOfTerm(l.log, t);
    ResumeLower(won, l, f, m);
    var n := Retry(l, f, m).out[0].message;
    if n.prevIndex.Some? && !Fits(f, n) {
      var p := n.prevIndex.value;
      if after > 0 {
        assert LastTerm(l.log[..p + 1]) == l.log[p].term == t;
      } else {
        assert p + 1 == FirstOfTerm(f.log, t, 0, prev + 1);
      }
    }
  }

  lemma RetryBudget(won: map<nat, Reign>, l: Node, f: Node, m: Message)
    requires Paired(won, l, f) && Carries(l, m) && !Fits(f, m) && TermsRise(f.log)
    ensures var n := Retry(l, f, m).out[0].message; n.AppendEntries? && (Fits(f, n) || Budget(f.log, n.prevIndex) < Budget(f.log, m.prevIndex))
  {
    RetryLowers(won, l, f, m);
    var n := Retry(l, f, m).out[0].message;
    if !Fits(f, n) {
      if m.prevIndex.value < |f.log| {
        RetryEarlierTerm(won, l, f, m);
        FewerTerms(f.log, n.prevIndex.value, m.prevIndex.value);
      } else {
        assert n.prevIndex.value < |f.log|;
        assert TermsOf(f.log, n.prevIndex.value + 1) <= TermsOf(f.log, |f.log|);
        SubsetSize(TermsOf(f.log, n.prevIndex.value + 1), TermsOf(f.log, |f.log|));
      }
    }
  }

  /** What the hints are for: the follower rejects at most once for each term of its log, and once for being short. */
  lemma {:induction false} OneRejectionATerm(won: map<nat, Reign>, l: Node, f: Node, m: Message)
    requires Paired(won, l, f) && Carries(l, m) && TermsRise(f.log)
    ensures Settle(won, l, f, m).1 <= Budget(f.log, m.prevIndex)
    decreases Length(m.prevIndex)
  {
    if !Fits(f, m) {
      RetryLowers(won, l, f, m);
      RetryBudget(won, l, f, m);
      SomeBudget(f, m);
      var next := Retry(l, f, m);
      OneRejectionATerm(won, next.node, Receive(f, m).node, next.out[0].message);
      SettleFits(won, next.node, Receive(f, m).node, next.out[0].message);
    }
  }

  lemma SomeBudget(f: Node, m: Message)
    requires m.AppendEntries? && !Fits(f, m)
    ensures Budget(f.log, m.prevIndex) > 0
  {
    if m.prevIndex.value < |f.log| { assert f.log[m.prevIndex.value].term in TermsOf(f.log, m.prevIndex.value + 1); }
  }

  lemma SettleFits(won: map<nat, Reign>, l: Node, f: Node, m: Message)
    requires Paired(won, l, f) && Carries(l, m)
    ensures Fits(f, m) ==> Settle(won, l, f, m).1 == 0
  {
  }

  // ---------- Messages that arrive late ----------

  /** An AppendEntries of the leader of f's term that reaches `End(m)` entries into that leader's log. */
  ghost predicate Genuine(won: map<nat, Reign>, f: Node, m: Message) {
    && m.AppendEntries? && m.term == f.term && !f.role.Leader? && f.term in won && End(m) <= |won[f.term].log|
    && OnReigns(won, Strip(f.log)) && OnReigns(won, won[f.term].log)
    && Strip(m.entries) == won[f.term].log[Length(m.prevIndex)..End(m)]
    && (m.prevIndex.Some? ==> m.prevTerm == won[f.term].log[m.prevIndex.value].term)
  }

  /**
   Exactly when an accepted message leaves a follower what it already holds of its leader's log:
   it must reach at least as far. Handling a leader's messages in the order they were sent is what
   guarantees this.
   */
  lemma KeepsConfirmed(won: map<nat, Reign>, f: Node, m: Message, k: nat)
    requires Genuine(won, f, m) && Fits(f, m) && 0 < k <= |won[f.term].log| && won[f.term].log[..k] <= Strip(f.log)
    ensures won[f.term].log[..k] <= Strip(Receive(f, m).node.log) <==> End(m) == 0 || k <= End(m)
  {
    ReceivedLog(f, m);
    MergedIsLeaders(won, f.log, won[f.term].log, Length(m.prevIndex), m.entries);
  }
}
