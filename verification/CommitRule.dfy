/** The leader's commit rule: sort what the replicas are known to hold and take the quorum-th. */
module CommitRule {
  import opened Types
  import opened RaftNode

  lemma HoldersShrink(matched: map<NodeId, Option<nat>>, j: nat, k: nat)
    requires j <= k
    ensures Holders(matched, k) <= Holders(matched, j) && |Holders(matched, k)| <= |Holders(matched, j)|
  {
    SubsetSize(Holders(matched, k), Holders(matched, j));
  }

  /** The most entries q replicas hold is one number. */
  lemma MostHeldUnique(matched: map<NodeId, Option<nat>>, q: nat, j: nat, k: nat)
    requires MostHeld(matched, q, j) && MostHeld(matched, q, k)
    ensures j == k
  {
    if j < k { HoldersShrink(matched, j + 1, k); }
    if k < j { HoldersShrink(matched, k + 1, j); }
  }

  type Row = (NodeId, Option<nat>)

  ghost function Names(rows: seq<Row>): set<NodeId> { set i | 0 <= i < |rows| :: rows[i].0 }

  /** The rows of the map for these names, each once. */
  ghost predicate Lists(rows: seq<Row>, matched: map<NodeId, Option<nat>>, names: set<NodeId>) {
    && Names(rows) == names
    && (forall i :: 0 <= i < |rows| ==> rows[i].0 in matched && rows[i].1 == matched[rows[i].0])
    && (forall i, j :: 0 <= i < j < |rows| ==> rows[i].0 != rows[j].0)
  }

  ghost predicate Descending(rows: seq<Row>) {
    forall i, j :: 0 <= i < j < |rows| ==> Length(rows[i].1) >= Length(rows[j].1)
  }

  lemma {:induction false} NamesCount(rows: seq<Row>)
    requires forall i, j :: 0 <= i < j < |rows| ==> rows[i].0 != rows[j].0
    ensures |Names(rows)| == |rows|
  {
    if rows != [] {
      var k := |rows| - 1;
      NamesCount(rows[..k]);
      assert Names(rows) == Names(rows[..k]) + {rows[k].0};
      assert rows[k].0 !in Names(rows[..k]);
    }
  }

  /** In descending order, the q-th row holds exactly what q replicas hold. */
  lemma QuorumthIsHeld(rows: seq<Row>, matched: map<NodeId, Option<nat>>, q: nat)
    requires Lists(rows, matched, matched.Keys) && Descending(rows) && 0 < q <= |rows|
    ensures MostHeld(matched, q, Length(rows[q - 1].1))
  {
    var k := Length(rows[q - 1].1);
    NamesCount(rows[..q]);
    assert Names(rows[..q]) <= Holders(matched, k);
    SubsetSize(Names(rows[..q]), Holders(matched, k));
    NamesCount(rows[..q - 1]);
    assert Holders(matched, k + 1) <= Names(rows[..q - 1]) by {
      forall w {:trigger w in Holders(matched, k + 1)} | w in Holders(matched, k + 1) ensures w in Names(rows[..q - 1]) {
        assert w in Names(rows);
        var i :| 0 <= i < |rows| && rows[i].0 == w;
        assert i < q - 1;
        assert rows[..q - 1][i] == rows[i];
      }
    }
    SubsetSize(Holders(matched, k + 1), Names(rows[..q - 1]));
  }

  /** Where a value belongs in descending order. */
  method FindPlace(rows: seq<Row>, value: Option<nat>) returns (at: nat)
    requires Descending(rows)
    ensures at <= |rows|
    ensures forall i :: 0 <= i < at ==> Length(rows[i].1) >= Length(value)
    ensures forall i :: at <= i < |rows| ==> Length(rows[i].1) < Length(value)
  {
    at := 0;
    while at < |rows| && Length(rows[at].1) >= Length(value)
      invariant at <= |rows|
      invariant forall i :: 0 <= i < at ==> Length(rows[i].1) >= Length(value)
    {
      at := at + 1;
    }
  }

  function Inserted(rows: seq<Row>, at: nat, row: Row): (r: seq<Row>)
    requires at <= |rows|
    ensures |r| == |rows| + 1
    ensures forall i :: 0 <= i < |r| ==> r[i] == if i < at then rows[i] else if i == at then row else rows[i - 1]
  {
    rows[..at] + [row] + rows[at..]
  }

  lemma InsertedNames(rows: seq<Row>, at: nat, row: Row)
    requires at <= |rows|
    ensures Names(Inserted(rows, at, row)) == Names(rows) + {row.0}
  {
    var more := Inserted(rows, at, row);
    forall x | x in Names(rows) + {row.0} ensures x in Names(more) {
      if x == row.0 {
        assert more[at].0 == x;
      } else {
        var i :| 0 <= i < |rows| && rows[i].0 == x;
        assert more[if i < at then i else i + 1].0 == x;
      }
    }
  }

  lemma InsertedLists(rows: seq<Row>, matched: map<NodeId, Option<nat>>, names: set<NodeId>, w: NodeId, at: nat)
    requires Lists(rows, matched, names) && w in matched && w !in names && at <= |rows|
    ensures Lists(Inserted(rows, at, (w, matched[w])), matched, names + {w})
  {
    InsertedNames(rows, at, (w, matched[w]));
    forall i | 0 <= i < |rows| ensures rows[i].0 != w {
      assert rows[i].0 in Names(rows);
    }
  }

  /** The match indexes, sorted from the highest down. */
  method SortedMatches(matched: map<NodeId, Option<nat>>) returns (rows: seq<Row>)
    ensures Lists(rows, matched, matched.Keys) && Descending(rows) && |rows| == |matched|
  {
    rows := [];
    var rest := matched.Keys;
    ghost var done := {};
    while rest != {}
      invariant rest + done == matched.Keys && rest !! done
      invariant Lists(rows, matched, done) && Descending(rows)
      decreases rest
    {
      var w :| w in rest;
      var at := FindPlace(rows, matched[w]);
      InsertedLists(rows, matched, done, w, at);
      rows := Inserted(rows, at, (w, matched[w]));
      rest, done := rest - {w}, done + {w};
    }
    NamesCount(rows);
  }

  /** The quorum-th row, from the highest down, holds what a quorum holds. */
  lemma QuorumthIs(rows: seq<Row>, matched: map<NodeId, Option<nat>>, q: nat)
    requires Lists(rows, matched, matched.Keys) && Descending(rows) && 0 < q <= |rows| == |matched|
    ensures Length(rows[q - 1].1) == HeldBy(matched, q)
  {
    QuorumthIsHeld(rows, matched, q);
    HeldByMeans(matched, q);
    MostHeldUnique(matched, q, Length(rows[q - 1].1), HeldBy(matched, q));
  }

  // ---------- Figure 2, Rules for Servers ----------

  /** Index k - 1 is above the commit index, of the current term, and on a majority. */
  ghost predicate Committable(n: Node, k: nat) {
    Length(n.commit) < k <= |n.log| && n.log[k - 1].term == n.term && 2 * |Holders(n.matched, k)| > n.size
  }

  /** Terms never fall along the log and stay within the current one; no replica is taken to hold more than the log. */
  ghost predicate LeaderSane(n: Node) {
    && (forall i, j :: 0 <= i <= j < |n.log| ==> n.log[i].term <= n.log[j].term <= n.term)
    && (forall w :: w in n.matched ==> Length(n.matched[w]) <= |n.log|)
  }

  lemma BestWithinLog(n: Node, k: nat)
    requires LeaderSane(n) && |Holders(n.matched, k)| > 0
    ensures k <= |n.log|
  {
    var w :| w in Holders(n.matched, k);
  }

  lemma CommittableBounds(n: Node, k: nat)
    requires LeaderSane(n) && Committable(n, k)
    ensures Quorum(n.size) <= |n.matched|
    ensures k <= HeldBy(n.matched, Quorum(n.size)) <= |n.log|
    ensures Committable(n, HeldBy(n.matched, Quorum(n.size)))
  {
    SubsetSize(Holders(n.matched, k), n.matched.Keys);
    var q := Quorum(n.size);
    var best := HeldBy(n.matched, q);
    HeldByMeans(n.matched, q);
    BestWithinLog(n, best);
    if best < k { HoldersShrink(n.matched, best + 1, k); }
  }

  /**
   The rule is sound and complete: the commit index moves if and only if some index is
   committable, and then it moves to the highest one. It never moves back.
   */
  lemma CommitRuleExact(n: Node)
    requires LeaderSane(n)
    ensures TryAdvance(n).commit != n.commit <==> exists k: nat :: Committable(n, k)
    ensures TryAdvance(n).commit != n.commit ==> Committable(n, Length(TryAdvance(n).commit))
    ensures forall k: nat :: Committable(n, k) ==> k <= Length(TryAdvance(n).commit)
    ensures Length(n.commit) <= Length(TryAdvance(n).commit)
  {
    var q := Quorum(n.size);
    if q <= |n.matched| { HeldByMeans(n.matched, q); }
    forall k: nat | Committable(n, k)
      ensures q <= |n.matched| && k <= HeldBy(n.matched, q) && Committable(n, HeldBy(n.matched, q))
    {
      CommittableBounds(n, k);
    }
    if TryAdvance(n).commit != n.commit { assert Committable(n, HeldBy(n.matched, q)); }
  }
}
