/** Build numbers: row_number() OVER (PARTITION BY project_id ORDER BY created_at), against the count
    that a project summary reports. Rows created at the same time come in any order. */
module BuildNumbers {
  import opened Schema
  import opened Cascade

  /** `order` lists `s` once each, by creation time. */
  ghost predicate WindowOrder(revisions: map<Uuid, DeploymentRevision>, s: set<Uuid>, order: seq<Uuid>)
    requires s <= revisions.Keys
  {
    && (forall r :: r in order <==> r in s)
    && (forall i, j :: 0 <= i < j < |order| ==> order[i] != order[j])
    && (forall i, j :: 0 <= i < j < |order| ==>
        order[i] in s && order[j] in s && revisions[order[i]].createdAt <= revisions[order[j]].createdAt)
  }

  /** Some evaluation of the window function numbers revision `r` of the project with `n`. */
  ghost predicate RowNumber(t: Tables, pid: Uuid, r: Uuid, n: nat) {
    exists order :: WindowOrder(t.revisions, RevisionsOf(t, pid), order) && 1 <= n <= |order| && order[n - 1] == r
  }

  ghost predicate NumberInUse(t: Tables, pid: Uuid, n: nat) {
    exists r :: RowNumber(t, pid, r, n)
  }

  /** Two revisions of the project never share a number. */
  ghost predicate NumbersUnique(t: Tables, pid: Uuid) {
    forall r, s, n: nat ::
      r in RevisionsOf(t, pid) && s in RevisionsOf(t, pid) ==>
        RowNumber(t, pid, r, n) && RowNumber(t, pid, s, n) ==> r == s
  }

  ghost predicate DistinctTimes(t: Tables, pid: Uuid) {
    forall r, s :: r in RevisionsOf(t, pid) && s in RevisionsOf(t, pid) && r != s ==>
        t.revisions[r].createdAt != t.revisions[s].createdAt
  }

  ghost predicate StrictlyNewest(t: Tables, pid: Uuid, r: Uuid) {
    r in RevisionsOf(t, pid)
    && forall s :: s in RevisionsOf(t, pid) && s != r ==> t.revisions[s].createdAt < t.revisions[r].createdAt
  }

  function Earlier(t: Tables, pid: Uuid, r: Uuid): set<Uuid>
    requires r in t.revisions
  {
    set s | s in RevisionsOf(t, pid) && t.revisions[s].createdAt < t.revisions[r].createdAt
  }

  function Elements(order: seq<Uuid>): set<Uuid> { set r | r in order }

  lemma {:induction false} DistinctCount(order: seq<Uuid>)
    requires forall i, j :: 0 <= i < j < |order| ==> order[i] != order[j]
    ensures |Elements(order)| == |order|
  {
    if order != [] {
      var init := order[..|order| - 1];
      DistinctCount(init);
      assert Elements(order) == Elements(init) + {order[|order| - 1]};
    }
  }

  lemma {:induction false} Newest(revisions: map<Uuid, DeploymentRevision>, s: set<Uuid>) returns (m: Uuid)
    requires s != {} && s <= revisions.Keys
    ensures m in s && forall r :: r in s ==> revisions[r].createdAt <= revisions[m].createdAt
    decreases |s|
  {
    m :| m in s;
    assert s == {m} + (s - {m});
    if s - {m} != {} {
      var rest := Newest(revisions, s - {m});
      if revisions[m].createdAt < revisions[rest].createdAt {
        m := rest;
      }
    }
  }

  lemma AppendNewest(revisions: map<Uuid, DeploymentRevision>, s: set<Uuid>, m: Uuid, init: seq<Uuid>)
    requires s <= revisions.Keys && m in s
    requires forall r :: r in s ==> revisions[r].createdAt <= revisions[m].createdAt
    requires WindowOrder(revisions, s - {m}, init)
    ensures WindowOrder(revisions, s, init + [m])
  {
    var order := init + [m];
    forall i, j | 0 <= i < j < |order|
      ensures order[i] != order[j] && order[i] in s && order[j] in s
        && revisions[order[i]].createdAt <= revisions[order[j]].createdAt
    {
      assert order[i] in init;
    }
  }

  /** The window function always has an evaluation. */
  lemma {:induction false} OrderExists(revisions: map<Uuid, DeploymentRevision>, s: set<Uuid>)
      returns (order: seq<Uuid>)
    requires s <= revisions.Keys
    ensures WindowOrder(revisions, s, order)
    decreases |s|
  {
    if s == {} {
      order := [];
    } else {
      var m := Newest(revisions, s);
      var init := OrderExists(revisions, s - {m});
      AppendNewest(revisions, s, m, init);
      order := init + [m];
    }
  }

  /** With distinct creation times the number is one more than the count of older revisions. */
  lemma RowNumberIsRank(t: Tables, pid: Uuid, r: Uuid, n: nat)
    requires DistinctTimes(t, pid) && r in RevisionsOf(t, pid)
    ensures RowNumber(t, pid, r, n) <==> n == 1 + |Earlier(t, pid, r)|
  {
    if RowNumber(t, pid, r, n) {
      var order :| WindowOrder(t.revisions, RevisionsOf(t, pid), order) && 1 <= n <= |order| && order[n - 1] == r;
      OrderRank(t, pid, order, n - 1);
    }
    var order := OrderExists(t.revisions, RevisionsOf(t, pid));
    assert r in order;
    var i :| 0 <= i < |order| && order[i] == r;
    OrderRank(t, pid, order, i);
    assert order[(i + 1) - 1] == r;
    assert RowNumber(t, pid, r, i + 1);
  }

  lemma OrderRank(t: Tables, pid: Uuid, order: seq<Uuid>, i: nat)
    requires DistinctTimes(t, pid) && WindowOrder(t.revisions, RevisionsOf(t, pid), order) && i < |order|
    ensures |Earlier(t, pid, order[i])| == i
  {
    var r := order[i];
    assert r in order;
    forall s ensures s in Elements(order[..i]) <==> s in Earlier(t, pid, r) {
      if s in order[..i] {
        var j :| 0 <= j < i && order[j] == s;
      }
      if s in Earlier(t, pid, r) {
        assert s in order;
        var j :| 0 <= j < |order| && order[j] == s;
        assert j < i;
        assert order[..i][j] == s;
      }
    }
    assert Elements(order[..i]) == Earlier(t, pid, r);
    DistinctCount(order[..i]);
  }

  /** The numbers of a project's revisions are exactly 1..n, each used once. */
  lemma NumbersAreOneToN(t: Tables, pid: Uuid)
    requires DistinctTimes(t, pid)
    ensures NumbersUnique(t, pid)
    ensures forall n: nat :: NumberInUse(t, pid, n) <==> 1 <= n <= |RevisionsOf(t, pid)|
  {
    var order := OrderExists(t.revisions, RevisionsOf(t, pid));
    DistinctCount(order);
    assert Elements(order) == RevisionsOf(t, pid);
    forall n: nat ensures NumberInUse(t, pid, n) <==> 1 <= n <= |RevisionsOf(t, pid)| {
      if 1 <= n <= |order| {
        assert RowNumber(t, pid, order[n - 1], n);
      }
      if NumberInUse(t, pid, n) {
        var r :| RowNumber(t, pid, r, n);
        var o :| WindowOrder(t.revisions, RevisionsOf(t, pid), o) && 1 <= n <= |o| && o[n - 1] == r;
        DistinctCount(o);
        assert Elements(o) == RevisionsOf(t, pid);
      }
    }
    forall r, s, n: nat | r in RevisionsOf(t, pid) && s in RevisionsOf(t, pid) && RowNumber(t, pid, r, n)
        && RowNumber(t, pid, s, n)
      ensures r == s
    {
      RowNumberIsRank(t, pid, r, n);
      RowNumberIsRank(t, pid, s, n);
      if t.revisions[r].createdAt < t.revisions[s].createdAt {
        RankGrows(t, pid, r, s);
      } else if r != s {
        RankGrows(t, pid, s, r);
      }
    }
  }

  lemma RankGrows(t: Tables, pid: Uuid, r: Uuid, s: Uuid)
    requires r in RevisionsOf(t, pid) && s in RevisionsOf(t, pid)
    requires t.revisions[r].createdAt < t.revisions[s].createdAt
    ensures |Earlier(t, pid, r)| < |Earlier(t, pid, s)|
  {
    StrictSubsetCount(Earlier(t, pid, r), Earlier(t, pid, s), r);
  }

  lemma StrictSubsetCount(a: set<Uuid>, b: set<Uuid>, x: Uuid)
    requires a <= b && x in b && x !in a
    ensures |a| < |b|
  {
    assert b == a + (b - a);
    assert x in b - a;
  }

  /** The project keeps its revisions, and a revision it gains is later than all its others. */
  ghost predicate GrowsLater(t: Tables, t': Tables, pid: Uuid) {
    && (forall r :: r in RevisionsOf(t, pid) ==> r in RevisionsOf(t', pid) && t'.revisions[r] == t.revisions[r])
    && (forall r, s :: r in RevisionsOf(t', pid) && r !in RevisionsOf(t, pid) && s in RevisionsOf(t', pid) && s != r ==>
          t'.revisions[s].createdAt < t'.revisions[r].createdAt)
  }

  lemma GrowthKeepsDistinct(t: Tables, t': Tables, pid: Uuid)
    requires GrowsLater(t, t', pid) && DistinctTimes(t, pid)
    ensures DistinctTimes(t', pid)
  {}

  /** A later revision renumbers nothing and takes the next number. */
  lemma GrowthKeepsNumbers(t: Tables, t': Tables, pid: Uuid, r: Uuid, n: nat)
    requires GrowsLater(t, t', pid) && DistinctTimes(t, pid)
    ensures r in RevisionsOf(t, pid) ==> (RowNumber(t', pid, r, n) <==> RowNumber(t, pid, r, n))
    ensures r in RevisionsOf(t', pid) && r !in RevisionsOf(t, pid) ==>
      (RowNumber(t', pid, r, n) <==> n == |RevisionsOf(t, pid)| + 1)
  {
    GrowthKeepsDistinct(t, t', pid);
    if r in RevisionsOf(t, pid) {
      assert Earlier(t', pid, r) == Earlier(t, pid, r);
      RowNumberIsRank(t, pid, r, n);
      RowNumberIsRank(t', pid, r, n);
    } else if r in RevisionsOf(t', pid) {
      assert Earlier(t', pid, r) == RevisionsOf(t, pid);
      RowNumberIsRank(t', pid, r, n);
    }
  }

  /** Inserting a revision never renumbers another project's revisions, and renumbers none of its own
      project's when it is created last. */
  lemma NumbersAreStable(t: Tables, row: DeploymentRevision, pid: Uuid, r: Uuid, n: nat)
    requires InsertRevision(t, row).Some? && r in RevisionsOf(t, pid)
    requires pid == row.projectId ==> DistinctTimes(t, pid) && StrictlyNewest(InsertRevision(t, row).value, pid, row.id)
    ensures RowNumber(InsertRevision(t, row).value, pid, r, n) <==> RowNumber(t, pid, r, n)
    ensures pid == row.projectId ==>
      (RowNumber(InsertRevision(t, row).value, pid, row.id, n) <==> n == |RevisionsOf(t, pid)| + 1)
  {
    var t' := InsertRevision(t, row).value;
    if pid == row.projectId {
      assert RevisionsOf(t', pid) == RevisionsOf(t, pid) + {row.id};
      GrowthKeepsNumbers(t, t', pid, r, n);
      GrowthKeepsNumbers(t, t', pid, row.id, n);
    } else {
      assert RevisionsOf(t', pid) == RevisionsOf(t, pid);
      forall order ensures WindowOrder(t'.revisions, RevisionsOf(t, pid), order)
          <==> WindowOrder(t.revisions, RevisionsOf(t, pid), order) {}
    }
  }

  lemma NewestIsLast(t: Tables, pid: Uuid, latest: Uuid, order: seq<Uuid>, n: nat)
    requires StrictlyNewest(t, pid, latest)
    requires WindowOrder(t.revisions, RevisionsOf(t, pid), order) && 1 <= n <= |order| && order[n - 1] == latest
    ensures n == |RevisionsOf(t, pid)|
  {
    DistinctCount(order);
    assert Elements(order) == RevisionsOf(t, pid);
    assert order[|order| - 1] in order;
    assert order[|order| - 1] == latest;
  }

  lemma TiedMayComeEarlier(t: Tables, pid: Uuid, latest: Uuid) returns (n: nat)
    requires latest in RevisionsOf(t, pid) && !StrictlyNewest(t, pid, latest)
    ensures RowNumber(t, pid, latest, n) && n < |RevisionsOf(t, pid)|
  {
    var all := RevisionsOf(t, pid);
    var other :| other in all && other != latest && t.revisions[other].createdAt >= t.revisions[latest].createdAt;
    assert other in all - {latest};
    var m := Newest(t.revisions, all - {latest});
    assert t.revisions[latest].createdAt <= t.revisions[m].createdAt;
    var init := OrderExists(t.revisions, all - {m});
    AppendNewest(t.revisions, all, m, init);
    n := PlaceBefore(t.revisions, init, m, all, latest);
    assert (init + [m])[n - 1] == latest;
  }

  /** An element other than the last has an earlier place. */
  lemma PlaceBefore(revisions: map<Uuid, DeploymentRevision>, init: seq<Uuid>, m: Uuid, all: set<Uuid>, latest: Uuid)
      returns (n: nat)
    requires all <= revisions.Keys && WindowOrder(revisions, all, init + [m]) && latest in all && latest != m
    ensures 1 <= n <= |init| && n < |all| && init[n - 1] == latest
  {
    var order := init + [m];
    DistinctCount(order);
    assert Elements(order) == all;
    assert latest in order;
    var i :| 0 <= i < |order| && order[i] == latest;
    n := i + 1;
  }

  /** The number of the latest revision equals the count in the summary, whatever order ties are
      given, exactly when that revision is strictly the newest of its project. */
  lemma LatestNumberIsCountIff(t: Tables, pid: Uuid, latest: Uuid)
    requires latest in RevisionsOf(t, pid)
    ensures (forall n: nat :: RowNumber(t, pid, latest, n) ==> n == |RevisionsOf(t, pid)|)
       <==> StrictlyNewest(t, pid, latest)
  {
    if StrictlyNewest(t, pid, latest) {
      forall n: nat | RowNumber(t, pid, latest, n) ensures n == |RevisionsOf(t, pid)| {
        var order :| WindowOrder(t.revisions, RevisionsOf(t, pid), order) && 1 <= n <= |order|
            && order[n - 1] == latest;
        NewestIsLast(t, pid, latest, order, n);
      }
    } else {
      var n := TiedMayComeEarlier(t, pid, latest);
    }
  }
}
