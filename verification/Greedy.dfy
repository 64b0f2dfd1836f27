/** How good one pass is, and which stages the concurrency limit lets through. */
module Greedy {
  import opened Core
  import opened Queue
  import opened Sets

  // ---------- quality of the greedy pass ----------

  /** A one-to-one assignment of eligible stages to workers that match them. */
  ghost predicate Assignment(items: seq<Stage>, workers: set<Worker>, m: set<(int, Worker)>) {
    && (forall p :: p in m ==>
          0 <= p.0 < |items| && Eligible(items, p.0) && p.1 in workers && Matches(p.1.platform, items[p.0].platform))
    && (forall p, q :: p in m && q in m && (p.0 == q.0 || p.1 == q.1) ==> p == q)
  }

  lemma {:induction false} FirstsBound<A, B>(m: set<(A, B)>, s: set<A>)
    requires forall p :: p in m ==> p.0 in s
    requires forall p, q :: p in m && q in m && p.0 == q.0 ==> p == q
    ensures |m| <= |s|
    decreases |m|
  {
    if m != {} {
      var p :| p in m;
      FirstsBound(m - {p}, s - {p.0});
    }
  }

  lemma {:induction false} SecondsBound<A, B>(m: set<(A, B)>, s: set<B>)
    requires forall p :: p in m ==> p.1 in s
    requires forall p, q :: p in m && q in m && p.1 == q.1 ==> p == q
    ensures |m| <= |s|
    decreases |m|
  {
    if m != {} {
      var p :| p in m;
      SecondsBound(m - {p}, s - {p.1});
    }
  }

  lemma {:induction false} DeliverySize(ds: seq<Delivery>)
    ensures |set k | 0 <= k < |ds| :: ds[k].index| <= |ds|
    ensures |set k | 0 <= k < |ds| :: ds[k].worker| <= |ds|
  {
    if |ds| == 0 {
    } else {
      var n := |ds| - 1;
      DeliverySize(ds[..n]);
      assert (set k | 0 <= k < |ds| :: ds[k].index) == (set k | 0 <= k < n :: ds[..n][k].index) + {ds[n].index};
      assert (set k | 0 <= k < |ds| :: ds[k].worker) == (set k | 0 <= k < n :: ds[..n][k].worker) + {ds[n].worker};
    }
  }

  /** Every pair of an assignment has a delivered stage or a used worker. */
  lemma Covered(items: seq<Stage>, before: set<Worker>, after: set<Worker>, ds: seq<Delivery>, i: int, w: Worker)
    requires PassOK(items, before, after, ds)
    requires 0 <= i < |items| && Eligible(items, i) && w in before && Matches(w.platform, items[i].platform)
    ensures Delivered(ds, i) || Used(ds, w)
  {
  }

  /** Greedy quality: a pass delivers at least half as many stages as any valid
      one-to-one assignment of the same eligible stages to the same workers. */
  lemma GreedyIsHalfOptimal(items: seq<Stage>, before: set<Worker>, after: set<Worker>, ds: seq<Delivery>,
                            m: set<(int, Worker)>)
    requires PassOK(items, before, after, ds) && Assignment(items, before, m)
    ensures |m| <= 2 * |ds|
  {
    var stages := set k | 0 <= k < |ds| :: ds[k].index;
    var used := set k | 0 <= k < |ds| :: ds[k].worker;
    var m1 := set p | p in m && p.0 in stages;
    var m2 := m - m1;
    forall p | p in m2 ensures p.1 in used {
      Covered(items, before, after, ds, p.0, p.1);
    }
    HalfCount(m, m1, m2, stages, used);
    DeliverySize(ds);
  }

  lemma HalfCount(m: set<(int, Worker)>, m1: set<(int, Worker)>, m2: set<(int, Worker)>, stages: set<int>,
                  used: set<Worker>)
    requires m2 == m - m1 && m1 <= m
    requires forall p, q :: p in m && q in m && (p.0 == q.0 || p.1 == q.1) ==> p == q
    requires (forall p :: p in m1 ==> p.0 in stages) && (forall p :: p in m2 ==> p.1 in used)
    ensures |m| <= |stages| + |used|
  {
    FirstsBound(m1, stages);
    SecondsBound(m2, used);
    assert m == m1 + m2;
    assert |m| == |m1| + |m2|;
  }

  // ---------- the limit in one snapshot ----------

  /** The listed stages of one repository and name. */
  ghost function Group(items: seq<Stage>, repo: int, name: string): set<int> {
    set i | 0 <= i < |items| && items[i].repoId == repo && items[i].name == name :: items[i].id
  }

  ghost function Below(ids: set<int>, x: int): set<int> {
    set y | y in ids && y < x
  }

  ghost predicate Distinct(items: seq<Stage>) {
    forall i, j :: 0 <= i < j < |items| ==> items[i].id != items[j].id
  }

  /** The count of the loop is the number of smaller ids in the group. */
  lemma {:induction false} CountIsBelow(stage: Stage, items: seq<Stage>)
    requires Distinct(items)
    ensures CountOlder(stage, items) == |Below(Group(items, stage.repoId, stage.name), stage.id)|
  {
    if |items| == 0 {
      assert Below(Group(items, stage.repoId, stage.name), stage.id) == {};
    } else {
      var n := |items| - 1;
      var rest := items[..n];
      CountIsBelow(stage, rest);
      var g, g' := Group(items, stage.repoId, stage.name), Group(rest, stage.repoId, stage.name);
      GroupGrows(items, stage.repoId, stage.name);
      if Older(items[n], stage) {
        assert Below(g, stage.id) == Below(g', stage.id) + {items[n].id};
      } else {
        assert Below(g, stage.id) == Below(g', stage.id);
      }
    }
  }

  lemma GroupGrows(items: seq<Stage>, repo: int, name: string)
    requires |items| > 0 && Distinct(items)
    ensures var n := |items| - 1;
      var g' := Group(items[..n], repo, name);
      && items[n].id !in g'
      && Group(items, repo, name) == if items[n].repoId == repo && items[n].name == name then g' + {items[n].id} else g'
  {
    var n := |items| - 1;
    forall x ensures x in Group(items, repo, name) <==>
        x in Group(items[..n], repo, name) || (x == items[n].id && items[n].repoId == repo && items[n].name == name)
    {
      if x in Group(items[..n], repo, name) {
        var i :| 0 <= i < n && items[..n][i].repoId == repo && items[..n][i].name == name && items[..n][i].id == x;
        assert items[i].id == x;
      }
      if x in Group(items, repo, name) {
        var i :| 0 <= i < |items| && items[i].repoId == repo && items[i].name == name && items[i].id == x;
        assert i < n ==> items[..n][i].id == x;
      }
    }
  }

  ghost function Low(ids: set<int>, limit: int): set<int> {
    set x | x in ids && |Below(ids, x)| < limit
  }

  ghost function Min(a: int, b: int): int {
    if a < b then a else b
  }

  /** Of any set of ids, exactly min(limit, n) have fewer than limit below them,
      and they are the smallest. */
  lemma {:induction false} LowestPass(ids: set<int>, limit: int)
    requires limit >= 0
    ensures |Low(ids, limit)| == Min(limit, |ids|)
    ensures forall x, y :: x in Low(ids, limit) && y in ids && y !in Low(ids, limit) ==> x < y
    decreases |ids|
  {
    if |ids| == 0 {
      assert Low(ids, limit) == {};
    } else {
      var m := Largest(ids);
      var rest := ids - {m};
      LowestPass(rest, limit);
      assert Below(ids, m) == rest;
      forall x | x in rest ensures Below(ids, x) == Below(rest, x) {
      }
      if |rest| < limit {
        assert Low(ids, limit) == Low(rest, limit) + {m};
      } else {
        assert Low(ids, limit) == Low(rest, limit);
      }
      forall x, y | x in Low(ids, limit) && y in ids && y !in Low(ids, limit) ensures x < y {
        if y <= x {
          BelowGrows(ids, x, y);
        }
      }
    }
  }

  lemma BelowGrows(ids: set<int>, x: int, y: int)
    requires y <= x
    ensures |Below(ids, y)| <= |Below(ids, x)|
  {
    SubsetSize(Below(ids, y), Below(ids, x));
  }

  /** The limit in one snapshot: of the n listed stages that share a repository, a
      name and a limit, exactly the min(limit, n) smallest ids pass. */
  lemma LimitPassesSmallest(items: seq<Stage>, repo: int, name: string, limit: int)
    requires Distinct(items) && limit > 0
    requires forall i :: 0 <= i < |items| && items[i].repoId == repo && items[i].name == name ==>
               items[i].limit == limit
    ensures var g := Group(items, repo, name);
      && |Low(g, limit)| == Min(limit, |g|)
      && (forall x, y :: x in Low(g, limit) && y in g && y !in Low(g, limit) ==> x < y)
      && (forall i :: 0 <= i < |items| && items[i].repoId == repo && items[i].name == name ==>
            (WithinLimits(items[i], items) <==> items[i].id in Low(g, limit)))
  {
    LowestPass(Group(items, repo, name), limit);
    forall i | 0 <= i < |items| && items[i].repoId == repo && items[i].name == name
      ensures WithinLimits(items[i], items) <==> items[i].id in Low(Group(items, repo, name), limit)
    {
      CountIsBelow(items[i], items);
    }
  }
}
