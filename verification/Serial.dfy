/** A teardown that no other writer disturbs, as one step: what its two loops and the
    build update make of the tables, and the outcome row by row. */
module Serial {
  import opened Core
  import opened Store
  import opened Teardown
  import opened Deps
  import Protocol

  function ClosedBuild(b: Build, list: seq<Stage>, end: int): Build {
    if BuildComplete(list) then b.(status := Verdict(list), finished := end, version := b.version + 1) else b
  }

  /** The rows and the list after both teardown loops. */
  function Swept(rows: Stages, curr: Stage, list: seq<Stage>, skips: Clock, releases: Clock): (Stages, seq<Stage>) {
    var (rows1, list1) := SkipFrom(rows, list, 0, Deps.AnyFailed(list), skips);
    ReleaseFrom(rows1, curr, list1, 0, releases)
  }

  // ---------- what one teardown does to each row ----------

  ghost predicate SameKey(a: Stage, b: Stage) {
    a.id == b.id && a.buildId == b.buildId && a.number == b.number && a.name == b.name && a.dependsOn == b.dependsOn
    && a.onSuccess == b.onSuccess && a.onFailure == b.onFailure && a.machine == b.machine
  }

  /** The release condition, read off the rows after the teardown: curr is a dependency,
      no dependency is unfinished, and none has a later stamp, or the same stamp and a
      larger number. */
  ghost predicate Releasable(rows: Stages, curr: int, x: int) {
    && DepOf(rows, curr, x)
    && (forall d :: DepOf(rows, d, x) ==>
          && rows[d].status !in {Waiting, Blocked, Pending, Running}
          && (rows[d].updated < rows[curr].updated
              || (rows[d].updated == rows[curr].updated && rows[d].number <= rows[curr].number)))
  }

  ghost predicate SkippedNow(r: Stage, r': Stage) {
    r' == r.(status := Skipped, started := r'.started, stopped := r'.started, version := r.version + 1)
  }

  ghost predicate ReleasedNow(r: Stage, r': Stage) {
    r' == r.(status := Pending, updated := r'.updated, version := r.version + 1)
  }

  /** The outcome of a teardown of curr for row x: from rows (with the report
      stored) to rows'. */
  ghost predicate Outcome(rows: Stages, rows': Stages, curr: int, x: int)
    requires x in rows && x in rows' && curr in rows
  {
    var b, r, r' := rows[curr].buildId, rows[x], rows'[x];
    var failed := exists id :: id in rows && rows[id].buildId == b && rows[id].status in {Killed, Failing, Errored};
    if r.buildId != b || r.status != Waiting then r' == r
    else if !(if failed then r.onFailure else r.onSuccess) then SkippedNow(r, r')
    else if Releasable(rows', curr, x) then ReleasedNow(r, r')
    else r' == r
  }

  lemma ListingMirrors(rows: Stages, b: int, list: seq<Stage>)
    requires Protocol.IsListing(rows, b, list)
    ensures Mirror(rows, list)
    ensures Deps.AnyFailed(list) <==> BuildFailed(rows, b)
  {
    if BuildFailed(rows, b) {
      var id :| id in rows && rows[id].buildId == b && rows[id].IsFailed();
      assert rows[id] in list;
    }
  }

  /** Three lists of a teardown: listed, after the skips, after the releases. */
  ghost predicate Passes(rows: Stages, rows': Stages, curr: Stage, b: int, failed: bool,
                         l0: seq<Stage>, l1: seq<Stage>, l2: seq<Stage>) {
    && Protocol.IsListing(rows, b, l0) && Mirror(rows', l2) && Untouched(rows, rows', l0)
    && |l0| == |l1| == |l2| && curr.id in rows && rows[curr.id] == curr && curr.buildId == b && curr.IsDone()
    && (forall j :: 0 <= j < |l0| ==> SameKey(l0[j], l1[j]) && SameKey(l1[j], l2[j]))
    && (forall j :: 0 <= j < |l0| ==>
          if Deps.MustSkip(l0[j], failed) then SkippedNow(l0[j], l1[j]) else l1[j] == l0[j])
    && (forall j :: 0 <= j < |l0| ==>
          if Deps.MustRelease(curr, l1[j], l1) then ReleasedNow(l1[j], l2[j]) else l2[j] == l1[j])
  }

  lemma SkipPass(rows: Stages, list: seq<Stage>, failed: bool, skips: Clock)
    requires Mirror(rows, list)
    ensures var (rows1, l1) := SkipFrom(rows, list, 0, failed, skips);
      && Mirror(rows1, l1) && Untouched(rows, rows1, list)
      && (forall j :: 0 <= j < |list| ==> SameKey(list[j], l1[j]))
      && (forall j :: 0 <= j < |list| ==>
            if Deps.MustSkip(list[j], failed) then SkippedNow(list[j], l1[j]) else l1[j] == list[j])
  {
    SkipPointwise(rows, list, 0, failed, skips);
  }

  lemma ReleasePass(rows: Stages, curr: Stage, list: seq<Stage>, releases: Clock)
    requires Mirror(rows, list)
    ensures var (rows1, l1) := ReleaseFrom(rows, curr, list, 0, releases);
      && Mirror(rows1, l1) && Untouched(rows, rows1, list)
      && (forall j :: 0 <= j < |list| ==> SameKey(list[j], l1[j]))
      && (forall j :: 0 <= j < |list| ==>
            if Deps.MustRelease(curr, list[j], list) then ReleasedNow(list[j], l1[j]) else l1[j] == list[j])
  {
    ReleasePointwise(rows, curr, list, 0, releases);
  }

  lemma SweptPasses(rows: Stages, curr: Stage, b: int, list: seq<Stage>, skips: Clock, releases: Clock)
    returns (l1: seq<Stage>)
    requires Protocol.IsListing(rows, b, list) && curr.id in rows && rows[curr.id] == curr && curr.buildId == b
    requires curr.IsDone()
    ensures var (rows', list') := Swept(rows, curr, list, skips, releases);
      Passes(rows, rows', curr, b, Deps.AnyFailed(list), list, l1, list')
  {
    ListingMirrors(rows, b, list);
    SkipPass(rows, list, Deps.AnyFailed(list), skips);
    var (rows1, list1) := SkipFrom(rows, list, 0, Deps.AnyFailed(list), skips);
    ReleasePass(rows1, curr, list1, releases);
    l1 := list1;
  }

  lemma PassesAt(rows: Stages, rows': Stages, curr: Stage, b: int, failed: bool,
                 l0: seq<Stage>, l1: seq<Stage>, l2: seq<Stage>, x: int) returns (j: nat)
    requires Passes(rows, rows', curr, b, failed, l0, l1, l2) && x in rows && rows[x].id == x && rows[x].buildId == b
    ensures j < |l0| && l0[j] == rows[x] && x in rows' && l2[j] == rows'[x] && l2[j].id == x
  {
    assert rows[x] in l0;
    j :| j < |l0| && l0[j] == rows[x];
    assert SameKey(l0[j], l1[j]) && SameKey(l1[j], l2[j]);
  }

  /** The release tests on the working list agree with the final rows. */
  lemma ReleaseAgrees(rows: Stages, rows': Stages, curr: Stage, b: int, failed: bool,
                      l0: seq<Stage>, l1: seq<Stage>, l2: seq<Stage>, j: nat)
    requires Passes(rows, rows', curr, b, failed, l0, l1, l2) && j < |l0| && l1[j].status.Waiting?
    requires forall id :: id in rows ==> rows[id].id == id
    ensures Deps.MustRelease(curr, l1[j], l1) <==> Releasable(rows', curr.id, l0[j].id)
  {
    var x := l0[j].id;
    assert SameKey(l0[j], l1[j]) && SameKey(l1[j], l2[j]);
    var c := PassesAt(rows, rows', curr, b, failed, l0, l1, l2, curr.id);
    assert l2[c] == curr;
    if Deps.MustRelease(curr, l1[j], l1) {
      forall d | DepOf(rows', d, x) ensures rows'[d].IsDone() && !Deps.Later(rows'[d], rows'[curr.id]) {
        DepListed(rows, rows', curr, b, failed, l0, l1, l2, d, x);
        var k := PassesAt(rows, rows', curr, b, failed, l0, l1, l2, d);
        assert SameKey(l1[k], l2[k]);
        assert l1[k] in l1 && Deps.IsDep(l1[k], l1[j]);
      }
    }
    if Releasable(rows', curr.id, x) {
      forall s | s in l1 && Deps.IsDep(s, l1[j]) ensures s.IsDone() && !Deps.Later(s, curr) {
        var k :| 0 <= k < |l1| && l1[k] == s;
        assert SameKey(l0[k], l1[k]) && SameKey(l1[k], l2[k]);
        assert DepOf(rows', l2[k].id, x);
      }
    }
  }

  lemma DepListed(rows: Stages, rows': Stages, curr: Stage, b: int, failed: bool,
                  l0: seq<Stage>, l1: seq<Stage>, l2: seq<Stage>, d: int, x: int)
    requires Passes(rows, rows', curr, b, failed, l0, l1, l2) && DepOf(rows', d, x)
    requires forall id :: id in rows ==> rows[id].id == id
    requires exists j :: 0 <= j < |l0| && l0[j].id == x
    ensures d in rows && rows[d].buildId == b
  {
    var j :| 0 <= j < |l0| && l0[j].id == x;
    assert SameKey(l0[j], l1[j]) && SameKey(l1[j], l2[j]);
    if k :| 0 <= k < |l0| && l0[k].id == d {
      assert l0[k] == rows[d];
    }
  }

  /** The whole teardown, row by row. */
  lemma TeardownOutcome(rows: Stages, curr: Stage, b: int, list: seq<Stage>, skips: Clock, releases: Clock, x: int)
    requires Protocol.IsListing(rows, b, list) && curr.id in rows && rows[curr.id] == curr && curr.buildId == b
    requires curr.IsDone()
    requires forall id :: id in rows ==> rows[id].id == id
    requires x in rows
    ensures var rows' := Swept(rows, curr, list, skips, releases).0;
      rows'.Keys == rows.Keys && Outcome(rows, rows', curr.id, x)
  {
    var (rows', list') := Swept(rows, curr, list, skips, releases);
    var failed := Deps.AnyFailed(list);
    ListingMirrors(rows, b, list);
    var l1 := SweptPasses(rows, curr, b, list, skips, releases);
    if rows[x].buildId == b {
      var j := PassesAt(rows, rows', curr, b, failed, list, l1, list', x);
      assert SameKey(list[j], l1[j]) && SameKey(l1[j], list'[j]);
      if l1[j].status.Waiting? {
        ReleaseAgrees(rows, rows', curr, b, failed, list, l1, list', j);
      }
    }
  }

  // ---------- the list and the verdict ----------

  /** After both loops the list is still the listing of the build. */
  lemma {:induction false} SweptListing(rows: Stages, curr: Stage, b: int, list: seq<Stage>, skips: Clock,
                                        releases: Clock)
    requires Protocol.IsListing(rows, b, list) && forall id :: id in rows ==> rows[id].id == id
    ensures var (rows', list') := Swept(rows, curr, list, skips, releases);
      && Protocol.IsListing(rows', b, list') && rows'.Keys == rows.Keys
      && forall id :: id in rows' ==> rows'[id].id == id
  {
    ListingMirrors(rows, b, list);
    SkipPass(rows, list, Deps.AnyFailed(list), skips);
    var (rows1, list1) := SkipFrom(rows, list, 0, Deps.AnyFailed(list), skips);
    MirrorLists(rows, rows1, b, list, list1);
    ReleasePass(rows1, curr, list1, releases);
    var (rows2, list2) := ReleaseFrom(rows1, curr, list1, 0, releases);
    MirrorLists(rows1, rows2, b, list1, list2);
  }

  lemma {:induction false} MirrorLists(rows: Stages, rows': Stages, b: int, list: seq<Stage>, list': seq<Stage>)
    requires Protocol.IsListing(rows, b, list) && (forall id :: id in rows ==> rows[id].id == id)
    requires Mirror(rows', list') && Untouched(rows, rows', list) && |list'| == |list|
    requires forall j :: 0 <= j < |list| ==> SameKey(list[j], list'[j])
    ensures Protocol.IsListing(rows', b, list') && forall id :: id in rows' ==> rows'[id].id == id
  {
    forall id | id in rows'
      ensures rows'[id].id == id && (rows'[id].buildId == b ==> rows'[id] in list')
    {
      if j :| 0 <= j < |list| && list[j].id == id {
        assert SameKey(list[j], list'[j]) && list'[j] in list';
      } else {
        assert rows[id] !in list;
      }
    }
  }

  /** What the list says about the build, its rows say. */
  lemma {:induction false} ListedVerdict(rows: Stages, b: int, list: seq<Stage>)
    requires Protocol.IsListing(rows, b, list) && forall id :: id in rows ==> rows[id].id == id
    ensures BuildComplete(list) <==> Over(rows, b)
    ensures DecidesRows(rows, b, Verdict(list))
  {
    VerdictDecides(list);
    if i :| 0 <= i < |list| && list[i].status == Verdict(list) && FirstBroken(list, i) {
      forall x | x in rows && rows[x].buildId == b && x < list[i].id
        ensures rows[x].status !in {Killed, Failing, Errored}
      {
        var j :| 0 <= j < |list| && list[j] == rows[x];
      }
      assert OldestBroken(rows, b, list[i].id);
    }
    forall id | id in rows && rows[id].buildId == b ensures rows[id] in list {
    }
  }

  // ---------- the schedules ----------

  function SweptSchedules(rows: Stages, curr: Stage, list: seq<Stage>, skips: Clock, releases: Clock): seq<int> {
    var (rows1, list1) := SkipFrom(rows, list, 0, Deps.AnyFailed(list), skips);
    Schedules(rows1, curr, list1, 0, releases)
  }

  /** A stage that the skip loop marks is not released after it. */
  lemma {:induction false} WaitsThrough(rows: Stages, curr: Stage, b: int, list: seq<Stage>, skips: Clock,
                                        releases: Clock, id: int)
    requires Protocol.IsListing(rows, b, list) && (forall id :: id in rows ==> rows[id].id == id) && id in rows
    ensures var (rows1, list1) := SkipFrom(rows, list, 0, Deps.AnyFailed(list), skips);
      var rows' := ReleaseFrom(rows1, curr, list1, 0, releases).0;
      && id in rows1 && id in rows'
      && (rows1[id].status == Waiting ==> rows[id].status == Waiting)
      && (rows[id].status == Waiting && rows'[id].status == Pending ==> rows1[id].status == Waiting)
  {
    ListingMirrors(rows, b, list);
    SkipPass(rows, list, Deps.AnyFailed(list), skips);
    var (rows1, list1) := SkipFrom(rows, list, 0, Deps.AnyFailed(list), skips);
    ReleasePass(rows1, curr, list1, releases);
    var (rows', list') := ReleaseFrom(rows1, curr, list1, 0, releases);
    if j :| 0 <= j < |list| && list[j].id == id {
      assert SameKey(list[j], list1[j]) && SameKey(list1[j], list'[j]);
    } else {
      assert forall j :: 0 <= j < |list1| ==> SameKey(list[j], list1[j]) && list1[j].id != id;
    }
  }

  /** A teardown wakes the scheduler for exactly the rows that were waiting before it and
      are pending after it, once for each, oldest first. */
  lemma {:induction false} SweptWakes(rows: Stages, curr: Stage, b: int, list: seq<Stage>, skips: Clock,
                                      releases: Clock)
    requires Protocol.IsListing(rows, b, list) && forall id :: id in rows ==> rows[id].id == id
    ensures var rows' := Swept(rows, curr, list, skips, releases).0;
      var ids := SweptSchedules(rows, curr, list, skips, releases);
      && (forall id :: id in ids <==>
            id in rows && id in rows' && rows[id].status == Waiting && rows'[id].status == Pending)
      && (forall j, k :: 0 <= j < k < |ids| ==> ids[j] < ids[k])
  {
    var (rows1, list1) := SkipFrom(rows, list, 0, Deps.AnyFailed(list), skips);
    var rows' := ReleaseFrom(rows1, curr, list1, 0, releases).0;
    var ids := Schedules(rows1, curr, list1, 0, releases);
    ListingMirrors(rows, b, list);
    SkipPass(rows, list, Deps.AnyFailed(list), skips);
    MirrorLists(rows, rows1, b, list, list1);
    SchedulesWake(rows1, curr, list1, releases);
    forall id ensures id in ids <==>
        id in rows && id in rows' && rows[id].status == Waiting && rows'[id].status == Pending
    {
      if id in rows {
        WaitsThrough(rows, curr, b, list, skips, releases, id);
      }
    }
    forall j, k | 0 <= j < k < |ids| ensures ids[j] < ids[k] {
      assert Precedes(list1, ids[j], ids[k]);
    }
  }
}
