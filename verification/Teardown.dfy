/** The teardown of a finished stage: the loop that skips downstream stages, the
    loop that releases them, and the update of the build.  Both loops write
    through the versioned store and edit the listed records as they go. */
module Teardown {
  import opened Core
  import opened Store
  import Deps
  import Protocol

  type Clock = nat -> int

  // ---------- one turn of each loop ----------

  function Skipped1(s: Stage, now: int): Stage {
    s.(status := Skipped, started := now, stopped := now)
  }

  function Released1(s: Stage, now: int): Stage {
    s.(status := Pending, updated := now)
  }

  function SkipOne(rows: Stages, list: seq<Stage>, i: nat, failed: bool, now: int): (Stages, seq<Stage>)
    requires i < |list|
  {
    if Deps.MustSkip(list[i], failed) then
      var k := Skipped1(list[i], now);
      (Committed(rows, k), list[i := Bumped(rows, k)])
    else (rows, list)
  }

  function ReleaseOne(rows: Stages, curr: Stage, list: seq<Stage>, i: nat, now: int): (Stages, seq<Stage>)
    requires i < |list|
  {
    if Deps.MustRelease(curr, list[i], list) then
      var k := Released1(list[i], now);
      (Committed(rows, k), list[i := Bumped(rows, k)])
    else (rows, list)
  }

  // ---------- the loops ----------

  function SkipFrom(rows: Stages, list: seq<Stage>, i: nat, failed: bool, clock: Clock): (r: (Stages, seq<Stage>))
    ensures |r.1| == |list|
    decreases |list| - i
  {
    if i >= |list| then (rows, list)
    else
      var (rows', list') := SkipOne(rows, list, i, failed, clock(i));
      SkipFrom(rows', list', i + 1, failed, clock)
  }

  function ReleaseFrom(rows: Stages, curr: Stage, list: seq<Stage>, i: nat, clock: Clock): (r: (Stages, seq<Stage>))
    ensures |r.1| == |list|
    decreases |list| - i
  {
    if i >= |list| then (rows, list)
    else
      var (rows', list') := ReleaseOne(rows, curr, list, i, clock(i));
      ReleaseFrom(rows', curr, list', i + 1, clock)
  }

  /** The stages the release loop hands to the scheduler, in order. */
  function Schedules(rows: Stages, curr: Stage, list: seq<Stage>, i: nat, clock: Clock): seq<int>
    decreases |list| - i
  {
    if i >= |list| then []
    else
      var (rows', list') := ReleaseOne(rows, curr, list, i, clock(i));
      var rest := Schedules(rows', curr, list', i + 1, clock);
      if Deps.MustRelease(curr, list[i], list) then [list[i].id] + rest else rest
  }

  /** The scheduler is woken for exactly the rows that were waiting and are pending now,
      once for each, in the order of the list. */
  ghost predicate Wakes(rows: Stages, rows': Stages, list: seq<Stage>, ids: seq<int>) {
    && (forall id :: id in ids <==>
          id in rows && id in rows' && rows[id].status == Waiting && rows'[id].status == Pending)
    && (forall a, b :: 0 <= a < b < |ids| ==> ids[a] != ids[b] && Precedes(list, ids[a], ids[b]))
  }

  ghost predicate Precedes(list: seq<Stage>, x: int, y: int) {
    exists j, k :: 0 <= j < k < |list| && list[j].id == x && list[k].id == y
  }

  // ---------- the same turns in the interleaved protocol ----------

  lemma SkipTurn(s: Protocol.State, c: nat, now: int)
    requires c in s.clients && s.clients[c].phase.Skipping? && s.clients[c].i < |s.clients[c].list|
    ensures var cl := s.clients[c];
      var s' := Protocol.Apply(s, c, Protocol.ReportPlan(s, cl, Protocol.Skip(now)));
      (s'.stages, s'.clients[c].list) == SkipOne(s.stages, cl.list, cl.i, cl.failed, now)
  {
    var cl := s.clients[c];
    assert cl.list[cl.i := cl.list[cl.i]] == cl.list;
  }

  lemma ReleaseTurn(s: Protocol.State, c: nat, now: int)
    requires c in s.clients && s.clients[c].phase.Releasing? && s.clients[c].copy.Some?
    requires s.clients[c].i < |s.clients[c].list|
    ensures var cl := s.clients[c];
      var s' := Protocol.Apply(s, c, Protocol.ReportPlan(s, cl, Protocol.Release(now)));
      (s'.stages, s'.clients[c].list) == ReleaseOne(s.stages, cl.copy.value, cl.list, cl.i, now)
  {
    var cl := s.clients[c];
    assert cl.list[cl.i := cl.list[cl.i]] == cl.list;
  }

  // ---------- undisturbed loops act pointwise ----------

  /** The listed records are exactly the stored rows. */
  ghost predicate Mirror(rows: Stages, list: seq<Stage>) {
    && (forall j :: 0 <= j < |list| ==> list[j].id in rows && rows[list[j].id] == list[j])
    && (forall j, k :: 0 <= j < k < |list| ==> list[j].id != list[k].id)
  }

  ghost predicate Untouched(rows: Stages, rows': Stages, list: seq<Stage>) {
    && rows'.Keys == rows.Keys
    && (forall id :: id in rows && (forall j :: 0 <= j < |list| ==> list[j].id != id) ==> rows'[id] == rows[id])
  }

  /** A write through a record that mirrors its row succeeds and keeps the mirror. */
  lemma MirrorWrite(rows: Stages, list: seq<Stage>, i: nat, k: Stage)
    requires Mirror(rows, list) && i < |list| && k.version == list[i].version
    requires k.id == list[i].id && k.repoId == list[i].repoId && k.buildId == list[i].buildId
    requires k.number == list[i].number && k.name == list[i].name && k.limit == list[i].limit
    ensures Bumped(rows, k) == k.(version := k.version + 1)
    ensures Mirror(Committed(rows, k), list[i := Bumped(rows, k)])
    ensures Untouched(rows, Committed(rows, k), list)
  {
  }

  function ReleasedRow(s: Stage, now: int): Stage {
    Released1(s, now).(version := s.version + 1)
  }

  /** From position i on, every waiting stage that the run policy rules out is skipped. */
  ghost predicate SkippedAfter(list: seq<Stage>, list': seq<Stage>, i: nat, failed: bool, clock: Clock) {
    && |list'| == |list|
    && (forall j :: 0 <= j < |list| ==>
          list'[j] ==
            if j >= i && list[j].status == Waiting && !(if failed then list[j].onFailure else list[j].onSuccess)
            then list[j].(status := Skipped, started := clock(j), stopped := clock(j), version := list[j].version + 1)
            else list[j])
  }

  lemma {:induction false} SkippedOne(list: seq<Stage>, list1: seq<Stage>, list': seq<Stage>, i: nat, failed: bool,
                                      clock: Clock)
    requires i < |list| && Deps.MustSkip(list[i], failed) && SkippedAfter(list1, list', i + 1, failed, clock)
    requires list1 == list[i := Skipped1(list[i], clock(i)).(version := list[i].version + 1)]
    ensures SkippedAfter(list, list', i, failed, clock)
  {
  }

  lemma {:induction false} SkippedNone(list: seq<Stage>, list': seq<Stage>, i: nat, failed: bool, clock: Clock)
    requires i < |list| && !Deps.MustSkip(list[i], failed) && SkippedAfter(list, list', i + 1, failed, clock)
    ensures SkippedAfter(list, list', i, failed, clock)
  {
  }

  lemma {:induction false} SkipsAfter(rows: Stages, list: seq<Stage>, i: nat, failed: bool, clock: Clock)
    requires Mirror(rows, list)
    ensures SkippedAfter(list, SkipFrom(rows, list, i, failed, clock).1, i, failed, clock)
    decreases |list| - i
  {
    if i < |list| {
      if Deps.MustSkip(list[i], failed) {
        var k := Skipped1(list[i], clock(i));
        var rows1, list1 := Committed(rows, k), list[i := Bumped(rows, k)];
        MirrorWrite(rows, list, i, k);
        SkipsAfter(rows1, list1, i + 1, failed, clock);
        SkippedOne(list, list1, SkipFrom(rows1, list1, i + 1, failed, clock).1, i, failed, clock);
      } else {
        SkipsAfter(rows, list, i + 1, failed, clock);
        SkippedNone(list, SkipFrom(rows, list, i + 1, failed, clock).1, i, failed, clock);
      }
    }
  }

  lemma {:induction false} SkipMirrors(rows: Stages, list: seq<Stage>, i: nat, failed: bool, clock: Clock)
    requires Mirror(rows, list)
    ensures var (rows', list') := SkipFrom(rows, list, i, failed, clock);
      Mirror(rows', list') && Untouched(rows, rows', list)
    decreases |list| - i
  {
    if i < |list| {
      if Deps.MustSkip(list[i], failed) {
        var k := Skipped1(list[i], clock(i));
        var rows1, list1 := Committed(rows, k), list[i := Bumped(rows, k)];
        MirrorWrite(rows, list, i, k);
        SkipMirrors(rows1, list1, i + 1, failed, clock);
        UntouchedTwice(rows, rows1, SkipFrom(rows1, list1, i + 1, failed, clock).0, list, list1);
      } else {
        SkipMirrors(rows, list, i + 1, failed, clock);
      }
    }
  }

  lemma {:induction false} SkipPointwise(rows: Stages, list: seq<Stage>, i: nat, failed: bool, clock: Clock)
    requires Mirror(rows, list)
    ensures var (rows', list') := SkipFrom(rows, list, i, failed, clock);
      Mirror(rows', list') && Untouched(rows, rows', list) && SkippedAfter(list, list', i, failed, clock)
  {
    SkipMirrors(rows, list, i, failed, clock);
    SkipsAfter(rows, list, i, failed, clock);
  }

  /** Releasing one waiting stage changes no other verdict of the release tests:
      a released stage is as unfinished as a waiting one. */
  lemma ReleaseStable(curr: Stage, list: seq<Stage>, i: nat, k: Stage, next: Stage)
    requires i < |list| && !list[i].IsDone() && !k.IsDone() && k.name == list[i].name
    ensures Deps.MustRelease(curr, next, list[i := k]) <==> Deps.MustRelease(curr, next, list)
  {
    var list' := list[i := k];
    if Deps.IsDep(k, next) {
      assert list'[i] in list' && list[i] in list;
    } else {
      forall s ensures s in list && Deps.IsDep(s, next) <==> s in list' && Deps.IsDep(s, next) {
        if s in list && Deps.IsDep(s, next) {
          var j :| 0 <= j < |list| && list[j] == s;
          assert list'[j] == s;
        }
      }
    }
  }

  lemma ReleaseStableAll(curr: Stage, list: seq<Stage>, i: nat, now: int)
    requires i < |list| && list[i].status.Waiting?
    ensures var list1 := list[i := ReleasedRow(list[i], now)];
      forall next :: Deps.MustRelease(curr, next, list1) <==> Deps.MustRelease(curr, next, list)
  {
    forall next {
      ReleaseStable(curr, list, i, ReleasedRow(list[i], now), next);
    }
  }

  /** From position i on, every stage that must be released is. */
  ghost predicate ReleasedAfter(curr: Stage, list: seq<Stage>, list': seq<Stage>, i: nat, clock: Clock) {
    && |list'| == |list|
    && (forall j :: 0 <= j < |list| ==>
          list'[j] ==
            if j >= i && Deps.MustRelease(curr, list[j], list)
            then list[j].(status := Pending, updated := clock(j), version := list[j].version + 1)
            else list[j])
  }

  lemma ReleasedOne(curr: Stage, list: seq<Stage>, list1: seq<Stage>, list': seq<Stage>, i: nat, clock: Clock)
    requires i < |list| && list[i].status.Waiting? && Deps.MustRelease(curr, list[i], list)
    requires list1 == list[i := ReleasedRow(list[i], clock(i))] && ReleasedAfter(curr, list1, list', i + 1, clock)
    ensures ReleasedAfter(curr, list, list', i, clock)
  {
    ReleaseStableAll(curr, list, i, clock(i));
  }

  lemma UntouchedTwice(rows: Stages, rows1: Stages, rows2: Stages, list: seq<Stage>, list1: seq<Stage>)
    requires Untouched(rows, rows1, list) && Untouched(rows1, rows2, list1) && |list| == |list1|
    requires forall j :: 0 <= j < |list| ==> list1[j].id == list[j].id
    ensures Untouched(rows, rows2, list)
  {
  }

  lemma {:induction false} ReleasesAfter(rows: Stages, curr: Stage, list: seq<Stage>, i: nat, clock: Clock)
    requires Mirror(rows, list)
    ensures ReleasedAfter(curr, list, ReleaseFrom(rows, curr, list, i, clock).1, i, clock)
    decreases |list| - i
  {
    if i < |list| {
      if Deps.MustRelease(curr, list[i], list) {
        var k := Released1(list[i], clock(i));
        var rows1, list1 := Committed(rows, k), list[i := Bumped(rows, k)];
        MirrorWrite(rows, list, i, k);
        ReleasesAfter(rows1, curr, list1, i + 1, clock);
        ReleasedOne(curr, list, list1, ReleaseFrom(rows1, curr, list1, i + 1, clock).1, i, clock);
      } else {
        ReleasesAfter(rows, curr, list, i + 1, clock);
      }
    }
  }

  lemma {:induction false} ReleaseMirrors(rows: Stages, curr: Stage, list: seq<Stage>, i: nat, clock: Clock)
    requires Mirror(rows, list)
    ensures var (rows', list') := ReleaseFrom(rows, curr, list, i, clock);
      Mirror(rows', list') && Untouched(rows, rows', list)
    decreases |list| - i
  {
    if i < |list| {
      if Deps.MustRelease(curr, list[i], list) {
        var k := Released1(list[i], clock(i));
        var rows1, list1 := Committed(rows, k), list[i := Bumped(rows, k)];
        MirrorWrite(rows, list, i, k);
        ReleaseMirrors(rows1, curr, list1, i + 1, clock);
        UntouchedTwice(rows, rows1, ReleaseFrom(rows1, curr, list1, i + 1, clock).0, list, list1);
      } else {
        ReleaseMirrors(rows, curr, list, i + 1, clock);
      }
    }
  }

  lemma {:induction false} ReleasePointwise(rows: Stages, curr: Stage, list: seq<Stage>, i: nat, clock: Clock)
    requires Mirror(rows, list)
    ensures var (rows', list') := ReleaseFrom(rows, curr, list, i, clock);
      Mirror(rows', list') && Untouched(rows, rows', list) && ReleasedAfter(curr, list, list', i, clock)
  {
    ReleaseMirrors(rows, curr, list, i, clock);
    ReleasesAfter(rows, curr, list, i, clock);
  }

  // ---------- what the release loop schedules ----------

  /** The schedules are those of the released positions from i on, in order. */
  lemma {:induction false} SchedulesAt(rows: Stages, curr: Stage, list: seq<Stage>, i: nat, clock: Clock)
    returns (at: seq<nat>)
    requires Mirror(rows, list)
    ensures |at| == |Schedules(rows, curr, list, i, clock)|
    ensures forall a :: 0 <= a < |at| ==>
              i <= at[a] < |list| && Deps.MustRelease(curr, list[at[a]], list)
              && Schedules(rows, curr, list, i, clock)[a] == list[at[a]].id
    ensures forall a, b :: 0 <= a < b < |at| ==> at[a] < at[b]
    ensures forall j :: i <= j < |list| && Deps.MustRelease(curr, list[j], list) ==> j in at
    decreases |list| - i
  {
    at := [];
    if i < |list| {
      if Deps.MustRelease(curr, list[i], list) {
        var k := Released1(list[i], clock(i));
        MirrorWrite(rows, list, i, k);
        ReleaseStableAll(curr, list, i, clock(i));
        var rest := SchedulesAt(Committed(rows, k), curr, list[i := Bumped(rows, k)], i + 1, clock);
        at := [i] + rest;
      } else {
        at := SchedulesAt(rows, curr, list, i + 1, clock);
      }
    }
  }

  /** Over a mirrored list the loop wakes the scheduler for exactly what it releases. */
  lemma {:induction false} SchedulesWake(rows: Stages, curr: Stage, list: seq<Stage>, clock: Clock)
    requires Mirror(rows, list)
    ensures Wakes(rows, ReleaseFrom(rows, curr, list, 0, clock).0, list, Schedules(rows, curr, list, 0, clock))
  {
    var ids := Schedules(rows, curr, list, 0, clock);
    var (rows', list') := ReleaseFrom(rows, curr, list, 0, clock);
    var at := SchedulesAt(rows, curr, list, 0, clock);
    ReleasePointwise(rows, curr, list, 0, clock);
    forall id ensures id in ids <==>
        id in rows && id in rows' && rows[id].status == Waiting && rows'[id].status == Pending
    {
      if id in ids {
        var a :| 0 <= a < |ids| && ids[a] == id;
        assert list'[at[a]].id == id;
      }
      if id in rows && rows[id].status == Waiting && rows'[id].status == Pending {
        var j :| 0 <= j < |list| && list[j].id == id;
        assert list'[j].id == id;
        var a :| 0 <= a < |at| && at[a] == j;
        assert ids[a] == id;
      }
    }
    forall a, b | 0 <= a < b < |ids| ensures ids[a] != ids[b] && Precedes(list, ids[a], ids[b]) {
      assert at[a] < at[b];
    }
  }
}
