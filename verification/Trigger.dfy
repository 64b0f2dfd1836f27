/** Creating a build: one stage for each matched pipeline, its first status, and
    the stages that are scheduled at once. */
module Trigger {
  import opened Core
  import opened Store
  import Protocol

  /** A matched pipeline.  How its status conditions match, and how many there are,
      come from the configuration library. */
  datatype Pipeline = Pipeline(
    name: string,
    platform: Platform,
    limit: int,
    onPassing: bool,
    onFailing: bool,
    conditions: nat,
    dependsOn: seq<string>)

  function Default(s: string, other: string): string {
    if s == "" then other else s
  }

  /** Unverified stages wait for approval, stages without dependencies may start,
      the others wait for their dependencies. */
  function FirstStatus(p: Pipeline, verified: bool): Status {
    if !verified then Blocked else if |p.dependsOn| == 0 then Pending else Waiting
  }

  /** The i-th stage of a new build, as it is stored. */
  function FirstRow(p: Pipeline, i: nat, id: int, repo: int, build: int, verified: bool, now: int): Stage {
    Stage(id, repo, build, i + 1, Default(p.name, "default"), FirstStatus(p, verified), "",
          p.platform.(os := Default(p.platform.os, "linux"), arch := Default(p.platform.arch, "amd64")),
          p.limit, 0, 0, now, 1, p.onPassing, p.onFailing && p.conditions > 0, p.dependsOn)
  }

  function Placed(s: Stage, id: int, build: int): Stage {
    s.(id := id, buildId := build, version := 1)
  }

  /** The stored stages of a new build, one for each pipeline. */
  ghost predicate StagesOf(list: seq<Stage>, matched: seq<Pipeline>, repo: int, build: int, verified: bool,
                           now: int) {
    && |list| == |matched|
    && (forall i :: 0 <= i < |list| ==> list[i] == FirstRow(matched[i], i, list[i].id, repo, build, verified, now))
  }

  ghost predicate Ascending(list: seq<Stage>) {
    forall i, j :: 0 <= i < j < |list| ==> list[i].id < list[j].id
  }

  /** The rows are exactly the listed stages. */
  ghost predicate Holds(rows: Stages, list: seq<Stage>) {
    && (forall i :: 0 <= i < |list| ==> list[i].id in rows && rows[list[i].id] == list[i])
    && (forall id :: id in rows ==> rows[id].id == id && rows[id] in list)
  }

  /** The test of the scheduling loop. */
  predicate Startable(s: Stage) {
    |s.dependsOn| == 0 && !s.status.Blocked?
  }

  function StartableIds(list: seq<Stage>): seq<int> {
    if |list| == 0 then [] else
    StartableIds(list[..|list| - 1]) + if Startable(list[|list| - 1]) then [list[|list| - 1].id] else []
  }

  /** Every pending row, once, in ascending order. */
  ghost predicate OncePending(rows: Stages, ids: seq<int>) {
    && (forall id :: id in ids <==> id in rows && rows[id].status.Pending?)
    && (forall j, k :: 0 <= j < k < |ids| ==> ids[j] < ids[k])
  }

  class Triggerer {
    var stages: Stages
    var builds: Builds
    var nextStage: int
    var nextBuild: int
    var scheduled: seq<int>       // stages handed to Scheduler.Schedule, in order

    /** Keys already used are below the next key. */
    ghost predicate Valid()
      reads this
    {
      && (forall id :: id in stages ==> id < nextStage)
      && (forall b :: b in builds ==> b < nextBuild)
    }

    constructor ()
      ensures Valid() && stages == map[] && builds == map[] && scheduled == []
    {
      stages, builds, nextStage, nextBuild, scheduled := map[], map[], 1, 1, [];
    }

    /** The stage record of one pipeline, before it is stored. */
    static method NewStage(p: Pipeline, i: nat, repo: int, verified: bool, now: int) returns (stage: Stage)
      ensures stage.(version := 1) == FirstRow(p, i, 0, repo, 0, verified, now)
      ensures stage.status == Blocked <==> !verified
      ensures verified ==> stage.status == if p.dependsOn == [] then Pending else Waiting
      ensures stage.onSuccess == p.onPassing && stage.onFailure == (p.onFailing && p.conditions != 0)
      ensures stage.name == if p.name == "" then "default" else p.name
      ensures stage.platform.os == if p.platform.os == "" then "linux" else p.platform.os
      ensures stage.platform.arch == if p.platform.arch == "" then "amd64" else p.platform.arch
    {
      var onFailure := p.onFailing;
      if p.conditions == 0 {
        onFailure := false;
      }
      stage := Stage(0, repo, 0, i + 1, p.name, Waiting, "", p.platform, p.limit, 0, 0, now, 0,
                     p.onPassing, onFailure, p.dependsOn);
      if stage.platform.os == "" {
        stage := stage.(platform := stage.platform.(os := "linux"));
      }
      if stage.platform.arch == "" {
        stage := stage.(platform := stage.platform.(arch := "amd64"));
      }
      if stage.name == "" {
        stage := stage.(name := "default");
      }
      if !verified {
        stage := stage.(status := Blocked);
      } else if |stage.dependsOn| == 0 {
        stage := stage.(status := Pending);
      }
    }

    static method NewStages(repo: int, matched: seq<Pipeline>, verified: bool, now: int) returns (list: seq<Stage>)
      ensures |list| == |matched|
      ensures forall i :: 0 <= i < |list| ==>
                list[i].(version := 1) == FirstRow(matched[i], i, 0, repo, 0, verified, now)
    {
      list := [];
      for i := 0 to |matched|
        invariant |list| == i
        invariant forall j :: 0 <= j < i ==>
                    list[j].(version := 1) == FirstRow(matched[j], j, 0, repo, 0, verified, now)
      {
        var stage := NewStage(matched[i], i, repo, verified, now);
        list := list + [stage];
      }
    }

    /** Store the stages under new keys. */
    method Store(list: seq<Stage>, build: int) returns (stored: seq<Stage>, rows: Stages)
      requires Valid()
      modifies this`stages, this`nextStage
      ensures Valid() && stages == old(stages) + rows && rows.Keys !! old(stages).Keys
      ensures |stored| == |list| && Holds(rows, stored) && Ascending(stored)
      ensures forall i :: 0 <= i < |list| ==> stored[i] == Placed(list[i], stored[i].id, build)
    {
      rows, stored := map[], [];
      ghost var first := nextStage;
      for i := 0 to |list|
        invariant Valid() && first <= nextStage && (forall id :: id in old(stages) ==> id < first)
        invariant stages == old(stages) + rows && Filled(list, build, i, stored, rows, first, nextStage)
      {
        var row := Placed(list[i], nextStage, build);
        FilledNext(list, build, i, stored, rows, first, nextStage);
        stored := stored + [row];
        rows := rows[nextStage := row];
        stages := stages[nextStage := row];
        nextStage := nextStage + 1;
      }
    }

    /** Schedule the stages that wait for nothing. */
    method ScheduleFirst(list: seq<Stage>)
      modifies this`scheduled
      ensures scheduled == old(scheduled) + StartableIds(list)
    {
      for i := 0 to |list|
        invariant scheduled == old(scheduled) + StartableIds(list[..i])
      {
        assert list[..i + 1][..i] == list[..i];
        if |list[i].dependsOn| != 0 {
          continue;
        }
        if list[i].status.Blocked? {
          continue;
        }
        scheduled := scheduled + [list[i].id];
      }
      assert list[..|list|] == list;
    }

    /** The tables change by a Create step of the protocol, and exactly the pending
        stages are scheduled, each once, in order. */
    method Trigger(repo: int, number: int, matched: seq<Pipeline>, verified: bool, now: int)
      returns (r: Option<Build>, list: seq<Stage>, rows: Stages)
      requires Valid()
      modifies this
      ensures Valid()
      ensures |matched| == 0 ==>
                r.None? && stages == old(stages) && builds == old(builds) && scheduled == old(scheduled)
      ensures |matched| > 0 ==> r.Some? && r.value.repoId == repo && r.value.number == number
      ensures r.Some? ==> stages == old(stages) + rows && builds == old(builds)[r.value.id := r.value]
      ensures r.Some? ==> Holds(rows, list) && StagesOf(list, matched, repo, r.value.id, verified, now)
      ensures r.Some? ==> Protocol.Fresh(Protocol.State(old(stages), old(builds), {}, {}, map[], []), r.value, rows)
      ensures r.Some? ==> scheduled == old(scheduled) + StartableIds(list) && OncePending(rows, StartableIds(list))
      // the same, column by column
      ensures r.Some? ==> |list| == |matched| && forall i :: 0 <= i < |list| ==>
                var s, p := list[i], matched[i];
                && s.repoId == repo && s.buildId == r.value.id && s.number == i + 1 && s.limit == p.limit
                && s.machine == "" && s.started == s.stopped == 0 && s.updated == now && s.version == 1
                && s.dependsOn == p.dependsOn && s.onSuccess == p.onPassing
      ensures r.Some? ==> forall i :: 0 <= i < |list| ==>
                && (list[i].status == Blocked <==> !verified)
                && (verified ==> list[i].status == if matched[i].dependsOn == [] then Pending else Waiting)
      ensures r.Some? ==> forall i :: 0 <= i < |list| ==>
                && (matched[i].conditions == 0 ==> !list[i].onFailure)
                && (matched[i].conditions != 0 ==> list[i].onFailure == matched[i].onFailing)
      ensures r.Some? ==> forall i :: 0 <= i < |list| ==>
                var s, p := list[i], matched[i];
                && s.name == (if p.name == "" then "default" else p.name)
                && s.platform.os == (if p.platform.os == "" then "linux" else p.platform.os)
                && s.platform.arch == (if p.platform.arch == "" then "amd64" else p.platform.arch)
                && s.platform.variant == p.platform.variant && s.platform.kernel == p.platform.kernel
                && s.platform.labels == p.platform.labels
      ensures !verified ==> scheduled == old(scheduled)
      ensures r.Some? && verified ==> old(scheduled) <= scheduled && forall id ::
                id in scheduled[|old(scheduled)|..] <==>
                  exists i :: 0 <= i < |list| && list[i].id == id && matched[i].dependsOn == []
    {
      rows, list := map[], [];
      if |matched| == 0 {
        return None, list, rows;
      }
      var build;
      build, list, rows := CreateBuild(repo, number, matched, verified, now);
      ScheduleFirst(list);
      StartableIsPending(list, rows, build.id);
      ColumnsOf(list, matched, repo, build.id, verified, now);
      ScheduledAre(list, matched, verified);
      assert scheduled[|old(scheduled)|..] == StartableIds(list);
      return Some(build), list, rows;
    }

    /** Store the build and a stage for each pipeline. */
    method CreateBuild(repo: int, number: int, matched: seq<Pipeline>, verified: bool, now: int)
      returns (build: Build, list: seq<Stage>, rows: Stages)
      requires Valid()
      modifies this`stages, this`builds, this`nextStage, this`nextBuild
      ensures Valid() && build.repoId == repo && build.number == number
      ensures stages == old(stages) + rows && builds == old(builds)[build.id := build]
      ensures Holds(rows, list) && Ascending(list) && StagesOf(list, matched, repo, build.id, verified, now)
      ensures Protocol.Fresh(Protocol.State(old(stages), old(builds), {}, {}, map[], []), build, rows)
    {
      build := Build(nextBuild, repo, number, Pending, 0, 0, now, 1);
      builds := builds[nextBuild := build];
      nextBuild := nextBuild + 1;
      list := NewStages(repo, matched, verified, now);
      list, rows := Store(list, build.id);
      FreshRows(old(stages), old(builds), build, rows, list, matched, repo, verified, now);
    }
  }

  /** The first n stages are stored, under ascending keys between first and next. */
  ghost predicate Filled(list: seq<Stage>, build: int, n: int, stored: seq<Stage>, rows: Stages, first: int,
                         next: int) {
    && 0 <= n <= |list| && |stored| == n && Holds(rows, stored) && Ascending(stored)
    && (forall id :: id in rows ==> first <= id < next)
    && (forall j :: 0 <= j < n ==> stored[j] == Placed(list[j], stored[j].id, build))
  }

  lemma FilledNext(list: seq<Stage>, build: int, n: int, stored: seq<Stage>, rows: Stages, first: int, next: int)
    requires Filled(list, build, n, stored, rows, first, next) && n < |list| && first <= next
    ensures var row := Placed(list[n], next, build);
      Filled(list, build, n + 1, stored + [row], rows[next := row], first, next + 1)
  {
    HoldsNext(rows, stored, Placed(list[n], next, build));
  }

  lemma HoldsNext(rows: Stages, list: seq<Stage>, row: Stage)
    requires Holds(rows, list) && Ascending(list) && row.id !in rows
    requires forall j :: 0 <= j < |list| ==> list[j].id < row.id
    ensures Holds(rows[row.id := row], list + [row]) && Ascending(list + [row])
  {
    assert (list + [row])[|list|] == row;
  }

  lemma FreshRow(rows: Stages, list: seq<Stage>, matched: seq<Pipeline>, repo: int, b: int, verified: bool,
                 now: int, id: int) returns (i: nat)
    requires Holds(rows, list) && StagesOf(list, matched, repo, b, verified, now) && id in rows
    ensures i < |list| && rows[id] == list[i] && rows[id].number == i + 1 && Protocol.FreshStage(rows[id], id, b)
  {
    i :| 0 <= i < |list| && list[i] == rows[id];
  }

  lemma FreshRows(stages: Stages, builds: Builds, b: Build, rows: Stages, list: seq<Stage>,
                  matched: seq<Pipeline>, repo: int, verified: bool, now: int)
    requires Holds(rows, list) && StagesOf(list, matched, repo, b.id, verified, now)
    requires rows.Keys !! stages.Keys && b.id !in builds && b.status.Pending? && b.version == 1
    ensures Protocol.Fresh(Protocol.State(stages, builds, {}, {}, map[], []), b, rows)
  {
    forall id | id in rows ensures Protocol.FreshStage(rows[id], id, b.id) {
      var i := FreshRow(rows, list, matched, repo, b.id, verified, now, id);
    }
    forall id, id' | id in rows && id' in rows && rows[id].number == rows[id'].number ensures id == id' {
      var i := FreshRow(rows, list, matched, repo, b.id, verified, now, id);
      var i' := FreshRow(rows, list, matched, repo, b.id, verified, now, id');
    }
  }

  lemma {:induction false} StartableIdsAre(list: seq<Stage>, id: int)
    ensures id in StartableIds(list) <==> exists i :: 0 <= i < |list| && Startable(list[i]) && list[i].id == id
  {
    if |list| == 0 {
    } else {
      var n := |list| - 1;
      StartableIdsAre(list[..n], id);
      assert forall i :: 0 <= i < n ==> list[..n][i] == list[i];
      if i :| 0 <= i < |list| && Startable(list[i]) && list[i].id == id {
        assert i < n ==> Startable(list[..n][i]);
      }
    }
  }

  /** The columns of the stored stages. */
  lemma {:induction false} ColumnsOf(list: seq<Stage>, matched: seq<Pipeline>, repo: int, build: int,
                                     verified: bool, now: int)
    requires StagesOf(list, matched, repo, build, verified, now)
    ensures |list| == |matched| && forall i :: 0 <= i < |list| ==>
              var s, p := list[i], matched[i];
              && s.repoId == repo && s.buildId == build && s.number == i + 1 && s.limit == p.limit
              && s.machine == "" && s.started == s.stopped == 0 && s.updated == now && s.version == 1
              && s.dependsOn == p.dependsOn && s.onSuccess == p.onPassing
    ensures forall i :: 0 <= i < |list| ==>
              && (list[i].status == Blocked <==> !verified)
              && (verified ==> list[i].status == if matched[i].dependsOn == [] then Pending else Waiting)
    ensures forall i :: 0 <= i < |list| ==>
              && (matched[i].conditions == 0 ==> !list[i].onFailure)
              && (matched[i].conditions != 0 ==> list[i].onFailure == matched[i].onFailing)
    ensures forall i :: 0 <= i < |list| ==>
              var s, p := list[i], matched[i];
              && s.name == (if p.name == "" then "default" else p.name)
              && s.platform.os == (if p.platform.os == "" then "linux" else p.platform.os)
              && s.platform.arch == (if p.platform.arch == "" then "amd64" else p.platform.arch)
              && s.platform.variant == p.platform.variant && s.platform.kernel == p.platform.kernel
              && s.platform.labels == p.platform.labels
  {
  }

  lemma {:induction false} ScheduledAre(list: seq<Stage>, matched: seq<Pipeline>, verified: bool)
    requires |list| == |matched|
    requires forall i :: 0 <= i < |list| ==>
               (list[i].status == Blocked <==> !verified) && list[i].dependsOn == matched[i].dependsOn
    ensures !verified ==> StartableIds(list) == []
    ensures verified ==> forall id :: id in StartableIds(list) <==>
              exists i :: 0 <= i < |list| && list[i].id == id && matched[i].dependsOn == []
  {
    if verified {
      forall id ensures id in StartableIds(list) <==>
          exists i :: 0 <= i < |list| && list[i].id == id && matched[i].dependsOn == []
      {
        StartableIdsAre(list, id);
      }
    } else if |StartableIds(list)| > 0 {
      StartableIdsAre(list, StartableIds(list)[0]);
      assert false;
    }
  }

  lemma {:induction false} StartableIdsAscend(list: seq<Stage>)
    requires Ascending(list)
    ensures forall j, k :: 0 <= j < k < |StartableIds(list)| ==> StartableIds(list)[j] < StartableIds(list)[k]
  {
    if |list| == 0 {
    } else {
      var n := |list| - 1;
      var front := StartableIds(list[..n]);
      StartableIdsAscend(list[..n]);
      forall k | 0 <= k < |front| ensures front[k] < list[n].id {
        StartableIdsAre(list[..n], front[k]);
      }
    }
  }

  lemma StartableIsPending(list: seq<Stage>, rows: Stages, b: int)
    requires Ascending(list) && Holds(rows, list) && forall id :: id in rows ==> Protocol.FreshStage(rows[id], id, b)
    ensures OncePending(rows, StartableIds(list))
  {
    StartableIdsAscend(list);
    forall id ensures id in StartableIds(list) <==> id in rows && rows[id].status.Pending? {
      StartableIdsAre(list, id);
      if id in rows {
        assert rows[id] in list;
        assert Startable(rows[id]) <==> rows[id].status.Pending?;
      }
    }
  }
}
