/** The build manager over the two tables: Accept, the build update of setup, and
    teardown with its loops. */
module Manager {
  import opened Core
  import opened Store
  import opened Teardown
  import Deps
  import Protocol
  import Serial
  import Claim
  import opened Reach
  import opened Sets

  datatype Result = Ok | NotFound | OptimisticLock

  /** What other writers may do: rows stay, and an unchanged version means an unchanged
      row. */
  predicate Grows(rows: Stages, rows': Stages) {
    forall id :: id in rows ==>
      && id in rows' && rows'[id].version >= rows[id].version
      && (rows'[id].version == rows[id].version ==> rows'[id] == rows[id])
  }

  // ---------- the tests of util.go ----------

  method IsBuildComplete(stages: seq<Stage>) returns (r: bool)
    ensures r <==> forall s :: s in stages ==> s.status !in {Pending, Running, Waiting, Declined, Blocked}
  {
    for i := 0 to |stages|
      invariant forall j :: 0 <= j < i ==> !Deps.Incomplete(stages[j].status)
    {
      match stages[i].status
      case Pending | Running | Waiting | Declined | Blocked => return false;
      case _ =>
    }
    return true;
  }

  method IsDep(a: Stage, b: Stage) returns (r: bool)
    ensures r <==> a.name in b.dependsOn
  {
    for i := 0 to |b.dependsOn|
      invariant a.name !in b.dependsOn[..i]
    {
      if b.dependsOn[i] == a.name {
        return true;
      }
    }
    return false;
  }

  /** The set of dependency names both tests below fill first. */
  method DepNames(stage: Stage) returns (deps: set<string>)
    ensures forall name :: name in deps <==> name in stage.dependsOn
  {
    deps := {};
    for i := 0 to |stage.dependsOn|
      invariant forall name :: name in deps <==> name in stage.dependsOn[..i]
    {
      deps := deps + {stage.dependsOn[i]};
    }
  }

  method AreDepsComplete(stage: Stage, stages: seq<Stage>) returns (r: bool)
    ensures r <==> forall s :: s in stages && s.name in stage.dependsOn ==>
                     s.status !in {Waiting, Pending, Running, Blocked}
  {
    var deps := DepNames(stage);
    for i := 0 to |stages|
      invariant forall j :: 0 <= j < i && stages[j].name in stage.dependsOn ==> stages[j].IsDone()
    {
      if stages[i].name in deps && !stages[i].IsDone() {
        return false;
      }
    }
    return true;
  }

  method IsLastDep(curr: Stage, next: Stage, stages: seq<Stage>) returns (r: bool)
    ensures r <==> forall s :: s in stages && s.name in next.dependsOn ==>
                     s.updated < curr.updated || (s.updated == curr.updated && s.number <= curr.number)
  {
    var deps := DepNames(next);
    for i := 0 to |stages|
      invariant forall j :: 0 <= j < i && stages[j].name in next.dependsOn ==> !Deps.Later(stages[j], curr)
    {
      if stages[i].name in deps && Deps.Later(stages[i], curr) {
        return false;
      }
    }
    return true;
  }

  /** The chain of tests of the release loop. */
  method IsReleasable(curr: Stage, sibling: Stage, stages: seq<Stage>) returns (r: bool)
    ensures r <==> Deps.MustRelease(curr, sibling, stages)
  {
    if !sibling.status.Waiting? || |sibling.dependsOn| == 0 {
      return false;
    }
    r := IsDep(curr, sibling);
    if r {
      r := AreDepsComplete(sibling, stages);
      assert r <==> Deps.DepsComplete(sibling, stages);
    }
    if r {
      r := IsLastDep(curr, sibling, stages);
      assert r <==> Deps.LastDep(curr, sibling, stages);
    }
  }

  class BuildManager {
    var stages: Stages
    var builds: Builds
    var scheduled: seq<int>     // stages handed to Scheduler.Schedule, in order

    ghost predicate Valid()
      reads this
    {
      && (forall id :: id in stages ==> stages[id].id == id)
      && (forall b :: b in builds ==> builds[b].id == b)
    }

    /** The compare-and-set update of the stage store. */
    method UpdateStage(copy: Stage) returns (ok: bool, copy': Stage)
      modifies this`stages
      ensures ok <==> copy.id in old(stages) && old(stages)[copy.id].version == copy.version
      ensures ok ==> stages == old(stages)[copy.id := Written(old(stages)[copy.id], copy)]
      ensures !ok ==> stages == old(stages)
      ensures copy' == if ok then copy.(version := copy.version + 1) else copy
    {
      ok, stages, copy' := CompareAndSet(stages, copy);
    }

    /** Other clients write for a while. */
    method Others()
      requires Valid()
      modifies this`stages
      ensures Valid() && Grows(old(stages), stages)
    {
      var next: Stages := *;
      if Grows(stages, next) && forall id :: id in next ==> next[id].id == id {
        stages := next;
      }
    }

    /** Accept claims an unassigned stage for a machine.  Others may write between its
        read and its write; it wins exactly if the row it read was unassigned and has
        not been written since. */
    method Accept(id: int, machine: string, now: int) returns (r: Result, ghost mid: Stages)
      requires Valid()
      modifies this`stages
      ensures Valid() && Grows(old(stages), mid)
      ensures r == if id !in old(stages) then NotFound
                   else if old(stages)[id].machine != "" || mid[id] != old(stages)[id] then OptimisticLock else Ok
      ensures !r.Ok? ==> stages == mid
      ensures r.Ok? ==> stages == mid[id := mid[id].(machine := machine, status := Pending, updated := now,
                                                    version := mid[id].version + 1)]
    {
      mid := stages;
      if id !in stages {
        return NotFound, mid;
      }
      var stage := stages[id];
      if stage.machine != "" {
        return OptimisticLock, mid;
      }
      Others();
      mid := stages;
      stage := stage.(machine := machine, status := Pending, updated := now);
      var ok, stage' := UpdateStage(stage);
      return if ok then Ok else OptimisticLock, mid;
    }

    /** The build update of setup: true for the caller that moves it off pending. */
    method UpdateBuild(copy: Build, now: int) returns (updated: bool)
      modifies this`builds
      ensures updated <==> copy.status.Pending? && CurrentBuild(old(builds), copy)
      ensures updated ==> builds == old(builds)[copy.id :=
                copy.(status := Running, started := now, updated := now, version := copy.version + 1)]
      ensures !updated ==> builds == old(builds)
    {
      if !copy.status.Pending? {
        return false;
      }
      var b := copy.(started := now, updated := now, status := Running);
      updated := CurrentBuild(builds, b);
      builds := CommittedBuild(builds, b);
    }

    /** The stages of a build in id order. */
    method ListSteps(b: int) returns (list: seq<Stage>)
      requires Valid()
      ensures Protocol.IsListing(stages, b, list)
    {
      var rest := set id | id in stages && stages[id].buildId == b;
      list := [];
      while rest != {}
        invariant forall id :: id in rest ==> id in stages && stages[id].buildId == b
        invariant forall id :: id in stages && stages[id].buildId == b ==> id in rest || stages[id] in list
        invariant forall j :: 0 <= j < |list| ==>
                    list[j].id in stages && stages[list[j].id] == list[j] && list[j].buildId == b
        invariant forall j, k :: 0 <= j < k < |list| ==> list[j].id < list[k].id
        invariant forall j, id :: 0 <= j < |list| && id in rest ==> list[j].id < id
        decreases |rest|
      {
        var m := Smallest(rest);
        list := list + [stages[m]];
        rest := rest - {m};
      }
    }

    /** The loop that skips waiting stages the run policy rules out. */
    method CancelDownstream(list: seq<Stage>, clock: Clock) returns (list': seq<Stage>)
      modifies this`stages
      ensures (stages, list') == SkipFrom(old(stages), list, 0, Deps.AnyFailed(list), clock)
      ensures Mirror(old(stages), list) ==>
                Mirror(stages, list') && Untouched(old(stages), stages, list)
                && SkippedAfter(list, list', 0, exists s :: s in list && s.status in {Killed, Failing, Errored}, clock)
    {
      var failed := false;
      for i := 0 to |list|
        invariant failed <==> exists j :: 0 <= j < i && list[j].IsFailed()
      {
        if list[i].IsFailed() {
          failed := true;
        }
      }
      assert failed <==> Deps.AnyFailed(list) by {
        if Deps.AnyFailed(list) {
          var s :| s in list && s.IsFailed();
          var j :| 0 <= j < |list| && list[j] == s;
        }
      }
      list' := list;
      for i := 0 to |list|
        invariant |list'| == |list|
        invariant SkipFrom(stages, list', i, failed, clock) == SkipFrom(old(stages), list, 0, failed, clock)
      {
        var s := list'[i];
        if !s.status.Waiting? || (failed && s.onFailure) || (!failed && s.onSuccess) {
          continue;
        }
        var ok, k := UpdateStage(s.(status := Skipped, started := clock(i), stopped := clock(i)));
        list' := list'[i := k];
      }
      if Mirror(old(stages), list) {
        SkipPointwise(old(stages), list, 0, failed, clock);
      }
    }

    /** The loop that releases waiting stages whose tests all pass. */
    method ScheduleDownstream(curr: Stage, list: seq<Stage>, clock: Clock) returns (list': seq<Stage>)
      modifies this`stages, this`scheduled
      ensures (stages, list') == ReleaseFrom(old(stages), curr, list, 0, clock)
      ensures scheduled == old(scheduled) + Schedules(old(stages), curr, list, 0, clock)
      ensures Mirror(old(stages), list) ==>
                Wakes(old(stages), stages, list, scheduled[|old(scheduled)|..])
    {
      list' := list;
      for i := 0 to |list|
        invariant |list'| == |list|
        invariant scheduled + Schedules(stages, curr, list', i, clock)
                  == old(scheduled) + Schedules(old(stages), curr, list, 0, clock)
        invariant ReleaseFrom(stages, curr, list', i, clock) == ReleaseFrom(old(stages), curr, list, 0, clock)
      {
        var sibling := list'[i];
        var release := IsReleasable(curr, sibling, list');
        if release {
          var ok, k := UpdateStage(sibling.(status := Pending, updated := clock(i)));
          list' := list'[i := k];
          scheduled := scheduled + [sibling.id];
        }
      }
      assert scheduled == old(scheduled) + Schedules(old(stages), curr, list, 0, clock);
      assert scheduled[|old(scheduled)|..] == Schedules(old(stages), curr, list, 0, clock);
      if Mirror(old(stages), list) {
        SchedulesWake(old(stages), curr, list, clock);
      }
    }

    /** The build status: the first failed stage decides. */
    method FinalStatus(list: seq<Stage>) returns (status: Status)
      ensures status == Passing <==> forall s :: s in list ==> s.status !in {Killed, Failing, Errored}
      ensures status != Passing ==>
                exists i :: 0 <= i < |list| && list[i].status == status && status in {Killed, Failing, Errored}
                            && forall j :: 0 <= j < i ==> list[j].status !in {Killed, Failing, Errored}
      ensures status == Deps.Verdict(list)
    {
      status := Passing;
      for i := 0 to |list|
        invariant status == Passing && Deps.Verdict(list[i..]) == Deps.Verdict(list)
        invariant forall j :: 0 <= j < i ==> list[j].status !in {Killed, Failing, Errored}
      {
        if list[i].status.Killed? {
          return Killed;
        }
        if list[i].status.Failing? {
          return Failing;
        }
        if list[i].status.Errored? {
          return Errored;
        }
      }
    }

    /** An undisturbed teardown: the report is stored if its version is current, both
        loops run over the listed stages, what was released is scheduled in order, and
        the build is closed when the list is complete. */
    method Do(copy: Stage, now: int, skips: Clock, releases: Clock, end: int) returns (r: Result, list: seq<Stage>)
      requires Valid()
      modifies this
      ensures r == if copy.buildId !in old(builds) then NotFound
                   else if Current(old(stages), copy) then Ok else OptimisticLock
      ensures !r.Ok? ==> stages == old(stages) && builds == old(builds) && scheduled == old(scheduled)
      ensures r.Ok? ==>
                Torn(old(stages), old(builds), copy.(updated := now), list, skips, releases, end, stages, builds)
      ensures r.Ok? ==>
                var was, row := old(builds)[copy.buildId], builds[copy.buildId];
                && builds == old(builds)[was.id := row]
                && if Deps.Over(stages, was.id)
                   then row == was.(status := row.status, finished := end, version := was.version + 1)
                        && Deps.DecidesRows(stages, was.id, row.status)
                   else row == was
      ensures r.Ok? ==>
                scheduled == old(scheduled) + TornSchedules(old(stages), copy.(updated := now), list, skips, releases)
      ensures r.Ok? ==>
                old(scheduled) <= scheduled && Woken(old(stages), copy, stages, scheduled[|old(scheduled)|..])
    {
      list := [];
      if copy.buildId !in builds {
        return NotFound, list;
      }
      var build := builds[copy.buildId];
      var ok, curr := UpdateStage(copy.(updated := now));
      if !ok {
        return OptimisticLock, list;
      }
      list := SweepBuild(build, curr, skips, releases, end);
      ghost var stored := copy.(updated := now);
      TornVerdict(old(stages), old(builds), stored, list, skips, releases, end, stages, builds);
      TornWakes(old(stages), stored, list, skips, releases, stages);
      assert scheduled[|old(scheduled)|..] == TornSchedules(old(stages), stored, list, skips, releases);
      return Ok, list;
    }

    /** Once the report is stored: list the stages, run both loops, close the build. */
    method SweepBuild(build: Build, curr: Stage, skips: Clock, releases: Clock, end: int) returns (list: seq<Stage>)
      requires Valid() && build.id in builds && builds[build.id] == build
      modifies this
      ensures Protocol.IsListing(old(stages), build.id, list)
      ensures stages == Serial.Swept(old(stages), curr, list, skips, releases).0
      ensures builds == old(builds)[build.id :=
                Serial.ClosedBuild(build, Serial.Swept(old(stages), curr, list, skips, releases).1, end)]
      ensures scheduled == old(scheduled) + Serial.SweptSchedules(old(stages), curr, list, skips, releases)
    {
      list := ListSteps(build.id);
      var list1 := CancelDownstream(list, skips);
      var list2 := ScheduleDownstream(curr, list1, releases);
      CloseBuild(build, list2, end);
    }

    /** The end of a teardown: a complete build gets its final status. */
    method CloseBuild(build: Build, list: seq<Stage>, end: int)
      requires build.id in builds && builds[build.id] == build
      modifies this`builds
      ensures builds == old(builds)[build.id := Serial.ClosedBuild(build, list, end)]
    {
      var complete := IsBuildComplete(list);
      if complete {
        var status := FinalStatus(list);
        builds := CommittedBuild(builds, build.(status := status, finished := end));
      }
    }
  }

  /** The tables after an undisturbed teardown that stores copy and lists list. */
  ghost predicate Torn(rows: Stages, builds: Builds, copy: Stage, list: seq<Stage>, skips: Clock,
                       releases: Clock, end: int,
                       rows': Stages, builds': Builds)
    requires copy.buildId in builds
  {
    var b := copy.buildId;
    && Protocol.IsListing(Committed(rows, copy), b, list)
    && var (rows2, list2) := Serial.Swept(Committed(rows, copy), Reported(copy), list, skips, releases);
       && rows' == rows2
       && builds' == builds[b := Serial.ClosedBuild(builds[b], list2, end)]
  }

  ghost function Reported(copy: Stage): Stage {
    copy.(version := copy.version + 1)
  }

  ghost function TornSchedules(rows: Stages, copy: Stage, list: seq<Stage>, skips: Clock, releases: Clock): seq<int> {
    Serial.SweptSchedules(Committed(rows, copy), Reported(copy), list, skips, releases)
  }

  /** The schedules of a teardown that reports copy: exactly the stages that were waiting
      once the report was stored and are pending now, once for each, oldest first. */
  ghost predicate Woken(rows: Stages, copy: Stage, rows': Stages, ids: seq<int>) {
    && (forall id :: id in ids <==>
          && id in rows && id in rows' && (if id == copy.id then copy.status else rows[id].status) == Waiting
          && rows'[id].status == Pending)
    && (forall j, k :: 0 <= j < k < |ids| ==> ids[j] < ids[k])
  }

  lemma {:induction false} TornWakes(rows: Stages, copy: Stage, list: seq<Stage>, skips: Clock, releases: Clock,
                                     rows': Stages)
    requires Current(rows, copy) && (forall id :: id in rows ==> rows[id].id == id)
    requires Protocol.IsListing(Committed(rows, copy), copy.buildId, list)
    requires rows' == Serial.Swept(Committed(rows, copy), Reported(copy), list, skips, releases).0
    ensures Woken(rows, copy, rows', TornSchedules(rows, copy, list, skips, releases))
  {
    Serial.SweptWakes(Committed(rows, copy), Reported(copy), copy.buildId, list, skips, releases);
  }

  /** The build row after a teardown: closed when no stage of the build is left, with the
      verdict over its rows. */
  lemma {:induction false} TornVerdict(rows: Stages, builds: Builds, copy: Stage, list: seq<Stage>, skips: Clock,
                                       releases: Clock, end: int, rows': Stages, builds': Builds)
    requires copy.buildId in builds && Torn(rows, builds, copy, list, skips, releases, end, rows', builds')
    requires builds[copy.buildId].id == copy.buildId && forall id :: id in rows ==> rows[id].id == id
    ensures var was, row := builds[copy.buildId], builds'[copy.buildId];
      && builds' == builds[was.id := row]
      && if Deps.Over(rows', was.id)
         then row == was.(status := row.status, finished := end, version := was.version + 1)
              && Deps.DecidesRows(rows', was.id, row.status)
         else row == was
  {
    var b := copy.buildId;
    Serial.SweptListing(Committed(rows, copy), Reported(copy), b, list, skips, releases);
    var (rows2, list2) := Serial.Swept(Committed(rows, copy), Reported(copy), list, skips, releases);
    Serial.ListedVerdict(rows2, b, list2);
  }

  /** Row by row: of the stages of its build that wait, a teardown skips those the policy
      rules out and releases those whose dependencies are all done, none later than the
      reported stage; it changes no other row. */
  lemma TornOutcome(rows: Stages, builds: Builds, copy: Stage, list: seq<Stage>, skips: Clock, releases: Clock,
                    end: int,
                    rows': Stages, builds': Builds, x: int)
    requires copy.buildId in builds && Torn(rows, builds, copy, list, skips, releases, end, rows', builds')
    requires Current(rows, copy) && copy.IsDone() && rows[copy.id].id == copy.id && Claim.SameKey(rows[copy.id], copy)
    requires (forall id :: id in rows ==> rows[id].id == id) && x in rows
    ensures rows'.Keys == rows.Keys && Serial.Outcome(Committed(rows, copy), rows', copy.id, x)
  {
    Serial.TeardownOutcome(Committed(rows, copy), Reported(copy), copy.buildId, list, skips, releases, x);
  }

  // ---------- the same teardown in the protocol ----------

  lemma SkipStep(s: Protocol.State, mid: Protocol.State, c: nat, now: int) returns (s': Protocol.State)
    requires Reaches(s, mid) && c in mid.clients && mid.clients[c].phase.Skipping?
    ensures Reaches(s, s') && c in s'.clients && s'.builds == mid.builds
    ensures var cl := mid.clients[c];
      if cl.i < |cl.list| then
        var (rows, list) := SkipOne(mid.stages, cl.list, cl.i, cl.failed, now);
        s'.stages == rows && s'.clients[c] == cl.(list := list, i := cl.i + 1)
      else s'.stages == mid.stages && s'.clients[c] == cl.(phase := Protocol.Releasing, i := 0)
  {
    s' := Takes(s, mid, c, Protocol.Report(Protocol.Skip(now)));
    if mid.clients[c].i < |mid.clients[c].list| {
      SkipTurn(mid, c, now);
    }
  }

  /** From position i of the skip loop, the client alone comes to the release loop. */
  lemma {:induction false} SkipRun(s: Protocol.State, mid: Protocol.State, c: nat, clock: Clock)
    returns (s': Protocol.State)
    requires Reaches(s, mid) && c in mid.clients && mid.clients[c].phase.Skipping?
    ensures Reaches(s, s') && c in s'.clients && s'.builds == mid.builds
    ensures var cl := mid.clients[c];
      var (rows, list) := SkipFrom(mid.stages, cl.list, cl.i, cl.failed, clock);
      s'.stages == rows && s'.clients[c] == cl.(phase := Protocol.Releasing, list := list, i := 0)
    decreases |mid.clients[c].list| - mid.clients[c].i
  {
    var cl := mid.clients[c];
    if cl.i >= |cl.list| {
      s' := SkipStep(s, mid, c, 0);
    } else {
      s' := SkipStep(s, mid, c, clock(cl.i));
      s' := SkipRun(s, s', c, clock);
    }
  }

  lemma ReleaseStep(s: Protocol.State, mid: Protocol.State, c: nat, now: int) returns (s': Protocol.State)
    requires Reaches(s, mid) && c in mid.clients && mid.clients[c].phase.Releasing? && mid.clients[c].copy.Some?
    ensures Reaches(s, s') && c in s'.clients && s'.builds == mid.builds
    ensures var cl := mid.clients[c];
      if cl.i < |cl.list| then
        var (rows, list) := ReleaseOne(mid.stages, cl.copy.value, cl.list, cl.i, now);
        s'.stages == rows && s'.clients[c] == cl.(list := list, i := cl.i + 1)
      else s'.stages == mid.stages && s'.clients[c] == cl.(phase := Protocol.Closing)
  {
    s' := Takes(s, mid, c, Protocol.Report(Protocol.Release(now)));
    if mid.clients[c].i < |mid.clients[c].list| {
      ReleaseTurn(mid, c, now);
    }
  }

  lemma {:induction false} ReleaseRun(s: Protocol.State, mid: Protocol.State, c: nat, clock: Clock)
    returns (s': Protocol.State)
    requires Reaches(s, mid) && c in mid.clients && mid.clients[c].phase.Releasing? && mid.clients[c].copy.Some?
    ensures Reaches(s, s') && c in s'.clients && s'.builds == mid.builds
    ensures var cl := mid.clients[c];
      var (rows, list) := ReleaseFrom(mid.stages, cl.copy.value, cl.list, cl.i, clock);
      s'.stages == rows && s'.clients[c].phase.Closing? && s'.clients[c].build == cl.build && s'.clients[c].list == list
    decreases |mid.clients[c].list| - mid.clients[c].i
  {
    var cl := mid.clients[c];
    if cl.i >= |cl.list| {
      s' := ReleaseStep(s, mid, c, 0);
    } else {
      s' := ReleaseStep(s, mid, c, clock(cl.i));
      s' := ReleaseRun(s, s', c, clock);
    }
  }

  lemma SettleRun(s: Protocol.State, mid: Protocol.State, c: nat, end: int) returns (s': Protocol.State)
    requires Reaches(s, mid) && c in mid.clients && mid.clients[c].phase.Closing? && mid.clients[c].build.Some?
    requires var b := mid.clients[c].build.value; b.id in mid.builds && mid.builds[b.id] == b
    ensures Reaches(s, s') && s'.stages == mid.stages
    ensures var b := mid.clients[c].build.value;
      s'.builds == mid.builds[b.id := Serial.ClosedBuild(b, mid.clients[c].list, end)]
  {
    s' := Takes(s, mid, c, Protocol.Report(Protocol.Settle(end)));
    assert mid.builds == mid.builds[mid.clients[c].build.value.id := mid.clients[c].build.value];
  }

  /** The teardown of the manager is a run of the protocol: when a client that has read
      the current build reports a current copy and nobody else acts, its own operations
      lead to the tables that Do computes. */
  lemma DoIsARun(s: Protocol.State, c: nat, now: int, list: seq<Stage>, skips: Clock, releases: Clock, end: int)
    returns (s': Protocol.State)
    requires c in s.clients && s.clients[c].phase.FinishRead? && s.clients[c].copy.Some? && s.clients[c].build.Some?
    requires var b := s.clients[c].build.value;
      b.id in s.builds && s.builds[b.id] == b && b.id == s.clients[c].copy.value.buildId
    requires Current(s.stages, s.clients[c].copy.value)
    requires Protocol.IsListing(Committed(s.stages, ReportedBy(s.clients[c], now)), s.clients[c].build.value.id, list)
    ensures Reaches(s, s')
    ensures Torn(s.stages, s.builds, ReportedBy(s.clients[c], now), list, skips, releases, end, s'.stages, s'.builds)
  {
    ReachesSelf(s);
    var s1 := Takes(s, s, c, Protocol.Report(Protocol.FinishCommit(now)));
    var s2 := Takes(s, s1, c, Protocol.Report(Protocol.FinishList(list)));
    var s3 := SkipRun(s, s2, c, skips);
    var s4 := ReleaseRun(s, s3, c, releases);
    s' := SettleRun(s, s4, c, end);
  }

  /** The record a runner stores when it reports. */
  ghost function ReportedBy(cl: Protocol.Client, now: int): Stage
    requires cl.copy.Some?
  {
    cl.copy.value.(status := cl.outcome, stopped := now, updated := now)
  }

  // ---------- what others may do ----------

  lemma StepGrows(s: Protocol.State, a: Protocol.Action, s': Protocol.State)
    requires Protocol.Next(s, a, s')
    ensures Grows(s.stages, s'.stages)
  {
  }

  /** Whatever clients of the protocol do, the stage table only grows. */
  lemma ReachesGrows(s: Protocol.State, s': Protocol.State)
    requires Reaches(s, s')
    ensures Grows(s.stages, s'.stages)
  {
    var states, acts :| Protocol.Steps(states, acts) && states[0] == s && states[|acts|] == s';
    GrowsAlong(states, acts, |acts|);
  }

  lemma {:induction false} GrowsAlong(states: seq<Protocol.State>, acts: seq<Protocol.Action>, n: nat)
    requires Protocol.Steps(states, acts) && n < |states|
    ensures Grows(states[0].stages, states[n].stages)
  {
    if n == 0 {
    } else {
      GrowsAlong(states, acts, n - 1);
      StepGrows(states[n - 1], acts[n - 1], states[n]);
    }
  }
}
