/** The dependency tests a teardown applies to the stages of one build. */
module Deps {
  import opened Core
  import opened Store

  predicate Incomplete(s: Status) {
    s.Pending? || s.Running? || s.Waiting? || s.Declined? || s.Blocked?
  }

  predicate BuildComplete(stages: seq<Stage>) {
    forall s :: s in stages ==> !Incomplete(s.status)
  }

  predicate IsDep(a: Stage, b: Stage) {
    a.name in b.dependsOn
  }

  /** Stage d is a dependency of stage x in the same build. */
  ghost predicate DepOf(rows: Stages, d: int, x: int) {
    d in rows && x in rows && rows[d].buildId == rows[x].buildId && IsDep(rows[d], rows[x])
  }

  ghost predicate BuildFailed(rows: Stages, b: int) {
    exists id :: id in rows && rows[id].buildId == b && rows[id].IsFailed()
  }

  predicate DepsComplete(stage: Stage, stages: seq<Stage>) {
    forall s :: s in stages && IsDep(s, stage) ==> s.IsDone()
  }

  /** Lexicographic order on (Updated, Number). */
  predicate Later(a: Stage, b: Stage) {
    a.updated > b.updated || (a.updated == b.updated && a.number > b.number)
  }

  predicate LastDep(curr: Stage, next: Stage, stages: seq<Stage>) {
    forall s :: s in stages && IsDep(s, next) ==> !Later(s, curr)
  }

  predicate AnyFailed(stages: seq<Stage>) {
    exists s :: s in stages && s.IsFailed()
  }

  /** A waiting stage the run policy rules out. */
  predicate MustSkip(s: Stage, failed: bool) {
    s.status.Waiting? && !(failed && s.onFailure) && !(!failed && s.onSuccess)
  }

  /** Every test of the release loop. */
  predicate MustRelease(curr: Stage, next: Stage, stages: seq<Stage>) {
    && next.status.Waiting?
    && |next.dependsOn| != 0
    && IsDep(curr, next)
    && DepsComplete(next, stages)
    && LastDep(curr, next, stages)
  }

  /** The status a finished build gets: that of the first killed, failing or
      erroneous stage in list order, or passing. */
  function Verdict(stages: seq<Stage>): Status {
    if |stages| == 0 then Passing
    else if stages[0].IsFailed() then stages[0].status
    else Verdict(stages[1..])
  }

  // ---------- the same in the words of the status column ----------

  /** Status is the verdict over the listed stages: passing if none was killed, failed or
      met an error, and otherwise the status of the first that did. */
  ghost predicate Decides(list: seq<Stage>, status: Status) {
    if forall s :: s in list ==> s.status !in {Killed, Failing, Errored} then status == Passing
    else exists i :: 0 <= i < |list| && list[i].status == status && FirstBroken(list, i)
  }

  ghost predicate FirstBroken(list: seq<Stage>, i: int) {
    0 <= i < |list| && list[i].status in {Killed, Failing, Errored}
    && forall j :: 0 <= j < i ==> list[j].status !in {Killed, Failing, Errored}
  }

  lemma {:induction false} VerdictDecides(list: seq<Stage>)
    ensures Decides(list, Verdict(list))
  {
    if |list| == 0 {
    } else if list[0].status in {Killed, Failing, Errored} {
      assert list[0] in list && FirstBroken(list, 0);
    } else {
      var rest := list[1..];
      VerdictDecides(rest);
      assert forall s :: s in list <==> s == list[0] || s in rest;
      if i :| 0 <= i < |rest| && rest[i].status == Verdict(rest) && FirstBroken(rest, i) {
        assert forall j :: 0 <= j < i ==> rest[j] == list[j + 1];
        assert list[i + 1] == rest[i] && FirstBroken(list, i + 1);
      }
    }
  }

  /** No stage of the build is unfinished or declined. */
  ghost predicate Over(rows: Stages, b: int) {
    forall id :: id in rows && rows[id].buildId == b ==>
      rows[id].status !in {Waiting, Blocked, Declined, Pending, Running}
  }

  /** Status is the verdict over the rows of the build: that of the oldest stage that was
      killed, failed or met an error, or passing. */
  ghost predicate DecidesRows(rows: Stages, b: int, status: Status) {
    if forall id :: id in rows && rows[id].buildId == b ==> rows[id].status !in {Killed, Failing, Errored}
    then status == Passing
    else exists id :: OldestBroken(rows, b, id) && rows[id].status == status
  }

  ghost predicate OldestBroken(rows: Stages, b: int, id: int) {
    && id in rows && rows[id].buildId == b && rows[id].status in {Killed, Failing, Errored}
    && (forall x :: x in rows && rows[x].buildId == b && x < id ==> rows[x].status !in {Killed, Failing, Errored})
  }
}
