/** Cancelling a build: every unfinished stage and step is killed if it had started
    and skipped if not, each by a compare-and-set of its own. */
module Cancel {
  import opened Core
  import opened Store
  import Scan
  import Protocol
  import Teardown

  function CancelledStep(s: Step, now: int): Step {
    if s.started != 0 then s.(status := Killed, stopped := now, exitCode := 130)
    else s.(status := Skipped, started := now, stopped := now, exitCode := 130)
  }

  /** What one turn of the loop makes of a stored row, given the listed copy: a copy
      that is done or behind its row changes nothing. */
  function StageAfter(row: Stage, copy: Stage, now: int): Stage {
    if !copy.IsDone() && row.version == copy.version then Written(row, Protocol.CancelledStage(copy, now)) else row
  }

  function StepAfter(row: Step, copy: Step, now: int): Step {
    if !copy.IsDone() && row.version == copy.version
    then CancelledStep(copy, now).(id := row.id, stageId := row.stageId, number := row.number,
                                   version := row.version + 1)
    else row
  }

  /** Keys in the list are those of distinct rows. */
  ghost predicate DistinctKeys(list: seq<Scan.Item>) {
    && (forall i, j :: 0 <= i < j < |list| ==> list[i].stage.id != list[j].stage.id)
    && (forall i :: 0 <= i < |list| ==> DistinctSteps(list[i].steps))
    && (forall i, j, k, l :: 0 <= i < j < |list| && 0 <= k < |list[i].steps| && 0 <= l < |list[j].steps| ==>
          list[i].steps[k].id != list[j].steps[l].id)
  }

  ghost predicate DistinctSteps(steps: seq<Step>) {
    forall k, l :: 0 <= k < l < |steps| ==> steps[k].id != steps[l].id
  }

  ghost predicate HasStage(list: seq<Scan.Item>, n: int, id: int) {
    exists i :: 0 <= i < n <= |list| && list[i].stage.id == id
  }

  ghost predicate HasStep(steps: seq<Step>, n: int, id: int) {
    exists k :: 0 <= k < n <= |steps| && steps[k].id == id
  }

  ghost predicate HasItemStep(list: seq<Scan.Item>, n: int, id: int) {
    exists i :: 0 <= i < n <= |list| && HasStep(list[i].steps, |list[i].steps|, id)
  }

  /** Rows named by the first n items are cancelled, the others as they were. */
  ghost predicate StagesUpTo(before: Stages, after: Stages, list: seq<Scan.Item>, n: int, clock: Teardown.Clock) {
    && 0 <= n <= |list| && after.Keys == before.Keys
    && (forall i :: 0 <= i < n && list[i].stage.id in before ==>
          after[list[i].stage.id] == StageAfter(before[list[i].stage.id], list[i].stage, clock(i)))
    && (forall id :: id in before && !HasStage(list, n, id) ==> after[id] == before[id])
  }

  /** Likewise for the steps of one stage. */
  ghost predicate StepsUpTo(before: map<int, Step>, after: map<int, Step>, steps: seq<Step>, n: int, now: int) {
    && 0 <= n <= |steps| && after.Keys == before.Keys
    && (forall k :: 0 <= k < n && steps[k].id in before ==>
          after[steps[k].id] == StepAfter(before[steps[k].id], steps[k], now))
    && (forall id :: id in before && !HasStep(steps, n, id) ==> after[id] == before[id])
  }

  /** The steps of one item: cancelled, unless its stage was done. */
  ghost predicate ItemSteps(before: map<int, Step>, after: map<int, Step>, item: Scan.Item, now: int) {
    forall k :: 0 <= k < |item.steps| && item.steps[k].id in before && item.steps[k].id in after ==>
      after[item.steps[k].id] ==
        if item.stage.IsDone() then before[item.steps[k].id]
        else StepAfter(before[item.steps[k].id], item.steps[k], now)
  }

  /** Steps of the first n items are dealt with, the others stay. */
  ghost predicate AllStepsUpTo(before: map<int, Step>, after: map<int, Step>, list: seq<Scan.Item>, n: int,
                               clock: Teardown.Clock) {
    && 0 <= n <= |list| && after.Keys == before.Keys
    && (forall i :: 0 <= i < n ==> ItemSteps(before, after, list[i], clock(i)))
    && (forall id :: id in before && !HasItemStep(list, n, id) ==> after[id] == before[id])
  }

  class Tables {
    var stages: Stages
    var steps: map<int, Step>

    /** The compare-and-set of a step; it names neither the stage nor the number. */
    method UpdateStep(copy: Step)
      modifies this`steps
      ensures steps == if copy.id in old(steps) && old(steps)[copy.id].version == copy.version
                       then old(steps)[copy.id := old(steps)[copy.id].(
                                         name := copy.name, status := copy.status, exitCode := copy.exitCode,
                                         started := copy.started, stopped := copy.stopped,
                                         version := copy.version + 1)]
                       else old(steps)
    {
      if copy.id in steps && steps[copy.id].version == copy.version {
        steps := steps[copy.id := steps[copy.id].(
                         name := copy.name, status := copy.status, exitCode := copy.exitCode, started := copy.started,
                         stopped := copy.stopped, version := copy.version + 1)];
      }
    }

    method CancelStep(copy: Step, now: int)
      requires forall id :: id in steps ==> steps[id].id == id
      modifies this`steps
      ensures steps == StepStored(old(steps), copy, now)
    {
      var step := copy;
      if step.IsDone() {
        return;
      }
      if step.started != 0 {
        step := step.(status := Killed);
      } else {
        step := step.(status := Skipped, started := now);
      }
      step := step.(stopped := now, exitCode := 130);
      UpdateStep(step);
    }

    method CancelSteps(list: seq<Step>, now: int)
      requires DistinctSteps(list) && forall id :: id in steps ==> steps[id].id == id
      modifies this`steps
      ensures StepsUpTo(old(steps), steps, list, |list|, now) && forall id :: id in steps ==> steps[id].id == id
    {
      for k := 0 to |list|
        invariant StepsUpTo(old(steps), steps, list, k, now) && forall id :: id in steps ==> steps[id].id == id
      {
        ghost var mid := steps;
        CancelStep(list[k], now);
        StepNext(old(steps), mid, list, k, now);
      }
    }

    method CancelStage(copy: Stage, now: int)
      requires forall id :: id in stages ==> stages[id].id == id
      modifies this`stages
      ensures stages == StageStored(old(stages), copy, now)
    {
      var stage := copy;
      if stage.IsDone() {
        return;
      }
      if stage.started != 0 {
        stage := stage.(status := Killed);
      } else {
        stage := stage.(status := Skipped, started := now);
      }
      stage := stage.(stopped := now);
      var ok, rows, copy' := CompareAndSet(stages, stage);
      stages := rows;
    }

    /** The body of the outer loop. */
    method CancelItem(item: Scan.Item, now: int)
      requires DistinctSteps(item.steps) && Keyed()
      modifies this
      ensures Keyed() && stages == StageStored(old(stages), item.stage, now)
      ensures if item.stage.IsDone() then steps == old(steps)
              else StepsUpTo(old(steps), steps, item.steps, |item.steps|, now)
    {
      CancelStage(item.stage, now);
      if item.stage.IsDone() {
        return;
      }
      CancelSteps(item.steps, now);
    }

    ghost predicate Keyed()
      reads this
    {
      (forall id :: id in stages ==> stages[id].id == id) && (forall id :: id in steps ==> steps[id].id == id)
    }

    /** The two nested loops over a listing of the build. */
    method CancelAll(list: seq<Scan.Item>, clock: Teardown.Clock)
      requires DistinctKeys(list) && Keyed()
      modifies this
      ensures StagesUpTo(old(stages), stages, list, |list|, clock)
      ensures AllStepsUpTo(old(steps), steps, list, |list|, clock)
    {
      for i := 0 to |list|
        invariant Keyed() && StagesUpTo(old(stages), stages, list, i, clock)
        invariant AllStepsUpTo(old(steps), steps, list, i, clock)
      {
        ghost var rows, mid := stages, steps;
        CancelItem(list[i], clock(i));
        StagesNext(old(stages), rows, stages, list, i, clock);
        StepsNext(old(steps), mid, steps, list, i, clock);
      }
    }
  }

  /** The table after one turn of the inner loop. */
  function StepStored(steps: map<int, Step>, copy: Step, now: int): map<int, Step> {
    if copy.id in steps then steps[copy.id := StepAfter(steps[copy.id], copy, now)] else steps
  }

  /** The table after the stage update of one turn of the outer loop. */
  function StageStored(rows: Stages, copy: Stage, now: int): Stages {
    if copy.id in rows && !copy.IsDone() then rows[copy.id := StageAfter(rows[copy.id], copy, now)] else rows
  }

  lemma StepNext(before: map<int, Step>, mid: map<int, Step>, list: seq<Step>, k: int, now: int)
    requires DistinctSteps(list) && StepsUpTo(before, mid, list, k, now) && k < |list|
    requires forall id :: id in mid ==> mid[id].id == id
    ensures StepsUpTo(before, StepStored(mid, list[k], now), list, k + 1, now)
    ensures forall id :: id in StepStored(mid, list[k], now) ==> StepStored(mid, list[k], now)[id].id == id
  {
    var after := StepStored(mid, list[k], now);
    assert !HasStep(list, k, list[k].id);
    forall id | id in before && !HasStep(list, k + 1, id) ensures after[id] == before[id] {
      assert list[k].id != id && !HasStep(list, k, id);
    }
  }

  lemma StagesNext(before: Stages, mid: Stages, after: Stages, list: seq<Scan.Item>, i: int, clock: Teardown.Clock)
    requires DistinctKeys(list) && StagesUpTo(before, mid, list, i, clock) && i < |list|
    requires after == StageStored(mid, list[i].stage, clock(i))
    ensures StagesUpTo(before, after, list, i + 1, clock)
  {
    var x := list[i].stage.id;
    forall j | 0 <= j < i ensures list[j].stage.id != x {
    }
    assert !HasStage(list, i, x);
    StageTurn(mid, list[i].stage, clock(i));
    forall id | id in before && !HasStage(list, i + 1, id) ensures after[id] == before[id] {
      assert id != x && !HasStage(list, i, id);
    }
    forall j | 0 <= j < i + 1 && list[j].stage.id in before
      ensures after[list[j].stage.id] == StageAfter(before[list[j].stage.id], list[j].stage, clock(j))
    {
      if j == i {
        assert mid[x] == before[x];
      }
    }
  }

  lemma StageTurn(rows: Stages, copy: Stage, now: int)
    ensures StageStored(rows, copy, now).Keys == rows.Keys
    ensures forall id :: id in rows ==>
              StageStored(rows, copy, now)[id] == if id == copy.id then StageAfter(rows[id], copy, now) else rows[id]
  {
  }

  /** No earlier item names a step of item i. */
  lemma StepsApart(list: seq<Scan.Item>, i: int, id: int)
    requires DistinctKeys(list) && 0 <= i < |list| && HasStep(list[i].steps, |list[i].steps|, id)
    ensures !HasItemStep(list, i, id)
  {
  }

  lemma EarlierItem(before: map<int, Step>, mid: map<int, Step>, after: map<int, Step>, list: seq<Scan.Item>,
                    i: int, j: int, clock: Teardown.Clock)
    requires DistinctKeys(list) && AllStepsUpTo(before, mid, list, i, clock) && 0 <= j < i < |list|
    requires after.Keys == mid.Keys
    requires forall id :: id in mid && !HasStep(list[i].steps, |list[i].steps|, id) ==> after[id] == mid[id]
    ensures ItemSteps(before, after, list[j], clock(j))
  {
    forall k | 0 <= k < |list[j].steps| && list[j].steps[k].id in before
      ensures after[list[j].steps[k].id] == mid[list[j].steps[k].id]
    {
      assert !HasStep(list[i].steps, |list[i].steps|, list[j].steps[k].id);
    }
    assert ItemSteps(before, mid, list[j], clock(j));
  }

  lemma ThisItem(before: map<int, Step>, mid: map<int, Step>, after: map<int, Step>, list: seq<Scan.Item>,
                 i: int, clock: Teardown.Clock)
    requires DistinctKeys(list) && AllStepsUpTo(before, mid, list, i, clock) && i < |list|
    requires if list[i].stage.IsDone() then after == mid
             else StepsUpTo(mid, after, list[i].steps, |list[i].steps|, clock(i))
    ensures ItemSteps(before, after, list[i], clock(i))
  {
    forall k | 0 <= k < |list[i].steps| && list[i].steps[k].id in before
      ensures mid[list[i].steps[k].id] == before[list[i].steps[k].id]
    {
      StepsApart(list, i, list[i].steps[k].id);
    }
  }

  lemma KeysAgree(mid: map<int, Step>, after: map<int, Step>, list: seq<Scan.Item>, i: int, clock: Teardown.Clock)
    requires 0 <= i < |list|
    requires if list[i].stage.IsDone() then after == mid
             else StepsUpTo(mid, after, list[i].steps, |list[i].steps|, clock(i))
    ensures after.Keys == mid.Keys
    ensures forall id :: id in mid && !HasStep(list[i].steps, |list[i].steps|, id) ==> after[id] == mid[id]
  {
  }

  lemma StepsNext(before: map<int, Step>, mid: map<int, Step>, after: map<int, Step>, list: seq<Scan.Item>,
                  i: int, clock: Teardown.Clock)
    requires DistinctKeys(list) && AllStepsUpTo(before, mid, list, i, clock) && i < |list|
    requires if list[i].stage.IsDone() then after == mid
             else StepsUpTo(mid, after, list[i].steps, |list[i].steps|, clock(i))
    ensures AllStepsUpTo(before, after, list, i + 1, clock)
  {
    KeysAgree(mid, after, list, i, clock);
    ThisItem(before, mid, after, list, i, clock);
    AllItems(before, mid, after, list, i, clock);
  }

  lemma AllItems(before: map<int, Step>, mid: map<int, Step>, after: map<int, Step>, list: seq<Scan.Item>,
                 i: int, clock: Teardown.Clock)
    requires DistinctKeys(list) && AllStepsUpTo(before, mid, list, i, clock) && i < |list| && after.Keys == mid.Keys
    requires forall id :: id in mid && !HasStep(list[i].steps, |list[i].steps|, id) ==> after[id] == mid[id]
    requires ItemSteps(before, after, list[i], clock(i))
    ensures AllStepsUpTo(before, after, list, i + 1, clock)
  {
    forall j | 0 <= j < i ensures ItemSteps(before, after, list[j], clock(j)) {
      EarlierItem(before, mid, after, list, i, j, clock);
    }
    forall id | id in before && !HasItemStep(list, i + 1, id) ensures after[id] == before[id] {
      assert !HasItemStep(list, i, id);
    }
  }

  /** Cancelling with a current listing finishes the build: every stage of it is
      done, killed or skipped ones by whether they had started; finished stages and
      stages of other builds stay as they were. */
  lemma CancelFinishes(before: Stages, after: Stages, build: int, list: seq<Scan.Item>, clock: Teardown.Clock)
    requires StagesUpTo(before, after, list, |list|, clock)
    requires forall i :: 0 <= i < |list| ==>
               list[i].stage.id in before && before[list[i].stage.id] == list[i].stage && list[i].stage.buildId == build
    requires forall id :: id in before && before[id].buildId == build ==> HasStage(list, |list|, id)
    ensures forall id :: id in before && before[id].buildId == build ==> after[id].IsDone()
    ensures forall id :: id in before && (before[id].buildId != build || before[id].IsDone()) ==>
              after[id] == before[id]
    ensures forall i :: 0 <= i < |list| && !list[i].stage.IsDone() ==>
              var was := list[i].stage;
              after[was.id] == was.(status := if was.started != 0 then Killed else Skipped,
                                    started := if was.started != 0 then was.started else clock(i),
                                    stopped := clock(i), version := was.version + 1)
  {
    forall i | 0 <= i < |list|
      ensures after[list[i].stage.id] == StageAfter(list[i].stage, list[i].stage, clock(i))
    {
    }
    forall id | id in before && before[id].buildId == build
      ensures after[id].IsDone() && (before[id].IsDone() ==> after[id] == before[id])
    {
      var i :| 0 <= i < |list| && list[i].stage.id == id;
      CancelledOnce(list[i].stage, clock(i));
    }
    forall id | id in before && before[id].buildId != build ensures after[id] == before[id] {
      assert !HasStage(list, |list|, id);
    }
  }

  lemma CancelledOnce(was: Stage, now: int)
    ensures StageAfter(was, was, now).IsDone() && (was.IsDone() ==> StageAfter(was, was, now) == was)
  {
  }

  /** And its steps: in a stage that was not done every step ends done, an
      unfinished one with exit code 130; a stage that was done keeps its steps. */
  lemma CancelFinishesSteps(before: map<int, Step>, after: map<int, Step>, list: seq<Scan.Item>,
                            clock: Teardown.Clock, i: int, k: int)
    requires AllStepsUpTo(before, after, list, |list|, clock) && 0 <= i < |list| && 0 <= k < |list[i].steps|
    requires list[i].steps[k].id in before && before[list[i].steps[k].id] == list[i].steps[k]
    ensures var was, now := list[i].steps[k], after[list[i].steps[k].id];
            if list[i].stage.IsDone() || was.IsDone() then now == was
            else now == was.(status := if was.started != 0 then Killed else Skipped, exitCode := 130,
                             started := if was.started != 0 then was.started else clock(i), stopped := clock(i),
                             version := was.version + 1)
  {
    assert ItemSteps(before, after, list[i], clock(i));
  }

  /** The listing that the join query and the scan return has distinct keys. */
  lemma GroupedIsDistinct(stages: set<Stage>, steps: set<Step>, list: seq<Scan.Item>)
    requires Scan.Grouped(stages, steps, list) && forall s, t :: s in steps && t in steps && s.id == t.id ==> s == t
    ensures DistinctKeys(list)
  {
    forall i, j, k, l | 0 <= i < j < |list| && 0 <= k < |list[i].steps| && 0 <= l < |list[j].steps|
      ensures list[i].steps[k].id != list[j].steps[l].id
    {
      var s, t := list[i].steps[k], list[j].steps[l];
      assert Scan.StepsOf(steps, list[i]) && Scan.StepsOf(steps, list[j]);
      assert s in list[i].steps && t in list[j].steps;
      assert s.stageId != t.stageId;
    }
    forall i | 0 <= i < |list| ensures DistinctSteps(list[i].steps) {
      assert Scan.StepsOf(steps, list[i]);
    }
  }
}
