/** Dependency order and run policy over every run of the protocol in which the
    sweeps of one build do not overlap, without cancels or approvals.  Everything
    else interleaves freely with a sweep: claims, setups and reports of sibling
    stages, other builds, crashes. */
module Order {
  import opened Core
  import opened Store
  import opened Protocol
  import opened Claim
  import opened Final
  import opened Release
  import opened Deps

  /** No stage was marked by a cancel or approved. */
  ghost predicate Calm(log: seq<Event>) {
    forall ev :: ev in log ==> !ev.CancelMarked? && !ev.Approved?
  }

  /** The client is in the loops of a teardown of build b. */
  ghost predicate Sweeps(cl: Client, b: int) {
    Swept(cl.phase) && cl.build.Some? && cl.build.value.id == b
  }

  /** At most one client sweeps a build. */
  ghost predicate Serialised(s: State) {
    forall c, d, b :: c in s.clients && d in s.clients && Sweeps(s.clients[c], b) && Sweeps(s.clients[d], b) ==> c == d
  }

  /** Pending, running or has run. */
  ghost predicate Going(s: Status) {
    s.Pending? || s.Running? || Reports(s)
  }

  ghost predicate InOrder(rows: Stages) {
    forall d, x :: DepOf(rows, d, x) && Going(rows[x].status) ==> rows[d].IsDone()
  }

  // ---------- what the operations do to a sweep ----------

  ghost predicate SkipsOne(cl: Client, base: Stage, change: Stage) {
    && cl.phase.Skipping? && cl.i < |cl.list| && base == cl.list[cl.i] && MustSkip(base, cl.failed)
    && change.status.Skipped? && change.machine == base.machine
  }

  /** How the loops go on without writing. */
  ghost predicate Proceeds(s: State, cl: Client, next: Client) {
    Swept(next.phase) ==>
      || (cl.phase.Listing? && next.phase.Skipping? && next.i == 0 && next.build == cl.build && cl.build.Some?
          && IsListing(s.stages, cl.build.value.id, next.list) && next.failed == AnyFailed(next.list))
      || (Swept(cl.phase) && next.list == cl.list && next.failed == cl.failed && next.build == cl.build
          && ((cl.phase.Skipping? && next.phase.Skipping? && cl.i < |cl.list| && next.i == cl.i + 1
               && !MustSkip(cl.list[cl.i], cl.failed))
              || (cl.phase.Skipping? && next.phase.Releasing? && cl.i >= |cl.list|)
              || (cl.phase.Releasing? && !next.phase.Skipping?)))
  }

  ghost predicate Shifts(s: State, cl: Client, e: Effect) {
    match e
    case Local(next, _) => Proceeds(s, cl, next)
    case WriteStage(base, change, won, lost, wonNote, lostNote) =>
      || (|wonNote| == 1 && wonNote[0].CancelMarked? && lostNote == wonNote && change.IsDone()
          && !Swept(won.phase) && !Swept(lost.phase))
      || ((SkipsOne(cl, base, change) || ReleasesOne(cl, base, change))
          && won == Next1(cl.(list := cl.list[cl.i := Bump(change)]))
          && lost == Next1(cl.(list := cl.list[cl.i := change])))
      || (!Swept(lost.phase) && !Swept(won.phase) && Advances(cl, base, change, won, wonNote))
    case WriteBuild(_, won, lost, _) => !Swept(won.phase) && !Swept(lost.phase)
  }

  lemma PollShifts(s: State, cl: Client, op: PollOp)
    requires PhaseOK(cl) && PollEnabled(s, cl, op)
    ensures Shifts(s, cl, PollPlan(s, cl, op))
  {
  }

  lemma ReportShifts(s: State, cl: Client, op: ReportOp)
    requires PhaseOK(cl) && ReportEnabled(s, cl, op)
    ensures Shifts(s, cl, ReportPlan(s, cl, op))
  {
  }

  lemma KillShifts(s: State, cl: Client, op: KillOp)
    requires PhaseOK(cl) && KillEnabled(s, cl, op)
    ensures Shifts(s, cl, KillPlan(s, cl, op))
  {
  }

  lemma ReviewShifts(s: State, cl: Client, op: ReviewOp)
    requires PhaseOK(cl) && ReviewEnabled(s, cl, op)
    ensures Shifts(s, cl, ReviewPlan(s, cl, op))
  {
  }

  lemma PlanShifts(s: State, cl: Client, op: Op)
    requires PhaseOK(cl) && Enabled(s, cl, op)
    ensures Shifts(s, cl, Plan(s, cl, op))
  {
    match op
    case Poll(p) => PollShifts(s, cl, p);
    case Report(r) => ReportShifts(s, cl, r);
    case Kill(k) => KillShifts(s, cl, k);
    case Review(v) => ReviewShifts(s, cl, v);
    case Abort =>
  }

  // ---------- the invariant ----------

  ghost predicate RowO(s: State, id: int)
    requires id in s.stages
  {
    var r := s.stages[id];
    && !r.status.Killed?
    && (!Going(r.status) ==> r.machine == "" && id !in s.listed)
    && (Reports(r.status) ==> Finished(id, r.updated) in s.log)
  }

  ghost predicate RowsO(s: State) {
    forall id :: id in s.stages ==> RowO(s, id)
  }

  /** The list of a sweep holds every stage of the build once, and its waiting and
      done records are the stored ones. */
  ghost predicate ListO(rows: Stages, b: int, list: seq<Stage>) {
    && (forall j :: 0 <= j < |list| ==> list[j].id in rows && list[j].buildId == b)
    && (forall j :: 0 <= j < |list| && (list[j].IsDone() || list[j].status.Waiting?) ==> rows[list[j].id] == list[j])
    && (forall id :: id in rows && rows[id].buildId == b ==> exists j :: 0 <= j < |list| && list[j].id == id)
    && (forall j, k :: 0 <= j < k < |list| ==> list[j].id != list[k].id)
  }

  /** What the skip loop has passed may run. */
  ghost predicate Sifted(cl: Client) {
    && (cl.phase.Skipping? ==> forall j :: 0 <= j < |cl.list| && j < cl.i ==> !MustSkip(cl.list[j], cl.failed))
    && (cl.phase.Releasing? ==> forall j :: 0 <= j < |cl.list| ==> !MustSkip(cl.list[j], cl.failed))
  }

  ghost predicate ClientO(s: State, cl: Client) {
    Swept(cl.phase) ==>
      && cl.build.Some? && ListO(s.stages, cl.build.value.id, cl.list)
      && cl.failed == AnyFailed(cl.list) && Sifted(cl)
  }

  ghost predicate OInv(s: State) {
    && Inv(s) && Calm(s.log) && RowsO(s) && InOrder(s.stages)
    && (forall c :: c in s.clients ==> ClientO(s, s.clients[c]))
  }

  /** An operation of a calm, serialised run. */
  ghost predicate Fires1(s: State, c: nat, e: Effect) {
    && OInv(s) && Serialised(s) && c in s.clients && WellFormed(s, s.clients[c], e) && Noted(s.clients[c], e)
    && Shifts(s, s.clients[c], e) && Calm(Apply(s, c, e).log)
  }

  // ---------- rows ----------

  /** Done rows never change. */
  lemma DoneStays(s: State, c: nat, e: Effect, id: int)
    requires Fires1(s, c, e) && id in s.stages && s.stages[id].IsDone()
    ensures id in Apply(s, c, e).stages && Apply(s, c, e).stages[id] == s.stages[id]
  {
    assert RowO(s, id);
    if Reports(s.stages[id].status) {
      assert EventOK(s, Finished(id, s.stages[id].updated));
    } else {
      forall d | d in s.clients && Working(s.clients[d].phase) ensures s.clients[d].task != id {
        assert ClientOK(s, s.clients[d]);
      }
    }
    SealedEffect(s, c, e, id);
  }

  lemma NoCancelMark(s: State, c: nat, e: Effect)
    requires Fires1(s, c, e) && e.WriteStage?
    ensures !(|e.wonNote| == 1 && e.wonNote[0].CancelMarked? && e.lostNote == e.wonNote)
    ensures Current(s.stages, e.change) && |e.wonNote| == 1 ==> !e.wonNote[0].Approved?
  {
    var log := Apply(s, c, e).log;
    assert |log| > |s.log| ==> log[|s.log|] in log;
  }

  ghost predicate Sweep1(cl: Client, base: Stage, change: Stage) {
    SkipsOne(cl, base, change) || ReleasesOne(cl, base, change)
  }

  /** A winning write that is not part of a sweep starts from a row that is going, or
      declines a blocked one. */
  lemma OtherWrites(s: State, c: nat, e: Effect)
    requires Fires1(s, c, e) && e.WriteStage? && Current(s.stages, e.change)
    requires !Sweep1(s.clients[c], e.base, e.change)
    ensures e.base == s.stages[e.change.id] && e.base.id == e.change.id
    ensures (Going(e.base.status) && Going(e.change.status))
            || (e.base.status.Blocked? && e.change.status.Declined? && e.change.machine == e.base.machine)
    ensures Reports(e.change.status) ==> e.wonNote == [Finished(e.change.id, e.change.updated)]
    ensures !Swept(Apply(s, c, e).clients[c].phase)
  {
    assert ClientOK(s, s.clients[c]);
    BaseIsRow(s, c, e);
    NoCancelMark(s, c, e);
    assert RowO(s, e.change.id);
  }

  /** A sweep writes a waiting row of its own build, and its record is current. */
  lemma SweepWrites(s: State, c: nat, e: Effect)
    requires Fires1(s, c, e) && e.WriteStage? && Sweep1(s.clients[c], e.base, e.change)
    ensures Current(s.stages, e.change) && e.base == s.stages[e.change.id] && e.base.id == e.change.id
    ensures e.base.status.Waiting? && Sweeps(s.clients[c], e.base.buildId)
    ensures Written(e.base, e.change) == Bump(e.change)
  {
    var cl := s.clients[c];
    assert ClientO(s, cl);
  }

  lemma RowsStay(s: State, c: nat, e: Effect)
    requires Fires1(s, c, e)
    ensures RowsO(Apply(s, c, e))
  {
    var s' := Apply(s, c, e);
    forall id | id in s'.stages ensures RowO(s', id) {
      assert RowO(s, id);
      if e.WriteStage? && Current(s.stages, e.change) && e.change.id == id {
        RowWritten(s, c, e);
      }
    }
  }

  lemma RowWritten(s: State, c: nat, e: Effect)
    requires Fires1(s, c, e) && e.WriteStage? && Current(s.stages, e.change)
    ensures RowO(Apply(s, c, e), e.change.id)
  {
    assert RowO(s, e.change.id);
    if Sweep1(s.clients[c], e.base, e.change) {
      SweepWrites(s, c, e);
    } else {
      OtherWrites(s, c, e);
      assert e.wonNote != [] ==> Apply(s, c, e).log[|s.log|] == e.wonNote[0];
    }
  }

  // ---------- lists ----------

  /** Waiting rows of a build change only by its own sweep. */
  lemma WaitingStays(s: State, c: nat, e: Effect, id: int)
    requires Fires1(s, c, e) && id in s.stages && s.stages[id].status.Waiting?
    requires !Sweeps(s.clients[c], s.stages[id].buildId)
    ensures id in Apply(s, c, e).stages && Apply(s, c, e).stages[id] == s.stages[id]
  {
    if e.WriteStage? && Current(s.stages, e.change) && e.change.id == id {
      BaseIsRow(s, c, e);
      if Sweep1(s.clients[c], e.base, e.change) {
        SweepWrites(s, c, e);
      } else {
        OtherWrites(s, c, e);
      }
    }
  }

  lemma SameIds(s: State, c: nat, e: Effect)
    requires Fires1(s, c, e)
    ensures Apply(s, c, e).stages.Keys == s.stages.Keys
    ensures forall id :: id in s.stages ==> SameKey(s.stages[id], Apply(s, c, e).stages[id])
  {
    if e.WriteStage? && Current(s.stages, e.change) {
      BaseIsRow(s, c, e);
    }
  }

  lemma ListStays(s: State, c: nat, e: Effect, b: int, list: seq<Stage>)
    requires Fires1(s, c, e) && ListO(s.stages, b, list) && (!Sweeps(s.clients[c], b) || !e.WriteStage?)
    ensures ListO(Apply(s, c, e).stages, b, list)
  {
    var s' := Apply(s, c, e);
    SameIds(s, c, e);
    forall j | 0 <= j < |list| && (list[j].IsDone() || list[j].status.Waiting?)
      ensures s'.stages[list[j].id] == list[j]
    {
      if list[j].IsDone() {
        DoneStays(s, c, e, list[j].id);
      } else if e.WriteStage? {
        WaitingStays(s, c, e, list[j].id);
      }
    }
  }

  lemma OtherStays(s: State, c: nat, e: Effect, d: nat)
    requires Fires1(s, c, e) && d in s.clients && d != c
    ensures ClientO(Apply(s, c, e), s.clients[d])
  {
    var cl := s.clients[d];
    assert ClientO(s, cl);
    if Swept(cl.phase) {
      assert Sweeps(cl, cl.build.value.id);
      ListStays(s, c, e, cl.build.value.id, cl.list);
    }
  }

  /** The record a sweep has written stands in its list as it is stored. */
  lemma ListWritten(rows: Stages, rows': Stages, b: int, list: seq<Stage>, i: nat, k: Stage)
    requires ListO(rows, b, list) && i < |list| && k.id == list[i].id && k.buildId == b
    requires rows' == rows[k.id := k] && (forall id :: id in rows ==> rows[id].id == id)
    ensures ListO(rows', b, list[i := k])
  {
    var list' := list[i := k];
    forall id | id in rows' && rows'[id].buildId == b ensures exists j :: 0 <= j < |list'| && list'[j].id == id {
      assert id == k.id ==> list'[i].id == id;
      if id != k.id {
        var j :| 0 <= j < |list| && list[j].id == id;
        assert list'[j].id == id;
      }
    }
  }

  /** Replacing a record that has not failed by another keeps the verdict. */
  lemma FailedStays(list: seq<Stage>, i: nat, k: Stage)
    requires i < |list| && !list[i].IsFailed() && !k.IsFailed()
    ensures AnyFailed(list[i := k]) == AnyFailed(list)
  {
    var list' := list[i := k];
    if AnyFailed(list) {
      var r :| r in list && r.IsFailed();
      var j :| 0 <= j < |list| && list[j] == r;
      assert list'[j] == r;
    }
    if AnyFailed(list') {
      var r :| r in list' && r.IsFailed();
      var j :| 0 <= j < |list'| && list'[j] == r;
      assert list[j] == r;
    }
  }

  /** A sweep that has written record i goes on with a list that is in step. */
  lemma SweptOn(s: State, s': State, cl: Client, k: Stage)
    requires Swept(cl.phase) && cl.build.Some? && ListO(s.stages, cl.build.value.id, cl.list) && cl.i < |cl.list|
    requires cl.failed == AnyFailed(cl.list) && Sifted(cl) && (forall id :: id in s.stages ==> s.stages[id].id == id)
    requires !cl.list[cl.i].IsFailed() && k.id == cl.list[cl.i].id && k.buildId == cl.build.value.id
    requires k.status.Skipped? || (k.status.Pending? && !cl.phase.Skipping?)
    requires s'.stages == s.stages[k.id := k]
    ensures ClientO(s', Next1(cl.(list := cl.list[cl.i := k])))
  {
    ListWritten(s.stages, s'.stages, cl.build.value.id, cl.list, cl.i, k);
    FailedStays(cl.list, cl.i, k);
  }

  lemma SweeperStays(s: State, c: nat, e: Effect)
    requires Fires1(s, c, e) && e.WriteStage? && Sweep1(s.clients[c], e.base, e.change)
    ensures ClientO(Apply(s, c, e), Apply(s, c, e).clients[c])
  {
    assert ClientO(s, s.clients[c]);
    SweepWrites(s, c, e);
    NoCancelMark(s, c, e);
    SweptOn(s, Apply(s, c, e), s.clients[c], Bump(e.change));
  }

  lemma LocalStays(s: State, c: nat, e: Effect)
    requires Fires1(s, c, e) && e.Local?
    ensures ClientO(Apply(s, c, e), e.next)
  {
    assert ClientO(s, s.clients[c]) && forall id :: id in s.stages ==> s.stages[id].id == id;
    ProceedsO(s, s.clients[c], e.next);
  }

  lemma ProceedsO(s: State, cl: Client, next: Client)
    requires Proceeds(s, cl, next) && ClientO(s, cl) && forall id :: id in s.stages ==> s.stages[id].id == id
    ensures ClientO(s, next)
  {
    if Swept(next.phase) && cl.phase.Listing? {
      ListedIsListO(s.stages, cl.build.value.id, next.list);
    }
  }

  lemma ListedIsListO(rows: Stages, b: int, list: seq<Stage>)
    requires IsListing(rows, b, list) && (forall id :: id in rows ==> rows[id].id == id)
    ensures ListO(rows, b, list)
  {
    forall id | id in rows && rows[id].buildId == b ensures exists j :: 0 <= j < |list| && list[j].id == id {
      assert rows[id] in list;
    }
  }

  lemma SelfStays(s: State, c: nat, e: Effect)
    requires Fires1(s, c, e)
    ensures ClientO(Apply(s, c, e), Apply(s, c, e).clients[c])
  {
    var cl := s.clients[c];
    match e
    case Local(_, _) => LocalStays(s, c, e);
    case WriteStage(base, change, _, _, _, _) =>
      if Sweep1(cl, base, change) {
        SweeperStays(s, c, e);
      } else {
        NoCancelMark(s, c, e);
      }
    case WriteBuild(_, _, _, _) =>
  }

  // ---------- order ----------

  /** A release finds every dependency done. */
  lemma ReleaseInOrder(s: State, cl: Client, x: int, d: int)
    requires ClientO(s, cl) && ClientOK(s, cl) && cl.phase.Releasing? && cl.i < |cl.list| && cl.copy.Some?
    requires MustRelease(cl.copy.value, cl.list[cl.i], cl.list) && cl.list[cl.i].id == x && DepOf(s.stages, d, x)
    ensures s.stages[d].IsDone()
  {
    assert s.stages[x] == cl.list[cl.i];
    var j :| 0 <= j < |cl.list| && cl.list[j].id == d;
    assert cl.list[j] in cl.list && CopyOK(s.stages, cl.list[j]);
  }

  /** A stage that is going after a write was going before it, or was released. */
  lemma GoingBefore(s: State, c: nat, e: Effect, x: int)
    requires Fires1(s, c, e) && x in s.stages && Going(Apply(s, c, e).stages[x].status)
    ensures || Going(s.stages[x].status)
            || (e.WriteStage? && x == e.base.id && ReleasesOne(s.clients[c], e.base, e.change))
  {
    if e.WriteStage? && Current(s.stages, e.change) {
      if Sweep1(s.clients[c], e.base, e.change) {
        SweepWrites(s, c, e);
      } else {
        OtherWrites(s, c, e);
      }
    }
  }

  lemma OrderStays(s: State, c: nat, e: Effect)
    requires Fires1(s, c, e)
    ensures InOrder(Apply(s, c, e).stages)
  {
    var s' := Apply(s, c, e);
    SameIds(s, c, e);
    forall d, x | DepOf(s'.stages, d, x) && Going(s'.stages[x].status) ensures s'.stages[d].IsDone() {
      assert DepOf(s.stages, d, x);
      GoingBefore(s, c, e, x);
      if !Going(s.stages[x].status) {
        assert ClientOK(s, s.clients[c]) && ClientO(s, s.clients[c]);
        ReleaseInOrder(s, s.clients[c], x, d);
      }
      DoneStays(s, c, e, d);
    }
  }

  // ---------- the step ----------

  lemma EffectStep(s: State, c: nat, e: Effect)
    requires Fires1(s, c, e) && Inv(Apply(s, c, e))
    ensures OInv(Apply(s, c, e))
  {
    RowsStay(s, c, e);
    OrderStays(s, c, e);
    ListsStay(s, c, e);
  }

  lemma ListsStay(s: State, c: nat, e: Effect)
    requires Fires1(s, c, e)
    ensures forall d :: d in Apply(s, c, e).clients ==> ClientO(Apply(s, c, e), Apply(s, c, e).clients[d])
  {
    var s' := Apply(s, c, e);
    forall d | d in s'.clients ensures ClientO(s', s'.clients[d]) {
      if d == c {
        SelfStays(s, c, e);
      } else {
        OtherStays(s, c, e, d);
      }
    }
  }

  lemma CreateRowsO(s: State, b: Build, rows: Stages, s': State)
    requires Base(s) && RowsO(s) && InOrder(s.stages) && Next(s, Create(b, rows), s')
    ensures RowsO(s') && InOrder(s'.stages)
  {
    forall id | id in rows ensures FreshStage(rows[id], id, b.id) && id !in s.listed {
    }
    forall id | id in s'.stages ensures RowO(s', id) {
      assert id in s.stages ==> RowO(s, id);
    }
    forall d, x | DepOf(s'.stages, d, x) && Going(s'.stages[x].status) ensures s'.stages[d].IsDone() {
      assert x in s.stages ==> DepOf(s.stages, d, x);
    }
  }

  lemma CreateClientsO(s: State, b: Build, rows: Stages, s': State)
    requires Base(s) && Next(s, Create(b, rows), s') && forall c :: c in s.clients ==> ClientO(s, s.clients[c])
    ensures forall c :: c in s'.clients ==> ClientO(s', s'.clients[c])
  {
    forall id | id in rows ensures FreshStage(rows[id], id, b.id) {
    }
    forall c | c in s'.clients ensures ClientO(s', s'.clients[c]) {
      assert ClientO(s, s.clients[c]) && ClientOK(s, s.clients[c]);
    }
  }

  lemma CreateStep(s: State, b: Build, rows: Stages, s': State)
    requires OInv(s) && Next(s, Create(b, rows), s') && Inv(s')
    ensures OInv(s')
  {
    CreateRowsO(s, b, rows, s');
    CreateClientsO(s, b, rows, s');
  }

  lemma ServeO(s: State, q: QueueOp, s': State)
    requires OInv(s) && Served(s, q, s') && Inv(s')
    ensures OInv(s')
  {
    forall i | i in s'.stages ensures RowO(s', i) {
      assert RowO(s, i);
    }
    forall c | c in s'.clients ensures ClientO(s', s'.clients[c]) {
      assert ClientO(s, s.clients[c]);
    }
  }

  lemma OStep(s: State, a: Action, s': State)
    requires OInv(s) && Serialised(s) && Next(s, a, s') && Calm(s'.log)
    ensures OInv(s')
  {
    StepKeepsInv(s, a, s');
    match a
    case Create(b, rows) => CreateStep(s, b, rows, s');
    case Serve(q) => ServeO(s, q, s');
    case Turn(c, op) =>
      TurnFires(s, c, op);
      EffectStep(s, c, Plan(s, s.clients[c], op));
  }

  lemma TurnFires(s: State, c: nat, op: Op)
    requires OInv(s) && Serialised(s) && c in s.clients && Enabled(s, s.clients[c], op)
    requires Calm(Apply(s, c, Plan(s, s.clients[c], op)).log)
    ensures Fires1(s, c, Plan(s, s.clients[c], op))
  {
    assert ClientOK(s, s.clients[c]);
    PlanWellFormed(s, s.clients[c], op);
    PlanNoted(s, s.clients[c], op);
    PlanShifts(s, s.clients[c], op);
  }

  ghost predicate CalmRun(states: seq<State>, acts: seq<Action>) {
    && Run(states, acts) && Calm(states[|acts|].log)
    && (forall i :: 0 <= i < |states| ==> Serialised(states[i]))
  }

  lemma {:induction false} CalmBefore(states: seq<State>, acts: seq<Action>, n: nat)
    requires CalmRun(states, acts) && n < |states|
    ensures Calm(states[n].log)
    decreases |states| - n
  {
    if n == |acts| {
    } else {
      CalmBefore(states, acts, n + 1);
      LogGrows(states[n], acts[n], states[n + 1]);
      assert forall ev :: ev in states[n].log ==> ev in states[n + 1].log;
    }
  }

  lemma {:induction false} RunIsOrdered(states: seq<State>, acts: seq<Action>, n: nat)
    requires CalmRun(states, acts) && n < |states|
    ensures OInv(states[n])
  {
    CalmBefore(states, acts, n);
    if n == 0 {
      RunKeepsInv(states, acts, 0);
      assert forall c :: c in states[0].clients ==> states[0].clients[c] == Reset(states[0].clients[c]);
    } else {
      RunIsOrdered(states, acts, n - 1);
      OStep(states[n - 1], acts[n - 1], states[n]);
    }
  }

  // ---------- theorems ----------

  /** Dependency order: in every reachable state any stage that is pending, running
      or has run has all its present dependencies done. */
  lemma DependencyOrder(states: seq<State>, acts: seq<Action>, n: nat)
    requires CalmRun(states, acts) && n < |states|
    ensures forall d, x :: DepOf(states[n].stages, d, x) && Going(states[n].stages[x].status) ==>
              states[n].stages[d].IsDone()
  {
    RunIsOrdered(states, acts, n);
  }

  /** The policy a sweep applies: by whether a stage that was done when it listed the
      build had failed. */
  ghost predicate Allowed(cl: Client, r: Stage) {
    if AnyFailed(cl.list) then r.onFailure else r.onSuccess
  }

  lemma PolicyStep(s: State, c: nat, e: Effect, x: int)
    requires Fires1(s, c, e) && x in s.stages && s.stages[x].status.Waiting?
    ensures var r, r' := s.stages[x], Apply(s, c, e).stages[x];
      || r' == r
      || (r'.status.Pending? && Sweeps(s.clients[c], r.buildId) && Allowed(s.clients[c], r))
      || (r'.status.Skipped? && Sweeps(s.clients[c], r.buildId) && !Allowed(s.clients[c], r))
  {
    var cl := s.clients[c];
    assert ClientO(s, cl);
    if e.WriteStage? && Current(s.stages, e.change) && e.change.id == x {
      if Sweep1(cl, e.base, e.change) {
        SweepWrites(s, c, e);
      } else {
        OtherWrites(s, c, e);
      }
    }
  }

  /** Run policy: a waiting stage leaves that state only by a sweep of its build; it is
      released if the policy of that sweep allows it and skipped only if not; and a
      sweep that found a failure found a stage that has failed. */
  lemma RunPolicy(states: seq<State>, acts: seq<Action>, n: nat, x: int)
    requires CalmRun(states, acts) && n < |acts| && x in states[n].stages && states[n].stages[x].status.Waiting?
    ensures x in states[n + 1].stages
    ensures var s, r, r' := states[n], states[n].stages[x], states[n + 1].stages[x];
      || r' == r
      || (acts[n].Turn? && acts[n].c in s.clients && Sweeps(s.clients[acts[n].c], r.buildId)
          && (AnyFailed(s.clients[acts[n].c].list) ==> BuildFailed(s.stages, r.buildId))
          && ((r'.status.Pending? && Allowed(s.clients[acts[n].c], r))
              || (r'.status.Skipped? && !Allowed(s.clients[acts[n].c], r))))
  {
    var s, a := states[n], acts[n];
    RunIsOrdered(states, acts, n);
    CalmBefore(states, acts, n + 1);
    if a.Turn? {
      TurnFires(s, a.c, a.op);
      PolicyStep(s, a.c, Plan(s, s.clients[a.c], a.op), x);
      FailureIsReal(s, s.clients[a.c]);
    }
  }

  lemma FailureIsReal(s: State, cl: Client)
    requires ClientO(s, cl)
    ensures Swept(cl.phase) && AnyFailed(cl.list) ==> BuildFailed(s.stages, cl.build.value.id)
  {
    if Swept(cl.phase) && AnyFailed(cl.list) {
      var r :| r in cl.list && r.IsFailed();
      assert s.stages[r.id] == r;
    }
  }

  // ---------- the policy in the present ----------

  /** The client has stored its report for a stage of build b and is not through. */
  ghost predicate Tears(cl: Client, b: int) {
    Reported(cl.phase) && cl.build.Some? && cl.build.value.id == b
  }

  /** At most one client is between its report and its last write for a build. */
  ghost predicate Alone(s: State) {
    forall c, d, b :: c in s.clients && d in s.clients && Tears(s.clients[c], b) && Tears(s.clients[d], b) ==> c == d
  }

  ghost predicate Informed(s: State, cl: Client) {
    Swept(cl.phase) && cl.build.Some? && BuildFailed(s.stages, cl.build.value.id) ==> AnyFailed(cl.list)
  }

  /** A stage of a build fails by a report, which leaves the reporter tearing. */
  lemma FailsByReport(s: State, c: nat, e: Effect, id: int)
    requires Fires1(s, c, e) && id in s.stages && Apply(s, c, e).stages[id].IsFailed() && !s.stages[id].IsFailed()
    ensures Tears(Apply(s, c, e).clients[c], s.stages[id].buildId) && !Swept(Apply(s, c, e).clients[c].phase)
  {
    assert ClientOK(s, s.clients[c]);
    if Sweep1(s.clients[c], e.base, e.change) {
      SweepWrites(s, c, e);
    } else {
      OtherWrites(s, c, e);
      NoCancelMark(s, c, e);
    }
  }

  /** A build that has failed after an operation had failed before it, or the client has
      just reported the failure. */
  lemma FailedBefore(s: State, c: nat, e: Effect, b: int)
    requires Fires1(s, c, e) && BuildFailed(Apply(s, c, e).stages, b)
    ensures BuildFailed(s.stages, b)
            || (Tears(Apply(s, c, e).clients[c], b) && !Swept(Apply(s, c, e).clients[c].phase))
  {
    var s' := Apply(s, c, e);
    SameIds(s, c, e);
    var id :| id in s'.stages && s'.stages[id].buildId == b && s'.stages[id].IsFailed();
    if !s.stages[id].IsFailed() {
      FailsByReport(s, c, e, id);
    }
  }

  lemma InformedOther(s: State, c: nat, e: Effect, d: nat)
    requires Fires1(s, c, e) && Alone(Apply(s, c, e)) && d in s.clients && d != c && Informed(s, s.clients[d])
    ensures Informed(Apply(s, c, e), s.clients[d])
  {
    var s', cl := Apply(s, c, e), s.clients[d];
    if Swept(cl.phase) && cl.build.Some? && BuildFailed(s'.stages, cl.build.value.id) {
      FailedBefore(s, c, e, cl.build.value.id);
      assert Tears(s'.clients[d], cl.build.value.id);
    }
  }

  lemma InformedLocal(s: State, c: nat, e: Effect)
    requires Fires1(s, c, e) && e.Local? && Informed(s, s.clients[c])
    ensures Informed(Apply(s, c, e), e.next)
  {
    if s.clients[c].phase.Listing? && Swept(e.next.phase) && BuildFailed(s.stages, e.next.build.value.id) {
      var id :| id in s.stages && s.stages[id].buildId == e.next.build.value.id && s.stages[id].IsFailed();
      assert s.stages[id] in e.next.list;
    }
  }

  lemma InformedWriter(s: State, c: nat, e: Effect)
    requires Fires1(s, c, e) && e.WriteStage? && Sweep1(s.clients[c], e.base, e.change) && Informed(s, s.clients[c])
    ensures Informed(Apply(s, c, e), Apply(s, c, e).clients[c])
  {
    var cl, s' := s.clients[c], Apply(s, c, e);
    NoCancelMark(s, c, e);
    SweepWrites(s, c, e);
    FailedStays(cl.list, cl.i, Bump(e.change));
    if BuildFailed(s'.stages, cl.build.value.id) {
      FailedBefore(s, c, e, cl.build.value.id);
    }
  }

  lemma InformedSelf(s: State, c: nat, e: Effect)
    requires Fires1(s, c, e) && Informed(s, s.clients[c])
    ensures Informed(Apply(s, c, e), Apply(s, c, e).clients[c])
  {
    if e.Local? {
      InformedLocal(s, c, e);
    } else if e.WriteStage? {
      NoCancelMark(s, c, e);
      if Sweep1(s.clients[c], e.base, e.change) {
        InformedWriter(s, c, e);
      }
    }
  }

  ghost predicate AllInformed(s: State) {
    forall c :: c in s.clients ==> Informed(s, s.clients[c])
  }

  lemma {:induction false} RunIsInformed(states: seq<State>, acts: seq<Action>, n: nat)
    requires CalmRun(states, acts) && n < |states| && forall i :: 0 <= i < |states| ==> Alone(states[i])
    ensures AllInformed(states[n])
  {
    if n == 0 {
      InformedStart(states[0]);
    } else {
      RunIsInformed(states, acts, n - 1);
      InformedNext(states, acts, n - 1);
    }
  }

  lemma InformedStart(s: State)
    requires Init(s)
    ensures AllInformed(s)
  {
    forall c | c in s.clients ensures !Swept(s.clients[c].phase) {
      assert s.clients[c] == Reset(s.clients[c]);
    }
  }

  lemma InformedNext(states: seq<State>, acts: seq<Action>, n: nat)
    requires CalmRun(states, acts) && n < |acts| && Alone(states[n + 1]) && AllInformed(states[n])
    ensures AllInformed(states[n + 1])
  {
    RunIsOrdered(states, acts, n);
    CalmBefore(states, acts, n + 1);
    AllInformedStep(states[n], acts[n], states[n + 1]);
  }

  lemma AllInformedStep(s: State, a: Action, s': State)
    requires OInv(s) && Serialised(s) && Next(s, a, s') && Calm(s'.log) && Alone(s') && AllInformed(s)
    ensures AllInformed(s')
  {
    match a
    case Create(b, rows) => CreateInformed(s, b, rows, s');
    case Serve(_) => ServeInformed(s, a, s');
    case Turn(c, op) =>
      TurnFires(s, c, op);
      TurnInformed(s, c, Plan(s, s.clients[c], op));
  }

  lemma CreateInformed(s: State, b: Build, rows: Stages, s': State)
    requires Next(s, Create(b, rows), s') && AllInformed(s)
    ensures AllInformed(s')
  {
    forall id | id in rows ensures FreshStage(rows[id], id, b.id) && !rows[id].IsFailed() {
    }
  }

  lemma ServeInformed(s: State, a: Action, s': State)
    requires a.Serve? && Next(s, a, s') && AllInformed(s)
    ensures AllInformed(s')
  {
  }

  lemma TurnInformed(s: State, c: nat, e: Effect)
    requires Fires1(s, c, e) && Alone(Apply(s, c, e)) && AllInformed(s)
    ensures AllInformed(Apply(s, c, e))
  {
    var s' := Apply(s, c, e);
    forall d | d in s'.clients ensures Informed(s', s'.clients[d]) {
      if d == c {
        InformedSelf(s, c, e);
      } else {
        InformedOther(s, c, e, d);
      }
    }
  }

  /** With teardowns serialised from the report on, the policy is that of the present:
      a released stage allows failure if some stage of the build has failed and success
      otherwise, and a skipped one does not. */
  lemma RunPolicyNow(states: seq<State>, acts: seq<Action>, n: nat, x: int)
    requires CalmRun(states, acts) && n < |acts| && x in states[n].stages && states[n].stages[x].status.Waiting?
    requires forall i :: 0 <= i < |states| ==> Alone(states[i])
    ensures x in states[n + 1].stages
    ensures var r, r' := states[n].stages[x], states[n + 1].stages[x];
      var allowed := if BuildFailed(states[n].stages, r.buildId) then r.onFailure else r.onSuccess;
      r' == r || (r'.status.Pending? && allowed) || (r'.status.Skipped? && !allowed)
  {
    RunPolicy(states, acts, n, x);
    RunIsInformed(states, acts, n);
    RunIsOrdered(states, acts, n);
    if acts[n].Turn? {
      assert Informed(states[n], states[n].clients[acts[n].c]);
    }
  }
}
