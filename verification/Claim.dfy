/** What every interleaving of the protocol keeps: copies at the current version
    equal their rows, one runner per stage, and final rows that stay final. */
module Claim {
  import opened Core
  import opened Store
  import opened Protocol

  // ---------- copies ----------

  /** Identity columns a write keeps. */
  ghost predicate SameKey(a: Stage, b: Stage) {
    && a.id == b.id && a.repoId == b.repoId && a.buildId == b.buildId && a.number == b.number
    && a.name == b.name && a.limit == b.limit && a.dependsOn == b.dependsOn
    && a.onSuccess == b.onSuccess && a.onFailure == b.onFailure
  }

  /** A copy names its row's identity, is never ahead of it, and equals it unless
      it is behind. */
  ghost predicate CopyOK(rows: Stages, k: Stage) {
    && k.id in rows
    && SameKey(k, rows[k.id])
    && 1 <= k.version <= rows[k.id].version
    && (k.version == rows[k.id].version ==> k == rows[k.id])
  }

  ghost predicate BuildOK(rows: Builds, b: Build) {
    && b.id in rows
    && b.version <= rows[b.id].version
    && (b.version == rows[b.id].version ==> b == rows[b.id])
  }

  ghost predicate StageCopies(rows: Stages, cl: Client) {
    && (cl.copy.Some? ==> CopyOK(rows, cl.copy.value))
    && (forall j :: 0 <= j < |cl.list| ==> CopyOK(rows, cl.list[j]))
  }

  ghost predicate Copies(s: State, cl: Client) {
    && StageCopies(s.stages, cl)
    && (cl.build.Some? ==> BuildOK(s.builds, cl.build.value))
  }

  // ---------- phases ----------

  /** The runner owns its task and has not reported it yet. */
  ghost predicate Working(ph: Phase) {
    || ph.Claimed? || ph.Detailed? || ph.Inspected? || ph.SetupRead? || ph.Begun? || ph.Executing?
    || ph.Finishing? || ph.FinishRead?
  }

  ghost predicate Reported(ph: Phase) {
    ph.Listing? || ph.Skipping? || ph.Releasing? || ph.Closing?
  }

  /** Setup has been attempted. */
  ghost predicate Past(ph: Phase) {
    ph.Begun? || ph.Executing? || ph.Finishing? || ph.FinishRead? || Reported(ph)
  }

  /** What a runner reports. */
  ghost predicate Reports(s: Status) {
    s.Passing? || s.Failing? || s.Errored?
  }

  ghost predicate Busy(ph: Phase) {
    Working(ph) || Reported(ph)
  }

  ghost predicate HasTask(cl: Client) {
    cl.copy.Some? && cl.copy.value.id == cl.task
  }

  /** What a client's own fields satisfy in each phase. */
  ghost predicate PhaseOK(cl: Client) {
    && cl.machine != ""
    && (cl.phase.Found? ==> HasTask(cl) && cl.copy.value.machine == "")
    && (Busy(cl.phase) && !cl.phase.Claimed? ==> HasTask(cl) && cl.copy.value.machine != "")
    && (cl.begun ==> Past(cl.phase))
    && ((cl.phase.Begun? || cl.phase.Executing?) ==> cl.begun)
    && (cl.begun && Working(cl.phase) ==> cl.copy.value.status.Running?)
    && (cl.phase.Finishing? || cl.phase.FinishRead? ==> Reports(cl.outcome))
    && (Reported(cl.phase) ==> Reports(cl.copy.value.status))
    && ((cl.phase.Approving? || cl.phase.Declining?) ==> cl.copy.Some? && cl.copy.value.status.Blocked?)
    && (cl.phase.FinishRead? || Reported(cl.phase) ==> cl.build.Some? && cl.build.value.id == cl.copy.value.buildId)
  }

  ghost predicate Rows(s: State) {
    && (forall id :: id in s.stages ==>
          s.stages[id].id == id && s.stages[id].buildId in s.builds && s.stages[id].version >= 1)
    && (forall b :: b in s.builds ==> s.builds[b].id == b)
    && s.offer <= s.listed <= s.stages.Keys
  }

  /** What a client's phase says about the row of its task. */
  ghost predicate TaskOK(s: State, cl: Client) {
    && ((cl.phase.Offered? || cl.phase.Found?) ==> cl.task in s.listed)
    && (Busy(cl.phase) ==> cl.task in s.listed && cl.task in s.stages && s.stages[cl.task].machine != "")
  }

  ghost predicate ClientOK(s: State, cl: Client) {
    PhaseOK(cl) && Copies(s, cl) && TaskOK(s, cl)
  }

  ghost predicate Clients(s: State) {
    forall c :: c in s.clients ==> ClientOK(s, s.clients[c])
  }

  ghost predicate OneRunner(s: State) {
    forall c, d :: c in s.clients && d in s.clients && c != d && Busy(s.clients[c].phase) && Busy(s.clients[d].phase)
      ==> s.clients[c].task != s.clients[d].task
  }

  ghost predicate Base(s: State) {
    Rows(s) && Clients(s) && OneRunner(s)
  }

  // ---------- effects ----------

  /** The records of next are those of cl, except that the one written may have
      become k. */
  ghost predicate Replaces(cl: Client, next: Client, k: Stage) {
    && (next.copy.Some? ==> next.copy == cl.copy || next.copy == Some(k))
    && (next.list == [] || next.list == cl.list || (cl.i < |cl.list| && next.list == cl.list[cl.i := k]))
  }

  /** A client only becomes busy by winning the claim on the row it found. */
  ghost predicate Continues(cl: Client, next: Client) {
    Busy(next.phase) ==>
      && Busy(cl.phase) && next.task == cl.task
      && (cl.begun ==> next.begun)
      && (Reported(cl.phase) ==> Reported(next.phase))
  }

  /** Unless it wins, a runner goes on with a copy of the same version. */
  ghost predicate SameCopy(cl: Client, next: Client) {
    Working(cl.phase) && Working(next.phase) && !cl.phase.Claimed? ==>
      && !next.phase.Claimed? && cl.copy.Some? && next.copy.Some?
      && next.copy.value.version == cl.copy.value.version
  }

  ghost predicate Claims(cl: Client, base: Stage, change: Stage, next: Client) {
    cl.phase.Found? && next.task == base.id && base.machine == "" && change.machine != "" && cl.task == base.id
  }

  ghost predicate Offering(ph: Phase) {
    ph.Offered? || ph.Found?
  }

  ghost predicate WellFormed(s: State, cl: Client, e: Effect) {
    match e
    case Local(next, _) =>
      && PhaseOK(next) && Copies(s, next) && TaskOK(s, next) && Continues(cl, next) && SameCopy(cl, next)
      && (Offering(next.phase) ==> next.phase.Found? && cl.phase.Offered? && next.task == cl.task)
    case WriteStage(base, change, won, lost, _, _) =>
      && (cl.copy == Some(base) || (cl.i < |cl.list| && base == cl.list[cl.i]))
      && SameKey(base, change) && base.version == change.version
      && PhaseOK(won) && PhaseOK(lost) && !Offering(won.phase) && !Offering(lost.phase)
      && Replaces(cl, won, Bump(change)) && Replaces(cl, lost, change)
      && (won.build.Some? ==> won.build == cl.build) && (lost.build.Some? ==> lost.build == cl.build)
      && (base.machine != "" ==> change.machine != "")
      && Continues(cl, lost) && SameCopy(cl, lost) && (Continues(cl, won) || Claims(cl, base, change, won))
    case WriteBuild(record, won, lost, _) =>
      && cl.build.Some? && record.id == cl.build.value.id && record.version == cl.build.value.version
      && PhaseOK(won) && PhaseOK(lost) && !Offering(won.phase) && !Offering(lost.phase)
      && Trims(cl, won) && Trims(cl, lost)
      && Continues(cl, won) && Continues(cl, lost) && SameCopy(cl, won) && SameCopy(cl, lost)
  }

  /** next holds no record that cl does not hold. */
  ghost predicate Trims(cl: Client, next: Client) {
    && (next.copy.Some? ==> next.copy == cl.copy)
    && (next.build.Some? ==> next.build == cl.build)
    && (next.list == [] || next.list == cl.list)
  }

  /** A loop marks the record it stands at. */
  lemma MarkWellFormed(s: State, cl: Client, change: Stage, note: Event)
    requires ClientOK(s, cl) && (cl.phase.Skipping? || cl.phase.Releasing? || cl.phase.Cancelling?)
    requires cl.i < |cl.list| && SameKey(cl.list[cl.i], change) && change.version == cl.list[cl.i].version
    requires change.machine == cl.list[cl.i].machine
    ensures WellFormed(s, cl, Mark(cl, change, note))
  {
  }

  lemma OfferWellFormed(s: State, cl: Client, op: PollOp)
    requires Rows(s) && ClientOK(s, cl) && PollEnabled(s, cl, op)
    requires op.AcceptFind?
    ensures WellFormed(s, cl, PollPlan(s, cl, op))
  {
  }

  lemma InspectWellFormed(s: State, cl: Client, op: PollOp)
    requires Rows(s) && ClientOK(s, cl) && PollEnabled(s, cl, op)
    requires op.Inspect?
    ensures WellFormed(s, cl, PollPlan(s, cl, op))
  {
  }

  lemma AcceptWellFormed(s: State, cl: Client, op: PollOp)
    requires Rows(s) && ClientOK(s, cl) && PollEnabled(s, cl, op)
    requires op.AcceptCommit? || op.Details?
    ensures WellFormed(s, cl, PollPlan(s, cl, op))
  {
  }

  lemma SetupFindWellFormed(s: State, cl: Client, op: PollOp)
    requires Rows(s) && ClientOK(s, cl) && PollEnabled(s, cl, op)
    requires op.SetupFind?
    ensures WellFormed(s, cl, PollPlan(s, cl, op))
  {
  }

  lemma SetupWellFormed(s: State, cl: Client, op: PollOp)
    requires Rows(s) && ClientOK(s, cl) && PollEnabled(s, cl, op)
    requires op.SetupCommit?
    ensures WellFormed(s, cl, PollPlan(s, cl, op))
  {
  }

  lemma WorkWellFormed(s: State, cl: Client, op: PollOp)
    requires Rows(s) && ClientOK(s, cl) && PollEnabled(s, cl, op)
    requires op.UpdateBuild? || op.Complete?
    ensures WellFormed(s, cl, PollPlan(s, cl, op))
  {
  }

  lemma FinishWellFormed(s: State, cl: Client, op: ReportOp)
    requires Rows(s) && ClientOK(s, cl) && ReportEnabled(s, cl, op)
    requires op.FinishFind?
    ensures WellFormed(s, cl, ReportPlan(s, cl, op))
  {
  }

  lemma FinishCommitWellFormed(s: State, cl: Client, op: ReportOp)
    requires Rows(s) && ClientOK(s, cl) && ReportEnabled(s, cl, op)
    requires op.FinishCommit?
    ensures WellFormed(s, cl, ReportPlan(s, cl, op))
  {
  }

  lemma CloseWellFormed(s: State, cl: Client, op: ReportOp)
    requires Rows(s) && ClientOK(s, cl) && ReportEnabled(s, cl, op)
    requires op.FinishList? || op.Settle?
    ensures WellFormed(s, cl, ReportPlan(s, cl, op))
  {
  }

  lemma SkipWellFormed(s: State, cl: Client, op: ReportOp)
    requires Rows(s) && ClientOK(s, cl) && ReportEnabled(s, cl, op)
    requires op.Skip?
    ensures WellFormed(s, cl, ReportPlan(s, cl, op))
  {
  }

  lemma ReleaseWellFormed(s: State, cl: Client, op: ReportOp)
    requires Rows(s) && ClientOK(s, cl) && ReportEnabled(s, cl, op)
    requires op.Release?
    ensures WellFormed(s, cl, ReportPlan(s, cl, op))
  {
  }

  lemma KillBuildWellFormed(s: State, cl: Client, op: KillOp)
    requires Rows(s) && ClientOK(s, cl) && KillEnabled(s, cl, op)
    requires op.CancelFind? || op.CancelBuild?
    ensures WellFormed(s, cl, KillPlan(s, cl, op))
  {
  }

  lemma KillListWellFormed(s: State, cl: Client, op: KillOp)
    requires Rows(s) && ClientOK(s, cl) && KillEnabled(s, cl, op)
    requires op.CancelList?
    ensures WellFormed(s, cl, KillPlan(s, cl, op))
  {
  }

  lemma KillStageWellFormed(s: State, cl: Client, op: KillOp)
    requires Rows(s) && ClientOK(s, cl) && KillEnabled(s, cl, op)
    requires op.CancelStage?
    ensures WellFormed(s, cl, KillPlan(s, cl, op))
  {
    if cl.i < |cl.list| && !cl.list[cl.i].IsDone() {
      MarkWellFormed(s, cl, CancelledStage(cl.list[cl.i], op.now), CancelMarked(cl.list[cl.i].id));
    }
  }

  lemma ApproveWellFormed(s: State, cl: Client, op: ReviewOp)
    requires Rows(s) && ClientOK(s, cl) && ReviewEnabled(s, cl, op)
    requires op.ApproveFind? || op.ApproveCommit?
    ensures WellFormed(s, cl, ReviewPlan(s, cl, op))
  {
  }

  lemma DeclineWellFormed(s: State, cl: Client, op: ReviewOp)
    requires Rows(s) && ClientOK(s, cl) && ReviewEnabled(s, cl, op)
    requires op.DeclineFind? || op.DeclineFindStage?
    ensures WellFormed(s, cl, ReviewPlan(s, cl, op))
  {
  }

  lemma DeclineCommitWellFormed(s: State, cl: Client, op: ReviewOp)
    requires Rows(s) && ClientOK(s, cl) && ReviewEnabled(s, cl, op)
    requires op.DeclineCommit?
    ensures WellFormed(s, cl, ReviewPlan(s, cl, op))
  {
  }

  lemma DeclineBuildWellFormed(s: State, cl: Client, op: ReviewOp)
    requires Rows(s) && ClientOK(s, cl) && ReviewEnabled(s, cl, op)
    requires op.DeclineBuild?
    ensures WellFormed(s, cl, ReviewPlan(s, cl, op))
  {
  }

  lemma ReportWellFormed(s: State, cl: Client, op: ReportOp)
    requires Rows(s) && ClientOK(s, cl) && ReportEnabled(s, cl, op)
    ensures WellFormed(s, cl, ReportPlan(s, cl, op))
  {
    if op.Skip? {
      SkipWellFormed(s, cl, op);
    } else if op.Release? {
      ReleaseWellFormed(s, cl, op);
    } else if op.FinishFind? {
      FinishWellFormed(s, cl, op);
    } else if op.FinishCommit? {
      FinishCommitWellFormed(s, cl, op);
    } else {
      CloseWellFormed(s, cl, op);
    }
  }

  /** Every operation writes an edit of a record it holds, and leaves the client
      with records it held, read or wrote. */
  lemma PlanWellFormed(s: State, cl: Client, op: Op)
    requires Rows(s) && ClientOK(s, cl) && Enabled(s, cl, op)
    ensures WellFormed(s, cl, Plan(s, cl, op))
  {
    match op
    case Poll(p) =>
      if p.AcceptFind? {
        OfferWellFormed(s, cl, p);
      } else if p.Inspect? {
        InspectWellFormed(s, cl, p);
      } else if p.AcceptCommit? || p.Details? {
        AcceptWellFormed(s, cl, p);
      } else if p.SetupFind? {
        SetupFindWellFormed(s, cl, p);
      } else if p.SetupCommit? {
        SetupWellFormed(s, cl, p);
      } else {
        WorkWellFormed(s, cl, p);
      }
    case Report(r) => ReportWellFormed(s, cl, r);
    case Kill(k) =>
      if k.CancelFind? || k.CancelBuild? {
        KillBuildWellFormed(s, cl, k);
      } else if k.CancelList? {
        KillListWellFormed(s, cl, k);
      } else {
        KillStageWellFormed(s, cl, k);
      }
    case Review(v) =>
      if v.ApproveFind? || v.ApproveCommit? {
        ApproveWellFormed(s, cl, v);
      } else if v.DeclineFind? || v.DeclineFindStage? {
        DeclineWellFormed(s, cl, v);
      } else if v.DeclineCommit? {
        DeclineCommitWellFormed(s, cl, v);
      } else {
        DeclineBuildWellFormed(s, cl, v);
      }
    case Abort =>
  }

  // ---------- preservation of the base invariant ----------

  /** A winning write makes every other copy of the row stale, and keeps the
      writer's copies in step. */
  lemma WriteKeepsCopies(rows: Stages, change: Stage, k: Stage)
    requires Current(rows, change) && CopyOK(rows, k) && change.version >= 1
    requires SameKey(rows[change.id], change)
    ensures CopyOK(Committed(rows, change), k)
    ensures CopyOK(Committed(rows, change), Bump(change))
  {
  }

  lemma WriteKeepsClient(rows: Stages, change: Stage, cl: Client)
    requires Current(rows, change) && StageCopies(rows, cl) && SameKey(rows[change.id], change) && change.version >= 1
    ensures StageCopies(Committed(rows, change), cl)
  {
    if cl.copy.Some? {
      WriteKeepsCopies(rows, change, cl.copy.value);
    }
    forall j | 0 <= j < |cl.list| ensures CopyOK(Committed(rows, change), cl.list[j]) {
      WriteKeepsCopies(rows, change, cl.list[j]);
    }
  }

  lemma WriteKeepsWriter(rows: Stages, change: Stage, cl: Client, won: Client)
    requires Current(rows, change) && StageCopies(rows, cl) && SameKey(rows[change.id], change) && change.version >= 1
    requires Replaces(cl, won, Bump(change))
    ensures StageCopies(Committed(rows, change), won)
  {
    WriteKeepsClient(rows, change, cl);
    if cl.copy.Some? {
      WriteKeepsCopies(rows, change, cl.copy.value);
    }
    WriteKeepsCopies(rows, change, rows[change.id]);
  }

  lemma LocalStep(s: State, c: nat, e: Effect)
    requires Base(s) && c in s.clients && e.Local? && WellFormed(s, s.clients[c], e)
    ensures Base(Apply(s, c, e))
  {
    var s' := Apply(s, c, e);
    forall d | d in s'.clients ensures ClientOK(s', s'.clients[d]) {
      assert d != c ==> ClientOK(s, s.clients[d]);
    }
  }

  lemma StageLost(s: State, c: nat, e: Effect)
    requires Base(s) && c in s.clients && e.WriteStage? && WellFormed(s, s.clients[c], e)
    requires !Current(s.stages, e.change)
    ensures Base(Apply(s, c, e))
  {
    var s' := Apply(s, c, e);
    var cl := s.clients[c];
    assert ClientOK(s, cl);
    assert CopyOK(s.stages, e.change);
    assert ClientOK(s', e.lost);
    forall d | d in s'.clients ensures ClientOK(s', s'.clients[d]) {
      assert d != c ==> ClientOK(s, s.clients[d]);
    }
  }

  /** The base of a current write is the stored row itself. */
  lemma BaseIsRow(s: State, c: nat, e: Effect)
    requires Base(s) && c in s.clients && e.WriteStage? && WellFormed(s, s.clients[c], e)
    requires Current(s.stages, e.change)
    ensures e.base == s.stages[e.change.id] && e.base.id == e.change.id
  {
    assert ClientOK(s, s.clients[c]);
  }

  lemma StageWon(s: State, c: nat, e: Effect)
    requires Base(s) && c in s.clients && e.WriteStage? && WellFormed(s, s.clients[c], e)
    requires Current(s.stages, e.change)
    ensures Rows(Apply(s, c, e)) && Clients(Apply(s, c, e))
  {
    var s' := Apply(s, c, e);
    BaseIsRow(s, c, e);
    assert ClientOK(s, s.clients[c]);
    WriteKeepsWriter(s.stages, e.change, s.clients[c], e.won);
    forall d | d in s'.clients ensures ClientOK(s', s'.clients[d]) {
      if d != c {
        assert ClientOK(s, s.clients[d]);
        WriteKeepsClient(s.stages, e.change, s.clients[d]);
      }
    }
  }

  lemma StageWonOneRunner(s: State, c: nat, e: Effect)
    requires Base(s) && c in s.clients && e.WriteStage? && WellFormed(s, s.clients[c], e)
    requires Current(s.stages, e.change)
    ensures OneRunner(Apply(s, c, e))
  {
    BaseIsRow(s, c, e);
    forall d | d in s.clients ensures ClientOK(s, s.clients[d]) {
    }
  }

  lemma BuildStep(s: State, c: nat, e: Effect)
    requires Base(s) && c in s.clients && e.WriteBuild? && WellFormed(s, s.clients[c], e)
    ensures Base(Apply(s, c, e))
  {
    var s' := Apply(s, c, e);
    assert ClientOK(s, s.clients[c]);
    forall d | d in s'.clients ensures ClientOK(s', s'.clients[d]) {
      assert d != c ==> ClientOK(s, s.clients[d]);
    }
  }

  lemma CreateStep(s: State, b: Build, rows: Stages, s': State)
    requires Base(s) && Next(s, Create(b, rows), s')
    ensures Base(s')
  {
    forall d | d in s'.clients ensures ClientOK(s', s'.clients[d]) {
      assert ClientOK(s, s.clients[d]);
    }
    forall id | id in s'.stages
      ensures s'.stages[id].id == id && s'.stages[id].buildId in s'.builds && s'.stages[id].version >= 1
    {
      assert id in rows ==> FreshStage(rows[id], id, b.id);
    }
  }

  lemma ServeStep(s: State, q: QueueOp, s': State)
    requires Base(s) && Served(s, q, s')
    ensures Base(s')
  {
    assert Ready(s.stages) <= s.stages.Keys;
    assert Rows(s');
    ServeClients(s, q, s');
  }

  lemma ServeClients(s: State, q: QueueOp, s': State)
    requires Rows(s) && Clients(s) && OneRunner(s) && Served(s, q, s')
    ensures Clients(s') && OneRunner(s')
  {
    forall d | d in s'.clients ensures ClientOK(s', s'.clients[d]) {
      assert ClientOK(s, s.clients[d]);
      ServeClient(s, q, s', d);
    }
    assert forall d :: d in s'.clients && Busy(s'.clients[d].phase) ==> s'.clients[d] == s.clients[d];
  }

  lemma ServeClient(s: State, q: QueueOp, s': State, d: nat)
    requires Rows(s) && Served(s, q, s') && d in s.clients && ClientOK(s, s.clients[d])
    ensures ClientOK(s', s'.clients[d])
  {
  }

  lemma BaseStep(s: State, a: Action, s': State)
    requires Base(s) && Next(s, a, s')
    ensures Base(s')
  {
    match a
    case Create(b, rows) => CreateStep(s, b, rows, s');
    case Serve(q) => ServeStep(s, q, s');
    case Turn(c, op) =>
      assert ClientOK(s, s.clients[c]);
      var e := Plan(s, s.clients[c], op);
      PlanWellFormed(s, s.clients[c], op);
      if e.Local? {
        LocalStep(s, c, e);
      } else if e.WriteBuild? {
        BuildStep(s, c, e);
      } else if Current(s.stages, e.change) {
        StageWon(s, c, e);
        StageWonOneRunner(s, c, e);
      } else {
        StageLost(s, c, e);
      }
  }
}
