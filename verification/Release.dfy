/** Teardowns that overlap: in runs where no stage is skipped or cancelled, at
    most one teardown releases a given downstream stage and at most one settles
    the build. */
module Release {
  import opened Core
  import opened Store
  import opened Protocol
  import opened Claim
  import opened Final
  import Deps

  /** No teardown marked a stage skipped and no cancel marked one. */
  ghost predicate Quiet(log: seq<Event>) {
    forall ev :: ev in log ==> !ev.SkipMarked? && !ev.CancelMarked?
  }

  // ---------- what the operations of a quiet run do ----------

  ghost predicate Marked(note: seq<Event>) {
    |note| == 1 && (note[0].SkipMarked? || note[0].CancelMarked?)
  }

  /** The status moves of a write, with the notes that go with them. */
  ghost predicate Moves(cl: Client, e: Effect) {
    match e
    case Local(_, _) => true
    case WriteStage(base, change, won, lost, wonNote, lostNote) =>
      || (Marked(wonNote) && Marked(lostNote))
      || (ReleasesOne(cl, base, change) && lostNote == wonNote == [Released(base.id, cl.task)]
          && won == Next1(cl.(list := cl.list[cl.i := Bump(change)]))
          && lost == Next1(cl.(list := cl.list[cl.i := change])))
      || (!Reported(lost.phase) && lostNote == [] && Advances(cl, base, change, won, wonNote))
    case WriteBuild(record, won, lost, wonNote) =>
      && !Reported(won.phase) && !Reported(lost.phase)
      && (|wonNote| == 1 && wonNote[0].Settled? ==> cl.phase.Closing? && Deps.BuildComplete(cl.list))
  }

  ghost predicate Advances(cl: Client, base: Stage, change: Stage, won: Client, note: seq<Event>) {
    || (Reports(change.status) && cl.phase.FinishRead? && cl.task == base.id
        && note == [Finished(base.id, change.updated)] && won.phase.Listing? && won.copy == Some(Bump(change))
        && won.task == cl.task && won.build == cl.build)
    || (!Reported(won.phase) && EarlyMove(cl, base, change, note))
  }

  ghost predicate EarlyMove(cl: Client, base: Stage, change: Stage, note: seq<Event>) {
    || (change.status.Pending? && cl.phase.Found? && cl.task == base.id && note == [Accepted(base.id)])
    || (change.status.Pending? && base.status.Blocked? && note == [Approved(base.id)])
    || (change.status.Running? && cl.phase.SetupRead? && cl.task == base.id && note == [Began(base.id)])
    || (change.status.Declined? && base.status.Blocked? && change.machine == base.machine && note == [])
  }

  ghost predicate ReleasesOne(cl: Client, base: Stage, change: Stage) {
    && cl.phase.Releasing? && cl.i < |cl.list| && base == cl.list[cl.i] && change.status.Pending?
    && cl.copy.Some? && Deps.MustRelease(cl.copy.value, base, cl.list)
  }

  lemma PollMoves(s: State, cl: Client, op: PollOp)
    requires PhaseOK(cl) && PollEnabled(s, cl, op)
    ensures Moves(cl, PollPlan(s, cl, op))
  {
  }

  lemma ReportMoves(s: State, cl: Client, op: ReportOp)
    requires PhaseOK(cl) && ReportEnabled(s, cl, op)
    ensures Moves(cl, ReportPlan(s, cl, op))
  {
  }

  lemma KillMoves(s: State, cl: Client, op: KillOp)
    requires PhaseOK(cl) && KillEnabled(s, cl, op)
    ensures Moves(cl, KillPlan(s, cl, op))
  {
  }

  lemma ReviewMoves(s: State, cl: Client, op: ReviewOp)
    requires PhaseOK(cl) && ReviewEnabled(s, cl, op)
    ensures Moves(cl, ReviewPlan(s, cl, op))
  {
  }

  /** How a client enters and crosses the phases after its report. */
  ghost predicate Stays(s: State, cl: Client, next: Client) {
    && (Reported(next.phase) ==>
          Reported(cl.phase) && next.copy == cl.copy && next.build == cl.build && next.task == cl.task)
    && (Swept(next.phase) ==>
          || (Swept(cl.phase) && next.list == cl.list)
          || (cl.phase.Listing? && cl.build.Some? && IsListing(s.stages, cl.build.value.id, next.list)))
    && (cl.phase.Closing? ==> !Reported(next.phase))
    && (cl.phase.Releasing? && Reported(next.phase) ==>
          next.phase.Closing? || (next.phase.Releasing? && next.i >= cl.i))
  }

  ghost predicate Swept(ph: Phase) {
    ph.Skipping? || ph.Releasing? || ph.Closing?
  }

  lemma PollStays(s: State, cl: Client, op: PollOp)
    requires PhaseOK(cl) && PollEnabled(s, cl, op) && PollPlan(s, cl, op).Local?
    ensures Stays(s, cl, PollPlan(s, cl, op).next)
  {
  }

  lemma ReportStays(s: State, cl: Client, op: ReportOp)
    requires PhaseOK(cl) && ReportEnabled(s, cl, op) && ReportPlan(s, cl, op).Local?
    ensures Stays(s, cl, ReportPlan(s, cl, op).next)
  {
  }

  lemma KillStays(s: State, cl: Client, op: KillOp)
    requires PhaseOK(cl) && KillEnabled(s, cl, op) && KillPlan(s, cl, op).Local?
    ensures Stays(s, cl, KillPlan(s, cl, op).next)
  {
  }

  lemma ReviewStays(s: State, cl: Client, op: ReviewOp)
    requires PhaseOK(cl) && ReviewEnabled(s, cl, op) && ReviewPlan(s, cl, op).Local?
    ensures Stays(s, cl, ReviewPlan(s, cl, op).next)
  {
  }

  /** Everything the plan of an operation guarantees. */
  ghost predicate Sound(s: State, cl: Client, e: Effect) {
    && WellFormed(s, cl, e) && Noted(cl, e) && Moves(cl, e)
    && (e.Local? ==> Stays(s, cl, e.next))
  }

  lemma PlanSound(s: State, cl: Client, op: Op)
    requires Rows(s) && ClientOK(s, cl) && Enabled(s, cl, op)
    ensures Sound(s, cl, Plan(s, cl, op))
  {
    PlanWellFormed(s, cl, op);
    PlanNoted(s, cl, op);
    var e := Plan(s, cl, op);
    match op
    case Poll(p) =>
      PollMoves(s, cl, p);
      if e.Local? { PollStays(s, cl, p); }
    case Report(r) =>
      ReportMoves(s, cl, r);
      if e.Local? { ReportStays(s, cl, r); }
    case Kill(k) =>
      KillMoves(s, cl, k);
      if e.Local? { KillStays(s, cl, k); }
    case Review(v) =>
      ReviewMoves(s, cl, v);
      if e.Local? { ReviewStays(s, cl, v); }
    case Abort =>
  }

  // ---------- the invariant of quiet runs ----------

  ghost predicate RowQ(s: State, id: int)
    requires id in s.stages
  {
    var r := s.stages[id];
    && !r.status.Skipped? && !r.status.Killed?
    && (r.IsDone() ==> r.status.Declined? || Finished(id, r.updated) in s.log)
    && (id in s.listed ==> r.status.Pending? || r.status.Running? || Reports(r.status))
  }

  ghost predicate RowsQ(s: State) {
    forall id :: id in s.stages ==> RowQ(s, id)
  }

  ghost predicate Numbers(rows: Stages) {
    forall i, j :: i in rows && j in rows && rows[i].buildId == rows[j].buildId && rows[i].number == rows[j].number ==>
      i == j
  }

  /** The list a teardown works on: every stage of the build once, and done
      records are the stored ones. */
  ghost predicate ListQ(rows: Stages, b: int, list: seq<Stage>) {
    && (forall j :: 0 <= j < |list| ==> list[j].id in rows && list[j].buildId == b)
    && (forall j :: 0 <= j < |list| && list[j].IsDone() ==> rows[list[j].id] == list[j])
    && (forall id :: id in rows && rows[id].buildId == b ==> exists j :: 0 <= j < |list| && list[j].id == id)
    && (forall j, k :: 0 <= j < k < |list| ==> list[j].id < list[k].id)
  }

  ghost predicate ClientQ(s: State, cl: Client) {
    && (Reported(cl.phase) ==>
          && cl.copy.Some? && cl.task in s.stages && s.stages[cl.task] == cl.copy.value
          && Finished(cl.task, cl.copy.value.updated) in s.log)
    && (Swept(cl.phase) ==> cl.build.Some? && ListQ(s.stages, cl.build.value.id, cl.list))
  }

  ghost predicate ClientsQ(s: State) {
    forall c :: c in s.clients ==> ClientQ(s, s.clients[c])
  }

  ghost predicate Quiesced(s: State) {
    Inv(s) && Quiet(s.log) && RowsQ(s) && Numbers(s.stages) && ClientsQ(s)
  }

  ghost predicate Fires(s: State, c: nat, e: Effect) {
    Quiesced(s) && c in s.clients && Sound(s, s.clients[c], e) && Quiet(Apply(s, c, e).log)
  }

  /** In a quiet run a done row never changes. */
  lemma DoneKept(s: State, c: nat, e: Effect, id: int)
    requires Fires(s, c, e) && id in s.stages && s.stages[id].IsDone()
    ensures id in Apply(s, c, e).stages && Apply(s, c, e).stages[id] == s.stages[id]
  {
    assert RowQ(s, id);
    if !s.stages[id].status.Declined? {
      assert EventOK(s, Finished(id, s.stages[id].updated));
      SealedEffect(s, c, e, id);
    } else if e.WriteStage? && Current(s.stages, e.change) {
      assert ClientOK(s, s.clients[c]);
      BaseIsRow(s, c, e);
    }
  }

  lemma QuietMoves(s: State, c: nat, e: Effect)
    requires Fires(s, c, e) && e.WriteStage?
    ensures !(Marked(e.wonNote) && Marked(e.lostNote))
  {
    var log := Apply(s, c, e).log;
    if |log| > |s.log| {
      assert log[|s.log|] in log;
    }
  }

  lemma RowsKept(s: State, c: nat, e: Effect)
    requires Fires(s, c, e)
    ensures RowsQ(Apply(s, c, e)) && Numbers(Apply(s, c, e).stages)
  {
    var s' := Apply(s, c, e);
    if e.WriteStage? && Current(s.stages, e.change) {
      BaseIsRow(s, c, e);
      QuietMoves(s, c, e);
      assert RowQ(s, e.change.id);
      assert e.wonNote != [] ==> s'.log[|s.log|] == e.wonNote[0];
    }
    forall id | id in s'.stages ensures RowQ(s', id) {
      assert RowQ(s, id);
    }
  }

  lemma ListKept(s: State, c: nat, e: Effect, b: int, list: seq<Stage>)
    requires Fires(s, c, e) && ListQ(s.stages, b, list)
    ensures ListQ(Apply(s, c, e).stages, b, list)
  {
    var s' := Apply(s, c, e);
    if e.WriteStage? && Current(s.stages, e.change) {
      BaseIsRow(s, c, e);
    }
    forall j | 0 <= j < |list| && list[j].IsDone() ensures s'.stages[list[j].id] == list[j] {
      DoneKept(s, c, e, list[j].id);
    }
  }

  lemma OtherKept(s: State, c: nat, e: Effect, d: nat)
    requires Fires(s, c, e) && d in s.clients
    ensures ClientQ(Apply(s, c, e), s.clients[d])
  {
    var cl := s.clients[d];
    assert ClientOK(s, cl) && ClientQ(s, cl);
    if Reported(cl.phase) {
      DoneKept(s, c, e, cl.task);
    }
    if Swept(cl.phase) {
      ListKept(s, c, e, cl.build.value.id, cl.list);
    }
  }

  /** Overwriting one record of the list by an unfinished one keeps it sound. */
  lemma ListUpdate(rows: Stages, b: int, list: seq<Stage>, i: nat, k: Stage)
    requires ListQ(rows, b, list) && i < |list| && k.id == list[i].id && k.buildId == b && !k.IsDone()
    ensures ListQ(rows, b, list[i := k])
  {
    var list' := list[i := k];
    forall id | id in rows && rows[id].buildId == b ensures exists j :: 0 <= j < |list'| && list'[j].id == id {
      var j :| 0 <= j < |list| && list[j].id == id;
      assert list'[j].id == id;
    }
  }

  lemma ReleaserKept(s: State, c: nat, e: Effect)
    requires Fires(s, c, e) && e.WriteStage? && ReleasesOne(s.clients[c], e.base, e.change)
    ensures ClientQ(Apply(s, c, e), Apply(s, c, e).clients[c])
  {
    var cl := s.clients[c];
    var rows := Apply(s, c, e).stages;
    OtherKept(s, c, e, c);
    assert ClientOK(s, cl);
    QuietMoves(s, c, e);
    ListUpdate(rows, cl.build.value.id, cl.list, cl.i, e.change);
    ListUpdate(rows, cl.build.value.id, cl.list, cl.i, Bump(e.change));
  }

  lemma AdvancerKept(s: State, c: nat, e: Effect)
    requires Fires(s, c, e) && e.WriteStage? && !ReleasesOne(s.clients[c], e.base, e.change)
    ensures ClientQ(Apply(s, c, e), Apply(s, c, e).clients[c])
  {
    var s' := Apply(s, c, e);
    assert ClientOK(s, s.clients[c]);
    QuietMoves(s, c, e);
    if Current(s.stages, e.change) {
      BaseIsRow(s, c, e);
      assert e.wonNote != [] ==> s'.log[|s.log|] == e.wonNote[0];
    }
  }

  lemma WriterKept(s: State, c: nat, e: Effect)
    requires Fires(s, c, e)
    ensures ClientQ(Apply(s, c, e), Apply(s, c, e).clients[c])
  {
    match e
    case Local(next, _) => OtherKept(s, c, e, c);
    case WriteBuild(_, _, _, _) =>
    case WriteStage(base, change, _, _, _, _) =>
      if ReleasesOne(s.clients[c], base, change) {
        ReleaserKept(s, c, e);
      } else {
        AdvancerKept(s, c, e);
      }
  }

  lemma EffectKeepsQuiet(s: State, c: nat, e: Effect)
    requires Fires(s, c, e) && Inv(Apply(s, c, e))
    ensures Quiesced(Apply(s, c, e))
  {
    var s' := Apply(s, c, e);
    RowsKept(s, c, e);
    forall d | d in s'.clients ensures ClientQ(s', s'.clients[d]) {
      if d == c {
        WriterKept(s, c, e);
      } else {
        OtherKept(s, c, e, d);
      }
    }
  }

  lemma CreateKeepsQuiet(s: State, b: Build, rows: Stages, s': State)
    requires Quiesced(s) && Next(s, Create(b, rows), s') && Inv(s')
    requires Numbers(s'.stages)
    ensures Quiesced(s')
  {
    forall id | id in s'.stages ensures RowQ(s', id) {
      if id in rows {
        assert FreshStage(rows[id], id, b.id);
      } else {
        assert RowQ(s, id);
      }
    }
    forall c | c in s'.clients ensures ClientQ(s', s'.clients[c]) {
      var cl := s.clients[c];
      assert ClientQ(s, cl) && ClientOK(s, cl);
      forall id | id in rows ensures rows[id].buildId == b.id {
        assert FreshStage(rows[id], id, b.id);
      }
    }
  }

  lemma CreateNumbers(s: State, b: Build, rows: Stages, s': State)
    requires Base(s) && Numbers(s.stages) && Next(s, Create(b, rows), s')
    ensures Numbers(s'.stages)
  {
    forall id | id in rows ensures rows[id].buildId == b.id {
      assert FreshStage(rows[id], id, b.id);
    }
  }

  lemma LogGrows(s: State, a: Action, s': State)
    requires Next(s, a, s')
    ensures s.log <= s'.log
  {
  }

  lemma ServeKeepsQuiet(s: State, q: QueueOp, s': State)
    requires Quiesced(s) && Served(s, q, s') && Inv(s')
    ensures Quiesced(s')
  {
    forall i | i in s'.stages ensures RowQ(s', i) {
      assert RowQ(s, i);
    }
    forall c | c in s'.clients ensures ClientQ(s', s'.clients[c]) {
      assert ClientQ(s, s.clients[c]);
    }
  }

  lemma StepKeepsQuiet(s: State, a: Action, s': State)
    requires Quiesced(s) && Next(s, a, s') && Quiet(s'.log)
    ensures Quiesced(s')
  {
    StepKeepsInv(s, a, s');
    match a
    case Create(b, rows) =>
      CreateNumbers(s, b, rows, s');
      CreateKeepsQuiet(s, b, rows, s');
    case Serve(q) => ServeKeepsQuiet(s, q, s');
    case Turn(c, op) =>
      assert ClientOK(s, s.clients[c]);
      PlanSound(s, s.clients[c], op);
      EffectKeepsQuiet(s, c, Plan(s, s.clients[c], op));
  }
}
