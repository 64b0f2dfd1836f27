/** Progress over every interleaving: when all stages run on success and pass, the
    dependency graphs are acyclic with all names present, stamps are ordered like the
    commits and no busy runner crashes, then every run works through each stage once
    and in dependency order, never sticks, and ends with every build passing. */
module Progress {
  import opened Core
  import opened Store
  import opened Protocol
  import opened Claim
  import opened Final
  import opened Release
  import opened Single
  import opened Exact
  import opened Deps

  type Rank = int -> nat

  // ---------- smooth runs ----------

  /** Approved stages that run on success, with present and acyclic dependencies and no
      negative limit. */
  ghost predicate SmoothRows(rows: Stages, rank: Rank) {
    && (forall id :: id in rows ==> !rows[id].status.Blocked? && rows[id].onSuccess && rows[id].limit >= 0)
    && (forall x, name :: x in rows && name in rows[x].dependsOn ==> exists d :: d in rows && rows[d].name == name)
    && (forall d, x :: d in rows && x in rows && rows[d].name in rows[x].dependsOn ==> rank(d) < rank(x))
  }

  /** The stamp is later than every earlier report of the build. */
  ghost predicate Late(s: State, b: int, now: int) {
    forall ev :: ev in s.log && ev.Finished? && ev.stage in s.stages && s.stages[ev.stage].buildId == b ==>
      ev.stamp < now
  }

  /** Stages pass, reports are stamped late, nobody cancels, and no busy runner
      crashes. */
  ghost predicate SmoothOp(s: State, cl: Client, op: Op) {
    match op
    case Poll(p) => p.Complete? ==> p.outcome.Passing?
    case Report(r) => r.FinishCommit? ==> cl.copy.Some? && Late(s, cl.copy.value.buildId, r.now)
    case Kill(_) => false
    case Review(_) => true
    case Abort => !Busy(cl.phase)
  }

  ghost predicate Smooth(s: State, a: Action, rank: Rank) {
    match a
    case Create(_, rows) => SmoothRows(rows, rank)
    case Serve(_) => true
    case Turn(c, op) => c in s.clients && SmoothOp(s, s.clients[c], op)
  }

  ghost predicate SmoothRun(states: seq<State>, acts: seq<Action>, rank: Rank) {
    Run(states, acts) && forall i :: 0 <= i < |acts| ==> Smooth(states[i], acts[i], rank)
  }

  // ---------- the invariant ----------

  ghost predicate RowH(r: Stage) {
    && r.onSuccess && r.limit >= 0 && (r.status.Waiting? || r.status.Pending? || r.status.Running? || r.status.Passing?)
    && (r.status.Running? || r.status.Passing? ==> r.machine != "")
    && (r.status.Waiting? ==> |r.dependsOn| != 0)
  }

  ghost predicate RowsH(rows: Stages, rank: Rank) {
    && (forall id :: id in rows ==> RowH(rows[id]))
    && (forall x, name :: x in rows && name in rows[x].dependsOn ==> exists d :: DepOf(rows, d, x))
    && (forall d, x :: DepOf(rows, d, x) ==> rank(d) < rank(x))
  }

  /** Not in the middle of a cancel, an approval or a decline. */
  ghost predicate Plain(ph: Phase) {
    && !ph.CancelRead? && !ph.CancelListing? && !ph.Cancelling?
    && !ph.Approving? && !ph.Declining? && !ph.DeclineClosing?
  }

  /** The runner's attempt to announce the build is over. */
  ghost predicate Announcing(ph: Phase) {
    ph.Executing? || ph.Finishing? || ph.FinishRead? || Reported(ph)
  }

  /** A working runner's copy is its row; it will report a pass of what it began. */
  ghost predicate RunnerH(s: State, cl: Client) {
    Working(cl.phase) ==>
      && cl.task in s.stages && !s.stages[cl.task].IsDone()
      && (!cl.phase.Claimed? ==> cl.copy == Some(s.stages[cl.task]))
      && (cl.phase.Finishing? || cl.phase.FinishRead? ==> cl.begun && cl.outcome.Passing?)
  }

  /** The build a client has read is the stored one, or that one has moved on. */
  ghost predicate BuildH(s: State, cl: Client) {
    && (cl.build.Some? && cl.build.value.id in s.builds && s.builds[cl.build.value.id].status.Pending? ==>
          cl.build.value == s.builds[cl.build.value.id])
    && (cl.phase.Inspected? ==> cl.build.Some? && !Cancelled(cl.build.value))
    && (cl.phase.SetupRead? || cl.phase.Begun? ==>
          cl.build.Some? && cl.copy.Some? && cl.build.value.id == cl.copy.value.buildId)
    && (Announcing(cl.phase) ==>
          && cl.copy.Some? && cl.copy.value.buildId in s.builds
          && !s.builds[cl.copy.value.buildId].status.Pending?)
    && (cl.phase.FinishRead? || Reported(cl.phase) ==>
          && cl.build.Some? && cl.build.value.id in s.builds
          && (cl.build.value == s.builds[cl.build.value.id] || Settled(cl.build.value.id) in s.log))
  }

  ghost predicate ClientH(s: State, cl: Client) {
    && Plain(cl.phase) && RunnerH(s, cl) && BuildH(s, cl)
    && (Swept(cl.phase) ==> !cl.failed) && (cl.phase.Closing? ==> Scheduled(cl.task) in s.log)
  }

  ghost predicate Owner(s: State, c: nat, id: int) {
    c in s.clients && Busy(s.clients[c].phase) && s.clients[c].task == id
  }

  /** Every assigned stage has a runner until its teardown is through. */
  ghost predicate OwnedH(s: State) {
    && (forall id :: id in s.stages && !s.stages[id].IsDone() && s.stages[id].machine != "" ==>
          exists c :: Owner(s, c, id))
    && (forall id :: HasFinished(s.log, id) ==> Scheduled(id) in s.log || exists c :: Owner(s, c, id))
  }

  ghost predicate AllDone(s: State, b: int) {
    && (exists id :: id in s.stages && s.stages[id].buildId == b)
    && (forall id :: id in s.stages && s.stages[id].buildId == b ==> s.stages[id].IsDone())
  }

  /** A teardown that will find the build complete. */
  ghost predicate Closer(s: State, c: nat, b: int) {
    && c in s.clients && Reported(s.clients[c].phase) && s.clients[c].build.Some? && s.clients[c].build.value.id == b
    && (s.clients[c].phase.Listing? || BuildComplete(s.clients[c].list))
  }

  ghost predicate SettledH(s: State) {
    && (forall b :: AllDone(s, b) ==> Settled(b) in s.log || exists c :: Closer(s, c, b))
    && (forall b :: Settled(b) in s.log ==> b in s.builds && s.builds[b].status.Passing?)
    && Uncancelled(s.builds)
  }

  ghost predicate Uncancelled(builds: Builds) {
    forall b :: b in builds ==> !Cancelled(builds[b])
  }

  ghost predicate Unapproved(log: seq<Event>) {
    forall ev :: ev in log ==> !ev.Approved?
  }

  ghost predicate Healthy(s: State, rank: Rank) {
    && Quiesced(s) && Singles(s) && Thorough(s) && Ordered(s) && Unapproved(s.log)
    && RowsH(s.stages, rank) && OwnedH(s) && SettledH(s)
    && (forall c :: c in s.clients ==> ClientH(s, s.clients[c]))
  }

  // ---------- what smooth operations do ----------

  /** How a client goes on without a write. */
  ghost predicate GoesOn(s: State, cl: Client, next: Client, note: seq<Event>) {
    && Plain(next.phase)
    && (Working(cl.phase) ==> Working(next.phase))
    && (Working(next.phase) && !next.phase.Claimed? ==>
          || (cl.phase.Claimed? && next.phase.Detailed? && cl.task in s.stages && next.copy == Some(s.stages[cl.task]))
          || (Working(cl.phase) && !cl.phase.Claimed? && next.copy == cl.copy && next.begun == cl.begun))
    && (next.phase.Claimed? ==> false)
    && (next.phase.Finishing? ==> cl.phase.Executing? && next.outcome.Passing?)
    && (next.phase.FinishRead? ==> cl.phase.Finishing? && next.outcome == cl.outcome)
    && (Reported(cl.phase) ==> Reported(next.phase) || (cl.phase.Closing? && !BuildComplete(cl.list)))
    && (next.phase.Closing? ==> cl.phase.Releasing? && note == [Scheduled(cl.task)])
    && (Swept(next.phase) ==> next.failed == (if cl.phase.Listing? then AnyFailed(next.list) else cl.failed))
  }

  /** Where its build comes from. */
  ghost predicate BuildFrom(s: State, cl: Client, next: Client) {
    && (next.build.Some? ==> next.build == cl.build || Stored(s, next.build.value))
    && (Announcing(next.phase) ==>
          && next.copy == cl.copy
          && (Announcing(cl.phase) || (cl.phase.Begun? && cl.build.Some? && !cl.build.value.status.Pending?)))
    && (next.phase.Inspected? ==> next.build.Some? && Stored(s, next.build.value))
    && (next.phase.SetupRead? ==> next.build.Some? && next.copy.Some? && next.build.value.id == next.copy.value.buildId)
    && (next.phase.Begun? ==> false)
    && (Reported(next.phase) ==> next.build == cl.build)
    && (next.phase.FinishRead? ==> next.build.Some? && Stored(s, next.build.value))
  }

  ghost predicate Stored(s: State, b: Build) {
    b.id in s.builds && s.builds[b.id] == b
  }

  ghost predicate Accepts(cl: Client, e: Effect) {
    && e.WriteStage? && cl.phase.Found? && e.won == cl.(phase := Claimed, copy := None) && e.lost == Reset(cl)
    && e.wonNote == [Accepted(e.base.id)] && e.lostNote == [] && e.change.status.Pending?
  }

  ghost predicate Begins(cl: Client, e: Effect) {
    && e.WriteStage? && cl.phase.SetupRead? && e.won == cl.(phase := Begun, begun := true, copy := Some(Bump(e.change)))
    && e.wonNote == [Began(e.base.id)] && e.lostNote == [] && e.change.status.Running? && e.change.machine != ""
  }

  ghost predicate Finishes(s: State, cl: Client, e: Effect) {
    && e.WriteStage? && cl.phase.FinishRead? && e.won == cl.(phase := Listing, copy := Some(Bump(e.change)))
    && e.wonNote == [Finished(e.base.id, e.change.updated)] && e.lostNote == [] && e.change.status == cl.outcome
    && e.change.machine == e.base.machine && Late(s, e.base.buildId, e.change.updated)
  }

  ghost predicate Releases(cl: Client, e: Effect) {
    && e.WriteStage? && ReleasesOne(cl, e.base, e.change) && e.change.machine == e.base.machine
    && e.lostNote == e.wonNote == [Released(e.base.id, cl.task)]
    && e.won == Next1(cl.(list := cl.list[cl.i := Bump(e.change)]))
    && e.lost == Next1(cl.(list := cl.list[cl.i := e.change]))
  }

  ghost predicate Announces(cl: Client, e: Effect) {
    && e.WriteBuild? && cl.phase.Begun? && cl.build.Some? && cl.build.value.status.Pending?
    && e.record.id == cl.build.value.id && e.won == e.lost == cl.(phase := Executing)
    && e.wonNote == [Announced(e.record.id)] && e.record.status.Running?
  }

  ghost predicate Settles(cl: Client, e: Effect) {
    && e.WriteBuild? && cl.phase.Closing? && cl.build.Some? && e.record.id == cl.build.value.id
    && BuildComplete(cl.list)
    && e.won == e.lost == Reset(cl) && e.wonNote == [Settled(e.record.id)] && e.record.status == Verdict(cl.list)
  }

  ghost predicate Lawful(s: State, cl: Client, e: Effect) {
    || (e.Local? && GoesOn(s, cl, e.next, e.note) && BuildFrom(s, cl, e.next))
    || Accepts(cl, e) || Begins(cl, e) || Finishes(s, cl, e) || Releases(cl, e)
    || Announces(cl, e) || Settles(cl, e)
  }

  lemma AcceptLawful(s: State, cl: Client, op: PollOp)
    requires Rows(s) && ClientOK(s, cl) && ClientH(s, cl) && PollEnabled(s, cl, op)
    requires op.AcceptFind? || op.AcceptCommit?
    ensures Lawful(s, cl, PollPlan(s, cl, op))
  {
  }

  lemma DetailsLawful(s: State, cl: Client, op: PollOp)
    requires Rows(s) && ClientOK(s, cl) && ClientH(s, cl) && PollEnabled(s, cl, op)
    requires op.Details? || op.Inspect?
    ensures Lawful(s, cl, PollPlan(s, cl, op))
  {
  }

  lemma RunLawful(s: State, cl: Client, op: PollOp)
    requires Rows(s) && ClientOK(s, cl) && ClientH(s, cl) && PollEnabled(s, cl, op) && SmoothOp(s, cl, Poll(op))
    requires op.SetupFind? || op.SetupCommit? || op.UpdateBuild? || op.Complete?
    ensures Lawful(s, cl, PollPlan(s, cl, op))
  {
  }

  /** Nothing is skipped: the stage runs on success and the sweep found no failure. */
  lemma NothingSkipped(s: State, cl: Client, rank: Rank)
    requires ClientOK(s, cl) && ClientH(s, cl) && RowsH(s.stages, rank) && cl.phase.Skipping? && cl.i < |cl.list|
    ensures !MustSkip(cl.list[cl.i], cl.failed)
  {
    assert CopyOK(s.stages, cl.list[cl.i]);
    assert RowH(s.stages[cl.list[cl.i].id]);
  }

  lemma FinishLawful(s: State, cl: Client, op: ReportOp)
    requires Rows(s) && ClientOK(s, cl) && ClientH(s, cl) && ReportEnabled(s, cl, op) && SmoothOp(s, cl, Report(op))
    requires op.FinishFind? || op.FinishCommit?
    ensures Lawful(s, cl, ReportPlan(s, cl, op))
  {
  }

  lemma CloseLawful(s: State, cl: Client, op: ReportOp)
    requires Rows(s) && ClientOK(s, cl) && ClientH(s, cl) && ReportEnabled(s, cl, op)
    requires op.FinishList? || op.Settle?
    ensures Lawful(s, cl, ReportPlan(s, cl, op))
  {
  }

  lemma SweepLawful(s: State, cl: Client, op: ReportOp, rank: Rank)
    requires Rows(s) && ClientOK(s, cl) && ClientH(s, cl) && RowsH(s.stages, rank) && ReportEnabled(s, cl, op)
    requires op.Skip? || op.Release?
    ensures Lawful(s, cl, ReportPlan(s, cl, op))
  {
    if op.Skip? && cl.i < |cl.list| {
      NothingSkipped(s, cl, rank);
    }
  }

  lemma ReviewLawful(s: State, cl: Client, op: ReviewOp, rank: Rank)
    requires Rows(s) && ClientOK(s, cl) && ClientH(s, cl) && RowsH(s.stages, rank) && ReviewEnabled(s, cl, op)
    ensures Lawful(s, cl, ReviewPlan(s, cl, op))
  {
    assert (op.ApproveFind? || op.DeclineFindStage?) ==> RowH(s.stages[op.id]);
  }

  lemma PlanLawful(s: State, cl: Client, op: Op, rank: Rank)
    requires Rows(s) && ClientOK(s, cl) && ClientH(s, cl) && RowsH(s.stages, rank) && Enabled(s, cl, op)
    requires SmoothOp(s, cl, op)
    ensures Lawful(s, cl, Plan(s, cl, op))
  {
    match op
    case Poll(p) =>
      if p.AcceptFind? || p.AcceptCommit? {
        AcceptLawful(s, cl, p);
      } else if p.Details? || p.Inspect? {
        DetailsLawful(s, cl, p);
      } else {
        RunLawful(s, cl, p);
      }
    case Report(r) =>
      if r.Skip? || r.Release? {
        SweepLawful(s, cl, r, rank);
      } else if r.FinishFind? || r.FinishCommit? {
        FinishLawful(s, cl, r);
      } else {
        CloseLawful(s, cl, r);
      }
    case Kill(_) =>
    case Review(v) => ReviewLawful(s, cl, v, rank);
    case Abort =>
  }

  // ---------- one operation of a smooth run ----------

  ghost predicate Acts(s: State, c: nat, e: Effect) {
    && Base(s) && c in s.clients && WellFormed(s, s.clients[c], e) && Noted(s.clients[c], e)
    && Lawful(s, s.clients[c], e) && ClientH(s, s.clients[c])
  }

  /** A smooth operation logs no skip, cancel or approval, and reports late. */
  lemma LawfulNote(s: State, c: nat, e: Effect)
    requires c in s.clients && Noted(s.clients[c], e) && Lawful(s, s.clients[c], e)
    ensures Apply(s, c, e).log == s.log + NoteOf(s, e) && |NoteOf(s, e)| <= 1
    ensures |NoteOf(s, e)| == 1 ==>
              !NoteOf(s, e)[0].SkipMarked? && !NoteOf(s, e)[0].CancelMarked? && !NoteOf(s, e)[0].Approved?
    ensures |NoteOf(s, e)| == 1 && NoteOf(s, e)[0].Finished? ==>
              Finishes(s, s.clients[c], e) && NoteOf(s, e) == e.wonNote && Current(s.stages, e.change)
  {
    NoteShape(s, c, e);
  }

  lemma StaysQuiet(s: State, c: nat, e: Effect)
    requires c in s.clients && Noted(s.clients[c], e) && Lawful(s, s.clients[c], e) && Quiet(s.log)
    requires Unapproved(s.log)
    ensures Quiet(Apply(s, c, e).log) && Unapproved(Apply(s, c, e).log)
  {
    LawfulNote(s, c, e);
    var note := NoteOf(s, e);
    assert forall ev :: ev in s.log + note ==> ev in s.log || (|note| == 1 && ev == note[0]);
  }

  /** A current write starts from the stored row; a runner's write is always current. */
  lemma Writes(s: State, c: nat, e: Effect)
    requires Acts(s, c, e) && e.WriteStage?
    ensures SameKey(e.base, e.change)
    ensures Current(s.stages, e.change) ==> e.base == s.stages[e.change.id] && e.base.id == e.change.id
    ensures Current(s.stages, e.change) ==> Apply(s, c, e).stages == s.stages[e.change.id := Bump(e.change)]
    ensures Begins(s.clients[c], e) || Finishes(s, s.clients[c], e) ==>
              Current(s.stages, e.change) && e.base.id == s.clients[c].task && !e.base.IsDone()
    ensures Accepts(s.clients[c], e) ==> e.base.machine == "" && e.base.id in s.listed && e.change.machine != ""
  {
    var cl := s.clients[c];
    assert ClientOK(s, cl);
    if Current(s.stages, e.change) {
      BaseIsRow(s, c, e);
    }
  }

  lemma RowKept(s: State, c: nat, e: Effect, id: int)
    requires Acts(s, c, e) && id in s.stages && RowH(s.stages[id])
    ensures id in Apply(s, c, e).stages && SameKey(s.stages[id], Apply(s, c, e).stages[id])
    ensures RowH(Apply(s, c, e).stages[id])
  {
    if e.WriteStage? {
      Writes(s, c, e);
    }
  }

  lemma RowsKeptH(s: State, c: nat, e: Effect, rank: Rank)
    requires Acts(s, c, e) && RowsH(s.stages, rank)
    ensures Apply(s, c, e).stages.Keys == s.stages.Keys && RowsH(Apply(s, c, e).stages, rank)
    ensures forall id :: id in s.stages ==> SameKey(s.stages[id], Apply(s, c, e).stages[id])
  {
    var rows' := Apply(s, c, e).stages;
    forall id | id in s.stages ensures id in rows' && SameKey(s.stages[id], rows'[id]) && RowH(rows'[id]) {
      RowKept(s, c, e, id);
    }
    if e.WriteStage? {
      Writes(s, c, e);
    }
    DepsKept(s.stages, rows', rank);
  }

  lemma DepsKept(rows: Stages, rows': Stages, rank: Rank)
    requires RowsH(rows, rank) && rows'.Keys == rows.Keys
    requires forall id :: id in rows ==> SameKey(rows[id], rows'[id]) && RowH(rows'[id])
    ensures RowsH(rows', rank)
  {
    forall x, name | x in rows' && name in rows'[x].dependsOn ensures exists d :: DepOf(rows', d, x) {
      var d :| DepOf(rows, d, x);
      assert DepOf(rows', d, x);
    }
    forall d, x | DepOf(rows', d, x) ensures rank(d) < rank(x) {
      assert DepOf(rows, d, x);
    }
  }

  lemma OrderedNext(s: State, s': State, note: seq<Event>)
    requires Ordered(s) && s'.log == s.log + note && |note| <= 1 && s'.stages.Keys == s.stages.Keys
    requires forall id :: id in s.stages ==> s'.stages[id].buildId == s.stages[id].buildId
    requires |note| == 1 && note[0].Finished? && note[0].stage in s.stages ==>
               Late(s, s.stages[note[0].stage].buildId, note[0].stamp)
    ensures Ordered(s')
  {
    assert forall i :: 0 <= i < |s.log| ==> s'.log[i] == s.log[i] && s.log[i] in s.log;
  }

  lemma OrderedKept(s: State, c: nat, e: Effect, rank: Rank)
    requires Acts(s, c, e) && RowsH(s.stages, rank) && Ordered(s)
    ensures Ordered(Apply(s, c, e))
  {
    LawfulNote(s, c, e);
    RowsKeptH(s, c, e, rank);
    if e.WriteStage? {
      Writes(s, c, e);
    }
    OrderedNext(s, Apply(s, c, e), NoteOf(s, e));
  }

  // ---------- clients ----------

  /** Nobody else writes the row of a working runner. */
  lemma RunnerKept(s: State, c: nat, e: Effect, d: nat)
    requires Acts(s, c, e) && d in s.clients && d != c && RunnerH(s, s.clients[d])
    requires s.clients[d].task in s.stages ==> RowQ(s, s.clients[d].task)
    ensures RunnerH(Apply(s, c, e), s.clients[d])
  {
    assert ClientOK(s, s.clients[d]) && ClientOK(s, s.clients[c]);
    if Working(s.clients[d].phase) && e.WriteStage? {
      Writes(s, c, e);
    }
  }

  /** Which builds a smooth operation writes: a pending one that it announces, or one
      that it settles. */
  lemma BuildWrites(s: State, c: nat, e: Effect)
    requires Acts(s, c, e) && e.WriteBuild? && CurrentBuild(s.builds, e.record)
    ensures s.builds[e.record.id] == s.clients[c].build.value && !e.record.status.Pending?
    ensures s.builds[e.record.id].status.Pending? || Settled(e.record.id) in Apply(s, c, e).log
  {
    assert ClientOK(s, s.clients[c]);
    LawfulNote(s, c, e);
    assert Settles(s.clients[c], e) ==> Apply(s, c, e).log[|s.log|] == Settled(e.record.id);
  }

  lemma BuildKept(s: State, c: nat, e: Effect, cl: Client)
    requires Acts(s, c, e) && PhaseOK(cl) && BuildH(s, cl)
    ensures BuildH(Apply(s, c, e), cl)
  {
    LawfulNote(s, c, e);
    assert forall ev :: ev in s.log ==> ev in Apply(s, c, e).log;
    if e.WriteBuild? && CurrentBuild(s.builds, e.record) {
      BuildWrites(s, c, e);
    }
  }

  lemma OtherKeptH(s: State, c: nat, e: Effect, d: nat)
    requires Acts(s, c, e) && d in s.clients && d != c && ClientH(s, s.clients[d]) && RowsQ(s)
    ensures ClientH(Apply(s, c, e), s.clients[d])
  {
    assert ClientOK(s, s.clients[d]);
    RunnerKept(s, c, e, d);
    BuildKept(s, c, e, s.clients[d]);
    LawfulNote(s, c, e);
    assert forall ev :: ev in s.log ==> ev in Apply(s, c, e).log;
  }

  /** Without a failed stage a listing shows no failure. */
  lemma NoFailure(s: State, b: int, list: seq<Stage>, rank: Rank)
    requires RowsH(s.stages, rank) && IsListing(s.stages, b, list)
    ensures !AnyFailed(list)
  {
    forall r | r in list ensures !r.IsFailed() {
      assert RowH(s.stages[r.id]);
    }
  }

  lemma LocalKept(s: State, c: nat, e: Effect, rank: Rank)
    requires Acts(s, c, e) && e.Local? && RowsH(s.stages, rank) && Stays(s, s.clients[c], e.next)
    requires Uncancelled(s.builds)
    ensures ClientH(Apply(s, c, e), e.next)
  {
    var cl := s.clients[c];
    assert ClientOK(s, cl);
    if cl.phase.Listing? && Swept(e.next.phase) {
      NoFailure(s, cl.build.value.id, e.next.list, rank);
    }
    assert e.note != [] ==> Apply(s, c, e).log[|s.log|] == e.note[0];
  }

  lemma AccepterKept(s: State, c: nat, e: Effect)
    requires Acts(s, c, e) && Accepts(s.clients[c], e)
    ensures ClientH(Apply(s, c, e), Apply(s, c, e).clients[c])
  {
    assert ClientOK(s, s.clients[c]);
    Writes(s, c, e);
  }

  lemma RunnerWritesH(s: State, c: nat, e: Effect)
    requires Acts(s, c, e) && (Begins(s.clients[c], e) || Finishes(s, s.clients[c], e))
    ensures ClientH(Apply(s, c, e), Apply(s, c, e).clients[c])
  {
    assert ClientOK(s, s.clients[c]);
    Writes(s, c, e);
    BuildKept(s, c, e, s.clients[c]);
  }

  lemma ReleaserKeptH(s: State, c: nat, e: Effect)
    requires Acts(s, c, e) && Releases(s.clients[c], e)
    ensures ClientH(Apply(s, c, e), Apply(s, c, e).clients[c])
  {
    assert ClientOK(s, s.clients[c]);
    BuildKept(s, c, e, s.clients[c]);
  }

  lemma BuilderKept(s: State, c: nat, e: Effect)
    requires Acts(s, c, e) && e.WriteBuild?
    ensures ClientH(Apply(s, c, e), Apply(s, c, e).clients[c])
  {
    assert ClientOK(s, s.clients[c]);
    BuildKept(s, c, e, s.clients[c]);
  }

  lemma SelfKeptH(s: State, c: nat, e: Effect, rank: Rank)
    requires Acts(s, c, e) && RowsH(s.stages, rank) && (e.Local? ==> Stays(s, s.clients[c], e.next))
    requires Uncancelled(s.builds)
    ensures ClientH(Apply(s, c, e), Apply(s, c, e).clients[c])
  {
    if e.Local? {
      LocalKept(s, c, e, rank);
    } else if e.WriteBuild? {
      BuilderKept(s, c, e);
    } else if Accepts(s.clients[c], e) {
      AccepterKept(s, c, e);
    } else if Releases(s.clients[c], e) {
      ReleaserKeptH(s, c, e);
    } else {
      RunnerWritesH(s, c, e);
    }
  }

  // ---------- owners ----------

  ghost predicate DoneRowsStay(s: State, s': State) {
    forall id :: id in s.stages && s.stages[id].IsDone() ==> id in s'.stages && s'.stages[id] == s.stages[id]
  }

  /** A busy client stays busy with its stage until it leaves the closing phase. */
  lemma BusyStays(s: State, c: nat, e: Effect)
    requires Acts(s, c, e) && Busy(s.clients[c].phase)
    ensures var cl' := Apply(s, c, e).clients[c];
      if Busy(cl'.phase) then cl'.task == s.clients[c].task else s.clients[c].phase.Closing?
  {
    assert ClientOK(s, s.clients[c]);
    if e.WriteStage? {
      Writes(s, c, e);
    }
  }

  lemma OwnerStays(s: State, c: nat, e: Effect, d: nat, id: int)
    requires Acts(s, c, e) && Owner(s, d, id)
    ensures Owner(Apply(s, c, e), d, id) || (d == c && s.clients[c].phase.Closing?)
  {
    if d == c {
      BusyStays(s, c, e);
    }
  }

  lemma AssignedKept(s: State, c: nat, e: Effect, id: int)
    requires Acts(s, c, e) && OwnedH(s) && ClientQ(s, s.clients[c]) && DoneRowsStay(s, Apply(s, c, e))
    requires id in s.stages && Apply(s, c, e).stages.Keys == s.stages.Keys
    requires !Apply(s, c, e).stages[id].IsDone() && Apply(s, c, e).stages[id].machine != ""
    ensures exists d :: Owner(Apply(s, c, e), d, id)
  {
    var s', cl := Apply(s, c, e), s.clients[c];
    assert ClientOK(s, cl);
    if s.stages[id].machine == "" {
      Writes(s, c, e);
      assert Owner(s', c, id);
    } else {
      var d :| Owner(s, d, id);
      OwnerStays(s, c, e, d, id);
      assert Owner(s', d, id);
    }
  }

  lemma StillOwned(s: State, c: nat, e: Effect, id: int)
    requires Acts(s, c, e) && OwnedH(s) && HasFinished(s.log, id)
    ensures Scheduled(id) in Apply(s, c, e).log || exists d :: Owner(Apply(s, c, e), d, id)
  {
    var s' := Apply(s, c, e);
    LawfulNote(s, c, e);
    assert forall ev :: ev in s.log ==> ev in s'.log;
    if Scheduled(id) !in s.log {
      var d :| Owner(s, d, id);
      OwnerStays(s, c, e, d, id);
      assert Owner(s', d, id) || Scheduled(id) in s.log;
    }
  }

  lemma FinisherOwns(s: State, c: nat, e: Effect, id: int)
    requires Acts(s, c, e) && |NoteOf(s, e)| == 1 && NoteOf(s, e)[0].Finished? && NoteOf(s, e)[0].stage == id
    ensures Owner(Apply(s, c, e), c, id)
  {
    assert ClientOK(s, s.clients[c]);
    LawfulNote(s, c, e);
    Writes(s, c, e);
  }

  lemma FinishedOwned(s: State, c: nat, e: Effect, id: int)
    requires Acts(s, c, e) && OwnedH(s) && HasFinished(Apply(s, c, e).log, id)
    ensures Scheduled(id) in Apply(s, c, e).log || exists d :: Owner(Apply(s, c, e), d, id)
  {
    var s' := Apply(s, c, e);
    LawfulNote(s, c, e);
    var i :| FinishedAt(s'.log, i, id);
    if i < |s.log| {
      assert FinishedAt(s.log, i, id);
      StillOwned(s, c, e, id);
    } else {
      FinisherOwns(s, c, e, id);
    }
  }

  lemma OwnedKept(s: State, c: nat, e: Effect)
    requires Acts(s, c, e) && OwnedH(s) && ClientQ(s, s.clients[c]) && DoneRowsStay(s, Apply(s, c, e))
    requires Apply(s, c, e).stages.Keys == s.stages.Keys
    ensures OwnedH(Apply(s, c, e))
  {
    var s' := Apply(s, c, e);
    forall id | id in s'.stages && !s'.stages[id].IsDone() && s'.stages[id].machine != ""
      ensures exists d :: Owner(s', d, id)
    {
      AssignedKept(s, c, e, id);
    }
    forall id | HasFinished(s'.log, id) ensures Scheduled(id) in s'.log || exists d :: Owner(s', d, id) {
      FinishedOwned(s, c, e, id);
    }
  }

  // ---------- settlement ----------

  /** A listing of a build whose stages are all done is complete. */
  lemma AllDoneIsComplete(s: State, b: int, list: seq<Stage>, rank: Rank)
    requires RowsH(s.stages, rank) && AllDone(s, b) && IsListing(s.stages, b, list)
    ensures BuildComplete(list)
  {
    forall r | r in list ensures !Incomplete(r.status) {
      assert RowH(s.stages[r.id]) && s.stages[r.id].IsDone();
    }
  }

  lemma CloserStays(s: State, c: nat, e: Effect, b: int, rank: Rank)
    requires Acts(s, c, e) && Stays1(s, c, e) && RowsH(s.stages, rank) && AllDone(s, b) && Closer(s, c, b)
    ensures Settled(b) in Apply(s, c, e).log || Closer(Apply(s, c, e), c, b)
  {
    var s', cl := Apply(s, c, e), s.clients[c];
    assert ClientOK(s, cl);
    assert cl.i < |cl.list| ==> cl.list[cl.i] in cl.list;
    LawfulNote(s, c, e);
    match e
    case Local(next, _) =>
      if cl.phase.Listing? && Swept(next.phase) {
        AllDoneIsComplete(s, b, next.list, rank);
      }
    case WriteStage(_, _, _, _, _, _) =>
    case WriteBuild(record, _, _, _) =>
      assert forall ev :: ev in s.log ==> ev in s'.log;
      assert CurrentBuild(s.builds, record) ==> s'.log[|s.log|] == Settled(b);
  }

  ghost predicate Stays1(s: State, c: nat, e: Effect)
    requires c in s.clients
  {
    e.Local? ==> Stays(s, s.clients[c], e.next)
  }

  /** The last stage of a build to be done is reported by a teardown that then lists
      the complete build. */
  lemma NewlyDone(s: State, c: nat, e: Effect, b: int)
    requires Acts(s, c, e) && AllDone(Apply(s, c, e), b) && !AllDone(s, b)
    requires Apply(s, c, e).stages.Keys == s.stages.Keys
    requires forall id :: id in s.stages ==> SameKey(s.stages[id], Apply(s, c, e).stages[id])
    ensures Closer(Apply(s, c, e), c, b)
  {
    var s' := Apply(s, c, e);
    var x :| x in s'.stages && s'.stages[x].buildId == b;
    assert x in s.stages && s.stages[x].buildId == b;
    var id :| id in s.stages && s.stages[id].buildId == b && !s.stages[id].IsDone();
    assert ClientOK(s, s.clients[c]);
    Writes(s, c, e);
  }

  lemma CloserFound(s: State, c: nat, e: Effect, b: int, rank: Rank)
    requires Acts(s, c, e) && Stays1(s, c, e) && RowsH(s.stages, rank) && AllDone(s, b) && exists d :: Closer(s, d, b)
    ensures Settled(b) in Apply(s, c, e).log || exists d :: Closer(Apply(s, c, e), d, b)
  {
    var d :| Closer(s, d, b);
    if d == c {
      CloserStays(s, c, e, b, rank);
    }
    assert Closer(Apply(s, c, e), d, b) || Settled(b) in Apply(s, c, e).log;
  }

  lemma ClosingKept(s: State, c: nat, e: Effect, b: int, rank: Rank)
    requires Acts(s, c, e) && Stays1(s, c, e) && RowsH(s.stages, rank) && SettledH(s) && AllDone(Apply(s, c, e), b)
    ensures Settled(b) in Apply(s, c, e).log || exists d :: Closer(Apply(s, c, e), d, b)
  {
    if Settled(b) in s.log {
      LawfulNote(s, c, e);
      assert Settled(b) in Apply(s, c, e).log;
    } else if AllDone(s, b) {
      CloserFound(s, c, e, b, rank);
    } else {
      RowsKeptH(s, c, e, rank);
      NewlyDone(s, c, e, b);
    }
  }

  lemma {:induction false} VerdictPassing(list: seq<Stage>)
    requires forall r :: r in list ==> r.status.Passing?
    ensures Verdict(list).Passing?
  {
    if |list| == 0 {
    } else {
      assert list[0] in list;
      VerdictPassing(list[1..]);
    }
  }

  /** A complete list of a smooth run has only passing records. */
  lemma CompletePasses(s: State, cl: Client, rank: Rank)
    requires RowsH(s.stages, rank) && ClientQ(s, cl) && Swept(cl.phase) && BuildComplete(cl.list)
    ensures Verdict(cl.list).Passing?
  {
    forall r | r in cl.list ensures r.status.Passing? {
      var j :| 0 <= j < |cl.list| && cl.list[j] == r;
      assert RowH(s.stages[r.id]);
    }
    VerdictPassing(cl.list);
  }

  lemma PassingNew(s: State, c: nat, e: Effect, rank: Rank)
    requires Acts(s, c, e) && RowsH(s.stages, rank) && ClientQ(s, s.clients[c])
    requires e.WriteBuild? && CurrentBuild(s.builds, e.record) && Settles(s.clients[c], e)
    ensures e.record.id in Apply(s, c, e).builds && Apply(s, c, e).builds[e.record.id].status.Passing?
  {
    CompletePasses(s, s.clients[c], rank);
  }

  lemma PassingOld(s: State, c: nat, e: Effect, b: int)
    requires Acts(s, c, e) && b in s.builds && s.builds[b].status.Passing?
    requires e.WriteBuild? && CurrentBuild(s.builds, e.record) && Settles(s.clients[c], e) ==> e.record.id != b
    ensures b in Apply(s, c, e).builds && Apply(s, c, e).builds[b].status.Passing?
  {
    if e.WriteBuild? && CurrentBuild(s.builds, e.record) {
      BuildWrites(s, c, e);
    }
  }

  lemma SettledNote(s: State, c: nat, e: Effect, b: int)
    requires c in s.clients && Noted(s.clients[c], e) && Lawful(s, s.clients[c], e)
    requires Settled(b) in Apply(s, c, e).log && Settled(b) !in s.log
    ensures e.WriteBuild? && CurrentBuild(s.builds, e.record) && Settles(s.clients[c], e) && e.record.id == b
  {
    NoteShape(s, c, e);
    assert Settled(b) in NoteOf(s, e);
  }

  lemma PassingKept(s: State, c: nat, e: Effect, b: int, rank: Rank)
    requires Acts(s, c, e) && RowsH(s.stages, rank) && SettledH(s) && ClientQ(s, s.clients[c])
    requires e.WriteBuild? && CurrentBuild(s.builds, e.record) && Settles(s.clients[c], e) ==>
               Settled(e.record.id) !in s.log
    requires Settled(b) in Apply(s, c, e).log
    ensures b in Apply(s, c, e).builds && Apply(s, c, e).builds[b].status.Passing?
  {
    if Settled(b) in s.log {
      PassingOld(s, c, e, b);
    } else {
      SettledNote(s, c, e, b);
      PassingNew(s, c, e, rank);
    }
  }

  // ---------- the step ----------

  lemma TurnActs(s: State, c: nat, op: Op, rank: Rank)
    requires Healthy(s, rank) && c in s.clients && Enabled(s, s.clients[c], op) && SmoothOp(s, s.clients[c], op)
    ensures Acts(s, c, Plan(s, s.clients[c], op)) && Sound(s, s.clients[c], Plan(s, s.clients[c], op))
  {
    assert ClientOK(s, s.clients[c]) && ClientH(s, s.clients[c]);
    PlanSound(s, s.clients[c], op);
    PlanLawful(s, s.clients[c], op, rank);
  }

  /** The invariants of quiet runs carry over. */
  lemma QuietTurn(s: State, c: nat, op: Op, s': State, rank: Rank)
    requires Healthy(s, rank) && Next(s, Turn(c, op), s') && SmoothOp(s, s.clients[c], op)
    ensures Quiesced(s') && Singles(s') && Thorough(s') && Unapproved(s'.log) && DoneRowsStay(s, s')
  {
    TurnActs(s, c, op, rank);
    var e := Plan(s, s.clients[c], op);
    StaysQuiet(s, c, e);
    StepKeepsQuiet(s, Turn(c, op), s');
    StepKeepsSingles(s, Turn(c, op), s');
    ThoroughStep(s, c, op, s');
    forall id | id in s.stages && s.stages[id].IsDone() ensures id in s'.stages && s'.stages[id] == s.stages[id] {
      DoneKept(s, c, e, id);
    }
  }

  lemma UncancelledKept(s: State, c: nat, e: Effect, rank: Rank)
    requires Acts(s, c, e) && RowsH(s.stages, rank) && ClientQ(s, s.clients[c]) && Uncancelled(s.builds)
    ensures Uncancelled(Apply(s, c, e).builds)
  {
    if Settles(s.clients[c], e) {
      CompletePasses(s, s.clients[c], rank);
    }
  }

  lemma SettledKeptH(s: State, c: nat, e: Effect, rank: Rank)
    requires Fires(s, c, e) && Acts(s, c, e) && RowsH(s.stages, rank) && SettledH(s) && Singles(s)
    ensures SettledH(Apply(s, c, e))
  {
    var s' := Apply(s, c, e);
    assert ClientQ(s, s.clients[c]);
    if e.WriteBuild? && CurrentBuild(s.builds, e.record) && Settles(s.clients[c], e) {
      SettleOnce(s, c, e);
    }
    UncancelledKept(s, c, e, rank);
    forall b | AllDone(s', b) ensures Settled(b) in s'.log || exists d :: Closer(s', d, b) {
      ClosingKept(s, c, e, b, rank);
    }
    forall b | Settled(b) in s'.log ensures b in s'.builds && s'.builds[b].status.Passing? {
      PassingKept(s, c, e, b, rank);
    }
  }

  lemma ClientsKeptH(s: State, c: nat, e: Effect, rank: Rank)
    requires Acts(s, c, e) && Stays1(s, c, e) && RowsH(s.stages, rank) && RowsQ(s) && Uncancelled(s.builds)
    requires forall d :: d in s.clients ==> ClientH(s, s.clients[d])
    ensures forall d :: d in Apply(s, c, e).clients ==> ClientH(Apply(s, c, e), Apply(s, c, e).clients[d])
  {
    var s' := Apply(s, c, e);
    forall d | d in s'.clients ensures ClientH(s', s'.clients[d]) {
      if d == c {
        SelfKeptH(s, c, e, rank);
      } else {
        OtherKeptH(s, c, e, d);
      }
    }
  }

  lemma HealthyTurn(s: State, c: nat, op: Op, s': State, rank: Rank)
    requires Healthy(s, rank) && Next(s, Turn(c, op), s') && SmoothOp(s, s.clients[c], op)
    ensures Healthy(s', rank)
  {
    var e := Plan(s, s.clients[c], op);
    TurnActs(s, c, op, rank);
    QuietTurn(s, c, op, s', rank);
    RowsKeptH(s, c, e, rank);
    OrderedKept(s, c, e, rank);
    assert ClientQ(s, s.clients[c]);
    OwnedKept(s, c, e);
    SettledKeptH(s, c, e, rank);
    ClientsKeptH(s, c, e, rank);
  }

  lemma CreateQuiet(s: State, b: Build, rows: Stages, s': State)
    requires Quiesced(s) && Singles(s) && Thorough(s) && Next(s, Create(b, rows), s')
    ensures Quiesced(s') && Singles(s') && Thorough(s')
  {
    StepKeepsQuiet(s, Create(b, rows), s');
    CreateKeepsSingles(s, b, rows, s');
    CreateKeepsThorough(s, b, rows, s');
  }

  lemma CreateClients(s: State, b: Build, rows: Stages, s': State)
    requires Base(s) && Next(s, Create(b, rows), s') && forall c :: c in s.clients ==> ClientH(s, s.clients[c])
    ensures forall c :: c in s'.clients ==> ClientH(s', s'.clients[c])
  {
    forall c | c in s'.clients ensures ClientH(s', s'.clients[c]) {
      assert ClientH(s, s.clients[c]) && ClientOK(s, s.clients[c]);
    }
  }

  lemma HealthyCreate(s: State, b: Build, rows: Stages, s': State, rank: Rank)
    requires Healthy(s, rank) && Next(s, Create(b, rows), s') && SmoothRows(rows, rank)
    ensures Healthy(s', rank)
  {
    CreateQuiet(s, b, rows, s');
    CreateRows(s, b, rows, s', rank);
    CreateOwned(s, b, rows, s');
    CreateSettled(s, b, rows, s');
    CreateClients(s, b, rows, s');
  }

  lemma CreateRows(s: State, b: Build, rows: Stages, s': State, rank: Rank)
    requires Base(s) && RowsH(s.stages, rank) && Next(s, Create(b, rows), s') && SmoothRows(rows, rank)
    requires Ordered(s) && LogOK(s)
    ensures RowsH(s'.stages, rank) && Ordered(s')
  {
    forall id | id in rows ensures FreshStage(rows[id], id, b.id) {
    }
    forall x, name | x in s'.stages && name in s'.stages[x].dependsOn ensures exists d :: DepOf(s'.stages, d, x) {
      if x in rows {
        var d :| d in rows && rows[d].name == name;
        assert DepOf(s'.stages, d, x);
      } else {
        var d :| DepOf(s.stages, d, x);
        assert DepOf(s'.stages, d, x);
      }
    }
    forall d, x | DepOf(s'.stages, d, x) ensures rank(d) < rank(x) {
      assert x !in rows ==> DepOf(s.stages, d, x);
    }
    forall i | 0 <= i < |s.log| && s.log[i].Finished? ensures s.log[i].stage in s.stages {
      assert EventOK(s, s.log[i]);
    }
  }

  lemma CreateOwned(s: State, b: Build, rows: Stages, s': State)
    requires OwnedH(s) && Next(s, Create(b, rows), s')
    ensures OwnedH(s')
  {
    forall id | id in s'.stages && !s'.stages[id].IsDone() && s'.stages[id].machine != ""
      ensures exists c :: Owner(s', c, id)
    {
      assert id in rows ==> FreshStage(rows[id], id, b.id);
      var c :| Owner(s, c, id);
      assert Owner(s', c, id);
    }
    forall id | HasFinished(s'.log, id) ensures Scheduled(id) in s'.log || exists c :: Owner(s', c, id) {
      if Scheduled(id) !in s.log {
        var c :| Owner(s, c, id);
        assert Owner(s', c, id);
      }
    }
  }

  lemma CreateSettled(s: State, b: Build, rows: Stages, s': State)
    requires Base(s) && SettledH(s) && Next(s, Create(b, rows), s')
    ensures SettledH(s')
  {
    forall id | id in rows ensures FreshStage(rows[id], id, b.id) {
    }
    forall b' | AllDone(s', b') ensures Settled(b') in s'.log || exists c :: Closer(s', c, b') {
      var id :| id in s'.stages && s'.stages[id].buildId == b';
      assert id in s.stages;
      assert AllDone(s, b');
      if Settled(b') !in s.log {
        var c :| Closer(s, c, b');
        assert Closer(s', c, b');
      }
    }
  }

  lemma HealthyServe(s: State, q: QueueOp, s': State, rank: Rank)
    requires Healthy(s, rank) && Served(s, q, s')
    ensures Healthy(s', rank)
  {
    StepKeepsQuiet(s, Serve(q), s');
    StepKeepsSingles(s, Serve(q), s');
    ServeKeepsThorough(s, q, s');
    ServeOwned(s, q, s');
    ServeSettled(s, q, s');
    ServeClients(s, q, s');
  }

  lemma ServeOwned(s: State, q: QueueOp, s': State)
    requires OwnedH(s) && Served(s, q, s')
    ensures OwnedH(s')
  {
    assert forall c, x :: Owner(s, c, x) ==> Owner(s', c, x);
  }

  lemma ServeSettled(s: State, q: QueueOp, s': State)
    requires SettledH(s) && Ordered(s) && Served(s, q, s')
    ensures SettledH(s') && Ordered(s')
  {
    assert forall c, b :: Closer(s, c, b) ==> Closer(s', c, b);
    assert forall b :: AllDone(s', b) ==> AllDone(s, b);
  }

  lemma ServeClients(s: State, q: QueueOp, s': State)
    requires Served(s, q, s') && forall c :: c in s.clients ==> ClientH(s, s.clients[c])
    ensures forall c :: c in s'.clients ==> ClientH(s', s'.clients[c])
  {
    forall c | c in s'.clients ensures ClientH(s', s'.clients[c]) {
      assert ClientH(s, s.clients[c]);
    }
  }

  lemma HealthyStep(s: State, a: Action, s': State, rank: Rank)
    requires Healthy(s, rank) && Next(s, a, s') && Smooth(s, a, rank)
    ensures Healthy(s', rank)
  {
    match a
    case Create(b, rows) => HealthyCreate(s, b, rows, s', rank);
    case Serve(q) => HealthyServe(s, q, s', rank);
    case Turn(c, op) => HealthyTurn(s, c, op, s', rank);
  }

  lemma InitHealthy(s: State, rank: Rank)
    requires Init(s)
    ensures Healthy(s, rank)
  {
    var states, acts: seq<Action> := [s], [];
    assert Run(states, acts);
    QuietRun(states, acts, 0);
    ThoroughRun(states, acts, 0);
    InitProgress(s, rank);
    forall c | c in s.clients ensures ClientH(s, s.clients[c]) {
      assert s.clients[c] == Reset(s.clients[c]);
    }
  }

  lemma InitProgress(s: State, rank: Rank)
    requires Init(s)
    ensures Ordered(s) && Unapproved(s.log) && RowsH(s.stages, rank) && OwnedH(s) && SettledH(s)
  {
    assert s.stages == map[] && s.log == [];
  }

  lemma {:induction false} RunIsHealthy(states: seq<State>, acts: seq<Action>, rank: Rank, n: nat)
    requires SmoothRun(states, acts, rank) && n < |states|
    ensures Healthy(states[n], rank)
  {
    if n == 0 {
      InitHealthy(states[0], rank);
    } else {
      RunIsHealthy(states, acts, rank, n - 1);
      HealthyStep(states[n - 1], acts[n - 1], states[n], rank);
    }
  }

  /** Some smooth run ends in this state. */
  ghost predicate Reachable(s: State, rank: Rank) {
    exists states, acts :: SmoothRun(states, acts, rank) && states[|acts|] == s
  }

  lemma ReachableIsHealthy(s: State, rank: Rank)
    requires Reachable(s, rank)
    ensures Healthy(s, rank)
  {
    var states, acts :| SmoothRun(states, acts, rank) && states[|acts|] == s;
    RunIsHealthy(states, acts, rank, |acts|);
  }

  lemma ReachableNext(s: State, a: Action, s': State, rank: Rank)
    requires Reachable(s, rank) && Next(s, a, s') && Smooth(s, a, rank)
    ensures Reachable(s', rank)
  {
    var states, acts :| SmoothRun(states, acts, rank) && states[|acts|] == s;
    var states', acts' := states + [s'], acts + [a];
    forall i | 0 <= i < |acts'|
      ensures Next(states'[i], acts'[i], states'[i + 1]) && Smooth(states'[i], acts'[i], rank)
    {
      assert i < |acts| ==> states'[i] == states[i] && states'[i + 1] == states[i + 1] && acts'[i] == acts[i];
    }
    assert SmoothRun(states', acts', rank) && states'[|acts'|] == s';
  }
}
