/** How the rows of the two tables change: over every run, a change of a stage row or a
    build row is one of the moves listed here, column by column. */
module Moves {
  import opened Core
  import opened Store
  import opened Protocol
  import opened Claim
  import opened Final
  import Deps

  // ---------- stages ----------

  /** What the operation of a client makes of a stage row that it changes, and what it
      logs. */
  ghost predicate StageMove(cl: Client, op: Op, r: Stage, r': Stage, note: seq<Event>) {
    match op
    case Poll(AcceptCommit(now)) =>
      && r.machine == "" && note == [Accepted(r.id)]
      && r' == r.(machine := cl.machine, status := Pending, updated := now, version := r.version + 1)
    case Poll(SetupCommit(now)) =>
      && note == [Began(r.id)]
      && r' == r.(machine := cl.machine, status := Running, started := now, updated := now, version := r.version + 1)
    case Report(FinishCommit(now)) =>
      && cl.outcome in {Passing, Failing, Errored} && note == [Finished(r.id, now)]
      && r' == r.(status := cl.outcome, stopped := now, updated := now, version := r.version + 1)
    case Report(Skip(now)) =>
      && r.status == Waiting && !(if cl.failed then r.onFailure else r.onSuccess) && note == [SkipMarked(r.id)]
      && r' == r.(status := Skipped, started := now, stopped := now, version := r.version + 1)
    case Report(Release(now)) =>
      && r.status == Waiting && note == [Released(r.id, cl.task)]
      && r' == r.(status := Pending, updated := now, version := r.version + 1)
    case Kill(CancelStage(now)) =>
      && r.status in {Waiting, Blocked, Pending, Running} && note == [CancelMarked(r.id)]
      && r' == if r.started != 0 then r.(status := Killed, stopped := now, version := r.version + 1)
               else r.(status := Skipped, started := now, stopped := now, version := r.version + 1)
    case Review(ApproveCommit) =>
      r.status == Blocked && r' == r.(status := Pending, version := r.version + 1) && note == [Approved(r.id)]
    case Review(DeclineCommit) =>
      r.status == Blocked && r' == r.(status := Declined, version := r.version + 1) && note == []
    case _ => false
  }

  /** The effect writes row id. */
  ghost predicate Wins(s: State, e: Effect, id: int) {
    e.WriteStage? && Current(s.stages, e.change) && e.change.id == id
  }

  lemma PollMove(s: State, cl: Client, op: PollOp, r: Stage)
    requires PollEnabled(s, cl, op) && PollPlan(s, cl, op).WriteStage? && PhaseOK(cl)
    requires PollPlan(s, cl, op).base == r
    ensures StageMove(cl, Poll(op), r, Bump(PollPlan(s, cl, op).change), PollPlan(s, cl, op).wonNote)
  {
  }

  lemma ReportMove(s: State, cl: Client, op: ReportOp, r: Stage)
    requires ReportEnabled(s, cl, op) && ReportPlan(s, cl, op).WriteStage? && PhaseOK(cl)
    requires ReportPlan(s, cl, op).base == r
    ensures StageMove(cl, Report(op), r, Bump(ReportPlan(s, cl, op).change), ReportPlan(s, cl, op).wonNote)
  {
  }

  lemma KillMove(s: State, cl: Client, op: KillOp, r: Stage)
    requires KillEnabled(s, cl, op) && KillPlan(s, cl, op).WriteStage? && KillPlan(s, cl, op).base == r
    ensures StageMove(cl, Kill(op), r, Bump(KillPlan(s, cl, op).change), KillPlan(s, cl, op).wonNote)
  {
  }

  lemma ReviewMove(s: State, cl: Client, op: ReviewOp, r: Stage)
    requires ReviewEnabled(s, cl, op) && ReviewPlan(s, cl, op).WriteStage? && PhaseOK(cl)
    requires ReviewPlan(s, cl, op).base == r
    ensures StageMove(cl, Review(op), r, Bump(ReviewPlan(s, cl, op).change), ReviewPlan(s, cl, op).wonNote)
  {
  }

  lemma PlanMove(s: State, cl: Client, op: Op, r: Stage)
    requires Enabled(s, cl, op) && Plan(s, cl, op).WriteStage? && PhaseOK(cl) && Plan(s, cl, op).base == r
    ensures StageMove(cl, op, r, Bump(Plan(s, cl, op).change), Plan(s, cl, op).wonNote)
  {
    match op
    case Poll(p) => PollMove(s, cl, p, r);
    case Report(p) => ReportMove(s, cl, p, r);
    case Kill(k) => KillMove(s, cl, k, r);
    case Review(v) => ReviewMove(s, cl, v, r);
    case Abort =>
  }

  lemma TurnMove(s: State, c: nat, op: Op, id: int)
    requires Base(s) && c in s.clients && Enabled(s, s.clients[c], op) && id in s.stages
    ensures var s' := Apply(s, c, Plan(s, s.clients[c], op));
      && id in s'.stages && s.log <= s'.log
      && (s'.stages[id] == s.stages[id]
          || StageMove(s.clients[c], op, s.stages[id], s'.stages[id], s'.log[|s.log|..]))
  {
    var cl, e := s.clients[c], Plan(s, s.clients[c], op);
    assert ClientOK(s, cl);
    if Wins(s, e, id) {
      PlanWellFormed(s, cl, op);
      BaseIsRow(s, c, e);
      PlanMove(s, cl, op, s.stages[id]);
      WinnerRow(s, c, e, id);
    }
  }

  lemma WinnerRow(s: State, c: nat, e: Effect, id: int)
    requires Wins(s, e, id) && e.base == s.stages[id] && SameKey(e.base, e.change)
    ensures Apply(s, c, e).stages[id] == Bump(e.change) && Apply(s, c, e).log[|s.log|..] == e.wonNote
  {
  }

  /** Over every run, a step leaves a stage row alone or makes one of the moves. */
  lemma StageMoves(states: seq<State>, acts: seq<Action>, n: nat, id: int)
    requires Run(states, acts) && n < |acts| && id in states[n].stages
    ensures id in states[n + 1].stages && states[n].log <= states[n + 1].log
    ensures
      || states[n + 1].stages[id] == states[n].stages[id]
      || (&& acts[n].Turn? && acts[n].c in states[n].clients
          && StageMove(states[n].clients[acts[n].c], acts[n].op, states[n].stages[id], states[n + 1].stages[id],
                       states[n + 1].log[|states[n].log|..]))
  {
    RunKeepsInv(states, acts, n);
    if acts[n].Turn? {
      TurnMove(states[n], acts[n].c, acts[n].op, id);
    }
  }

  // ---------- builds ----------

  ghost predicate BuildMove(cl: Client, op: Op, b: Build, b': Build, note: seq<Event>) {
    match op
    case Poll(UpdateBuild(now)) =>
      && b.status == Pending && note == [Announced(b.id)]
      && b' == b.(status := Running, started := now, updated := now, version := b.version + 1)
    case Report(Settle(now)) =>
      && (forall r :: r in cl.list ==> r.status !in {Waiting, Blocked, Declined, Pending, Running})
      && Deps.Decides(cl.list, b'.status) && note == [Settled(b.id)]
      && b' == b.(status := b'.status, finished := now, version := b.version + 1)
    case Kill(CancelBuild(now)) =>
      && b.status in {Pending, Running} && note == []
      && b' == b.(status := Killed, finished := now, started := if b.started == 0 then now else b.started,
                  version := b.version + 1)
    case Review(DeclineBuild) => b' == b.(status := Declined, version := b.version + 1) && note == []
    case _ => false
  }

  /** A cancel goes on only with a build that was pending or running when it read it. */
  ghost predicate ReadOpen(cl: Client) {
    cl.phase.CancelRead? ==> cl.build.Some? && UnfinishedStatus(cl.build.value.status)
  }

  ghost predicate Readers(s: State) {
    forall c :: c in s.clients ==> ReadOpen(s.clients[c])
  }

  lemma PlanReads(s: State, cl: Client, op: Op)
    requires Enabled(s, cl, op) && ReadOpen(cl)
    ensures var e := Plan(s, cl, op);
      match e
      case Local(next, _) => ReadOpen(next)
      case WriteStage(_, _, won, lost, _, _) => ReadOpen(won) && ReadOpen(lost)
      case WriteBuild(_, won, lost, _) => ReadOpen(won) && ReadOpen(lost)
  {
  }

  lemma StepReads(s: State, a: Action, s': State)
    requires Readers(s) && Next(s, a, s')
    ensures Readers(s')
  {
    if a.Turn? {
      assert ReadOpen(s.clients[a.c]);
      PlanReads(s, s.clients[a.c], a.op);
    }
    forall c | c in s'.clients ensures ReadOpen(s'.clients[c]) {
      assert c in s.clients ==> ReadOpen(s.clients[c]);
    }
  }

  lemma {:induction false} RunReads(states: seq<State>, acts: seq<Action>, n: nat)
    requires Run(states, acts) && n < |states|
    ensures Readers(states[n])
  {
    if n == 0 {
      assert forall c :: c in states[0].clients ==> states[0].clients[c] == Reset(states[0].clients[c]);
    } else {
      RunReads(states, acts, n - 1);
      StepReads(states[n - 1], acts[n - 1], states[n]);
    }
  }

  lemma PlanBuildMove(s: State, cl: Client, op: Op)
    requires Enabled(s, cl, op) && Plan(s, cl, op).WriteBuild? && ReadOpen(cl)
    ensures cl.build.Some?
    ensures var e := Plan(s, cl, op);
      BuildMove(cl, op, cl.build.value, e.record.(version := e.record.version + 1), e.wonNote)
  {
    Deps.VerdictDecides(cl.list);
  }

  lemma TurnBuildMove(s: State, c: nat, op: Op, id: int)
    requires Base(s) && Readers(s) && c in s.clients && Enabled(s, s.clients[c], op) && id in s.builds
    ensures var s' := Apply(s, c, Plan(s, s.clients[c], op));
      && id in s'.builds && s.log <= s'.log
      && (s'.builds[id] == s.builds[id]
          || BuildMove(s.clients[c], op, s.builds[id], s'.builds[id], s'.log[|s.log|..]))
  {
    var cl, e := s.clients[c], Plan(s, s.clients[c], op);
    assert ClientOK(s, cl) && ReadOpen(cl);
    if e.WriteBuild? && CurrentBuild(s.builds, e.record) && e.record.id == id {
      PlanWellFormed(s, cl, op);
      PlanBuildMove(s, cl, op);
      assert Apply(s, c, e).log[|s.log|..] == e.wonNote;
    }
  }

  /** Likewise for build rows. */
  lemma BuildMoves(states: seq<State>, acts: seq<Action>, n: nat, id: int)
    requires Run(states, acts) && n < |acts| && id in states[n].builds
    ensures id in states[n + 1].builds && states[n].log <= states[n + 1].log
    ensures
      || states[n + 1].builds[id] == states[n].builds[id]
      || (&& acts[n].Turn? && acts[n].c in states[n].clients
          && BuildMove(states[n].clients[acts[n].c], acts[n].op, states[n].builds[id], states[n + 1].builds[id],
                       states[n + 1].log[|states[n].log|..]))
  {
    RunKeepsInv(states, acts, n);
    RunReads(states, acts, n);
    if acts[n].Turn? {
      TurnBuildMove(states[n], acts[n].c, acts[n].op, id);
    }
  }

  // ---------- what a cancel kills ----------

  /** The clock of a setup does not read zero. */
  ghost predicate Clocked(acts: seq<Action>) {
    forall i :: 0 <= i < |acts| && acts[i].Turn? && acts[i].op.Poll? && acts[i].op.poll.SetupCommit? ==>
      acts[i].op.poll.now != 0
  }

  /** The stage has not been finished up to state n. */
  ghost predicate Unfinished(states: seq<State>, n: nat, id: int) {
    forall m :: 0 <= m <= n < |states| && id in states[m].stages ==>
      states[m].stages[id].status in {Waiting, Blocked, Pending, Running}
  }

  /** A setup is logged by the write that wins the row. */
  lemma BeganWins(s: State, c: nat, e: Effect, id: int)
    requires Base(s) && c in s.clients && WellFormed(s, s.clients[c], e) && Noted(s.clients[c], e)
    requires Began(id) in Apply(s, c, e).log && Began(id) !in s.log
    ensures Wins(s, e, id)
  {
    assert e.WriteStage? && Current(s.stages, e.change);
    BaseIsRow(s, c, e);
  }

  lemma BeganMoves(s: State, c: nat, op: Op, id: int)
    requires Base(s) && c in s.clients && Enabled(s, s.clients[c], op) && id in s.stages
    requires var s' := Apply(s, c, Plan(s, s.clients[c], op)); Began(id) in s'.log && Began(id) !in s.log
    ensures Apply(s, c, Plan(s, s.clients[c], op)).stages[id] != s.stages[id]
  {
    assert ClientOK(s, s.clients[c]);
    PlanWellFormed(s, s.clients[c], op);
    PlanNoted(s, s.clients[c], op);
    BeganWins(s, c, Plan(s, s.clients[c], op), id);
    WonChanges(s, c, Plan(s, s.clients[c], op), id);
  }

  /** Of the moves that leave a stage unfinished, the setup alone sets its start time. */
  lemma MoveStarts(cl: Client, op: Op, r: Stage, r': Stage, note: seq<Event>)
    requires StageMove(cl, op, r, r', note) && r'.status in {Waiting, Blocked, Pending, Running}
    requires op.Poll? && op.poll.SetupCommit? ==> op.poll.now != 0
    ensures r'.started != 0 <==> r.started != 0 || Began(r.id) in note
  {
  }

  lemma TurnStarted(s: State, c: nat, op: Op, id: int, s': State)
    requires Base(s) && Next(s, Turn(c, op), s') && id in s.stages && id in s'.stages
    requires op.Poll? && op.poll.SetupCommit? ==> op.poll.now != 0
    requires s.stages[id].started != 0 <==> Began(id) in s.log
    requires s'.stages[id].status in {Waiting, Blocked, Pending, Running}
    ensures s'.stages[id].started != 0 <==> Began(id) in s'.log
  {
    TurnMove(s, c, op, id);
    var note := s'.log[|s.log|..];
    assert s'.log == s.log + note;
    if s'.stages[id] != s.stages[id] {
      MoveStarts(s.clients[c], op, s.stages[id], s'.stages[id], note);
    } else if Began(id) in s'.log && Began(id) !in s.log {
      BeganMoves(s, c, op, id);
      assert false;
    }
  }

  lemma WonChanges(s: State, c: nat, e: Effect, id: int)
    requires Wins(s, e, id) && id in s.stages
    ensures Apply(s, c, e).stages[id] != s.stages[id]
  {
    assert Apply(s, c, e).stages[id].version == s.stages[id].version + 1;
  }

  lemma CreateStarted(s: State, b: Build, rows: Stages, s': State, id: int)
    requires Inv(s) && Next(s, Create(b, rows), s') && id in s'.stages
    requires id in s.stages ==> (s.stages[id].started != 0 <==> Began(id) in s.log)
    ensures s'.stages[id].started != 0 <==> Began(id) in s'.log
  {
    if id in rows {
      assert FreshStage(rows[id], id, b.id);
      assert Began(id) in s.log ==> EventOK(s, Began(id));
    }
  }

  /** Over every run, a stage that has not been finished has a start time exactly if its
      setup has committed. */
  lemma {:induction false} StartedIffBegan(states: seq<State>, acts: seq<Action>, n: nat, id: int)
    requires Run(states, acts) && Clocked(acts) && n < |states| && id in states[n].stages && Unfinished(states, n, id)
    ensures states[n].stages[id].started != 0 <==> Began(id) in states[n].log
  {
    if n > 0 {
      var s, a, s' := states[n - 1], acts[n - 1], states[n];
      RunKeepsInv(states, acts, n - 1);
      if id in s.stages {
        StartedIffBegan(states, acts, n - 1, id);
      }
      match a
      case Create(b, rows) => CreateStarted(s, b, rows, s', id);
      case Serve(_) =>
      case Turn(c, op) => TurnStarted(s, c, op, id, s');
    }
  }

  /** What a cancel does to a stage that has not been finished before, in every run: killed
      if its setup has committed, skipped if not. */
  lemma CancelKillsWhatBegan(states: seq<State>, acts: seq<Action>, n: nat, id: int)
    requires Run(states, acts) && Clocked(acts) && n < |acts| && id in states[n].stages && Unfinished(states, n, id)
    requires acts[n].Turn? && acts[n].op.Kill?
    ensures id in states[n + 1].stages
    ensures states[n + 1].stages[id] != states[n].stages[id] ==>
              states[n + 1].stages[id].status == if Began(id) in states[n].log then Killed else Skipped
  {
    StageMoves(states, acts, n, id);
    StartedIffBegan(states, acts, n, id);
  }

  // ---------- killed builds ----------

  /** A runner that will not set its stage running: it found the build killed or skipped,
      or is past that point without a setup. */
  ghost predicate Stopped(cl: Client) {
    || (cl.phase.Inspected? && cl.build.Some? && cl.build.value.status in {Killed, Skipped})
    || cl.phase.Finishing? || cl.phase.FinishRead? || Reported(cl.phase)
  }

  /** The stage is assigned, and whoever holds it has stopped. */
  ghost predicate NeverBegins(s: State, id: int) {
    && id in s.stages && s.stages[id].machine != "" && Began(id) !in s.log
    && (forall c :: c in s.clients && Busy(s.clients[c].phase) && s.clients[c].task == id ==> Stopped(s.clients[c]))
  }

  ghost predicate StaysStopped(next: Client) {
    Busy(next.phase) ==> Stopped(next)
  }

  lemma PollStops(s: State, cl: Client, op: PollOp)
    requires PollEnabled(s, cl, op) && Stopped(cl)
    ensures var e := PollPlan(s, cl, op); e.Local? && e.note == [] && StaysStopped(e.next)
  {
  }

  lemma ReportStops(s: State, cl: Client, op: ReportOp)
    requires ReportEnabled(s, cl, op) && Stopped(cl)
    ensures var e := ReportPlan(s, cl, op);
      match e
      case Local(next, note) => StaysStopped(next) && forall id :: Began(id) !in note
      case WriteStage(_, _, won, lost, wonNote, lostNote) =>
        StaysStopped(won) && StaysStopped(lost) && forall id :: Began(id) !in wonNote && Began(id) !in lostNote
      case WriteBuild(_, won, lost, wonNote) =>
        StaysStopped(won) && StaysStopped(lost) && forall id :: Began(id) !in wonNote
  {
  }

  /** The operation of a client that has stopped. */
  lemma StoppedTurn(s: State, c: nat, op: Op)
    requires c in s.clients && Enabled(s, s.clients[c], op) && Stopped(s.clients[c])
    ensures var s' := Apply(s, c, Plan(s, s.clients[c], op));
      StaysStopped(s'.clients[c]) && forall id :: Began(id) in s'.log ==> Began(id) in s.log
  {
    match op
    case Poll(p) => PollStops(s, s.clients[c], p);
    case Report(r) => ReportStops(s, s.clients[c], r);
    case Kill(_) =>
    case Review(_) =>
    case Abort =>
  }

  /** The operation of a client that works on something else. */
  lemma OtherTurn(s: State, c: nat, e: Effect, id: int)
    requires Base(s) && c in s.clients && WellFormed(s, s.clients[c], e) && Noted(s.clients[c], e)
    requires NeverBegins(s, id) && !(Busy(s.clients[c].phase) && s.clients[c].task == id)
    ensures var s' := Apply(s, c, e);
      !(Busy(s'.clients[c].phase) && s'.clients[c].task == id) && Began(id) !in s'.log
  {
    assert ClientOK(s, s.clients[c]);
    if e.WriteStage? && Current(s.stages, e.change) {
      BaseIsRow(s, c, e);
    }
  }

  lemma StaysAssigned(s: State, c: nat, e: Effect, id: int)
    requires Base(s) && c in s.clients && WellFormed(s, s.clients[c], e) && id in s.stages && s.stages[id].machine != ""
    ensures id in Apply(s, c, e).stages && Apply(s, c, e).stages[id].machine != ""
  {
    if e.WriteStage? && Current(s.stages, e.change) {
      BaseIsRow(s, c, e);
    }
  }

  lemma NeverBeginsTurn(s: State, c: nat, op: Op, id: int)
    requires Base(s) && c in s.clients && Enabled(s, s.clients[c], op) && NeverBegins(s, id)
    ensures NeverBegins(Apply(s, c, Plan(s, s.clients[c], op)), id)
  {
    var cl, e := s.clients[c], Plan(s, s.clients[c], op);
    assert ClientOK(s, cl);
    PlanWellFormed(s, cl, op);
    PlanNoted(s, cl, op);
    StaysAssigned(s, c, e, id);
    if Busy(cl.phase) && cl.task == id {
      StoppedTurn(s, c, op);
    } else {
      OtherTurn(s, c, e, id);
    }
    NeverBeginsAfter(s, c, e, id);
  }

  lemma NeverBeginsAfter(s: State, c: nat, e: Effect, id: int)
    requires NeverBegins(s, id) && c in s.clients && id in Apply(s, c, e).stages
    requires Apply(s, c, e).stages[id].machine != "" && Began(id) !in Apply(s, c, e).log
    requires Busy(Apply(s, c, e).clients[c].phase) && Apply(s, c, e).clients[c].task == id ==>
               Stopped(Apply(s, c, e).clients[c])
    ensures NeverBegins(Apply(s, c, e), id)
  {
  }

  lemma {:induction false} NeverBeginsAlong(states: seq<State>, acts: seq<Action>, m: nat, n: nat, id: int)
    requires Run(states, acts) && m <= n < |states| && NeverBegins(states[m], id)
    ensures NeverBegins(states[n], id)
  {
    if m < n {
      var s, a := states[n - 1], acts[n - 1];
      NeverBeginsAlong(states, acts, m, n - 1, id);
      RunKeepsInv(states, acts, n - 1);
      NeverBeginsStep(s, a, states[n], id);
    }
  }

  lemma NeverBeginsStep(s: State, a: Action, s': State, id: int)
    requires Base(s) && NeverBegins(s, id) && Next(s, a, s')
    ensures NeverBegins(s', id)
  {
    if a.Turn? {
      NeverBeginsTurn(s, a.c, a.op, id);
    }
  }

  /** Over every run: a stage whose runner found the build killed or skipped is never set
      up, by that runner or by another. */
  lemma KilledNeverBegins(states: seq<State>, acts: seq<Action>, m: nat, n: nat, c: nat)
    requires Run(states, acts) && m <= n < |states| && c in states[m].clients && states[m].clients[c].phase.Inspected?
    requires states[m].clients[c].build.Some? && states[m].clients[c].build.value.status in {Killed, Skipped}
    ensures Began(states[m].clients[c].task) !in states[n].log
  {
    var s, id := states[m], states[m].clients[c].task;
    RunKeepsInv(states, acts, m);
    assert ClientOK(s, s.clients[c]);
    assert Began(id) in s.log ==> EventOK(s, Began(id));
    NeverBeginsAlong(states, acts, m, n, id);
  }
}
