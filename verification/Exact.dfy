/** Exactly one release: when stamps are ordered like the commits, the last
    dependency to commit releases the downstream stage. */
module Exact {
  import opened Core
  import opened Store
  import opened Protocol
  import opened Claim
  import opened Final
  import opened Release
  import opened Single
  import opened Deps

  ghost predicate FinishedAt(log: seq<Event>, i: int, id: int) {
    0 <= i < |log| && log[i].Finished? && log[i].stage == id
  }

  /** d finishes after a in the log, or has not finished. */
  ghost predicate After(log: seq<Event>, d: int, a: int) {
    forall i, j :: FinishedAt(log, i, d) && FinishedAt(log, j, a) ==> i > j
  }

  ghost predicate HasFinished(log: seq<Event>, id: int) {
    exists i :: FinishedAt(log, i, id)
  }

  /** Some dependency of x rules out a release by a. */
  ghost predicate RuledOut(s: State, a: int, x: int) {
    exists d :: Excuse(s, d, a, x)
  }

  ghost predicate Excuse(s: State, d: int, a: int, x: int) {
    && DepOf(s.stages, d, x) && a in s.stages && s.stages[a].IsDone()
    && (After(s.log, d, a) || (s.stages[d].IsDone() && Deps.Later(s.stages[d], s.stages[a])))
  }

  /** If x still waits, a dependency excuses a for not having released it. */
  ghost predicate Checked(s: State, a: int, x: int) {
    DepOf(s.stages, a, x) && s.stages[x].status.Waiting? ==> RuledOut(s, a, x)
  }

  // ---------- waiting rows are untouched rows ----------

  ghost predicate Young(s: State) {
    forall id :: id in s.stages && s.stages[id].status.Waiting? ==> s.stages[id].version == 1
  }

  /** How a stage with dependencies leaves the waiting state. */
  ghost predicate Origin(s: State, x: int)
    requires x in s.stages
  {
    var r := s.stages[x];
    |r.dependsOn| == 0 || r.status.Waiting? || r.status.Blocked? || r.status.Declined?
    || (exists a :: Released(x, a) in s.log) || Approved(x) in s.log
  }

  ghost predicate Origins(s: State) {
    forall x :: x in s.stages ==> Origin(s, x)
  }

  // ---------- what a sweep has checked ----------

  ghost predicate Progress(s: State, cl: Client) {
    && (Swept(cl.phase) ==>
          forall k :: 0 <= k < |cl.list| && !cl.list[k].IsDone() ==> After(s.log, cl.list[k].id, cl.task))
    && (cl.phase.Releasing? ==> forall k :: 0 <= k < |cl.list| && k < cl.i ==> Checked(s, cl.task, cl.list[k].id))
  }

  ghost predicate Thorough(s: State) {
    && Young(s) && Origins(s)
    && (forall c :: c in s.clients ==> Progress(s, s.clients[c]))
    && (forall a, x :: Scheduled(a) in s.log ==> Checked(s, a, x))
    && (forall a :: Scheduled(a) in s.log ==> HasFinished(s.log, a))
  }

  // ---------- records stay true ----------

  lemma AfterKept(s: State, s': State, note: seq<Event>, d: int, a: int)
    requires s'.log == s.log + note && |note| <= 1 && LogOK(s') && HasFinished(s.log, a) && After(s.log, d, a)
    ensures After(s'.log, d, a)
  {
    var i0 :| FinishedAt(s.log, i0, a);
    assert s'.log[i0] == s.log[i0];
    forall i, j | FinishedAt(s'.log, i, d) && FinishedAt(s'.log, j, a) ensures i > j {
      assert j == |s.log| ==> Clash(s'.log[i0], s'.log[j]);
      assert FinishedAt(s.log, j, a);
      assert i < |s.log| ==> FinishedAt(s.log, i, d);
    }
  }

  ghost predicate Moves1(s: State, c: nat, e: Effect, s': State) {
    Fires(s, c, e) && s' == Apply(s, c, e) && Inv(s')
  }

  lemma ExcuseKept(s: State, c: nat, e: Effect, s': State, d: int, a: int, x: int)
    requires Moves1(s, c, e, s') && Excuse(s, d, a, x) && HasFinished(s.log, a)
    ensures Excuse(s', d, a, x)
  {
    NoteShape(s, c, e);
    KeysKept(s, c, e, d);
    KeysKept(s, c, e, x);
    DoneKept(s, c, e, a);
    if After(s.log, d, a) {
      AfterKept(s, s', NoteOf(s, e), d, a);
    } else {
      DoneKept(s, c, e, d);
    }
  }

  /** No write turns a row into a waiting one. */
  lemma NoNewWaiting(s: State, c: nat, e: Effect, s': State, x: int)
    requires Moves1(s, c, e, s') && x in s'.stages && s'.stages[x].status.Waiting?
    ensures x in s.stages && s.stages[x] == s'.stages[x]
  {
    if e.WriteStage? && Current(s.stages, e.change) {
      BaseIsRow(s, c, e);
      QuietMoves(s, c, e);
    }
  }

  lemma CheckedKept(s: State, c: nat, e: Effect, s': State, a: int, x: int)
    requires Moves1(s, c, e, s') && Checked(s, a, x) && HasFinished(s.log, a)
    ensures Checked(s', a, x)
  {
    if DepOf(s'.stages, a, x) && s'.stages[x].status.Waiting? {
      NoNewWaiting(s, c, e, s', x);
      KeysKept(s, c, e, a);
      assert DepOf(s.stages, a, x);
      var d :| Excuse(s, d, a, x);
      ExcuseKept(s, c, e, s', d, a, x);
    }
  }

  lemma FinishedKept(s: State, c: nat, e: Effect, s': State, a: int)
    requires Moves1(s, c, e, s') && HasFinished(s.log, a)
    ensures HasFinished(s'.log, a)
  {
    NoteShape(s, c, e);
    var i :| FinishedAt(s.log, i, a);
    assert FinishedAt(s'.log, i, a);
  }

  lemma InLog(log: seq<Event>, id: int, stamp: int)
    requires Finished(id, stamp) in log
    ensures HasFinished(log, id)
  {
    var i :| 0 <= i < |log| && log[i] == Finished(id, stamp);
    assert FinishedAt(log, i, id);
  }

  // ---------- a sweep checks what it passes over ----------

  /** A waiting stage the release loop passes over is excused. */
  lemma PassedOver(s: State, cl: Client)
    requires Quiesced(s) && Young(s) && ClientOK(s, cl) && ClientQ(s, cl) && Progress(s, cl)
    requires cl.phase.Releasing? && cl.i < |cl.list|
    requires !Deps.MustRelease(cl.copy.value, cl.list[cl.i], cl.list)
    ensures Checked(s, cl.task, cl.list[cl.i].id)
  {
    var next := cl.list[cl.i];
    assert CopyOK(s.stages, next);
    if DepOf(s.stages, cl.task, next.id) && s.stages[next.id].status.Waiting? {
      assert next == s.stages[next.id];
      var k: nat;
      if !Deps.DepsComplete(next, cl.list) {
        var r :| r in cl.list && Deps.IsDep(r, next) && !r.IsDone();
        k :| k < |cl.list| && cl.list[k] == r;
      } else {
        var r :| r in cl.list && Deps.IsDep(r, next) && Deps.Later(r, cl.copy.value);
        k :| k < |cl.list| && cl.list[k] == r;
      }
      assert CopyOK(s.stages, cl.list[k]);
      assert Excuse(s, cl.list[k].id, cl.task, next.id);
    }
  }

  /** How the release loop advances, and when it reports its end. */
  ghost predicate Tracks(cl: Client, e: Effect) {
    match e
    case Local(next, note) =>
      && (next.phase.Releasing? ==>
            || (cl.phase.Skipping? && next.i == 0)
            || (cl.phase.Releasing? && cl.i < |cl.list| && next == Next1(cl) && cl.copy.Some?
                && !Deps.MustRelease(cl.copy.value, cl.list[cl.i], cl.list)))
      && (note == [] || (cl.phase.Releasing? && cl.i >= |cl.list| && note == [Scheduled(cl.task)]))
    case _ => true
  }

  lemma PlanTracks(s: State, cl: Client, op: Op)
    requires PhaseOK(cl) && Enabled(s, cl, op)
    ensures Tracks(cl, Plan(s, cl, op))
  {
    match op
    case Poll(p) => assert Tracks(cl, PollPlan(s, cl, p));
    case Report(r) => assert Tracks(cl, ReportPlan(s, cl, r));
    case Kill(k) => assert Tracks(cl, KillPlan(s, cl, k));
    case Review(v) => assert Tracks(cl, ReviewPlan(s, cl, v));
    case Abort =>
  }

  ghost predicate Turns(s: State, c: nat, e: Effect, s': State) {
    Moves1(s, c, e, s') && Thorough(s) && Tracks(s.clients[c], e)
  }

  /** What a client has checked stays checked under any operation. */
  lemma ProgressKept(s: State, c: nat, e: Effect, s': State, cl: Client)
    requires Moves1(s, c, e, s') && ClientQ(s, cl) && Progress(s, cl)
    ensures Progress(s', cl)
  {
    if Swept(cl.phase) {
      InLog(s.log, cl.task, cl.copy.value.updated);
      NoteShape(s, c, e);
      forall k | 0 <= k < |cl.list| && !cl.list[k].IsDone() ensures After(s'.log, cl.list[k].id, cl.task) {
        AfterKept(s, s', NoteOf(s, e), cl.list[k].id, cl.task);
      }
      if cl.phase.Releasing? {
        forall k | 0 <= k < |cl.list| && k < cl.i ensures Checked(s', cl.task, cl.list[k].id) {
          CheckedKept(s, c, e, s', cl.task, cl.list[k].id);
        }
      }
    }
  }

  lemma UnfinishedAfter(s: State, d: int, a: int)
    requires LogOK(s) && d in s.stages && !s.stages[d].IsDone()
    ensures After(s.log, d, a)
  {
    forall i ensures !FinishedAt(s.log, i, d) {
      assert 0 <= i < |s.log| ==> EventOK(s, s.log[i]);
    }
  }

  lemma ProgressLocal(s: State, c: nat, e: Effect, s': State)
    requires Turns(s, c, e, s') && e.Local?
    ensures Progress(s', e.next)
  {
    var cl := s.clients[c];
    assert ClientOK(s, cl) && ClientQ(s, cl);
    ProgressKept(s, c, e, s', cl);
    if cl.phase.Listing? && Swept(e.next.phase) {
      forall k | 0 <= k < |e.next.list| && !e.next.list[k].IsDone()
        ensures After(s'.log, e.next.list[k].id, cl.task)
      {
        UnfinishedAfter(s', e.next.list[k].id, cl.task);
      }
    } else if cl.phase.Releasing? && e.next.phase.Releasing? {
      PassedOver(s, cl);
      InLog(s.log, cl.task, cl.copy.value.updated);
      CheckedKept(s, c, e, s', cl.task, cl.list[cl.i].id);
    }
  }

  /** Whoever wins, the row of a released stage no longer waits. */
  lemma NoLongerWaits(s: State, c: nat, e: Effect, s': State)
    requires Turns(s, c, e, s') && e.WriteStage? && ReleasesOne(s.clients[c], e.base, e.change)
    ensures e.base.id in s'.stages && !s'.stages[e.base.id].status.Waiting?
  {
    assert ClientOK(s, s.clients[c]);
    assert CopyOK(s.stages, e.base);
  }

  /** Overwriting the current record by an unfinished one of the same stage and
      moving on, once that stage is checked. */
  lemma ProgressMark(s: State, cl: Client, k: Stage)
    requires Progress(s, cl) && cl.phase.Releasing? && cl.i < |cl.list| && !cl.list[cl.i].IsDone()
    requires k.id == cl.list[cl.i].id && Checked(s, cl.task, k.id)
    ensures Progress(s, Next1(cl.(list := cl.list[cl.i := k])))
  {
  }

  lemma ProgressRelease(s: State, c: nat, e: Effect, s': State)
    requires Turns(s, c, e, s') && e.WriteStage? && ReleasesOne(s.clients[c], e.base, e.change)
    ensures Progress(s', s'.clients[c])
  {
    var cl := s.clients[c];
    assert ClientQ(s, cl);
    ProgressKept(s, c, e, s', cl);
    NoLongerWaits(s, c, e, s');
    assert e.change.id == e.base.id;
    ProgressMark(s', cl, e.change);
    ProgressMark(s', cl, Bump(e.change));
    QuietMoves(s, c, e);
  }

  lemma ProgressSelf(s: State, c: nat, e: Effect, s': State)
    requires Turns(s, c, e, s')
    ensures Progress(s', s'.clients[c])
  {
    match e
    case Local(_, _) => ProgressLocal(s, c, e, s');
    case WriteStage(base, change, _, _, _, _) =>
      if ReleasesOne(s.clients[c], base, change) {
        ProgressRelease(s, c, e, s');
      } else {
        QuietMoves(s, c, e);
      }
    case WriteBuild(_, _, _, _) =>
  }

  /** A write either leaves a waiting or blocked row in a logged way, or starts
      from a row that has left it. */
  lemma OriginWritten(s: State, c: nat, e: Effect, s': State)
    requires Turns(s, c, e, s') && e.WriteStage? && Current(s.stages, e.change) && e.change.id in s'.stages
    ensures Origin(s', e.change.id)
  {
    var x := e.change.id;
    assert ClientOK(s, s.clients[c]) && Origin(s, x) && RowQ(s, x);
    BaseIsRow(s, c, e);
    QuietMoves(s, c, e);
    assert forall ev :: ev in s.log ==> ev in s'.log;
    if ReleasesOne(s.clients[c], e.base, e.change) {
      assert s'.log[|s.log|] == Released(x, s.clients[c].task);
    } else if e.wonNote != [] {
      assert s'.log[|s.log|] == e.wonNote[0];
    }
  }

  lemma OriginKept(s: State, c: nat, e: Effect, s': State, x: int)
    requires Turns(s, c, e, s') && x in s'.stages
    ensures Origin(s', x)
  {
    if e.WriteStage? && Current(s.stages, e.change) && e.change.id == x {
      OriginWritten(s, c, e, s');
    } else {
      assert Origin(s, x);
      NoteShape(s, c, e);
      assert forall ev :: ev in s.log ==> ev in s'.log;
    }
  }

  lemma ScheduledKept(s: State, c: nat, e: Effect, s': State, a: int)
    requires Turns(s, c, e, s') && Scheduled(a) in s'.log
    ensures HasFinished(s'.log, a) && forall x :: Checked(s', a, x)
  {
    if Scheduled(a) in s.log {
      FinishedKept(s, c, e, s', a);
      forall x ensures Checked(s', a, x) {
        CheckedKept(s, c, e, s', a, x);
      }
    } else {
      ScheduledNew(s, c, e, s', a);
    }
  }

  lemma ScheduledNew(s: State, c: nat, e: Effect, s': State, a: int)
    requires Turns(s, c, e, s') && Scheduled(a) in s'.log && Scheduled(a) !in s.log
    ensures HasFinished(s'.log, a) && forall x :: Checked(s', a, x)
  {
    ThroughIsChecked(s, c, e, s', a);
    FinishedKept(s, c, e, s', a);
    forall x ensures Checked(s', a, x) {
      CheckedKept(s, c, e, s', a, x);
    }
  }

  /** A client that leaves the release loop has checked everything downstream. */
  lemma ThroughIsChecked(s: State, c: nat, e: Effect, s': State, a: int)
    requires Turns(s, c, e, s') && Scheduled(a) in s'.log && Scheduled(a) !in s.log
    ensures HasFinished(s.log, a) && forall x :: Checked(s, a, x)
  {
    var cl := s.clients[c];
    assert ClientOK(s, cl) && ClientQ(s, cl) && Progress(s, cl);
    NoteShape(s, c, e);
    if e.WriteStage? {
      QuietMoves(s, c, e);
    }
    assert a == cl.task;
    InLog(s.log, a, cl.copy.value.updated);
    forall x ensures Checked(s, a, x) {
      if DepOf(s.stages, a, x) {
        var k :| 0 <= k < |cl.list| && cl.list[k].id == x;
      }
    }
  }

  // ---------- the step ----------

  lemma RowsStayThorough(s: State, c: nat, e: Effect, s': State)
    requires Turns(s, c, e, s')
    ensures Young(s') && Origins(s')
  {
    forall id | id in s'.stages && s'.stages[id].status.Waiting? ensures s'.stages[id].version == 1 {
      NoNewWaiting(s, c, e, s', id);
    }
    forall x | x in s'.stages ensures Origin(s', x) {
      OriginKept(s, c, e, s', x);
    }
  }

  lemma ClientProgress(s: State, c: nat, e: Effect, s': State, d: nat)
    requires Turns(s, c, e, s') && d in s'.clients
    ensures Progress(s', s'.clients[d])
  {
    if d == c {
      ProgressSelf(s, c, e, s');
    } else {
      OtherProgress(s, c, e, s', d);
    }
  }

  lemma OtherProgress(s: State, c: nat, e: Effect, s': State, d: nat)
    requires Turns(s, c, e, s') && d in s.clients && d != c
    ensures d in s'.clients && Progress(s', s'.clients[d])
  {
    assert ClientQ(s, s.clients[d]);
    ProgressKept(s, c, e, s', s.clients[d]);
  }

  lemma EffectKeepsThorough(s: State, c: nat, e: Effect, s': State)
    requires Turns(s, c, e, s')
    ensures Thorough(s')
  {
    RowsStayThorough(s, c, e, s');
    forall d | d in s'.clients ensures Progress(s', s'.clients[d]) {
      ClientProgress(s, c, e, s', d);
    }
    forall a | Scheduled(a) in s'.log ensures HasFinished(s'.log, a) && forall x :: Checked(s', a, x) {
      ScheduledKept(s, c, e, s', a);
    }
  }

  /** New rows belong to a new build, so no old stage depends on them. */
  lemma CheckedGrows(s: State, b: Build, rows: Stages, s': State, a: int, x: int)
    requires Base(s) && Next(s, Create(b, rows), s') && Checked(s, a, x) && a in s.stages
    ensures Checked(s', a, x)
  {
    forall id | id in rows ensures rows[id].buildId == b.id {
      assert FreshStage(rows[id], id, b.id);
    }
    if DepOf(s'.stages, a, x) && s'.stages[x].status.Waiting? {
      assert DepOf(s.stages, a, x);
      var d :| Excuse(s, d, a, x);
      assert Excuse(s', d, a, x);
    }
  }

  lemma CreateKeepsThorough(s: State, b: Build, rows: Stages, s': State)
    requires Quiesced(s) && Thorough(s) && Next(s, Create(b, rows), s')
    ensures Thorough(s')
  {
    forall id | id in rows ensures FreshStage(rows[id], id, b.id) {
    }
    forall x | x in s'.stages ensures Origin(s', x) {
      assert x in s.stages ==> Origin(s, x);
    }
    forall a, x | Scheduled(a) in s'.log ensures Checked(s', a, x) {
      var i :| FinishedAt(s.log, i, a);
      assert EventOK(s, s.log[i]);
      CheckedGrows(s, b, rows, s', a, x);
    }
    forall c | c in s'.clients ensures Progress(s', s'.clients[c]) {
      var cl := s.clients[c];
      assert Progress(s, cl) && ClientQ(s, cl);
      if cl.phase.Releasing? {
        forall k | 0 <= k < |cl.list| && k < cl.i ensures Checked(s', cl.task, cl.list[k].id) {
          CheckedGrows(s, b, rows, s', cl.task, cl.list[k].id);
        }
      }
    }
  }

  lemma ServeKeepsThorough(s: State, q: QueueOp, s': State)
    requires Thorough(s) && Served(s, q, s')
    ensures Thorough(s')
  {
    forall x | x in s'.stages ensures Origin(s', x) {
      assert Origin(s, x);
    }
    forall a, x | Checked(s, a, x) ensures Checked(s', a, x) {
      if DepOf(s.stages, a, x) && s.stages[x].status.Waiting? {
        var d :| Excuse(s, d, a, x);
        assert Excuse(s', d, a, x);
      }
    }
    forall c | c in s'.clients ensures Progress(s', s'.clients[c]) {
      assert Progress(s, s.clients[c]);
    }
  }

  lemma {:induction false} ThoroughRun(states: seq<State>, acts: seq<Action>, n: nat)
    requires Run(states, acts) && n < |states| && Quiet(states[n].log)
    ensures Thorough(states[n])
  {
    if n == 0 {
      assert forall c :: c in states[0].clients ==> states[0].clients[c] == Reset(states[0].clients[c]);
    } else {
      var s, a, s' := states[n - 1], acts[n - 1], states[n];
      QuietPrefix(states, acts, n - 1, n);
      QuietRun(states, acts, n - 1);
      ThoroughRun(states, acts, n - 1);
      match a
      case Create(b, rows) => CreateKeepsThorough(s, b, rows, s');
      case Serve(q) => ServeKeepsThorough(s, q, s');
      case Turn(c, op) => ThoroughStep(s, c, op, s');
    }
  }

  lemma ThoroughStep(s: State, c: nat, op: Op, s': State)
    requires Quiesced(s) && Thorough(s) && Next(s, Turn(c, op), s') && Quiet(s'.log)
    ensures Thorough(s')
  {
    StepKeepsInv(s, Turn(c, op), s');
    assert ClientOK(s, s.clients[c]);
    PlanSound(s, s.clients[c], op);
    PlanTracks(s, s.clients[c], op);
    EffectKeepsThorough(s, c, Plan(s, s.clients[c], op), s');
  }

  // ---------- the theorem ----------

  /** Among the stages of one build, later commits carry larger stamps. */
  ghost predicate Ordered(s: State) {
    forall i, j :: 0 <= i < j < |s.log| && s.log[i].Finished? && s.log[j].Finished?
      && s.log[i].stage in s.stages && s.log[j].stage in s.stages
      && s.stages[s.log[i].stage].buildId == s.stages[s.log[j].stage].buildId
      ==> s.log[i].stamp < s.log[j].stamp
  }

  /** The position of the last dependency of x to finish. */
  lemma {:induction false} LastPosition(s: State, x: int, n: nat) returns (a: int, i: nat)
    requires n <= |s.log| && exists d, k :: DepOf(s.stages, d, x) && k < n && FinishedAt(s.log, k, d)
    ensures DepOf(s.stages, a, x) && i < n && FinishedAt(s.log, i, a)
    ensures forall d, k :: DepOf(s.stages, d, x) && k < n && FinishedAt(s.log, k, d) ==> k <= i
  {
    var d, k :| DepOf(s.stages, d, x) && k < n && FinishedAt(s.log, k, d);
    if s.log[n - 1].Finished? && DepOf(s.stages, s.log[n - 1].stage, x) {
      a, i := s.log[n - 1].stage, n - 1;
    } else {
      assert k < n - 1;
      a, i := LastPosition(s, x, n - 1);
    }
  }

  lemma StampIsUpdated(s: State, i: nat, id: int)
    requires Singles(s) && FinishedAt(s.log, i, id)
    ensures id in s.stages && s.log[i].stamp == s.stages[id].updated
  {
    assert NoteOK(s, s.log[i]);
  }

  /** The last dependency to finish is not ruled out by any other. */
  lemma LastNotRuledOut(s: State, a: int, x: int, i: nat)
    requires Inv(s) && Singles(s) && Ordered(s) && DepOf(s.stages, a, x) && FinishedAt(s.log, i, a)
    requires forall d :: DepOf(s.stages, d, x) ==> HasFinished(s.log, d)
    requires forall d, k :: DepOf(s.stages, d, x) && k < |s.log| && FinishedAt(s.log, k, d) ==> k <= i
    ensures !RuledOut(s, a, x)
  {
    forall d ensures !Excuse(s, d, a, x) {
      if DepOf(s.stages, d, x) {
        var k :| FinishedAt(s.log, k, d);
        assert k <= i;
        StampIsUpdated(s, k, d);
        StampIsUpdated(s, i, a);
      }
    }
  }

  /** Dependency order without serialised teardowns: in every quiet run, however the
      teardowns interleave, a stage that has left the waiting state by a release, or
      never waited, has all its dependencies done. */
  lemma QuietOrder(states: seq<State>, acts: seq<Action>, n: nat, d: int, x: int)
    requires Run(states, acts) && n < |states| && Quiet(states[n].log) && DepOf(states[n].stages, d, x)
    requires Approved(x) !in states[n].log
    requires var r := states[n].stages[x]; !r.status.Waiting? && !r.status.Blocked? && !r.status.Declined?
    ensures states[n].stages[d].IsDone()
  {
    var s := states[n];
    QuietRun(states, acts, n);
    ThoroughRun(states, acts, n);
    assert Origin(s, x);
    assert s.stages[d].name in s.stages[x].dependsOn;
    var a :| Released(x, a) in s.log;
    assert NoteOK(s, Released(x, a));
  }

  /** Once every dependency has finished and its teardown has left the release loop,
      the stage does not wait: the last of them has released it. */
  lemma NotForgotten(s: State, x: int)
    requires Inv(s) && Singles(s) && Thorough(s) && Ordered(s) && exists d :: DepOf(s.stages, d, x)
    requires forall d :: DepOf(s.stages, d, x) ==> HasFinished(s.log, d) && Scheduled(d) in s.log
    ensures x in s.stages && !s.stages[x].status.Waiting?
  {
    var d :| DepOf(s.stages, d, x);
    var k :| FinishedAt(s.log, k, d);
    var a, i := LastPosition(s, x, |s.log|);
    LastNotRuledOut(s, a, x, i);
    assert Checked(s, a, x);
  }

  /** Exactly one release: in a quiet run whose stamps are ordered like the
      commits, once every dependency of a stage created waiting has finished and
      its teardown has left the release loop, exactly one release of that stage
      is in the log and the stage no longer waits. */
  lemma ExactlyOneRelease(states: seq<State>, acts: seq<Action>, n: nat, x: int)
    requires Run(states, acts) && n < |states| && Quiet(states[n].log) && Ordered(states[n])
    requires x in states[n].stages && !states[n].stages[x].status.Blocked? && !states[n].stages[x].status.Declined?
    requires Approved(x) !in states[n].log
    requires exists d :: DepOf(states[n].stages, d, x)
    requires forall d :: DepOf(states[n].stages, d, x) ==>
               HasFinished(states[n].log, d) && Scheduled(d) in states[n].log
    ensures exists a :: Released(x, a) in states[n].log
    ensures !states[n].stages[x].status.Waiting?
    ensures forall i, j :: 0 <= i < j < |states[n].log| && states[n].log[i].Released? && states[n].log[j].Released?
              ==> states[n].log[i].target != states[n].log[j].target
  {
    var s := states[n];
    QuietRun(states, acts, n);
    ThoroughRun(states, acts, n);
    NotForgotten(s, x);
    var d :| DepOf(s.stages, d, x);
    assert Origin(s, x) && s.stages[d].name in s.stages[x].dependsOn;
  }
}
