/** At most one release per downstream stage and one final status per build, over
    every quiet run of overlapping teardowns. */
module Single {
  import opened Core
  import opened Store
  import opened Protocol
  import opened Claim
  import opened Final
  import opened Release
  import opened Deps
  import Serial

  /** What a release of x by the teardown of a records: all dependencies of x are
      done and none is later than a. */
  ghost predicate ReleasedOK(s: State, x: int, a: int) {
    && DepOf(s.stages, a, x) && s.stages[a].IsDone()
    && (exists stamp :: Finished(a, stamp) in s.log)
    && (forall d :: DepOf(s.stages, d, x) ==> s.stages[d].IsDone() && !Deps.Later(s.stages[d], s.stages[a]))
  }

  /** What a final build status records: every stage is done, and every teardown
      that has committed its stage holds an outdated build. */
  ghost predicate SettledOK(s: State, b: int) {
    && b in s.builds
    && (forall id :: id in s.stages && s.stages[id].buildId == b ==> s.stages[id].IsDone())
    && (forall c :: c in s.clients ==> Outdated(s, s.clients[c], b))
  }

  ghost predicate Outdated(s: State, cl: Client, b: int)
    requires b in s.builds
  {
    Reported(cl.phase) && cl.build.Some? && cl.build.value.id == b ==> cl.build.value.version < s.builds[b].version
  }

  ghost predicate NoteOK(s: State, ev: Event) {
    match ev
    case Released(x, a) => ReleasedOK(s, x, a)
    case Settled(b) => SettledOK(s, b)
    case Finished(id, stamp) => id in s.stages && s.stages[id].IsDone() && s.stages[id].updated == stamp
    case _ => true
  }

  /** A teardown never returns to a stage it has released. */
  ghost predicate Forward(s: State, cl: Client) {
    Reported(cl.phase) ==>
      forall x :: Released(x, cl.task) in s.log ==>
        cl.phase.Closing? || (cl.phase.Releasing? && forall j :: cl.i <= j < |cl.list| ==> cl.list[j].id != x)
  }

  ghost predicate Twice(a: Event, b: Event) {
    || (a.Released? && b.Released? && a.target == b.target)
    || (a.Settled? && b.Settled? && a.build == b.build)
  }

  ghost predicate Singles(s: State) {
    && (forall ev :: ev in s.log ==> NoteOK(s, ev))
    && (forall c :: c in s.clients ==> Forward(s, s.clients[c]))
    && (forall i, j :: 0 <= i < j < |s.log| ==> !Twice(s.log[i], s.log[j]))
  }

  // ---------- records stay true ----------

  lemma KeysKept(s: State, c: nat, e: Effect, id: int)
    requires Base(s) && c in s.clients && WellFormed(s, s.clients[c], e)
    ensures id in Apply(s, c, e).stages <==> id in s.stages
    ensures id in s.stages ==> SameKey(s.stages[id], Apply(s, c, e).stages[id])
  {
    if e.WriteStage? && Current(s.stages, e.change) {
      BaseIsRow(s, c, e);
    }
  }

  lemma ReleasedKept(s: State, c: nat, e: Effect, x: int, a: int)
    requires Fires(s, c, e) && ReleasedOK(s, x, a)
    ensures ReleasedOK(Apply(s, c, e), x, a)
  {
    var s' := Apply(s, c, e);
    KeysKept(s, c, e, x);
    KeysKept(s, c, e, a);
    DoneKept(s, c, e, a);
    var stamp :| Finished(a, stamp) in s.log;
    assert Finished(a, stamp) in s'.log;
    forall d | DepOf(s'.stages, d, x) ensures s'.stages[d].IsDone() && !Deps.Later(s'.stages[d], s'.stages[a]) {
      KeysKept(s, c, e, d);
      assert DepOf(s.stages, d, x);
      DoneKept(s, c, e, d);
    }
  }

  lemma SettledRows(s: State, c: nat, e: Effect, b: int)
    requires Fires(s, c, e) && SettledOK(s, b)
    ensures forall id :: id in Apply(s, c, e).stages && Apply(s, c, e).stages[id].buildId == b
              ==> Apply(s, c, e).stages[id].IsDone()
  {
    var s' := Apply(s, c, e);
    forall id | id in s'.stages && s'.stages[id].buildId == b ensures s'.stages[id].IsDone() {
      KeysKept(s, c, e, id);
      DoneKept(s, c, e, id);
    }
  }

  /** A client that reports after the write was already reporting, unless the
      write is its own report of an unfinished row. */
  lemma ReporterBefore(s: State, c: nat, e: Effect)
    requires Fires(s, c, e) && Reported(Apply(s, c, e).clients[c].phase)
    ensures var cl := s.clients[c];
      var cl' := Apply(s, c, e).clients[c];
      && cl'.build == cl.build && cl'.task == cl.task
      && (Reported(cl.phase)
          || (cl.phase.FinishRead? && cl'.phase.Listing? && cl.task in s.stages && !s.stages[cl.task].IsDone()
              && cl.build.Some? && s.stages[cl.task].buildId == cl.build.value.id))
  {
    var cl := s.clients[c];
    assert ClientOK(s, cl);
    if e.WriteStage? {
      QuietMoves(s, c, e);
      if !ReleasesOne(cl, e.base, e.change) && Current(s.stages, e.change) {
        BaseIsRow(s, c, e);
        if s.stages[e.change.id].IsDone() {
          DoneKept(s, c, e, e.change.id);
          assert false;
        }
      }
    }
  }

  lemma SettledKept(s: State, c: nat, e: Effect, b: int)
    requires Fires(s, c, e) && SettledOK(s, b)
    ensures SettledOK(Apply(s, c, e), b)
  {
    SettledRows(s, c, e, b);
    SettledSelf(s, c, e, b);
    var s' := Apply(s, c, e);
    forall d | d in s'.clients ensures Outdated(s', s'.clients[d], b) {
      assert d != c ==> Outdated(s, s.clients[d], b);
    }
  }

  lemma SettledSelf(s: State, c: nat, e: Effect, b: int)
    requires Fires(s, c, e) && SettledOK(s, b)
    ensures b in Apply(s, c, e).builds && Apply(s, c, e).builds[b].version >= s.builds[b].version
    ensures Outdated(Apply(s, c, e), Apply(s, c, e).clients[c], b)
  {
    assert Outdated(s, s.clients[c], b);
    if Reported(Apply(s, c, e).clients[c].phase) {
      ReporterBefore(s, c, e);
    }
  }

  lemma NoteKept(s: State, c: nat, e: Effect, ev: Event)
    requires Fires(s, c, e) && NoteOK(s, ev)
    ensures NoteOK(Apply(s, c, e), ev)
  {
    match ev
    case Released(x, a) => ReleasedKept(s, c, e, x, a);
    case Settled(b) => SettledKept(s, c, e, b);
    case Finished(id, _) => DoneKept(s, c, e, id);
    case _ =>
  }

  // ---------- new records ----------

  /** Passing every test on the list means what the tests say about the rows. */
  lemma ReleaseRecord(s: State, cl: Client)
    requires Quiesced(s) && ClientOK(s, cl) && ClientQ(s, cl) && cl.phase.Releasing? && cl.i < |cl.list|
    requires Deps.MustRelease(cl.copy.value, cl.list[cl.i], cl.list)
    ensures ReleasedOK(s, cl.list[cl.i].id, cl.task)
  {
    var next := cl.list[cl.i];
    assert CopyOK(s.stages, next) && CopyOK(s.stages, cl.copy.value);
    forall d | DepOf(s.stages, d, next.id)
      ensures s.stages[d].IsDone() && !Deps.Later(s.stages[d], s.stages[cl.task])
    {
      var j :| 0 <= j < |cl.list| && cl.list[j].id == d;
      assert CopyOK(s.stages, cl.list[j]);
      assert cl.list[j] in cl.list && Deps.IsDep(cl.list[j], next);
    }
  }

  lemma SettleRecord(s: State, c: nat, e: Effect)
    requires Fires(s, c, e) && e.WriteBuild? && CurrentBuild(s.builds, e.record)
    requires |e.wonNote| == 1 && e.wonNote[0].Settled?
    ensures SettledOK(Apply(s, c, e), e.wonNote[0].build)
  {
    var cl := s.clients[c];
    assert ClientOK(s, cl) && ClientQ(s, cl);
    forall id | id in s.stages && s.stages[id].buildId == e.record.id ensures s.stages[id].IsDone() {
      var j :| 0 <= j < |cl.list| && cl.list[j].id == id;
      assert cl.list[j] in cl.list;
    }
    forall d | d in s.clients ensures ClientOK(s, s.clients[d]) {
    }
  }

  /** Two releases of the same stage come from the same teardown. */
  lemma SameReleaser(s: State, x: int, a: int, b: int)
    requires Rows(s) && Numbers(s.stages) && ReleasedOK(s, x, a) && ReleasedOK(s, x, b)
    ensures a == b
  {
    assert DepOf(s.stages, a, x) && DepOf(s.stages, b, x);
  }

  // ---------- no teardown goes back ----------

  /** A release is logged in the name of the client's own task. */
  lemma ReleaseIsOwn(s: State, c: nat, e: Effect, x: int, dep: int)
    requires Fires(s, c, e) && Released(x, dep) in Apply(s, c, e).log && Released(x, dep) !in s.log
    ensures Reported(s.clients[c].phase) && s.clients[c].task == dep
  {
    NoteShape(s, c, e);
    assert Released(x, dep) in NoteOf(s, e);
    if e.WriteStage? {
      QuietMoves(s, c, e);
    }
  }

  lemma ForwardOther(s: State, c: nat, e: Effect, d: nat)
    requires Fires(s, c, e) && d in s.clients && d != c && Forward(s, s.clients[d])
    ensures Forward(Apply(s, c, e), s.clients[d])
  {
    var cl := s.clients[d];
    forall x | Released(x, cl.task) in Apply(s, c, e).log && Reported(cl.phase)
      ensures Released(x, cl.task) in s.log
    {
      if Released(x, cl.task) !in s.log {
        ReleaseIsOwn(s, c, e, x, cl.task);
      }
    }
  }

  lemma ForwardRelease(s: State, c: nat, e: Effect)
    requires Fires(s, c, e) && e.WriteStage? && ReleasesOne(s.clients[c], e.base, e.change)
    requires Forward(s, s.clients[c])
    ensures Forward(Apply(s, c, e), Apply(s, c, e).clients[c])
  {
    var s' := Apply(s, c, e);
    var cl := s.clients[c];
    var cl' := s'.clients[c];
    QuietMoves(s, c, e);
    assert ClientOK(s, cl) && ClientQ(s, cl);
    forall x, j | Released(x, cl'.task) in s'.log && cl'.i <= j < |cl'.list| ensures cl'.list[j].id != x {
      assert Released(x, cl.task) in s.log || x == cl.list[cl.i].id;
    }
  }

  /** A runner that has not reported has released nothing. */
  lemma Unreleased(s: State, c: nat)
    requires Inv(s) && c in s.clients && Working(s.clients[c].phase) && forall ev :: ev in s.log ==> NoteOK(s, ev)
    ensures forall x :: Released(x, s.clients[c].task) !in s.log
  {
    forall stamp ensures Finished(s.clients[c].task, stamp) !in s.log {
      assert Finished(s.clients[c].task, stamp) in s.log ==> EventOK(s, Finished(s.clients[c].task, stamp));
    }
    forall x ensures Released(x, s.clients[c].task) !in s.log {
      assert Released(x, s.clients[c].task) in s.log ==> NoteOK(s, Released(x, s.clients[c].task));
    }
  }

  lemma ForwardSelf(s: State, c: nat, e: Effect)
    requires Fires(s, c, e) && Forward(s, s.clients[c]) && forall ev :: ev in s.log ==> NoteOK(s, ev)
    ensures Forward(Apply(s, c, e), Apply(s, c, e).clients[c])
  {
    var s' := Apply(s, c, e);
    var cl := s.clients[c];
    var cl' := s'.clients[c];
    if e.WriteStage? && ReleasesOne(cl, e.base, e.change) {
      ForwardRelease(s, c, e);
    } else if Reported(cl'.phase) {
      ReporterBefore(s, c, e);
      assert ClientOK(s, cl);
      if !Reported(cl.phase) {
        Unreleased(s, c);
        QuietMoves(s, c, e);
      }
    }
  }

  // ---------- the step ----------

  lemma ReleaseOnce(s: State, cl: Client)
    requires Quiesced(s) && Singles(s) && ClientOK(s, cl) && ClientQ(s, cl) && Forward(s, cl)
    requires cl.phase.Releasing? && cl.i < |cl.list| && Deps.MustRelease(cl.copy.value, cl.list[cl.i], cl.list)
    ensures forall a :: Released(cl.list[cl.i].id, a) !in s.log
  {
    ReleaseRecord(s, cl);
    var x := cl.list[cl.i].id;
    forall a ensures Released(x, a) !in s.log {
      if Released(x, a) in s.log {
        assert NoteOK(s, Released(x, a));
        SameReleaser(s, x, a, cl.task);
      }
    }
  }

  lemma SettleOnce(s: State, c: nat, e: Effect)
    requires Fires(s, c, e) && Singles(s) && e.WriteBuild? && CurrentBuild(s.builds, e.record)
    requires s.clients[c].phase.Closing?
    ensures Settled(e.record.id) !in s.log
  {
    assert ClientOK(s, s.clients[c]);
    assert Settled(e.record.id) in s.log ==> NoteOK(s, Settled(e.record.id)) && Outdated(s, s.clients[c], e.record.id);
  }

  lemma NewNote(s: State, c: nat, e: Effect, ev: Event)
    requires Fires(s, c, e) && Singles(s)
    requires e.WriteStage? && ev in (if Current(s.stages, e.change) then e.wonNote else e.lostNote)
    ensures NoteOK(Apply(s, c, e), ev)
    ensures forall ev0 :: ev0 in s.log ==> !Twice(ev0, ev)
  {
    if ReleasesOne(s.clients[c], e.base, e.change) {
      NewRelease(s, c, e, ev);
    } else {
      assert ClientOK(s, s.clients[c]);
      QuietMoves(s, c, e);
      if Current(s.stages, e.change) {
        BaseIsRow(s, c, e);
      }
    }
  }

  lemma NewRelease(s: State, c: nat, e: Effect, ev: Event)
    requires Fires(s, c, e) && Singles(s)
    requires e.WriteStage? && ev in (if Current(s.stages, e.change) then e.wonNote else e.lostNote)
    requires ReleasesOne(s.clients[c], e.base, e.change)
    ensures NoteOK(Apply(s, c, e), ev)
    ensures forall ev0 :: ev0 in s.log ==> !Twice(ev0, ev)
  {
    var cl := s.clients[c];
    assert ClientOK(s, cl) && ClientQ(s, cl) && Forward(s, cl);
    ReleaseRecord(s, cl);
    ReleaseOnce(s, cl);
    NoteKept(s, c, e, Released(e.base.id, cl.task));
  }

  lemma NewSettle(s: State, c: nat, e: Effect, ev: Event)
    requires Fires(s, c, e) && Singles(s)
    requires e.WriteBuild? && CurrentBuild(s.builds, e.record) && ev in e.wonNote
    ensures NoteOK(Apply(s, c, e), ev)
    ensures forall ev0 :: ev0 in s.log ==> !Twice(ev0, ev)
  {
    if ev.Settled? {
      SettleRecord(s, c, e);
      SettleOnce(s, c, e);
    }
  }

  /** The event an operation logs, if any, is justified and new. */
  lemma FreshNote(s: State, c: nat, e: Effect)
    requires Fires(s, c, e) && Singles(s) && |NoteOf(s, e)| == 1
    ensures NoteOK(Apply(s, c, e), NoteOf(s, e)[0])
    ensures forall ev0 :: ev0 in s.log ==> !Twice(ev0, NoteOf(s, e)[0])
  {
    if e.WriteStage? {
      NewNote(s, c, e, NoteOf(s, e)[0]);
    } else if e.WriteBuild? {
      NewSettle(s, c, e, NoteOf(s, e)[0]);
    }
  }

  lemma NotesAfter(s: State, s': State, note: seq<Event>)
    requires s'.log == s.log + note && |note| <= 1 && forall i, j :: 0 <= i < j < |s.log| ==> !Twice(s.log[i], s.log[j])
    requires forall ev :: ev in s.log ==> NoteOK(s', ev)
    requires |note| == 1 ==> NoteOK(s', note[0]) && forall ev0 :: ev0 in s.log ==> !Twice(ev0, note[0])
    ensures forall ev :: ev in s'.log ==> NoteOK(s', ev)
    ensures forall i, j :: 0 <= i < j < |s'.log| ==> !Twice(s'.log[i], s'.log[j])
  {
  }

  ghost function NoteOf(s: State, e: Effect): seq<Event> {
    match e
    case Local(_, note) => note
    case WriteStage(_, change, _, _, wonNote, lostNote) => if Current(s.stages, change) then wonNote else lostNote
    case WriteBuild(record, _, _, wonNote) => if CurrentBuild(s.builds, record) then wonNote else []
  }

  lemma NoteShape(s: State, c: nat, e: Effect)
    requires c in s.clients && Noted(s.clients[c], e)
    ensures Apply(s, c, e).log == s.log + NoteOf(s, e) && |NoteOf(s, e)| <= 1
    ensures e.Local? && NoteOf(s, e) != [] ==> NoteOf(s, e)[0].Scheduled?
  {
  }

  lemma EffectKeepsSingles(s: State, c: nat, e: Effect)
    requires Fires(s, c, e) && Singles(s)
    ensures Singles(Apply(s, c, e))
  {
    var s' := Apply(s, c, e);
    NoteShape(s, c, e);
    forall ev | ev in s.log ensures NoteOK(s', ev) {
      NoteKept(s, c, e, ev);
    }
    if |NoteOf(s, e)| == 1 {
      FreshNote(s, c, e);
    }
    NotesAfter(s, s', NoteOf(s, e));
    forall d | d in s'.clients ensures Forward(s', s'.clients[d]) {
      if d == c {
        ForwardSelf(s, c, e);
      } else {
        ForwardOther(s, c, e, d);
      }
    }
  }

  lemma CreateKeepsSingles(s: State, b: Build, rows: Stages, s': State)
    requires Quiesced(s) && Singles(s) && Next(s, Create(b, rows), s')
    ensures Singles(s')
  {
    forall id | id in rows ensures rows[id].buildId == b.id {
      assert FreshStage(rows[id], id, b.id);
    }
    forall ev | ev in s'.log ensures NoteOK(s', ev) {
      assert NoteOK(s, ev);
      if ev.Released? {
        forall d | DepOf(s'.stages, d, ev.target) ensures DepOf(s.stages, d, ev.target) {
        }
      } else if ev.Settled? {
        forall c | c in s'.clients ensures Outdated(s', s'.clients[c], ev.build) {
          assert Outdated(s, s.clients[c], ev.build);
        }
      }
    }
    forall c | c in s'.clients ensures Forward(s', s'.clients[c]) {
      assert Forward(s, s.clients[c]);
    }
  }

  lemma ServeKeepsSingles(s: State, q: QueueOp, s': State)
    requires Singles(s) && Served(s, q, s')
    ensures Singles(s')
  {
    forall ev | ev in s'.log ensures NoteOK(s', ev) {
      assert NoteOK(s, ev);
      assert ev.Settled? ==> forall c :: c in s.clients ==> Outdated(s, s.clients[c], ev.build);
    }
    forall c | c in s'.clients ensures Forward(s', s'.clients[c]) {
      assert Forward(s, s.clients[c]);
    }
  }

  lemma StepKeepsSingles(s: State, a: Action, s': State)
    requires Quiesced(s) && Singles(s) && Next(s, a, s') && Quiet(s'.log)
    ensures Singles(s')
  {
    match a
    case Create(b, rows) => CreateKeepsSingles(s, b, rows, s');
    case Serve(q) => ServeKeepsSingles(s, q, s');
    case Turn(c, op) =>
      assert ClientOK(s, s.clients[c]);
      PlanSound(s, s.clients[c], op);
      EffectKeepsSingles(s, c, Plan(s, s.clients[c], op));
  }

  lemma {:induction false} QuietPrefix(states: seq<State>, acts: seq<Action>, m: nat, n: nat)
    requires Run(states, acts) && m <= n < |states| && Quiet(states[n].log)
    ensures Quiet(states[m].log)
    decreases n - m
  {
    if m == n {
    } else {
      QuietPrefix(states, acts, m + 1, n);
      LogGrows(states[m], acts[m], states[m + 1]);
      assert forall ev :: ev in states[m].log ==> ev in states[m + 1].log;
    }
  }

  lemma {:induction false} QuietRun(states: seq<State>, acts: seq<Action>, n: nat)
    requires Run(states, acts) && n < |states| && Quiet(states[n].log)
    ensures Quiesced(states[n]) && Singles(states[n])
  {
    if n == 0 {
      RunKeepsInv(states, acts, 0);
      QuietStart(states[0]);
    } else {
      QuietPrefix(states, acts, n - 1, n);
      QuietRun(states, acts, n - 1);
      QuietStep(states[n - 1], acts[n - 1], states[n]);
    }
  }

  lemma QuietStart(s: State)
    requires Init(s) && Inv(s)
    ensures Quiesced(s) && Singles(s)
  {
    assert forall c :: c in s.clients ==> s.clients[c] == Reset(s.clients[c]);
  }

  lemma QuietStep(s: State, a: Action, s': State)
    requires Quiesced(s) && Singles(s) && Next(s, a, s') && Quiet(s'.log)
    ensures Quiesced(s') && Singles(s')
  {
    StepKeepsQuiet(s, a, s');
    StepKeepsSingles(s, a, s');
  }

  // ---------- theorems ----------

  /** Single release: however the teardowns of a quiet run interleave, at most one
      of them passes every test for a given downstream stage, and it does so once. */
  lemma SingleRelease(states: seq<State>, acts: seq<Action>, n: nat)
    requires Run(states, acts) && n < |states| && Quiet(states[n].log)
    ensures forall i, j :: 0 <= i < j < |states[n].log| && states[n].log[i].Released? && states[n].log[j].Released?
              ==> states[n].log[i].target != states[n].log[j].target
  {
    QuietRun(states, acts, n);
  }

  /** At most one teardown of a quiet run commits the final status of a build,
      and from then on every stage of the build is done. */
  lemma SingleSettlement(states: seq<State>, acts: seq<Action>, n: nat)
    requires Run(states, acts) && n < |states| && Quiet(states[n].log)
    ensures forall i, j :: 0 <= i < j < |states[n].log| && states[n].log[i].Settled? && states[n].log[j].Settled?
              ==> states[n].log[i].build != states[n].log[j].build
    ensures forall b, id :: Settled(b) in states[n].log && id in states[n].stages && states[n].stages[id].buildId == b
              ==> states[n].stages[id].IsDone()
  {
    QuietRun(states, acts, n);
    forall b, id | Settled(b) in states[n].log && id in states[n].stages && states[n].stages[id].buildId == b
      ensures states[n].stages[id].IsDone()
    {
      assert NoteOK(states[n], Settled(b));
    }
  }

  /** A list of finished records is the listing of its build. */
  lemma {:induction false} FinishedListing(rows: Stages, b: int, list: seq<Stage>)
    requires ListQ(rows, b, list) && BuildComplete(list) && forall id :: id in rows ==> rows[id].id == id
    ensures IsListing(rows, b, list)
  {
    forall j | 0 <= j < |list| ensures list[j].IsDone() {
      assert list[j] in list;
    }
  }

  lemma SettlesByRows(s: State, c: nat, e: Effect, b: int)
    requires Fires(s, c, e) && Settled(b) in Apply(s, c, e).log && Settled(b) !in s.log
    requires e.WriteBuild? && e.record.status == Verdict(s.clients[c].list)
    ensures Over(s.stages, b) && Apply(s, c, e).stages == s.stages && b in Apply(s, c, e).builds
    ensures DecidesRows(s.stages, b, Apply(s, c, e).builds[b].status)
  {
    var cl := s.clients[c];
    assert ClientOK(s, cl) && ClientQ(s, cl);
    assert CurrentBuild(s.builds, e.record) && e.wonNote == [Settled(b)];
    FinishedListing(s.stages, cl.build.value.id, cl.list);
    Serial.ListedVerdict(s.stages, cl.build.value.id, cl.list);
  }

  /** The final status of a build, over every quiet run of overlapping teardowns: the step
      that settles it finds every stage over, and stores passing if no stage was killed,
      failed or met an error, and otherwise the status of the oldest that did. */
  lemma SettledVerdict(states: seq<State>, acts: seq<Action>, n: nat, b: int)
    requires Run(states, acts) && n < |acts| && Quiet(states[n + 1].log)
    requires Settled(b) in states[n + 1].log && Settled(b) !in states[n].log
    ensures Over(states[n].stages, b) && states[n + 1].stages == states[n].stages && b in states[n + 1].builds
    ensures DecidesRows(states[n].stages, b, states[n + 1].builds[b].status)
  {
    QuietPrefix(states, acts, n, n + 1);
    QuietRun(states, acts, n);
    SettlingStep(states[n], acts[n], states[n + 1], b);
  }

  lemma SettlingStep(s: State, a: Action, s': State, b: int)
    requires Quiesced(s) && Next(s, a, s') && Quiet(s'.log) && Settled(b) in s'.log && Settled(b) !in s.log
    ensures Over(s.stages, b) && s'.stages == s.stages && b in s'.builds
    ensures DecidesRows(s.stages, b, s'.builds[b].status)
  {
    SettlesBySettle(s, a, s', b);
    assert ClientOK(s, s.clients[a.c]);
    PlanSound(s, s.clients[a.c], a.op);
    SettlesByRows(s, a.c, Plan(s, s.clients[a.c], a.op), b);
  }

  /** Only the last operation of a teardown settles a build. */
  lemma SettlesBySettle(s: State, a: Action, s': State, b: int)
    requires Next(s, a, s') && Settled(b) in s'.log && Settled(b) !in s.log
    ensures a.Turn? && a.c in s.clients && Enabled(s, s.clients[a.c], a.op)
    ensures var e := Plan(s, s.clients[a.c], a.op);
      e.WriteBuild? && e.record.status == Verdict(s.clients[a.c].list) && s' == Apply(s, a.c, e)
  {
    if a.Turn? {
      var cl := s.clients[a.c];
      SettleNotes(s, cl, a.op);
      NoNote(s, a.c, Plan(s, cl, a.op), b);
    }
  }

  ghost predicate Notes(e: Effect, ev: Event) {
    match e
    case Local(_, note) => ev in note
    case WriteStage(_, _, _, _, wonNote, lostNote) => ev in wonNote || ev in lostNote
    case WriteBuild(_, _, _, wonNote) => ev in wonNote
  }

  lemma NoNote(s: State, c: nat, e: Effect, b: int)
    requires Settled(b) in Apply(s, c, e).log && Settled(b) !in s.log
    ensures Notes(e, Settled(b))
  {
  }

  lemma SettleNotes(s: State, cl: Client, op: Op)
    requires Enabled(s, cl, op)
    ensures op.Report? && op.report.Settle? && Plan(s, cl, op).WriteBuild? ==>
              Plan(s, cl, op).record.status == Verdict(cl.list)
    ensures !(op.Report? && op.report.Settle? && Plan(s, cl, op).WriteBuild?) ==>
              forall b :: !Notes(Plan(s, cl, op), Settled(b))
  {
    match op
    case Poll(p) =>
    case Report(r) =>
    case Kill(k) =>
    case Review(v) =>
    case Abort =>
  }
}
