/** Exclusive claims, final rows and single announcements, over every run. */
module Final {
  import opened Core
  import opened Store
  import opened Protocol
  import opened Claim
  import Deps

  // ---------- which rows a client may still write ----------

  /** A write starts from an unfinished row, from the unassigned row that Accept
      read, or from the record of a runner. */
  ghost predicate Writable(cl: Client, base: Stage) {
    || !base.IsDone()
    || (cl.phase.Found? && cl.task == base.id && base.machine == "")
    || (Working(cl.phase) && !cl.begun && cl.task == base.id && cl.copy == Some(base))
  }

  /** No write makes a stage wait or blocks it, and only a blocked one is declined. */
  ghost predicate Reviewed(base: Stage, change: Stage) {
    !change.status.Waiting? && (change.status.Blocked? || change.status.Declined? ==> base.status.Blocked?)
  }

  /** What each event says about the write that logs it. */
  ghost predicate Justified(cl: Client, e: Effect, ev: Event)
    requires e.WriteStage?
  {
    match ev
    case Accepted(id) => id == e.base.id && e.base.machine == "" && e.change.machine != ""
    case Began(id) =>
      && id == e.base.id && id == cl.task && Working(cl.phase) && !cl.begun
      && e.won.begun && e.won.task == id && e.change.machine != ""
    case Finished(id, _) =>
      id == e.base.id && id == cl.task && Working(cl.phase) && Reported(e.won.phase) && e.won.task == id
      && e.change.machine != "" && e.change.IsDone()
    case Released(id, dep) => id == e.base.id && cl.phase.Releasing? && dep == cl.task && e.base.status.Waiting?
    case Announced(_) => false
    case Settled(_) => false
    case _ => true
  }

  ghost predicate Marks(ev: Event) {
    ev.SkipMarked? || ev.CancelMarked? || ev.Released?
  }

  ghost predicate Noted(cl: Client, e: Effect) {
    match e
    case Local(_, note) => note == [] || (|note| == 1 && note[0].Scheduled?)
    case WriteStage(base, change, _, _, wonNote, lostNote) =>
      && Writable(cl, base) && Reviewed(base, change)
      && (Working(cl.phase) ==> !cl.phase.Claimed? && cl.copy == Some(base))
      && (cl.phase.Found? ==> cl.copy == Some(base))
      && (lostNote == [] || (|lostNote| == 1 && Marks(lostNote[0])))
      && (wonNote == [] || (|wonNote| == 1 && Justified(cl, e, wonNote[0])))
    case WriteBuild(record, _, _, wonNote) =>
      && !record.status.Pending?
      && (wonNote == []
          || (|wonNote| == 1 && wonNote[0].Announced? && wonNote[0].build == record.id
              && cl.build.Some? && cl.build.value.status.Pending?)
          || (|wonNote| == 1 && wonNote[0].Settled? && wonNote[0].build == record.id && cl.phase.Closing?))
  }

  lemma PollNoted(s: State, cl: Client, op: PollOp)
    requires PhaseOK(cl) && PollEnabled(s, cl, op)
    ensures Noted(cl, PollPlan(s, cl, op))
  {
  }

  lemma {:induction false} VerdictDone(list: seq<Stage>)
    ensures var v := Deps.Verdict(list); v.Passing? || v.Failing? || v.Killed? || v.Errored?
  {
    if |list| == 0 {
    } else {
      VerdictDone(list[1..]);
    }
  }

  lemma ReportNoted(s: State, cl: Client, op: ReportOp)
    requires PhaseOK(cl) && ReportEnabled(s, cl, op)
    ensures Noted(cl, ReportPlan(s, cl, op))
  {
    VerdictDone(cl.list);
  }

  lemma KillNoted(s: State, cl: Client, op: KillOp)
    requires PhaseOK(cl) && KillEnabled(s, cl, op)
    ensures Noted(cl, KillPlan(s, cl, op))
  {
  }

  lemma ReviewNoted(s: State, cl: Client, op: ReviewOp)
    requires PhaseOK(cl) && ReviewEnabled(s, cl, op)
    ensures Noted(cl, ReviewPlan(s, cl, op))
  {
  }

  lemma PlanNoted(s: State, cl: Client, op: Op)
    requires PhaseOK(cl) && Enabled(s, cl, op)
    ensures Noted(cl, Plan(s, cl, op))
  {
    match op
    case Poll(p) => PollNoted(s, cl, p);
    case Report(r) => ReportNoted(s, cl, r);
    case Kill(k) => KillNoted(s, cl, k);
    case Review(v) => ReviewNoted(s, cl, v);
    case Abort =>
  }


  /** What the last operation of a teardown stores: nothing while a listed stage is not
      over, and otherwise the verdict over the list. */
  lemma {:induction false} SettleStores(s: State, c: nat, now: int)
    requires c in s.clients && Enabled(s, s.clients[c], Report(Settle(now)))
    requires CurrentBuild(s.builds, s.clients[c].build.value)
    ensures var cl, s' := s.clients[c], Apply(s, c, Plan(s, s.clients[c], Report(Settle(now))));
      var b := cl.build.value;
      if exists r :: r in cl.list && r.status in {Waiting, Blocked, Declined, Pending, Running}
      then s'.builds == s.builds && s'.log == s.log
      else
        && s'.builds == s.builds[b.id := b.(status := s'.builds[b.id].status, finished := now,
                                            version := b.version + 1)]
        && Deps.Decides(cl.list, s'.builds[b.id].status) && s'.log == s.log + [Settled(b.id)]
  {
    Deps.VerdictDecides(s.clients[c].list);
  }

  // ---------- sealed rows ----------

  /** A client whose next write on its row is lost. */
  ghost predicate Stale(s: State, cl: Client) {
    && !cl.phase.Claimed? && cl.copy.Some? && cl.task in s.stages
    && cl.copy.value.version < s.stages[cl.task].version
  }

  /** No pass may hand the stage over, nobody has been handed it without having looked at
      it, and whoever has read it is stale. */
  ghost predicate Withdrawn(s: State, id: int) {
    && id !in s.offer
    && (forall c :: c in s.clients && Offering(s.clients[c].phase) && s.clients[c].task == id ==>
          s.clients[c].phase.Found? && Stale(s, s.clients[c]))
  }

  /** A finished row that nobody can accept and no runner can write: it has a machine or is
      withdrawn, and the runners that hold it are stale. */
  ghost predicate Sealed(s: State, id: int) {
    && id in s.stages && s.stages[id].IsDone() && (s.stages[id].machine != "" || Withdrawn(s, id))
    && (forall c :: c in s.clients && Working(s.clients[c].phase) && s.clients[c].task == id ==> Stale(s, s.clients[c]))
  }

  /** No operation writes a sealed row. */
  lemma SealedRow(s: State, c: nat, e: Effect, id: int)
    requires Base(s) && c in s.clients && WellFormed(s, s.clients[c], e) && Noted(s.clients[c], e) && Sealed(s, id)
    requires e.WriteStage? && Current(s.stages, e.change)
    ensures e.change.id != id
  {
    assert ClientOK(s, s.clients[c]);
    BaseIsRow(s, c, e);
  }

  /** A claim writes an unassigned row, so never a sealed one. */
  lemma SealedWinner(s: State, c: nat, e: Effect, id: int)
    requires Base(s) && c in s.clients && WellFormed(s, s.clients[c], e) && Noted(s.clients[c], e) && Sealed(s, id)
    requires e.WriteStage? && Current(s.stages, e.change)
    ensures Working(e.won.phase) && e.won.task == id ==> Working(s.clients[c].phase) && s.clients[c].task == id
  {
    assert ClientOK(s, s.clients[c]);
    BaseIsRow(s, c, e);
  }

  /** No client comes to hold a sealed row, and those that do stay stale. */
  lemma SealedClients(s: State, c: nat, e: Effect, id: int)
    requires Base(s) && c in s.clients && WellFormed(s, s.clients[c], e) && Noted(s.clients[c], e) && Sealed(s, id)
    ensures var s' := Apply(s, c, e); Working(s'.clients[c].phase) && s'.clients[c].task == id ==>
              Stale(s', s'.clients[c])
  {
    var cl, cl' := s.clients[c], Apply(s, c, e).clients[c];
    assert ClientOK(s, cl);
    if e.WriteStage? && Current(s.stages, e.change) {
      SealedRow(s, c, e, id);
      SealedWinner(s, c, e, id);
    } else {
      assert Continues(cl, cl') && SameCopy(cl, cl');
    }
  }

  lemma WithdrawnClient(s: State, c: nat, e: Effect, id: int)
    requires Base(s) && c in s.clients && WellFormed(s, s.clients[c], e) && Noted(s.clients[c], e)
    requires Sealed(s, id) && Withdrawn(s, id)
    ensures var cl' := Apply(s, c, e).clients[c]; !(Offering(cl'.phase) && cl'.task == id)
  {
  }

  lemma SealedEffect(s: State, c: nat, e: Effect, id: int)
    requires Base(s) && c in s.clients && WellFormed(s, s.clients[c], e) && Noted(s.clients[c], e) && Sealed(s, id)
    ensures id in Apply(s, c, e).stages && Apply(s, c, e).stages[id] == s.stages[id]
    ensures Sealed(Apply(s, c, e), id)
  {
    if e.WriteStage? && Current(s.stages, e.change) {
      SealedRow(s, c, e, id);
    }
    SealedClients(s, c, e, id);
    if Withdrawn(s, id) {
      WithdrawnEffect(s, c, e, id);
    }
  }

  lemma WithdrawnEffect(s: State, c: nat, e: Effect, id: int)
    requires Base(s) && c in s.clients && WellFormed(s, s.clients[c], e) && Noted(s.clients[c], e)
    requires Sealed(s, id) && Withdrawn(s, id) && id in Apply(s, c, e).stages
    requires Apply(s, c, e).stages[id] == s.stages[id]
    ensures Withdrawn(Apply(s, c, e), id)
  {
    WithdrawnClient(s, c, e, id);
  }

  lemma SealedStep(s: State, a: Action, s': State, id: int)
    requires Base(s) && Next(s, a, s') && Sealed(s, id)
    ensures id in s'.stages && s'.stages[id] == s.stages[id] && Sealed(s', id)
  {
    match a
    case Create(_, _) =>
    case Serve(_) =>
    case Turn(c, op) =>
      assert ClientOK(s, s.clients[c]);
      PlanWellFormed(s, s.clients[c], op);
      PlanNoted(s, s.clients[c], op);
      SealedEffect(s, c, Plan(s, s.clients[c], op), id);
  }

  // ---------- the log ----------

  ghost predicate Assigned(s: State, id: int) {
    id in s.stages && s.stages[id].machine != ""
  }

  ghost predicate EventOK(s: State, ev: Event) {
    match ev
    case Accepted(id) => Assigned(s, id)
    case Began(id) =>
      && Assigned(s, id)
      && (forall c :: c in s.clients && Busy(s.clients[c].phase) && s.clients[c].task == id ==> s.clients[c].begun)
    case Finished(id, _) =>
      && Sealed(s, id)
      && (forall c :: c in s.clients && Busy(s.clients[c].phase) && s.clients[c].task == id ==>
            Reported(s.clients[c].phase))
    case Announced(b) => b in s.builds && !s.builds[b].status.Pending?
    case _ => true
  }

  /** Two events that may not both occur. */
  ghost predicate Clash(a: Event, b: Event) {
    || (a.Accepted? && b.Accepted? && a.stage == b.stage)
    || (a.Began? && b.Began? && a.stage == b.stage)
    || (a.Finished? && b.Finished? && a.stage == b.stage)
    || (a.Announced? && b.Announced? && a.build == b.build)
  }

  ghost predicate LogOK(s: State) {
    && (forall ev :: ev in s.log ==> EventOK(s, ev))
    && (forall i, j :: 0 <= i < j < |s.log| ==> !Clash(s.log[i], s.log[j]))
  }

  ghost predicate Inv(s: State) {
    Base(s) && LogOK(s)
  }

  /** What an event records stays true. */
  lemma EventKept(s: State, c: nat, e: Effect, ev: Event)
    requires Base(s) && c in s.clients && WellFormed(s, s.clients[c], e) && Noted(s.clients[c], e)
    requires EventOK(s, ev)
    ensures EventOK(Apply(s, c, e), ev)
  {
    if ev.Finished? {
      SealedEffect(s, c, e, ev.stage);
    } else {
      assert ClientOK(s, s.clients[c]);
      if e.WriteStage? && Current(s.stages, e.change) {
        BaseIsRow(s, c, e);
      }
    }
  }

  lemma EventNew(s: State, c: nat, e: Effect)
    requires Base(s) && c in s.clients && e.WriteStage? && WellFormed(s, s.clients[c], e) && Noted(s.clients[c], e)
    requires Current(s.stages, e.change) && |e.wonNote| == 1
    ensures EventOK(Apply(s, c, e), e.wonNote[0])
  {
    assert ClientOK(s, s.clients[c]);
    BaseIsRow(s, c, e);
  }

  lemma EventFirst(s: State, c: nat, e: Effect, ev: Event)
    requires Base(s) && c in s.clients && e.WriteStage? && WellFormed(s, s.clients[c], e) && Noted(s.clients[c], e)
    requires Current(s.stages, e.change) && |e.wonNote| == 1 && EventOK(s, ev)
    ensures !Clash(ev, e.wonNote[0])
  {
    assert ClientOK(s, s.clients[c]);
    BaseIsRow(s, c, e);
  }

  lemma BuildEvent(s: State, c: nat, e: Effect)
    requires Base(s) && c in s.clients && e.WriteBuild? && WellFormed(s, s.clients[c], e) && Noted(s.clients[c], e)
    requires CurrentBuild(s.builds, e.record) && |e.wonNote| == 1
    ensures EventOK(Apply(s, c, e), e.wonNote[0])
    ensures forall ev :: EventOK(s, ev) ==> !Clash(ev, e.wonNote[0])
  {
    assert ClientOK(s, s.clients[c]);
  }

  lemma LogAppend(s: State, s': State, note: seq<Event>)
    requires LogOK(s) && s'.log == s.log + note && |note| <= 1
    requires forall ev :: ev in s.log ==> EventOK(s', ev)
    requires |note| == 1 ==> EventOK(s', note[0]) && forall ev :: EventOK(s, ev) ==> !Clash(ev, note[0])
    ensures LogOK(s')
  {
  }

  lemma LogEffect(s: State, c: nat, e: Effect)
    requires Inv(s) && c in s.clients && WellFormed(s, s.clients[c], e) && Noted(s.clients[c], e)
    ensures LogOK(Apply(s, c, e))
  {
    var s' := Apply(s, c, e);
    forall ev | ev in s.log ensures EventOK(s', ev) {
      EventKept(s, c, e, ev);
    }
    match e
    case Local(_, note) => LogAppend(s, s', note);
    case WriteStage(_, change, _, _, wonNote, lostNote) =>
      if !Current(s.stages, change) {
        LogAppend(s, s', lostNote);
      } else {
        if wonNote != [] {
          EventNew(s, c, e);
          forall ev | EventOK(s, ev) ensures !Clash(ev, wonNote[0]) {
            EventFirst(s, c, e, ev);
          }
        }
        LogAppend(s, s', wonNote);
      }
    case WriteBuild(record, _, _, wonNote) =>
      if !CurrentBuild(s.builds, record) {
        LogAppend(s, s', []);
      } else {
        if wonNote != [] {
          BuildEvent(s, c, e);
        }
        LogAppend(s, s', wonNote);
      }
  }

  lemma ServeEvents(s: State, q: QueueOp, s': State)
    requires Inv(s) && Served(s, q, s')
    ensures LogOK(s')
  {
    forall ev | ev in s'.log ensures EventOK(s', ev) {
      assert EventOK(s, ev);
      if ev.Finished? {
        SealedStep(s, Serve(q), s', ev.stage);
      }
    }
  }

  lemma StepKeepsInv(s: State, a: Action, s': State)
    requires Inv(s) && Next(s, a, s')
    ensures Inv(s')
  {
    BaseStep(s, a, s');
    match a
    case Create(_, _) => assert forall ev :: ev in s.log ==> EventOK(s, ev);
    case Serve(q) => ServeEvents(s, q, s');
    case Turn(c, op) =>
      assert ClientOK(s, s.clients[c]);
      PlanWellFormed(s, s.clients[c], op);
      PlanNoted(s, s.clients[c], op);
      LogEffect(s, c, Plan(s, s.clients[c], op));
  }

  lemma {:induction false} RunKeepsInv(states: seq<State>, acts: seq<Action>, n: nat)
    requires Run(states, acts) && n < |states|
    ensures Inv(states[n])
  {
    if n == 0 {
      assert forall c :: c in states[0].clients ==> states[0].clients[c] == Reset(states[0].clients[c]);
    } else {
      RunKeepsInv(states, acts, n - 1);
      StepKeepsInv(states[n - 1], acts[n - 1], states[n]);
    }
  }

  // ---------- theorems ----------

  /** Exclusive claim: over every run, at most one Accept of a stage succeeds, at
      most one setup commits for it, and two clients never work on it at once. */
  lemma ExclusiveClaim(states: seq<State>, acts: seq<Action>, n: nat)
    requires Run(states, acts) && n < |states|
    ensures forall i, j :: 0 <= i < j < |states[n].log| && states[n].log[i].Accepted? && states[n].log[j].Accepted?
              ==> states[n].log[i].stage != states[n].log[j].stage
    ensures forall i, j :: 0 <= i < j < |states[n].log| && states[n].log[i].Began? && states[n].log[j].Began?
              ==> states[n].log[i].stage != states[n].log[j].stage
    ensures OneRunner(states[n])
  {
    RunKeepsInv(states, acts, n);
  }

  lemma {:induction false} SealedSteps(states: seq<State>, acts: seq<Action>, n: nat, id: int)
    requires Steps(states, acts) && Base(states[0]) && Sealed(states[0], id) && n < |states|
    ensures Base(states[n]) && Sealed(states[n], id) && states[n].stages[id] == states[0].stages[id]
  {
    if n == 0 {
    } else {
      SealedSteps(states, acts, n - 1, id);
      BaseStep(states[n - 1], acts[n - 1], states[n]);
      SealedStep(states[n - 1], acts[n - 1], states[n], id);
    }
  }

  /** A sealed row stays, column by column, for the rest of the run. */
  lemma SealedForever(states: seq<State>, acts: seq<Action>, m: nat, n: nat, id: int)
    requires Run(states, acts) && m <= n < |states| && Sealed(states[m], id)
    ensures Sealed(states[n], id) && states[n].stages[id] == states[m].stages[id]
  {
    RunKeepsInv(states, acts, m);
    SealedSteps(states[m..], acts[m..], n - m, id);
  }

  /** A final status is final: once setup has committed for a stage, the first
      done status to be stored stays, column by column, for the rest of the run. */
  lemma FinalStatusIsFinal(states: seq<State>, acts: seq<Action>, m: nat, n: nat, id: int)
    requires Run(states, acts) && m <= n < |states|
    requires Began(id) in states[m].log && id in states[m].stages && states[m].stages[id].IsDone()
    ensures id in states[n].stages && states[n].stages[id] == states[m].stages[id]
  {
    var s := states[m];
    RunKeepsInv(states, acts, m);
    assert EventOK(s, Began(id));
    forall c | c in s.clients && Working(s.clients[c].phase) && s.clients[c].task == id
      ensures Stale(s, s.clients[c])
    {
      assert ClientOK(s, s.clients[c]);
    }
    SealedForever(states, acts, m, n, id);
  }

  /** So does the row a teardown reports, whether or not setup had committed. */
  lemma ReportIsFinal(states: seq<State>, acts: seq<Action>, m: nat, n: nat, id: int, stamp: int)
    requires Run(states, acts) && m <= n < |states| && Finished(id, stamp) in states[m].log
    ensures id in states[m].stages && states[m].stages[id].IsDone()
    ensures id in states[n].stages && states[n].stages[id] == states[m].stages[id]
  {
    RunKeepsInv(states, acts, m);
    assert EventOK(states[m], Finished(id, stamp));
    SealedForever(states, acts, m, n, id);
  }

  /** At most one updateBuild per build returns true. */
  lemma SingleAnnouncement(states: seq<State>, acts: seq<Action>, n: nat)
    requires Run(states, acts) && n < |states|
    ensures forall i, j :: 0 <= i < j < |states[n].log| && states[n].log[i].Announced? && states[n].log[j].Announced?
              ==> states[n].log[i].build != states[n].log[j].build
  {
    RunKeepsInv(states, acts, n);
  }
}
