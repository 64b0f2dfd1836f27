/** Where exclusive claims and final statuses end: the exact conditions, and runs
    that break them. */
module Boundary {
  import opened Core
  import opened Store
  import opened Protocol
  import opened Claim
  import opened Final
  import opened Reach

  // ---------- when a done row can still change ----------

  ghost predicate Changes(s: State, id: int)
    requires id in s.stages
  {
    exists s' :: Reaches(s, s') && id in s'.stages && s'.stages[id] != s.stages[id]
  }

  /** A client that has been handed a stage accepts it if the row has no machine, whatever
      its status. */
  lemma Accepts(s: State, mid: State, c: nat, now: int) returns (s': State)
    requires Reaches(s, mid) && c in mid.clients && mid.clients[c].phase.Offered? && mid.clients[c].task in mid.stages
    requires var r := mid.stages[mid.clients[c].task]; r.id == mid.clients[c].task && r.machine == ""
    ensures Reaches(s, s') && Accepted1(mid, s', c, mid.clients[c].task, now)
    ensures s'.listed == mid.listed && s'.offer == mid.offer
  {
    s' := Takes(s, mid, c, Poll(AcceptFind));
    s' := Takes(s, s', c, Poll(AcceptCommit(now)));
  }

  /** The stage goes to pending, assigned to the client. */
  ghost predicate Accepted1(s: State, s': State, c: nat, id: int, now: int)
    requires c in s.clients && id in s.stages
  {
    && s'.log == s.log + [Accepted(id)] && s'.builds == s.builds
    && s'.stages == s.stages[id := s.stages[id].(machine := s.clients[c].machine, status := Pending, updated := now,
                                                 version := s.stages[id].version + 1)]
    && s'.clients.Keys == s.clients.Keys
    && (forall d :: d in s.clients ==> s'.clients[d].machine == s.clients[d].machine)
  }

  /** A pass under way hands a stage to a client, which accepts it. */
  lemma HandsOver(s: State, mid: State, c: nat, id: int, now: int) returns (s': State)
    requires Reaches(s, mid) && c in mid.clients && id in mid.offer
    requires id in mid.stages && mid.stages[id].id == id && mid.stages[id].machine == ""
    ensures Reaches(s, s') && Accepted1(mid, s', c, id, now)
  {
    var s1 := Takes(s, mid, c, Abort);
    var s2 := s1.(clients := s1.clients[c := s1.clients[c].(phase := Offered, task := id)], offer := s1.offer - {id});
    ReachesNext(s, s1, Serve(Hand(c, id)), s2);
    s' := Accepts(s, s2, c, now);
  }

  /** A row without a machine that is not withdrawn can still be accepted, finished or not. */
  lemma UnassignedRowReopens(s: State, id: int)
    requires Base(s) && |s.clients| > 0 && id in s.stages && s.stages[id].machine == "" && !Withdrawn(s, id)
    ensures Changes(s, id)
  {
    ReachesSelf(s);
    if id in s.offer {
      assert |s.clients.Keys| > 0;
      var c :| c in s.clients.Keys;
      var s' := HandsOver(s, s, c, id, 0);
      assert s'.stages[id] != s.stages[id];
    } else {
      var c :| c in s.clients && Offering(s.clients[c].phase) && s.clients[c].task == id
               && !(s.clients[c].phase.Found? && Stale(s, s.clients[c]));
      OfferedReopens(s, c);
    }
  }

  lemma OfferedReopens(s: State, c: nat)
    requires Base(s) && c in s.clients && Offering(s.clients[c].phase) && s.clients[c].task in s.stages
    requires s.stages[s.clients[c].task].machine == "" && !(s.clients[c].phase.Found? && Stale(s, s.clients[c]))
    ensures Changes(s, s.clients[c].task)
  {
    var id := s.clients[c].task;
    ReachesSelf(s);
    assert ClientOK(s, s.clients[c]);
    if s.clients[c].phase.Offered? {
      var s' := Accepts(s, s, c, 0);
      assert s'.stages[id] != s.stages[id];
    } else {
      var s' := Takes(s, s, c, Poll(AcceptCommit(0)));
      assert s'.stages[id] != s.stages[id];
    }
  }

  /** A runner that has read the build writes its row if the copy is current. */
  lemma RunnerWrites(s: State, mid: State, c: nat)
    requires Reaches(s, mid) && Base(mid) && c in mid.clients
    requires mid.clients[c].phase.SetupRead? || mid.clients[c].phase.FinishRead?
    requires !Stale(mid, mid.clients[c]) && mid.clients[c].task in s.stages
    requires mid.stages == s.stages
    ensures Changes(s, mid.clients[c].task)
  {
    var cl := mid.clients[c];
    assert ClientOK(mid, cl);
    var s' := Takes(s, mid, c, if cl.phase.SetupRead? then Poll(SetupCommit(0)) else Report(FinishCommit(0)));
    assert s'.stages[cl.task].version == s.stages[cl.task].version + 1;
  }

  /** A runner that is about to report an error reads the build and writes its row. */
  lemma RunnerReports(s: State, mid: State, c: nat)
    requires Reaches(s, mid) && Base(mid) && c in mid.clients && mid.clients[c].phase.Finishing?
    requires !Stale(mid, mid.clients[c]) && mid.clients[c].task in s.stages && mid.stages == s.stages
    ensures Changes(s, mid.clients[c].task)
  {
    assert ClientOK(mid, mid.clients[c]);
    var s' := Takes(s, mid, c, Report(FinishFind));
    BaseStep(mid, Turn(c, Report(FinishFind)), s');
    RunnerWrites(s, s', c);
  }

  /** A runner that has its details can fail before it looks at the status of the build. */
  lemma RunnerFails(s: State, mid: State, c: nat)
    requires Reaches(s, mid) && Base(mid) && c in mid.clients && mid.clients[c].phase.Inspected?
    requires !Stale(mid, mid.clients[c]) && mid.clients[c].task in s.stages && mid.stages == s.stages
    ensures Changes(s, mid.clients[c].task)
  {
    var s' := Takes(s, mid, c, Poll(Complete(Errored)));
    BaseStep(mid, Turn(c, Poll(Complete(Errored))), s');
    RunnerReports(s, s', c);
  }

  lemma RunnerReads(s: State, mid: State, c: nat)
    requires Reaches(s, mid) && Base(mid) && c in mid.clients && mid.clients[c].phase.Detailed?
    requires !Stale(mid, mid.clients[c]) && mid.clients[c].task in s.stages && mid.stages == s.stages
    ensures Changes(s, mid.clients[c].task)
  {
    assert ClientOK(mid, mid.clients[c]);
    var s' := Takes(s, mid, c, Poll(Inspect));
    BaseStep(mid, Turn(c, Poll(Inspect)), s');
    RunnerFails(s, s', c);
  }

  /** Every runner that is not stale can still write its finished row. */
  lemma RunnerReopens(s: State, c: nat)
    requires Base(s) && c in s.clients && Working(s.clients[c].phase) && !Stale(s, s.clients[c])
    requires s.clients[c].task in s.stages && s.stages[s.clients[c].task].IsDone()
    ensures Changes(s, s.clients[c].task)
  {
    var cl := s.clients[c];
    assert ClientOK(s, cl);
    ReachesSelf(s);
    if cl.phase.Claimed? {
      var s' := Takes(s, s, c, Poll(Details));
      BaseStep(s, Turn(c, Poll(Details)), s');
      RunnerReads(s, s', c);
    } else if cl.phase.Detailed? {
      RunnerReads(s, s, c);
    } else if cl.phase.Inspected? {
      RunnerFails(s, s, c);
    } else if cl.phase.Finishing? {
      RunnerReports(s, s, c);
    } else {
      assert cl.phase.SetupRead? || cl.phase.FinishRead?;
      RunnerWrites(s, s, c);
    }
  }

  lemma SealedKeeps(s: State, id: int)
    requires Base(s) && Sealed(s, id)
    ensures !Changes(s, id)
  {
    forall s' | Reaches(s, s') ensures id in s'.stages && s'.stages[id] == s.stages[id] {
      var states, acts :| Steps(states, acts) && states[0] == s && states[|acts|] == s';
      SealedSteps(states, acts, |acts|, id);
    }
  }

  /** When a final status is final: a finished row of a reachable state never changes
      again, whatever happens, if and only if it is sealed. */
  lemma FinalIffSealed(states: seq<State>, acts: seq<Action>, n: nat, id: int)
    requires Run(states, acts) && n < |states| && |states[n].clients| > 0
    requires id in states[n].stages && states[n].stages[id].IsDone()
    ensures !Changes(states[n], id) <==> Sealed(states[n], id)
  {
    var s := states[n];
    RunKeepsInv(states, acts, n);
    if Sealed(s, id) {
      SealedKeeps(s, id);
    } else if s.stages[id].machine == "" && !Withdrawn(s, id) {
      UnassignedRowReopens(s, id);
    } else {
      var c :| c in s.clients && Working(s.clients[c].phase) && s.clients[c].task == id && !Stale(s, s.clients[c]);
      RunnerReopens(s, c);
    }
  }

  /** In particular a finished, unassigned row that nobody has been handed is final once the
      pass that listed it is over. */
  lemma PassedOverIsFinal(states: seq<State>, acts: seq<Action>, m: nat, n: nat, id: int)
    requires Run(states, acts) && m <= n < |states| && states[m].offer == {}
    requires id in states[m].stages && states[m].stages[id].IsDone() && states[m].stages[id].machine == ""
    requires forall c :: c in states[m].clients && Offering(states[m].clients[c].phase) ==>
               states[m].clients[c].task != id
    ensures id in states[n].stages && states[n].stages[id] == states[m].stages[id]
  {
    var s := states[m];
    RunKeepsInv(states, acts, m);
    forall c | c in s.clients && Working(s.clients[c].phase) ensures s.clients[c].task != id {
      assert ClientOK(s, s.clients[c]);
    }
    SealedForever(states, acts, m, n, id);
  }

  // ---------- listed rows ----------

  /** Over every run, a row the queue has listed does not wait and is neither blocked
      nor declined; so the rows that reopen are cancelled ones. */
  lemma {:induction false} ListedNeverDeclined(states: seq<State>, acts: seq<Action>, n: nat, id: int)
    requires Run(states, acts) && n < |states| && id in states[n].listed
    ensures id in states[n].stages
    ensures var r := states[n].stages[id]; !r.status.Waiting? && !r.status.Blocked? && !r.status.Declined?
  {
    RunKeepsInv(states, acts, n);
    if n == 0 {
    } else {
      var s, a, s' := states[n - 1], acts[n - 1], states[n];
      RunKeepsInv(states, acts, n - 1);
      if id in s.listed {
        ListedNeverDeclined(states, acts, n - 1, id);
        if a.Turn? {
          ListedStep(s, a.c, a.op, id);
        }
      }
    }
  }

  lemma ListedStep(s: State, c: nat, op: Op, id: int)
    requires Inv(s) && c in s.clients && Enabled(s, s.clients[c], op) && id in s.stages
    requires !s.stages[id].status.Waiting? && !s.stages[id].status.Blocked? && !s.stages[id].status.Declined?
    ensures var r := After(s, c, op).stages[id]; !r.status.Waiting? && !r.status.Blocked? && !r.status.Declined?
  {
    assert ClientOK(s, s.clients[c]);
    PlanWellFormed(s, s.clients[c], op);
    PlanNoted(s, s.clients[c], op);
    ListedEffect(s, c, Plan(s, s.clients[c], op), id);
  }

  lemma ListedEffect(s: State, c: nat, e: Effect, id: int)
    requires Base(s) && c in s.clients && WellFormed(s, s.clients[c], e) && Noted(s.clients[c], e) && id in s.stages
    requires !s.stages[id].status.Waiting? && !s.stages[id].status.Blocked? && !s.stages[id].status.Declined?
    ensures id in Apply(s, c, e).stages
    ensures var r := Apply(s, c, e).stages[id]; !r.status.Waiting? && !r.status.Blocked? && !r.status.Declined?
  {
    assert ClientOK(s, s.clients[c]);
    if e.WriteStage? && Current(s.stages, e.change) {
      BaseIsRow(s, c, e);
    }
  }

  /** A done row that the queue never listed is final. */
  lemma NeverListedIsFinal(states: seq<State>, acts: seq<Action>, m: nat, n: nat, id: int)
    requires Run(states, acts) && m <= n < |states|
    requires id in states[m].stages && states[m].stages[id].IsDone() && id !in states[m].listed
    ensures id in states[n].stages && states[n].stages[id] == states[m].stages[id]
  {
    var s := states[m];
    RunKeepsInv(states, acts, m);
    forall c | c in s.clients && (Working(s.clients[c].phase) || Offering(s.clients[c].phase))
      ensures s.clients[c].task != id
    {
      assert ClientOK(s, s.clients[c]);
    }
    SealedForever(states, acts, m, n, id);
  }

  /** So what ends a wait or a block for good, a skip by a teardown, a cancel or a decline,
      is final. */
  lemma SkippedIsFinal(states: seq<State>, acts: seq<Action>, m: nat, n: nat, id: int)
    requires Run(states, acts) && m < n < |states| && id in states[m].stages
    requires states[m].stages[id].status.Waiting? || states[m].stages[id].status.Blocked?
    requires id in states[m + 1].stages && states[m + 1].stages[id].IsDone()
    ensures id in states[n].stages && states[n].stages[id] == states[m + 1].stages[id]
  {
    if id in states[m + 1].listed {
      ListedBefore(states[m], acts[m], states[m + 1], id);
      ListedNeverDeclined(states, acts, m, id);
    }
    NeverListedIsFinal(states, acts, m + 1, n, id);
  }

  lemma ListedBefore(s: State, a: Action, s': State, id: int)
    requires Next(s, a, s') && id in s'.listed && id in s.stages && !s.stages[id].status.Pending?
    ensures id in s.listed
  {
  }

  // ---------- runs that break the claims ----------

  function OneStage(): Stage {
    Stage(1, 1, 1, 1, "default", Pending, "", Platform("linux", "amd64", "", "", map[]), 0, 0, 0, 0, 1, true, false, [])
  }

  /** A build of one stage without dependencies is stored, and the queue lists it. */
  lemma Offers(s: State) returns (s': State)
    requires Start(s)
    ensures Reaches(s, s') && s'.stages == map[1 := OneStage()] && s'.offer == {1} && s'.log == []
    ensures s'.clients == s.clients && 1 in s'.builds && s'.builds[1].id == 1 && s'.builds[1].status.Pending?
  {
    var b, rows := Build(1, 1, 1, Pending, 0, 0, 0, 1), map[1 := OneStage()];
    var mid := s.(stages := s.stages + rows, builds := s.builds[b.id := b]);
    ReachesSelf(s);
    assert FreshStage(rows[1], 1, 1);
    ReachesNext(s, s, Create(b, rows), mid);
    assert Ready(mid.stages) == {1};
    s' := mid.(listed := mid.listed + {1}, offer := {1});
    ReachesNext(s, mid, Serve(List), s');
  }

  /** A cancel skips the stage while it sits in the queue. */
  lemma Cancels(s: State, mid: State, c: nat) returns (s': State)
    requires Reaches(s, mid) && c in mid.clients && mid.clients[c].phase.Idle?
    requires mid.stages == map[1 := OneStage()] && 1 in mid.builds && mid.builds[1].id == 1
    requires mid.builds[1].status.Pending?
    ensures Reaches(s, s') && s'.stages.Keys == {1} && s'.stages[1].id == 1 && s'.stages[1].status.Skipped?
    ensures s'.stages[1].machine == ""
    ensures s'.offer == mid.offer && s'.clients.Keys == mid.clients.Keys
  {
    s' := Takes(s, mid, c, Kill(CancelFind(1)));
    s' := Takes(s, s', c, Kill(CancelBuild(1)));
    assert OneStage() in [OneStage()];
    s' := Takes(s, s', c, Kill(CancelList([OneStage()])));
    s' := Takes(s, s', c, Kill(CancelStage(1)));
  }

  /** A reachable finished row that reopens: from every initial state with a client
      there is a run in which a stage is cancelled between the listing of a pass and its
      hand-over, and then accepted. */
  lemma CancelledRowReopens(s: State, c: nat) returns (done: State, s': State)
    requires Init(s) && c in s.clients
    ensures Reaches(s, done) && 1 in done.stages && done.stages[1].IsDone()
    ensures Reaches(done, s') && 1 in s'.stages && s'.stages[1].status.Pending?
  {
    var mid := Offers(s);
    done := Cancels(s, mid, c);
    ReachesSelf(done);
    s' := HandsOver(done, done, c, 1, 2);
  }

  /** No stage is accepted twice. */
  ghost predicate OnceEach(log: seq<Event>) {
    forall i, j :: 0 <= i < j < |log| && log[i].Accepted? && log[j].Accepted? ==> log[i].stage != log[j].stage
  }

  /** The dispatcher ends its pass and lists again. */
  lemma ListsAgain(s: State, mid: State) returns (s': State)
    requires Reaches(s, mid)
    ensures Reaches(s, s') && s' == mid.(offer := Ready(mid.stages), listed := mid.listed + Ready(mid.stages))
  {
    var s1 := mid.(offer := {});
    ReachesNext(s, mid, Serve(EndPass), s1);
    s' := s1.(offer := Ready(s1.stages), listed := s1.listed + Ready(s1.stages));
    ReachesNext(s, s1, Serve(List), s');
  }

  /** After a runner without a machine name has accepted a stage, any client, whatever
      its name, can accept it again: the next pass still finds the stage ready. */
  lemma EmptyNameClaimsTwice(s: State, c: nat, d: nat, id: int) returns (s': State)
    requires c in s.clients && d in s.clients && s.clients[c].machine == "" && id in s.offer
    requires id in s.stages && s.stages[id].id == id && s.stages[id].machine == ""
    requires WithinLimit(s.stages, s.stages[id])
    ensures Reaches(s, s') && s'.log == s.log + [Accepted(id), Accepted(id)]
  {
    ReachesSelf(s);
    var mid := HandsOver(s, s, c, id, 0);
    assert OlderSiblings(mid.stages, mid.stages[id]) == OlderSiblings(s.stages, s.stages[id]);
    mid := ListsAgain(s, mid);
    s' := HandsOver(s, mid, d, id, 0);
  }

  /** When claims are exclusive: from a start state every run accepts each stage at
      most once if and only if every client has a machine name. */
  lemma ExclusiveIffNamed(s: State)
    requires Start(s)
    ensures (forall s' :: Reaches(s, s') ==> OnceEach(s'.log)) <==> NamesGiven(s)
  {
    if NamesGiven(s) {
      forall s' | Reaches(s, s') ensures OnceEach(s'.log) {
        var states, acts :| Steps(states, acts) && states[0] == s && states[|acts|] == s';
        ExclusiveClaim(states, acts, |acts|);
      }
    } else {
      var c :| c in s.clients && s.clients[c].machine == "";
      var s' := UnnamedClaimsTwice(s, c);
    }
  }

  lemma UnnamedClaimsTwice(s: State, c: nat) returns (s': State)
    requires Start(s) && c in s.clients && s.clients[c].machine == ""
    ensures Reaches(s, s') && !OnceEach(s'.log)
  {
    var mid := Offers(s);
    ReachesSelf(mid);
    var s1 := HandsOver(mid, mid, c, 1, 0);
    assert Ready(s1.stages) == {1};
    s1 := ListsAgain(mid, s1);
    s' := HandsOver(mid, s1, c, 1, 0);
    ReachesTrans(s, mid, s');
    assert s'.log[0] == s'.log[1] == Accepted(1);
  }
}
