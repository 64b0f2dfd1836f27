/** What progress amounts to: a bound on the work of every smooth run, dependency
    order of that work, and a way on from every state until all builds pass. */
module Complete {
  import opened Core
  import opened Store
  import opened Protocol
  import opened Claim
  import opened Final
  import opened Release
  import opened Single
  import opened Exact
  import opened Deps
  import opened Sets
  import opened Progress

  // ---------- dependency order of the work ----------

  ghost predicate RunsStage(ev: Event) {
    ev.Accepted? || ev.Began? || ev.Finished?
  }

  /** A stage is accepted, begun and finished only after all its dependencies have
      finished. */
  ghost predicate Topological(s: State) {
    forall i, d :: 0 <= i < |s.log| && RunsStage(s.log[i]) && DepOf(s.stages, d, s.log[i].stage) ==>
      HasFinished(s.log[..i], d)
  }

  lemma DepsFinished(s: State, x: int, d: int, rank: Rank)
    requires Healthy(s, rank) && x in s.stages && !s.stages[x].status.Waiting? && DepOf(s.stages, d, x)
    ensures HasFinished(s.log, d)
  {
    assert Origin(s, x) && RowH(s.stages[x]) && s.stages[d].name in s.stages[x].dependsOn;
    var a :| Released(x, a) in s.log;
    assert NoteOK(s, Released(x, a));
    assert RowQ(s, d) && RowH(s.stages[d]);
    InLog(s.log, d, s.stages[d].updated);
  }

  /** The stage of a new event does not wait. */
  lemma EventStage(s: State, c: nat, e: Effect)
    requires RowsQ(s) && Acts(s, c, e) && |NoteOf(s, e)| == 1 && RunsStage(NoteOf(s, e)[0])
    ensures var x := NoteOf(s, e)[0].stage; x in s.stages && !s.stages[x].status.Waiting?
  {
    assert ClientOK(s, s.clients[c]);
    Writes(s, c, e);
    assert e.base.id in s.stages && RowQ(s, e.base.id);
  }

  lemma TopologicalNext(s: State, s': State, note: seq<Event>)
    requires Topological(s) && s'.log == s.log + note && |note| <= 1
    requires forall i, d :: 0 <= i < |s.log| && RunsStage(s.log[i]) && DepOf(s'.stages, d, s.log[i].stage) ==>
               DepOf(s.stages, d, s.log[i].stage)
    requires |note| == 1 && RunsStage(note[0]) ==>
               forall d :: DepOf(s'.stages, d, note[0].stage) ==> HasFinished(s.log, d)
    ensures Topological(s')
  {
    forall i, d | 0 <= i < |s'.log| && RunsStage(s'.log[i]) && DepOf(s'.stages, d, s'.log[i].stage)
      ensures HasFinished(s'.log[..i], d)
    {
      if i < |s.log| {
        assert s'.log[i] == s.log[i] && s'.log[..i] == s.log[..i];
      } else {
        assert s'.log[..i] == s.log;
      }
    }
  }

  lemma TopologicalTurn(s: State, c: nat, op: Op, s': State, rank: Rank)
    requires Healthy(s, rank) && Topological(s) && Next(s, Turn(c, op), s') && SmoothOp(s, s.clients[c], op)
    ensures Topological(s')
  {
    var e := Plan(s, s.clients[c], op);
    TurnActs(s, c, op, rank);
    LawfulNote(s, c, e);
    RowsKeptH(s, c, e, rank);
    var note := NoteOf(s, e);
    if |note| == 1 && RunsStage(note[0]) {
      EventStage(s, c, e);
      forall d | DepOf(s'.stages, d, note[0].stage) ensures HasFinished(s.log, d) {
        DepsFinished(s, note[0].stage, d, rank);
      }
    }
    TopologicalNext(s, s', note);
  }

  lemma TopologicalCreate(s: State, b: Build, rows: Stages, s': State)
    requires Inv(s) && Topological(s) && Next(s, Create(b, rows), s')
    ensures Topological(s')
  {
    forall id | id in rows ensures FreshStage(rows[id], id, b.id) {
    }
    forall i, d | 0 <= i < |s.log| && RunsStage(s.log[i]) && DepOf(s'.stages, d, s.log[i].stage)
      ensures DepOf(s.stages, d, s.log[i].stage)
    {
      assert EventOK(s, s.log[i]);
    }
    TopologicalNext(s, s', []);
  }

  lemma TopologicalStep(s: State, a: Action, s': State, rank: Rank)
    requires Reachable(s, rank) && Topological(s) && Next(s, a, s') && Smooth(s, a, rank)
    ensures Topological(s')
  {
    ReachableIsHealthy(s, rank);
    match a
    case Create(b, rows) => TopologicalCreate(s, b, rows, s');
    case Serve(_) => TopologicalNext(s, s', []);
    case Turn(c, op) => TopologicalTurn(s, c, op, s', rank);
  }

  lemma {:induction false} RunIsTopological(states: seq<State>, acts: seq<Action>, rank: Rank, n: nat)
    requires SmoothRun(states, acts, rank) && n < |states|
    ensures Topological(states[n])
  {
    if n == 0 {
    } else {
      RunIsTopological(states, acts, rank, n - 1);
      ReachedBy(states, acts, rank, n - 1);
      TopologicalStep(states[n - 1], acts[n - 1], states[n], rank);
    }
  }

  // ---------- the work that is left ----------

  ghost function Left(cl: Client): nat {
    if cl.i < |cl.list| then |cl.list| - cl.i else 0
  }

  /** How many operations a busy client of a store with t stages has still to do, at
      most. */
  ghost function Weight(cl: Client, t: nat): nat {
    match cl.phase
    case Claimed => 2 * t + 13
    case Detailed => 2 * t + 12
    case Inspected => 2 * t + 11
    case SetupRead => 2 * t + 10
    case Begun => 2 * t + 9
    case Executing => 2 * t + 8
    case Finishing => 2 * t + 7
    case FinishRead => 2 * t + 6
    case Listing => 2 * t + 5
    case Skipping => t + Left(cl) + 4
    case Releasing => Left(cl) + 3
    case Closing => 2
    case _ => 0
  }

  ghost function Work(s: State, id: int): nat
    requires id in s.stages
  {
    if exists c :: Owner(s, c, id) then
      var c :| Owner(s, c, id);
      Weight(s.clients[c], |s.stages|)
    else if s.stages[id].IsDone() then 0
    else 2 * |s.stages| + 14
  }

  lemma WorkOfOwner(s: State, c: nat, id: int)
    requires OneRunner(s) && Owner(s, c, id) && id in s.stages
    ensures Work(s, id) == Weight(s.clients[c], |s.stages|)
  {
  }

  ghost function Total(s: State, ids: seq<int>): nat
    requires forall id :: id in ids ==> id in s.stages
  {
    if |ids| == 0 then 0 else Total(s, ids[1..]) + Work(s, ids[0])
  }

  lemma {:induction false} TotalFalls(s: State, s': State, ids: seq<int>, x: int)
    requires forall id :: id in ids ==> id in s.stages && id in s'.stages && (id != x ==> Work(s', id) == Work(s, id))
    requires forall i, j :: 0 <= i < j < |ids| ==> ids[i] != ids[j]
    requires x in s.stages && x in s'.stages
    ensures x in ids ==> Total(s', ids) + Work(s, x) == Total(s, ids) + Work(s', x)
    ensures x !in ids ==> Total(s', ids) == Total(s, ids)
  {
    if |ids| == 0 {
    } else {
      assert ids == [ids[0]] + ids[1..];
      TotalFalls(s, s', ids[1..], x);
    }
  }

  lemma {:induction false} TotalBound(s: State, ids: seq<int>, k: nat)
    requires forall id :: id in ids ==> id in s.stages && Work(s, id) <= k
    ensures Total(s, ids) <= |ids| * k
  {
    if |ids| == 0 {
    } else {
      TotalBound(s, ids[1..], k);
      assert |ids| * k == (|ids| - 1) * k + k;
    }
  }

  lemma {:induction false} ListSize(rows: Stages, list: seq<Stage>)
    requires forall j :: 0 <= j < |list| ==> list[j].id in rows
    requires forall j, k :: 0 <= j < k < |list| ==> list[j].id != list[k].id
    ensures |list| <= |rows|
  {
    var ids := set j | 0 <= j < |list| :: list[j].id;
    IdCount(list, ids);
    SubsetSize(ids, rows.Keys);
  }

  lemma {:induction false} IdCount(list: seq<Stage>, ids: set<int>)
    requires ids == set j | 0 <= j < |list| :: list[j].id
    requires forall j, k :: 0 <= j < k < |list| ==> list[j].id != list[k].id
    ensures |ids| == |list|
  {
    if |list| == 0 {
      assert ids == {};
    } else {
      var n := |list| - 1;
      var rest := set j | 0 <= j < n :: list[..n][j].id;
      IdCount(list[..n], rest);
      assert ids == rest + {list[n].id};
    }
  }

  // ---------- every operation of a busy client is work ----------

  /** The list of a sweep is no longer than the store. */
  ghost predicate Fits(s: State, cl: Client) {
    Swept(cl.phase) ==> |cl.list| <= |s.stages|
  }

  lemma SweepFits(s: State, cl: Client)
    requires ClientQ(s, cl)
    ensures Fits(s, cl)
  {
    if Swept(cl.phase) {
      ListSize(s.stages, cl.list);
    }
  }

  /** Wherever the effect takes the client, it has less to do. */
  ghost predicate Lowers(cl: Client, e: Effect, t: nat) {
    match e
    case Local(next, _) => Weight(next, t) < Weight(cl, t)
    case WriteStage(_, _, won, lost, _, _) => Weight(won, t) < Weight(cl, t) && Weight(lost, t) < Weight(cl, t)
    case WriteBuild(_, won, lost, _) => Weight(won, t) < Weight(cl, t) && Weight(lost, t) < Weight(cl, t)
  }

  lemma PollLowers(s: State, cl: Client, op: PollOp, t: nat)
    requires PollEnabled(s, cl, op) && Busy(cl.phase)
    ensures Lowers(cl, PollPlan(s, cl, op), t)
  {
  }

  /** A turn of a loop leaves less to pass. */
  lemma SweepLowers(s: State, cl: Client, op: ReportOp, t: nat)
    requires ReportEnabled(s, cl, op) && (op.Skip? || op.Release?) && |cl.list| <= t
    ensures Lowers(cl, ReportPlan(s, cl, op), t)
  {
  }

  lemma FinishLowers(s: State, cl: Client, op: ReportOp, t: nat)
    requires ReportEnabled(s, cl, op) && !op.Skip? && !op.Release? && (op.FinishList? ==> |op.list| <= t)
    ensures Lowers(cl, ReportPlan(s, cl, op), t)
  {
  }

  lemma OpLowers(s: State, cl: Client, op: Op)
    requires Enabled(s, cl, op) && SmoothOp(s, cl, op) && Busy(cl.phase) && Fits(s, cl)
    ensures Lowers(cl, Plan(s, cl, op), |s.stages|)
  {
    match op
    case Poll(p) => PollLowers(s, cl, p, |s.stages|);
    case Report(r) =>
      if r.Skip? || r.Release? {
        SweepLowers(s, cl, r, |s.stages|);
      } else {
        if r.FinishList? {
          ListSize(s.stages, r.list);
        }
        FinishLowers(s, cl, r, |s.stages|);
      }
    case Kill(_) =>
    case Review(_) =>
    case Abort =>
  }

  lemma BusyWeight(s: State, c: nat, op: Op)
    requires c in s.clients && Busy(s.clients[c].phase) && ClientQ(s, s.clients[c])
    requires Enabled(s, s.clients[c], op) && SmoothOp(s, s.clients[c], op)
    ensures var s' := Apply(s, c, Plan(s, s.clients[c], op));
      Weight(s'.clients[c], |s.stages|) < Weight(s.clients[c], |s.stages|)
  {
    SweepFits(s, s.clients[c]);
    OpLowers(s, s.clients[c], op);
  }

  /** A write to a stage that the client does not hold leaves it unfinished. */
  lemma DoneElsewhere(s: State, c: nat, e: Effect, id: int)
    requires Acts(s, c, e) && id in s.stages && id in Apply(s, c, e).stages
    requires !Owner(s, c, id) && !Owner(Apply(s, c, e), c, id)
    ensures Apply(s, c, e).stages[id].IsDone() == s.stages[id].IsDone()
  {
    if e.WriteStage? {
      Writes(s, c, e);
      assert ClientOK(s, s.clients[c]);
    }
  }

  /** Stages the client does not hold keep their work. */
  lemma WorkElsewhere(s: State, c: nat, e: Effect, id: int)
    requires Acts(s, c, e) && id in s.stages && Apply(s, c, e).stages.Keys == s.stages.Keys
    requires !Owner(s, c, id) && !Owner(Apply(s, c, e), c, id)
    ensures Work(Apply(s, c, e), id) == Work(s, id)
  {
    var s' := Apply(s, c, e);
    DoneElsewhere(s, c, e, id);
    OwnersElsewhere(s, c, s', id);
    SameWork(s, s', id);
  }

  lemma OwnersElsewhere(s: State, c: nat, s': State, id: int)
    requires c in s.clients && s'.clients.Keys == s.clients.Keys && !Owner(s, c, id) && !Owner(s', c, id)
    requires forall d :: d in s.clients && d != c ==> s'.clients[d] == s.clients[d]
    ensures forall d :: Owner(s', d, id) <==> Owner(s, d, id)
    ensures forall d :: Owner(s, d, id) ==> s'.clients[d] == s.clients[d]
  {
  }

  lemma SameWork(s: State, s': State, id: int)
    requires OneRunner(s) && id in s.stages && s'.stages.Keys == s.stages.Keys
    requires s'.stages[id].IsDone() == s.stages[id].IsDone()
    requires forall d :: Owner(s', d, id) <==> Owner(s, d, id)
    requires forall d :: Owner(s, d, id) ==> d in s'.clients && s'.clients[d] == s.clients[d]
    ensures Work(s', id) == Work(s, id)
  {
    assert |s'.stages| == |s'.stages.Keys| && |s.stages| == |s.stages.Keys|;
    if d :| Owner(s, d, id) {
      SameOwner(s, s', d, id);
    }
  }

  lemma SameOwner(s: State, s': State, d: nat, id: int)
    requires OneRunner(s) && Owner(s, d, id) && Owner(s', d, id) && s'.clients[d] == s.clients[d]
    requires (forall d' :: Owner(s', d', id) <==> Owner(s, d', id)) && id in s.stages && id in s'.stages
    requires |s'.stages| == |s.stages|
    ensures Work(s', id) == Work(s, id)
  {
    assert forall d' :: Owner(s, d', id) ==> d' == d;
  }

  /** An operation is work if its client is busy before or after it. */
  ghost predicate Works(s: State, a: Action, s': State) {
    a.Turn? && a.c in s.clients && a.c in s'.clients && (Busy(s.clients[a.c].phase) || Busy(s'.clients[a.c].phase))
  }

  ghost predicate SameStages(s: State, s': State) {
    s'.stages.Keys == s.stages.Keys && |s'.stages| == |s.stages| && DoneRowsStay(s, s') && OneRunner(s')
  }

  lemma BusyWork(s: State, c: nat, e: Effect)
    requires Acts(s, c, e) && Busy(s.clients[c].phase) && ClientQ(s, s.clients[c]) && SameStages(s, Apply(s, c, e))
    requires Weight(Apply(s, c, e).clients[c], |s.stages|) < Weight(s.clients[c], |s.stages|)
    ensures var x := s.clients[c].task; x in s.stages && Work(Apply(s, c, e), x) < Work(s, x)
    ensures forall id :: id != s.clients[c].task ==> !Owner(s, c, id) && !Owner(Apply(s, c, e), c, id)
  {
    var s', x := Apply(s, c, e), s.clients[c].task;
    BusyGoesOn(s, c, e);
    OthersStay(s, c, e);
    WorkFalls(s, c, s', x);
  }

  lemma BusyGoesOn(s: State, c: nat, e: Effect)
    requires Acts(s, c, e) && Busy(s.clients[c].phase) && ClientQ(s, s.clients[c]) && SameStages(s, Apply(s, c, e))
    ensures var s', x := Apply(s, c, e), s.clients[c].task;
      && x in s.stages && x in s'.stages
      && if Busy(s'.clients[c].phase) then s'.clients[c].task == x else s'.stages[x].IsDone()
  {
    assert ClientOK(s, s.clients[c]);
    BusyStays(s, c, e);
  }

  lemma OthersStay(s: State, c: nat, e: Effect)
    requires c in s.clients
    ensures Apply(s, c, e).clients.Keys == s.clients.Keys
    ensures forall d :: d in s.clients && d != c ==> Apply(s, c, e).clients[d] == s.clients[d]
  {
  }

  /** An owner with less to do, or none that is left and a finished row. */
  lemma WorkFalls(s: State, c: nat, s': State, x: int)
    requires OneRunner(s) && OneRunner(s') && Owner(s, c, x) && s'.clients.Keys == s.clients.Keys
    requires x in s.stages && x in s'.stages && |s'.stages| == |s.stages|
    requires forall d :: d in s.clients && d != c ==> s'.clients[d] == s.clients[d]
    requires Weight(s'.clients[c], |s.stages|) < Weight(s.clients[c], |s.stages|)
    requires if Busy(s'.clients[c].phase) then s'.clients[c].task == x else s'.stages[x].IsDone()
    ensures Work(s', x) < Work(s, x)
  {
    WorkOfOwner(s, c, x);
    if Busy(s'.clients[c].phase) {
      WorkOfOwner(s', c, x);
    } else {
      NoOwnerLeft(s, c, s', x);
    }
  }

  lemma ClaimWork(s: State, c: nat, e: Effect, rank: Rank)
    requires Acts(s, c, e) && !Busy(s.clients[c].phase) && Busy(Apply(s, c, e).clients[c].phase)
    requires RowsH(s.stages, rank) && SameStages(s, Apply(s, c, e))
    ensures var x := s.clients[c].task; x in s.stages && Work(Apply(s, c, e), x) < Work(s, x)
    ensures forall id :: id != s.clients[c].task ==> !Owner(s, c, id) && !Owner(Apply(s, c, e), c, id)
  {
    var s', cl := Apply(s, c, e), s.clients[c];
    Claimed1(s, c, e);
    assert RowH(s.stages[cl.task]);
    WorkOfOwner(s', c, cl.task);
  }

  lemma NoOwnerLeft(s: State, c: nat, s': State, x: int)
    requires OneRunner(s) && Owner(s, c, x) && !Owner(s', c, x) && s'.clients.Keys == s.clients.Keys
    requires forall d :: d in s.clients && d != c ==> s'.clients[d] == s.clients[d]
    ensures forall d :: !Owner(s', d, x)
  {
  }

  /** A client becomes busy by accepting an unassigned stage that nobody holds. */
  lemma Claimed1(s: State, c: nat, e: Effect)
    requires Acts(s, c, e) && !Busy(s.clients[c].phase) && Busy(Apply(s, c, e).clients[c].phase)
    ensures var x := s.clients[c].task;
      && x in s.stages && s.stages[x].machine == "" && Apply(s, c, e).clients[c].phase.Claimed?
      && Owner(Apply(s, c, e), c, x) && forall d :: !Owner(s, d, x)
  {
    assert ClientOK(s, s.clients[c]);
    forall d | d in s.clients ensures ClientOK(s, s.clients[d]) {
    }
    if e.WriteStage? {
      Writes(s, c, e);
    }
  }

  lemma TurnKeeps(s: State, c: nat, op: Op, s': State, rank: Rank)
    requires Reachable(s, rank) && Next(s, Turn(c, op), s') && SmoothOp(s, s.clients[c], op)
    ensures SameStages(s, s') && Acts(s, c, Plan(s, s.clients[c], op))
  {
    ReachableIsHealthy(s, rank);
    TurnActs(s, c, op, rank);
    QuietTurn(s, c, op, s', rank);
    RowsKeptH(s, c, Plan(s, s.clients[c], op), rank);
    assert |s'.stages| == |s'.stages.Keys| == |s.stages|;
  }

  ghost predicate Enumerates(ids: seq<int>, keys: set<int>) {
    && (forall id :: id in ids <==> id in keys)
    && (forall i, j :: 0 <= i < j < |ids| ==> ids[i] != ids[j])
  }

  /** Work makes the total smaller, and everything else leaves it alone. */
  lemma TurnTotal(s: State, c: nat, op: Op, s': State, rank: Rank, ids: seq<int>)
    requires Reachable(s, rank) && Next(s, Turn(c, op), s') && SmoothOp(s, s.clients[c], op)
    requires Enumerates(ids, s.stages.Keys)
    ensures s'.stages.Keys == s.stages.Keys
    ensures if Works(s, Turn(c, op), s') then Total(s', ids) < Total(s, ids) else Total(s', ids) == Total(s, ids)
  {
    TurnKeeps(s, c, op, s', rank);
    var e := Plan(s, s.clients[c], op);
    if Works(s, Turn(c, op), s') {
      var x := WorksOn(s, c, op, s', rank);
      WorkMoves(s, c, e, ids, x);
    } else {
      WorkStays(s, c, e, ids);
    }
  }

  lemma WorksOn(s: State, c: nat, op: Op, s': State, rank: Rank) returns (x: int)
    requires Reachable(s, rank) && Next(s, Turn(c, op), s') && SmoothOp(s, s.clients[c], op)
    requires Works(s, Turn(c, op), s')
    requires SameStages(s, s') && Acts(s, c, Plan(s, s.clients[c], op))
    ensures x in s.stages && Work(s', x) < Work(s, x)
    ensures forall id :: id != x ==> !Owner(s, c, id) && !Owner(s', c, id)
  {
    ReachableIsHealthy(s, rank);
    x := s.clients[c].task;
    if Busy(s.clients[c].phase) {
      assert ClientQ(s, s.clients[c]);
      BusyWeight(s, c, op);
      BusyWork(s, c, Plan(s, s.clients[c], op));
    } else {
      ClaimWork(s, c, Plan(s, s.clients[c], op), rank);
    }
  }

  lemma WorkMoves(s: State, c: nat, e: Effect, ids: seq<int>, x: int)
    requires Acts(s, c, e) && SameStages(s, Apply(s, c, e)) && Enumerates(ids, s.stages.Keys) && x in s.stages
    requires Work(Apply(s, c, e), x) < Work(s, x)
    requires forall id :: id != x ==> !Owner(s, c, id) && !Owner(Apply(s, c, e), c, id)
    ensures Total(Apply(s, c, e), ids) < Total(s, ids)
  {
    forall id | id in ids && id != x ensures Work(Apply(s, c, e), id) == Work(s, id) {
      WorkElsewhere(s, c, e, id);
    }
    TotalFalls(s, Apply(s, c, e), ids, x);
  }

  lemma WorkStays(s: State, c: nat, e: Effect, ids: seq<int>)
    requires Acts(s, c, e) && SameStages(s, Apply(s, c, e)) && Enumerates(ids, s.stages.Keys)
    requires !Busy(s.clients[c].phase) && !Busy(Apply(s, c, e).clients[c].phase)
    ensures Total(Apply(s, c, e), ids) == Total(s, ids)
  {
    forall id | id in ids ensures Work(Apply(s, c, e), id) == Work(s, id) {
      WorkElsewhere(s, c, e, id);
    }
    SameTotal(s, Apply(s, c, e), ids);
  }

  lemma {:induction false} SameTotal(s: State, s': State, ids: seq<int>)
    requires forall id :: id in ids ==> id in s.stages && id in s'.stages && Work(s', id) == Work(s, id)
    ensures Total(s', ids) == Total(s, ids)
  {
    if |ids| == 0 {
    } else {
      SameTotal(s, s', ids[1..]);
    }
  }

  lemma ServeTotal(s: State, q: QueueOp, s': State, ids: seq<int>)
    requires OneRunner(s) && Served(s, q, s') && Enumerates(ids, s.stages.Keys)
    ensures Total(s', ids) == Total(s, ids)
  {
    forall x | x in ids ensures Work(s', x) == Work(s, x) {
      assert forall d :: Owner(s', d, x) <==> Owner(s, d, x);
      SameWork(s, s', x);
    }
    SameTotal(s, s', ids);
  }

  // ---------- a bound for every run ----------

  /** How many of the steps from m to n are work. */
  ghost function WorkCount(states: seq<State>, acts: seq<Action>, m: nat, n: nat): nat
    requires |states| == |acts| + 1 && m <= n < |states|
  {
    if m == n then 0
    else WorkCount(states, acts, m, n - 1) + if Works(states[n - 1], acts[n - 1], states[n]) then 1 else 0
  }

  /** One step that creates no build. */
  lemma StepTotal(s: State, a: Action, s': State, rank: Rank, ids: seq<int>)
    requires Reachable(s, rank) && Next(s, a, s') && Smooth(s, a, rank) && !a.Create?
    requires Enumerates(ids, s.stages.Keys)
    ensures s'.stages.Keys == s.stages.Keys
    ensures if Works(s, a, s') then Total(s', ids) < Total(s, ids) else Total(s', ids) == Total(s, ids)
  {
    match a
    case Turn(c, op) => TurnTotal(s, c, op, s', rank, ids);
    case Serve(q) =>
      ReachableIsHealthy(s, rank);
      ServeTotal(s, q, s', ids);
  }

  /** The i-th step keeps the stages and spends work if it is work. */
  ghost predicate Spends(states: seq<State>, acts: seq<Action>, ids: seq<int>, i: nat) {
    && |states| == |acts| + 1 && i < |acts| && states[i + 1].stages.Keys == states[i].stages.Keys
    && (forall id :: id in ids ==> id in states[i].stages)
    && (if Works(states[i], acts[i], states[i + 1]) then Total(states[i + 1], ids) < Total(states[i], ids)
        else Total(states[i + 1], ids) == Total(states[i], ids))
  }

  lemma StepSpends(states: seq<State>, acts: seq<Action>, rank: Rank, ids: seq<int>, i: nat)
    requires SmoothRun(states, acts, rank) && i < |acts| && !acts[i].Create? && Enumerates(ids, states[i].stages.Keys)
    ensures Spends(states, acts, ids, i)
  {
    ReachedBy(states, acts, rank, i);
    StepTotal(states[i], acts[i], states[i + 1], rank, ids);
  }

  lemma NextKeys(s: State, a: Action, s': State)
    requires Next(s, a, s') && !a.Create?
    ensures s'.stages.Keys == s.stages.Keys
  {
  }

  lemma {:induction false} KeysAlong(states: seq<State>, acts: seq<Action>, m: nat, n: nat)
    requires Steps(states, acts) && m <= n < |states| && forall i :: m <= i < n ==> !acts[i].Create?
    ensures states[n].stages.Keys == states[m].stages.Keys
  {
    if m == n {
    } else {
      KeysAlong(states, acts, m, n - 1);
      NextKeys(states[n - 1], acts[n - 1], states[n]);
    }
  }

  lemma AllSpend(states: seq<State>, acts: seq<Action>, rank: Rank, ids: seq<int>, m: nat, n: nat)
    requires SmoothRun(states, acts, rank) && m <= n < |states| && Enumerates(ids, states[m].stages.Keys)
    requires forall i :: m <= i < n ==> !acts[i].Create?
    ensures forall i :: m <= i < n ==> Spends(states, acts, ids, i)
  {
    forall i | m <= i < n ensures Spends(states, acts, ids, i) {
      KeysAlong(states, acts, m, i);
      StepSpends(states, acts, rank, ids, i);
    }
  }

  lemma {:induction false} SumSpends(states: seq<State>, acts: seq<Action>, ids: seq<int>, m: nat, n: nat)
    requires |states| == |acts| + 1 && m <= n < |states| && forall i :: m <= i < n ==> Spends(states, acts, ids, i)
    requires forall id :: id in ids ==> id in states[m].stages
    ensures states[n].stages.Keys == states[m].stages.Keys
    ensures WorkCount(states, acts, m, n) + Total(states[n], ids) <= Total(states[m], ids)
  {
    if m == n {
    } else {
      SumSpends(states, acts, ids, m, n - 1);
      assert Spends(states, acts, ids, n - 1);
    }
  }

  /** Every run is finite up to polling: between creations of builds the work done and
      the work left never exceed the work there was, which is quadratic in the number
      of stages. */
  lemma WorkIsBounded(states: seq<State>, acts: seq<Action>, rank: Rank, ids: seq<int>, m: nat, n: nat)
    requires SmoothRun(states, acts, rank) && m <= n < |states| && Enumerates(ids, states[m].stages.Keys)
    requires forall i :: m <= i < n ==> !acts[i].Create?
    ensures states[n].stages.Keys == states[m].stages.Keys
    ensures WorkCount(states, acts, m, n) + Total(states[n], ids) <= Total(states[m], ids) <= |ids| * (2 * |ids| + 14)
  {
    AllSpend(states, acts, rank, ids, m, n);
    SumSpends(states, acts, ids, m, n);
    ReachedBy(states, acts, rank, m);
    TotalAtMost(states[m], rank, ids);
  }

  lemma ReachedBy(states: seq<State>, acts: seq<Action>, rank: Rank, n: nat)
    requires SmoothRun(states, acts, rank) && n < |states|
    ensures Reachable(states[n], rank)
  {
    var states', acts' := states[..n + 1], acts[..n];
    assert SmoothRun(states', acts', rank) && states'[|acts'|] == states[n];
  }

  lemma TotalAtMost(s: State, rank: Rank, ids: seq<int>)
    requires Reachable(s, rank) && Enumerates(ids, s.stages.Keys)
    ensures Total(s, ids) <= |ids| * (2 * |ids| + 14)
  {
    EnumeratesSize(ids, s.stages.Keys);
    assert |s.stages| == |s.stages.Keys|;
    forall id | id in ids ensures Work(s, id) <= 2 * |s.stages| + 14 {
      ReachableIsHealthy(s, rank);
      WorkAtMost(s, id, rank);
    }
    TotalBound(s, ids, 2 * |ids| + 14);
  }

  lemma {:induction false} EnumeratesSize(ids: seq<int>, keys: set<int>)
    requires Enumerates(ids, keys)
    ensures |ids| == |keys|
    decreases |ids|
  {
    if |ids| == 0 {
      assert forall id :: id in keys ==> id in ids;
      assert keys == {};
    } else {
      assert ids == [ids[0]] + ids[1..];
      OneMore(keys - {ids[0]}, ids[0]);
      assert keys == keys - {ids[0]} + {ids[0]};
      EnumeratesSize(ids[1..], keys - {ids[0]});
    }
  }

  lemma WorkAtMost(s: State, id: int, rank: Rank)
    requires Healthy(s, rank) && id in s.stages
    ensures Work(s, id) <= 2 * |s.stages| + 14
  {
    if c :| Owner(s, c, id) {
      WorkOfOwner(s, c, id);
      assert ClientQ(s, s.clients[c]);
      SweepFits(s, s.clients[c]);
    }
  }

  // ---------- no run sticks ----------

  lemma {:induction false} LateStamp(log: seq<Event>) returns (now: int)
    ensures forall ev :: ev in log && ev.Finished? ==> ev.stamp < now
  {
    if |log| == 0 {
      now := 0;
    } else {
      now := LateStamp(log[1..]);
      if log[0].Finished? && log[0].stamp >= now {
        now := log[0].stamp + 1;
      }
      assert log == [log[0]] + log[1..];
    }
  }

  lemma {:induction false} ListingOf(rows: Stages, b: int, ids: set<int>) returns (list: seq<Stage>)
    requires forall id :: id in ids ==> id in rows && rows[id].id == id && rows[id].buildId == b
    ensures forall j :: 0 <= j < |list| ==> list[j].id in ids && rows[list[j].id] == list[j]
    ensures forall id :: id in ids ==> rows[id] in list
    ensures forall j, k :: 0 <= j < k < |list| ==> list[j].id < list[k].id
    decreases |ids|
  {
    if |ids| == 0 {
      list := [];
    } else {
      var m := Largest(ids);
      var rest := ListingOf(rows, b, ids - {m});
      list := rest + [rows[m]];
      assert list[|rest|] == rows[m];
    }
  }

  /** A busy client can always do its next operation. */
  lemma BusyMoves(s: State, c: nat, rank: Rank) returns (op: Op)
    requires Base(s) && c in s.clients && ClientH(s, s.clients[c]) && Busy(s.clients[c].phase)
    ensures Enabled(s, s.clients[c], op) && SmoothOp(s, s.clients[c], op)
  {
    var cl := s.clients[c];
    assert ClientOK(s, cl);
    match cl.phase
    case Claimed => op := Poll(Details);
    case Detailed => op := Poll(Inspect);
    case Inspected => op := Poll(SetupFind);
    case SetupRead => op := Poll(SetupCommit(0));
    case Begun => op := Poll(UpdateBuild(0));
    case Executing => op := Poll(Complete(Passing));
    case Finishing => op := Report(FinishFind);
    case FinishRead =>
      var now := LateStamp(s.log);
      op := Report(FinishCommit(now));
    case Listing =>
      var b := cl.build.value.id;
      var list := ListingOf(s.stages, b, set id | id in s.stages && s.stages[id].buildId == b);
      op := Report(FinishList(list));
    case Skipping => op := Report(Skip(0));
    case Releasing => op := Report(Release(0));
    case Closing => op := Report(Settle(0));
    case _ =>
  }

  /** If nobody is busy and a stage is not done, some stage is pending and unassigned. */
  lemma {:induction false} SomeonePending(s: State, x: int, rank: Rank) returns (y: int)
    requires Healthy(s, rank) && x in s.stages && !s.stages[x].IsDone()
    requires forall c :: c in s.clients ==> !Busy(s.clients[c].phase)
    ensures y in s.stages && s.stages[y].status.Pending? && s.stages[y].machine == ""
    decreases rank(x)
  {
    assert RowH(s.stages[x]);
    assert forall c, id :: !Owner(s, c, id);
    if s.stages[x].status.Waiting? {
      assert s.stages[x].dependsOn[0] in s.stages[x].dependsOn;
      var d := Unfinished(s, x, rank);
      y := SomeonePending(s, d, rank);
    } else {
      y := x;
    }
  }

  /** The oldest pending stage has no older sibling, so a pass finds it ready. */
  lemma OldestIsReady(s: State, x: int, rank: Rank) returns (y: int)
    requires Healthy(s, rank) && x in s.stages && s.stages[x].status.Pending? && s.stages[x].machine == ""
    requires forall c :: c in s.clients ==> !Busy(s.clients[c].phase)
    ensures y in Ready(s.stages)
  {
    var pending := set id | id in s.stages && s.stages[id].status.Pending? && s.stages[id].machine == "";
    assert x in pending;
    y := Least(pending);
    assert RowH(s.stages[y]);
    assert forall c, id :: !Owner(s, c, id);
    forall z | z in s.stages && UnfinishedStatus(s.stages[z].status) ensures z in pending {
      assert RowH(s.stages[z]);
    }
    assert OlderSiblings(s.stages, s.stages[y]) == {};
  }

  lemma Unfinished(s: State, x: int, rank: Rank) returns (d: int)
    requires Healthy(s, rank) && x in s.stages && s.stages[x].status.Waiting? && (forall c, id :: !Owner(s, c, id))
    requires exists d0 :: DepOf(s.stages, d0, x)
    ensures DepOf(s.stages, d, x) && !s.stages[d].IsDone() && rank(d) < rank(x)
  {
    if forall d0 :: DepOf(s.stages, d0, x) ==> HasFinished(s.log, d0) {
      NotForgotten(s, x);
    }
    d :| DepOf(s.stages, d, x) && !HasFinished(s.log, d);
    assert RowQ(s, d) && RowH(s.stages[d]);
    if s.stages[d].IsDone() {
      InLog(s.log, d, s.stages[d].updated);
    }
  }

  /** A smooth continuation. */
  ghost predicate Leads(s: State, s': State, rank: Rank) {
    exists states, acts :: SmoothSteps(states, acts, rank) && states[0] == s && states[|acts|] == s'
  }

  /** Smooth steps that create no build. */
  ghost predicate SmoothSteps(states: seq<State>, acts: seq<Action>, rank: Rank) {
    Steps(states, acts) && forall i :: 0 <= i < |acts| ==> Smooth(states[i], acts[i], rank) && !acts[i].Create?
  }

  lemma LeadsSelf(s: State, rank: Rank)
    ensures Leads(s, s, rank)
  {
    var states, acts: seq<Action> := [s], [];
    assert SmoothSteps(states, acts, rank) && states[0] == s && states[|acts|] == s;
  }

  lemma LeadsNext(s: State, mid: State, a: Action, s': State, rank: Rank)
    requires Leads(s, mid, rank) && Next(mid, a, s') && Smooth(mid, a, rank) && !a.Create?
    ensures Leads(s, s', rank)
  {
    var states, acts :| SmoothSteps(states, acts, rank) && states[0] == s && states[|acts|] == mid;
    var states', acts' := states + [s'], acts + [a];
    forall i | 0 <= i < |acts'|
      ensures Next(states'[i], acts'[i], states'[i + 1]) && Smooth(states'[i], acts'[i], rank) && !acts'[i].Create?
    {
      assert i < |acts| ==> states'[i] == states[i] && states'[i + 1] == states[i + 1] && acts'[i] == acts[i];
    }
    assert SmoothSteps(states', acts', rank) && states'[0] == s && states'[|acts'|] == s';
  }

  /** What holds along a continuation. */
  ghost predicate OnTheWay(s: State, mid: State, rank: Rank, ids: seq<int>) {
    && Leads(s, mid, rank) && Reachable(mid, rank) && mid.stages.Keys == s.stages.Keys && Enumerates(ids, s.stages.Keys)
    && Total(mid, ids) <= Total(s, ids)
  }

  lemma GoOn(s: State, mid: State, a: Action, s': State, rank: Rank, ids: seq<int>)
    requires OnTheWay(s, mid, rank, ids) && Next(mid, a, s') && Smooth(mid, a, rank) && !a.Create?
    ensures OnTheWay(s, s', rank, ids) && (Works(mid, a, s') ==> Total(s', ids) < Total(s, ids))
  {
    LeadsNext(s, mid, a, s', rank);
    ReachableNext(mid, a, s', rank);
    StepTotal(mid, a, s', rank, ids);
  }

  lemma Moves2(s: State, mid: State, c: nat, op: Op, rank: Rank, ids: seq<int>) returns (s': State)
    requires OnTheWay(s, mid, rank, ids) && c in mid.clients
    requires Enabled(mid, mid.clients[c], op) && SmoothOp(mid, mid.clients[c], op)
    ensures s' == Apply(mid, c, Plan(mid, mid.clients[c], op)) && OnTheWay(s, s', rank, ids)
    ensures Busy(mid.clients[c].phase) || Busy(s'.clients[c].phase) ==> Total(s', ids) < Total(s, ids)
  {
    s' := Apply(mid, c, Plan(mid, mid.clients[c], op));
    GoOn(s, mid, Turn(c, op), s', rank, ids);
  }

  lemma Serves2(s: State, mid: State, q: QueueOp, s': State, rank: Rank, ids: seq<int>)
    requires OnTheWay(s, mid, rank, ids) && Served(mid, q, s')
    ensures OnTheWay(s, s', rank, ids)
  {
    GoOn(s, mid, Serve(q), s', rank, ids);
  }

  /** The dispatcher ends its pass, lists again, and hands a ready stage to a client that is
      not busy. */
  lemma HandsReady(s: State, c: nat, y: int, rank: Rank, ids: seq<int>) returns (s': State)
    requires OnTheWay(s, s, rank, ids) && c in s.clients && !Busy(s.clients[c].phase) && y in Ready(s.stages)
    ensures OnTheWay(s, s', rank, ids) && s'.stages == s.stages && c in s'.clients
    ensures s'.clients[c].phase.Offered? && s'.clients[c].task == y
  {
    var s1 := s.(offer := {});
    Serves2(s, s, EndPass, s1, rank, ids);
    var s2 := s1.(offer := Ready(s1.stages), listed := s1.listed + Ready(s1.stages));
    Serves2(s, s1, List, s2, rank, ids);
    var s3 := Moves2(s, s2, c, Abort, rank, ids);
    s' := s3.(clients := s3.clients[c := s3.clients[c].(phase := Offered, task := y)], offer := s3.offer - {y});
    Serves2(s, s3, Hand(c, y), s', rank, ids);
  }

  /** Any client that is not busy can claim a stage that is ready. */
  lemma ClaimsReady(s: State, c: nat, y: int, rank: Rank, ids: seq<int>) returns (s': State)
    requires OnTheWay(s, s, rank, ids) && c in s.clients && !Busy(s.clients[c].phase)
    requires y in Ready(s.stages) && s.stages[y].id == y
    ensures OnTheWay(s, s', rank, ids) && Total(s', ids) < Total(s, ids)
  {
    var s1 := HandsReady(s, c, y, rank, ids);
    var s2 := Moves2(s, s1, c, Poll(AcceptFind), rank, ids);
    s' := Moves2(s, s2, c, Poll(AcceptCommit(0)), rank, ids);
  }

  /** Everything is done: every stage has passed, every build with a stage is passing,
      and nobody is busy with a stage. */
  ghost predicate Completed(s: State) {
    && (forall id :: id in s.stages ==>
          && s.stages[id].status.Passing?
          && s.stages[id].buildId in s.builds && s.builds[s.stages[id].buildId].status.Passing?)
    && (forall c, id :: !Owner(s, c, id))
  }

  lemma {:induction false} NoWorkLeft(s: State, ids: seq<int>, id: int)
    requires (forall x :: x in ids ==> x in s.stages) && Total(s, ids) == 0 && id in ids
    ensures Work(s, id) == 0
  {
    if ids[0] != id {
      assert ids == [ids[0]] + ids[1..];
      NoWorkLeft(s, ids[1..], id);
    }
  }

  lemma NothingLeft(s: State, rank: Rank, ids: seq<int>, id: int)
    requires Reachable(s, rank) && Enumerates(ids, s.stages.Keys) && Total(s, ids) == 0 && id in s.stages
    ensures s.stages[id].status.Passing? && forall c :: !Owner(s, c, id)
  {
    NoWorkLeft(s, ids, id);
    WorkMeans(s, rank, id);
  }

  lemma WorkMeans(s: State, rank: Rank, id: int)
    requires Reachable(s, rank) && id in s.stages && Work(s, id) == 0
    ensures s.stages[id].status.Passing? && forall c :: !Owner(s, c, id)
  {
    ReachableIsHealthy(s, rank);
    assert RowH(s.stages[id]);
    if c :| Owner(s, c, id) {
      OwnerWorks(s, c, id);
    }
  }

  lemma OwnerWorks(s: State, c: nat, id: int)
    requires OneRunner(s) && Owner(s, c, id) && id in s.stages
    ensures Work(s, id) > 0
  {
    WorkOfOwner(s, c, id);
  }

  lemma OwnersHaveStages(s: State, rank: Rank)
    requires Reachable(s, rank)
    ensures forall c, id :: Owner(s, c, id) ==> id in s.stages
  {
    ReachableIsHealthy(s, rank);
    forall c, id | Owner(s, c, id) ensures id in s.stages {
      assert ClientOK(s, s.clients[c]);
    }
  }

  /** A build whose stages are done, with no teardown under way, is passing. */
  lemma BuildPasses(s: State, b: int, rank: Rank)
    requires Reachable(s, rank) && AllDone(s, b) && (forall c, id :: !Owner(s, c, id))
    ensures b in s.builds && s.builds[b].status.Passing?
  {
    ReachableIsHealthy(s, rank);
    if c :| Closer(s, c, b) {
      assert Owner(s, c, s.clients[c].task);
    }
  }

  /** No work left means complete. */
  lemma NoWorkIsComplete(s: State, rank: Rank, ids: seq<int>)
    requires Reachable(s, rank) && Enumerates(ids, s.stages.Keys) && Total(s, ids) == 0
    ensures Completed(s)
  {
    forall id | id in s.stages ensures s.stages[id].status.Passing? && forall c :: !Owner(s, c, id) {
      NothingLeft(s, rank, ids, id);
    }
    OwnersHaveStages(s, rank);
    forall id | id in s.stages
      ensures s.stages[id].buildId in s.builds && s.builds[s.stages[id].buildId].status.Passing?
    {
      assert AllDone(s, s.stages[id].buildId);
      BuildPasses(s, s.stages[id].buildId, rank);
    }
  }

  /** Some stage is held by a client or is ready to be claimed. */
  lemma WorkIsFound(s: State, rank: Rank, ids: seq<int>) returns (busy: bool, c: nat, y: int)
    requires Reachable(s, rank) && Enumerates(ids, s.stages.Keys) && Total(s, ids) > 0 && |s.clients| > 0
    ensures c in s.clients && (busy <==> Busy(s.clients[c].phase))
    ensures !busy ==> y in Ready(s.stages) && s.stages[y].id == y
  {
    ReachableIsHealthy(s, rank);
    y := 0;
    if c0 :| c0 in s.clients && Busy(s.clients[c0].phase) {
      busy, c := true, c0;
    } else {
      assert |s.clients.Keys| > 0;
      busy := false;
      c :| c in s.clients;
      var x := SomeWork(s, ids);
      y := SomeonePending(s, x, rank);
      y := OldestIsReady(s, y, rank);
    }
  }

  lemma {:induction false} SomeWork(s: State, ids: seq<int>) returns (x: int)
    requires (forall id :: id in ids ==> id in s.stages) && Total(s, ids) > 0
    ensures x in ids && Work(s, x) > 0
  {
    if Work(s, ids[0]) > 0 {
      x := ids[0];
    } else {
      assert ids == [ids[0]] + ids[1..];
      x := SomeWork(s, ids[1..]);
    }
  }

  /** Never stuck: as long as work is left, at most six smooth steps do some of it. */
  lemma NeverStuck(s: State, rank: Rank, ids: seq<int>) returns (s': State)
    requires Reachable(s, rank) && Enumerates(ids, s.stages.Keys) && Total(s, ids) > 0 && |s.clients| > 0
    ensures Leads(s, s', rank) && Reachable(s', rank) && s'.stages.Keys == s.stages.Keys
    ensures Total(s', ids) < Total(s, ids)
    ensures |s'.clients| > 0
  {
    LeadsSelf(s, rank);
    var busy, c, y := WorkIsFound(s, rank, ids);
    if busy {
      var op := NextOp(s, c, rank);
      s' := Moves2(s, s, c, op, rank, ids);
    } else {
      s' := ClaimsReady(s, c, y, rank, ids);
    }
    ClientsStay(s, s', rank);
  }

  lemma NextOp(s: State, c: nat, rank: Rank) returns (op: Op)
    requires Reachable(s, rank) && c in s.clients && Busy(s.clients[c].phase)
    ensures Enabled(s, s.clients[c], op) && SmoothOp(s, s.clients[c], op)
  {
    ReachableIsHealthy(s, rank);
    op := BusyMoves(s, c, rank);
  }

  lemma ClientsStay(s: State, s': State, rank: Rank)
    requires Leads(s, s', rank)
    ensures s'.clients.Keys == s.clients.Keys && |s'.clients| == |s.clients|
  {
    var states, acts :| SmoothSteps(states, acts, rank) && states[0] == s && states[|acts|] == s';
    ClientsAlong(states, acts, |acts|);
    assert |s'.clients| == |s'.clients.Keys| && |s.clients| == |s.clients.Keys|;
  }

  lemma {:induction false} ClientsAlong(states: seq<State>, acts: seq<Action>, n: nat)
    requires Steps(states, acts) && n < |states|
    ensures states[n].clients.Keys == states[0].clients.Keys
  {
    if n == 0 {
    } else {
      ClientsAlong(states, acts, n - 1);
      assert Next(states[n - 1], acts[n - 1], states[n]);
    }
  }

  lemma LeadsTrans(s: State, mid: State, s': State, rank: Rank)
    requires Leads(s, mid, rank) && Leads(mid, s', rank)
    ensures Leads(s, s', rank)
  {
    var states, acts :| SmoothSteps(states, acts, rank) && states[0] == mid && states[|acts|] == s';
    LeadsAlong(s, states, acts, rank, |acts|);
  }

  lemma {:induction false} LeadsAlong(s: State, states: seq<State>, acts: seq<Action>, rank: Rank, n: nat)
    requires SmoothSteps(states, acts, rank) && n < |states| && Leads(s, states[0], rank)
    ensures Leads(s, states[n], rank)
  {
    if n == 0 {
    } else {
      LeadsAlong(s, states, acts, rank, n - 1);
      LeadsNext(s, states[n - 1], acts[n - 1], states[n], rank);
    }
  }

  /** Progress: from every reachable state of a smooth run with a client there is a
      smooth continuation to a state in which every stage has passed and every build
      is passing. */
  lemma {:induction false} RunsComplete(s: State, rank: Rank, ids: seq<int>) returns (s': State)
    requires Reachable(s, rank) && Enumerates(ids, s.stages.Keys) && |s.clients| > 0
    ensures Leads(s, s', rank) && s'.stages.Keys == s.stages.Keys && Completed(s')
    decreases Total(s, ids)
  {
    if Total(s, ids) == 0 {
      s' := s;
      LeadsSelf(s, rank);
      NoWorkIsComplete(s, rank, ids);
    } else {
      var mid := NeverStuck(s, rank, ids);
      s' := RunsComplete(mid, rank, ids);
      LeadsTrans(s, mid, s', rank);
    }
  }

  /** Each stage is accepted, begun and finished at most once, and only after all its
      dependencies have finished. */
  lemma RunsInOrder(states: seq<State>, acts: seq<Action>, rank: Rank, n: nat)
    requires SmoothRun(states, acts, rank) && n < |states|
    ensures Topological(states[n])
    ensures forall i, j :: 0 <= i < j < |states[n].log| ==> !Clash(states[n].log[i], states[n].log[j])
  {
    RunIsTopological(states, acts, rank, n);
    RunKeepsInv(states, acts, n);
  }

  function ChainStage(id: int, name: string, status: Status, dependsOn: seq<string>): Stage {
    Stage(id, 1, 1, id, name, status, "", Platform("linux", "amd64", "", "", map[]), 0, 0, 0, 0, 1,
          true, false, dependsOn)
  }

  function ChainRows(): Stages {
    map[1 := ChainStage(1, "first", Pending, []), 2 := ChainStage(2, "second", Waiting, ["first"])]
  }

  function ChainRank(id: int): nat {
    if id == 2 then 1 else 0
  }

  lemma InitReachable(s: State, rank: Rank)
    requires Init(s)
    ensures Reachable(s, rank)
  {
    var states, acts: seq<Action> := [s], [];
    assert SmoothRun(states, acts, rank) && states[|acts|] == s;
  }

  lemma ChainIsSmooth()
    ensures SmoothRows(ChainRows(), ChainRank)
  {
    var rows := ChainRows();
    assert rows[1].name == "first" && rows[2].name == "second";
    assert forall x, name :: x in rows && name in rows[x].dependsOn ==> name == rows[1].name;
    assert "first"[0] != "second"[0];
  }

  lemma ChainIsCreated(s: State) returns (created: State)
    requires Start(s)
    ensures Next(s, Create(Build(1, 1, 1, Pending, 0, 0, 0, 1), ChainRows()), created)
    ensures created.stages == ChainRows() && created.clients == s.clients
  {
    var rows := ChainRows();
    assert FreshStage(rows[1], 1, 1) && FreshStage(rows[2], 2, 1);
    created := s.(stages := s.stages + rows, builds := s.builds[1 := Build(1, 1, 1, Pending, 0, 0, 0, 1)]);
  }

  /** Such runs exist: from every initial state with a client, a build in which one stage
      waits for another can be created and runs smoothly until both have passed. */
  lemma ChainCompletes(s: State) returns (created: State, s': State)
    requires Init(s) && |s.clients| > 0
    ensures Reachable(created, ChainRank) && created.stages == ChainRows() && DepOf(created.stages, 1, 2)
    ensures Leads(created, s', ChainRank) && s'.stages.Keys == {1, 2} && Completed(s')
  {
    created := ChainIsCreated(s);
    ChainIsSmooth();
    InitReachable(s, ChainRank);
    ReachableNext(s, Create(Build(1, 1, 1, Pending, 0, 0, 0, 1), ChainRows()), created, ChainRank);
    assert created.stages[1].name in created.stages[2].dependsOn;
    assert created.stages.Keys == {1, 2};
    s' := RunsComplete(created, ChainRank, [1, 2]);
  }
}
