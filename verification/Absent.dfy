/** A stage whose dependencies name no stage of its build waits until it is skipped or
    cancelled, in every run. */
module Absent {
  import opened Core
  import opened Store
  import opened Protocol
  import opened Claim
  import opened Final
  import opened Release
  import opened Order
  import opened Deps
  import Boundary

  /** A sweep works on stages of its own build. */
  ghost predicate ListBuild(cl: Client) {
    Swept(cl.phase) ==> cl.build.Some? && forall j :: 0 <= j < |cl.list| ==> cl.list[j].buildId == cl.build.value.id
  }

  ghost predicate Lists(s: State) {
    forall c :: c in s.clients ==> ListBuild(s.clients[c])
  }

  lemma ListsEffect(s: State, c: nat, e: Effect)
    requires c in s.clients && ListBuild(s.clients[c]) && WellFormed(s, s.clients[c], e) && Shifts(s, s.clients[c], e)
    ensures ListBuild(Apply(s, c, e).clients[c])
  {
  }

  lemma ListsStep(s: State, a: Action, s': State)
    requires Inv(s) && Lists(s) && Next(s, a, s')
    ensures Lists(s')
  {
    if a.Turn? {
      assert ClientOK(s, s.clients[a.c]);
      PlanWellFormed(s, s.clients[a.c], a.op);
      PlanShifts(s, s.clients[a.c], a.op);
      ListsEffect(s, a.c, Plan(s, s.clients[a.c], a.op));
    }
    forall c | c in s'.clients ensures ListBuild(s'.clients[c]) {
      assert ListBuild(s.clients[c]);
    }
  }

  lemma ListsNext(states: seq<State>, acts: seq<Action>, i: nat)
    requires Run(states, acts) && i < |acts| && Lists(states[i])
    ensures Lists(states[i + 1])
  {
    RunKeepsInv(states, acts, i);
    ListsStep(states[i], acts[i], states[i + 1]);
  }

  lemma {:induction false} RunLists(states: seq<State>, acts: seq<Action>, n: nat)
    requires Run(states, acts) && n < |states|
    ensures Lists(states[n])
  {
    if n == 0 {
      assert forall c :: c in states[0].clients ==> states[0].clients[c] == Reset(states[0].clients[c]);
    } else {
      RunLists(states, acts, n - 1);
      ListsNext(states, acts, n - 1);
    }
  }

  /** No stage of the build is a dependency of x. */
  ghost predicate NoDeps(rows: Stages, x: int) {
    forall d :: !DepOf(rows, d, x)
  }

  /** A waiting stage without present dependencies is not released. */
  lemma NotReleased(s: State, c: nat, e: Effect, x: int)
    requires Base(s) && c in s.clients && ListBuild(s.clients[c]) && NoDeps(s.stages, x)
    requires e.WriteStage? && WellFormed(s, s.clients[c], e) && e.base.id == x
    ensures !ReleasesOne(s.clients[c], e.base, e.change)
  {
    var cl := s.clients[c];
    assert ClientOK(s, cl);
    if ReleasesOne(cl, e.base, e.change) {
      assert CopyOK(s.stages, e.base) && CopyOK(s.stages, cl.copy.value);
      assert DepOf(s.stages, cl.copy.value.id, x);
    }
  }

  lemma AbsentEffect(s: State, c: nat, e: Effect, x: int)
    requires Base(s) && c in s.clients && ListBuild(s.clients[c]) && NoDeps(s.stages, x)
    requires WellFormed(s, s.clients[c], e) && Shifts(s, s.clients[c], e)
    requires x in s.stages && s.stages[x].status.Waiting? && x !in s.listed
    ensures x in Apply(s, c, e).stages
    ensures Apply(s, c, e).stages[x] == s.stages[x] || Apply(s, c, e).stages[x].IsDone()
  {
    assert ClientOK(s, s.clients[c]);
    if e.WriteStage? && Current(s.stages, e.change) && e.change.id == x {
      BaseIsRow(s, c, e);
      NotReleased(s, c, e, x);
    }
  }

  lemma NoDepsKept(s: State, a: Action, s': State, x: int)
    requires Base(s) && Next(s, a, s') && x in s.stages && NoDeps(s.stages, x)
    ensures x in s'.stages && NoDeps(s'.stages, x)
  {
    match a
    case Create(b, rows) =>
      forall d ensures !DepOf(s'.stages, d, x) {
        assert d in rows ==> FreshStage(rows[d], d, b.id);
        assert !DepOf(s.stages, d, x);
      }
    case Serve(_) =>
    case Turn(c, op) =>
      assert ClientOK(s, s.clients[c]);
      PlanWellFormed(s, s.clients[c], op);
      SameDeps(s, c, Plan(s, s.clients[c], op), x);
  }

  lemma SameDeps(s: State, c: nat, e: Effect, x: int)
    requires Base(s) && c in s.clients && WellFormed(s, s.clients[c], e) && x in s.stages && NoDeps(s.stages, x)
    ensures x in Apply(s, c, e).stages && NoDeps(Apply(s, c, e).stages, x)
  {
    if e.WriteStage? && Current(s.stages, e.change) {
      BaseIsRow(s, c, e);
    }
    forall d ensures !DepOf(Apply(s, c, e).stages, d, x) {
      assert !DepOf(s.stages, d, x);
    }
  }

  lemma AbsentStep(s: State, a: Action, s': State, x: int)
    requires Inv(s) && Lists(s) && Next(s, a, s') && NoDeps(s.stages, x)
    requires x in s.stages && s.stages[x].status.Waiting? && x !in s.listed
    ensures x in s'.stages && (s'.stages[x] == s.stages[x] || s'.stages[x].IsDone())
  {
    if a.Turn? {
      assert ClientOK(s, s.clients[a.c]);
      PlanWellFormed(s, s.clients[a.c], a.op);
      PlanShifts(s, s.clients[a.c], a.op);
      AbsentEffect(s, a.c, Plan(s, s.clients[a.c], a.op), x);
    }
  }

  /** Unchanged, or ended without ever having been listed. */
  ghost predicate WaitsOrEnded(s: State, was: Stage, x: int) {
    x in s.stages && (s.stages[x] == was || (s.stages[x].IsDone() && x !in s.listed))
  }

  /** Over every run, a stage that waits for absent names only stays as it is until a
      teardown skips it or a cancel ends it; it never becomes pending. */
  lemma {:induction false} AbsentNeverReleased(states: seq<State>, acts: seq<Action>, m: nat, n: nat, x: int)
    requires Run(states, acts) && m <= n < |states|
    requires x in states[m].stages && states[m].stages[x].status.Waiting? && NoDeps(states[m].stages, x)
    ensures NoDeps(states[n].stages, x) && WaitsOrEnded(states[n], states[m].stages[x], x)
  {
    if m == n {
    } else {
      AbsentNeverReleased(states, acts, m, n - 1, x);
      AbsentLast(states, acts, n - 1, states[m].stages[x], x);
    }
  }

  lemma AbsentLast(states: seq<State>, acts: seq<Action>, i: nat, was: Stage, x: int)
    requires Run(states, acts) && i < |acts| && NoDeps(states[i].stages, x)
    requires WaitsOrEnded(states[i], was, x) && was.status.Waiting?
    ensures NoDeps(states[i + 1].stages, x) && WaitsOrEnded(states[i + 1], was, x)
  {
    RunKeepsInv(states, acts, i);
    NoDepsKept(states[i], acts[i], states[i + 1], x);
    if x in states[i + 1].listed {
      Boundary.ListedBefore(states[i], acts[i], states[i + 1], x);
    }
    if states[i].stages[x].IsDone() {
      Boundary.NeverListedIsFinal(states, acts, i, i + 1, x);
    } else {
      if x in states[i].listed {
        Boundary.ListedNeverDeclined(states, acts, i, x);
      }
      RunLists(states, acts, i);
      AbsentStep(states[i], acts[i], states[i + 1], x);
    }
  }
}
