/** Runs that show what the hypotheses on teardowns are for: without ordered stamps a
    stage can be forgotten, and overlapping sweeps can release a stage too early. */
module Witness {
  import opened Core
  import opened Store
  import opened Protocol
  import opened Reach
  import opened Deps
  import Final
  import Release
  import Exact
  import Order

  // ---------- a client takes a stage and reports it ----------

  /** The row after a report. */
  function ReportedRow(r: Stage, machine: string, outcome: Status, started: int, now: int, writes: int): Stage {
    r.(machine := machine, status := outcome, started := started, stopped := now, updated := now,
       version := r.version + writes)
  }

  /** What a client that has stored its report for id has done to the state. */
  ghost predicate Stored(s: State, s': State, c: nat, id: int, row: Stage) {
    && c in s.clients && c in s'.clients && id in s.stages
    && s'.stages == s.stages[id := row] && s'.offer == s.offer - {id} && s'.listed == s.listed
    && s'.clients == s.clients[c := s'.clients[c]]
    && s'.clients[c].phase.Listing? && s'.clients[c].task == id && s'.clients[c].copy == Some(row)
    && s'.clients[c].build.Some? && s'.clients[c].build.value.id == row.buildId
    && s'.clients[c].machine == s.clients[c].machine
  }

  ghost predicate Available(s: State, c: nat, id: int) {
    && c in s.clients && s.clients[c].phase.Idle? && id in s.offer && id in s.stages
    && s.stages[id].id == id && s.stages[id].machine == "" && s.stages[id].buildId in s.builds
    && s.builds[s.stages[id].buildId].id == s.stages[id].buildId
  }

  /** Handed over, accepted, and looked at. */
  lemma TakesOn(s: State, mid: State, c: nat, id: int) returns (s': State)
    requires Reaches(s, mid) && Available(mid, c, id)
    ensures Reaches(s, s') && c in s'.clients && s'.clients == mid.clients[c := s'.clients[c]]
    ensures var row := mid.stages[id].(machine := mid.clients[c].machine, status := Pending, updated := 0,
                                       version := mid.stages[id].version + 1);
      && s'.stages == mid.stages[id := row] && s'.builds == mid.builds && s'.listed == mid.listed
      && s'.offer == mid.offer - {id} && s'.log == mid.log + [Accepted(id)]
      && s'.clients[c].phase.Inspected? && s'.clients[c].task == id && s'.clients[c].copy == Some(row)
      && s'.clients[c].build == Some(mid.builds[row.buildId]) && s'.clients[c].machine == mid.clients[c].machine
  {
    var s1 := mid.(clients := mid.clients[c := mid.clients[c].(phase := Offered, task := id)],
                   offer := mid.offer - {id});
    ReachesNext(s, mid, Serve(Hand(c, id)), s1);
    s' := Takes(s, s1, c, Poll(AcceptFind));
    s' := Takes(s, s', c, Poll(AcceptCommit(0)));
    s' := Takes(s, s', c, Poll(Details));
    s' := Takes(s, s', c, Poll(Inspect));
  }

  /** The stage fails before it is set up. */
  lemma Fails(s: State, mid: State, c: nat, id: int, now: int) returns (s': State)
    requires Reaches(s, mid) && Available(mid, c, id)
    ensures Reaches(s, s') && s'.builds == mid.builds && s'.log == mid.log + [Accepted(id), Finished(id, now)]
    ensures Stored(mid, s', c, id,
                   ReportedRow(mid.stages[id], mid.clients[c].machine, Errored, mid.stages[id].started, now, 2))
  {
    s' := TakesOn(s, mid, c, id);
    s' := Takes(s, s', c, Poll(Complete(Errored)));
    s' := Takes(s, s', c, Report(FinishFind));
    s' := Takes(s, s', c, Report(FinishCommit(now)));
  }

  lemma SetsUp(s: State, mid: State, c: nat, id: int) returns (s': State)
    requires Reaches(s, mid) && Available(mid, c, id) && mid.builds[mid.stages[id].buildId].status.Pending?
    ensures Reaches(s, s') && c in s'.clients && s'.clients == mid.clients[c := s'.clients[c]]
    ensures s'.builds.Keys == mid.builds.Keys && forall b :: b in mid.builds ==> s'.builds[b].id == mid.builds[b].id
    ensures var row := mid.stages[id].(machine := mid.clients[c].machine, status := Running, started := 0, updated := 0,
                                       version := mid.stages[id].version + 2);
      && s'.stages == mid.stages[id := row] && s'.listed == mid.listed && s'.offer == mid.offer - {id}
      && s'.log == mid.log + [Accepted(id), Began(id), Announced(row.buildId)]
      && s'.clients[c].phase.Executing? && s'.clients[c].task == id && s'.clients[c].copy == Some(row)
      && s'.clients[c].machine == mid.clients[c].machine
  {
    s' := BeginsOn(s, mid, c, id);
    s' := Takes(s, s', c, Poll(UpdateBuild(0)));
  }

  lemma BeginsOn(s: State, mid: State, c: nat, id: int) returns (s': State)
    requires Reaches(s, mid) && Available(mid, c, id) && mid.builds[mid.stages[id].buildId].status.Pending?
    ensures Reaches(s, s') && c in s'.clients && s'.clients == mid.clients[c := s'.clients[c]]
    ensures var row := mid.stages[id].(machine := mid.clients[c].machine, status := Running, started := 0, updated := 0,
                                       version := mid.stages[id].version + 2);
      && s'.stages == mid.stages[id := row] && s'.builds == mid.builds && s'.listed == mid.listed
      && s'.offer == mid.offer - {id} && s'.log == mid.log + [Accepted(id), Began(id)]
      && s'.clients[c].phase.Begun? && s'.clients[c].task == id && s'.clients[c].copy == Some(row)
      && s'.clients[c].build == Some(mid.builds[row.buildId]) && s'.clients[c].machine == mid.clients[c].machine
  {
    s' := TakesOn(s, mid, c, id);
    s' := Takes(s, s', c, Poll(SetupFind));
    s' := Takes(s, s', c, Poll(SetupCommit(0)));
  }

  /** The stage runs and passes. */
  lemma Passes(s: State, mid: State, c: nat, id: int, now: int) returns (s': State)
    requires Reaches(s, mid) && Available(mid, c, id) && mid.builds[mid.stages[id].buildId].status.Pending?
    ensures Reaches(s, s') && s'.builds.Keys == mid.builds.Keys
    ensures forall b :: b in mid.builds ==> s'.builds[b].id == mid.builds[b].id
    ensures Stored(mid, s', c, id, ReportedRow(mid.stages[id], mid.clients[c].machine, Passing, 0, now, 3))
    ensures s'.log == mid.log + [Accepted(id), Began(id), Announced(mid.stages[id].buildId), Finished(id, now)]
  {
    s' := SetsUp(s, mid, c, id);
    s' := Takes(s, s', c, Poll(Complete(Passing)));
    s' := Takes(s, s', c, Report(FinishFind));
    s' := Takes(s, s', c, Report(FinishCommit(now)));
  }

  // ---------- a client sweeps ----------

  /** The skip loop finds nothing from here on. */
  lemma {:induction false} SkipsNothing(s: State, mid: State, c: nat) returns (s': State)
    requires Reaches(s, mid) && c in mid.clients && mid.clients[c].phase.Skipping?
    requires var cl := mid.clients[c]; forall j :: cl.i <= j < |cl.list| ==> !MustSkip(cl.list[j], cl.failed)
    ensures Reaches(s, s') && s' == mid.(clients := mid.clients[c := mid.clients[c].(phase := Releasing, i := 0)])
    decreases |mid.clients[c].list| - mid.clients[c].i
  {
    s' := Takes(s, mid, c, Report(Skip(0)));
    if mid.clients[c].i < |mid.clients[c].list| {
      s' := SkipsNothing(s, s', c);
      assert s'.clients == mid.clients[c := mid.clients[c].(phase := Releasing, i := 0)];
    }
  }

  /** Nor up to position n. */
  lemma {:induction false} SkipsOver(s: State, mid: State, c: nat, n: nat) returns (s': State)
    requires Reaches(s, mid) && c in mid.clients && mid.clients[c].phase.Skipping?
    requires mid.clients[c].i <= n <= |mid.clients[c].list|
    requires var cl := mid.clients[c]; forall j :: cl.i <= j < n ==> !MustSkip(cl.list[j], cl.failed)
    ensures Reaches(s, s') && s' == mid.(clients := mid.clients[c := mid.clients[c].(i := n)])
    decreases n - mid.clients[c].i
  {
    if mid.clients[c].i == n {
      s' := mid;
    } else {
      s' := Takes(s, mid, c, Report(Skip(0)));
      s' := SkipsOver(s, s', c, n);
      assert s'.clients == mid.clients[c := mid.clients[c].(i := n)];
    }
  }

  /** Neither does the release loop, up to position n. */
  lemma {:induction false} PassesOver(s: State, mid: State, c: nat, n: nat) returns (s': State)
    requires Reaches(s, mid) && c in mid.clients && mid.clients[c].phase.Releasing? && mid.clients[c].copy.Some?
    requires mid.clients[c].i <= n <= |mid.clients[c].list|
    requires var cl := mid.clients[c]; forall j :: cl.i <= j < n ==> !MustRelease(cl.copy.value, cl.list[j], cl.list)
    ensures Reaches(s, s') && s' == mid.(clients := mid.clients[c := mid.clients[c].(i := n)])
    decreases n - mid.clients[c].i
  {
    if mid.clients[c].i == n {
      s' := mid;
    } else {
      s' := Takes(s, mid, c, Report(Protocol.Release(0)));
      s' := PassesOver(s, s', c, n);
      assert s'.clients == mid.clients[c := mid.clients[c].(i := n)];
    }
  }

  lemma ReleasesNothing(s: State, mid: State, c: nat) returns (s': State)
    requires Reaches(s, mid) && c in mid.clients && mid.clients[c].phase.Releasing? && mid.clients[c].copy.Some?
    requires mid.clients[c].i == 0
    requires var cl := mid.clients[c];
             forall j :: 0 <= j < |cl.list| ==> !MustRelease(cl.copy.value, cl.list[j], cl.list)
    ensures Reaches(s, s') && s'.log == mid.log + [Scheduled(mid.clients[c].task)]
    ensures c in s'.clients && s' == mid.(log := s'.log, clients := mid.clients[c := s'.clients[c]])
    ensures s'.clients[c] == mid.clients[c].(phase := Closing, i := |mid.clients[c].list|)
  {
    s' := PassesOver(s, mid, c, |mid.clients[c].list|);
    s' := Takes(s, s', c, Report(Protocol.Release(0)));
  }

  /** A teardown that skips and releases nothing. */
  lemma Idles(s: State, mid: State, c: nat, list: seq<Stage>) returns (s': State)
    requires Reaches(s, mid) && c in mid.clients && mid.clients[c].phase.Listing? && mid.clients[c].build.Some?
    requires mid.clients[c].copy.Some? && IsListing(mid.stages, mid.clients[c].build.value.id, list)
    requires forall r :: r in list ==> !MustSkip(r, AnyFailed(list)) && !MustRelease(mid.clients[c].copy.value, r, list)
    requires !BuildComplete(list)
    ensures Reaches(s, s') && s'.log == mid.log + [Scheduled(mid.clients[c].task)] && c in s'.clients
    ensures s' == mid.(log := s'.log, clients := mid.clients[c := s'.clients[c]])
    ensures s'.clients[c].phase.Idle? && s'.clients[c].machine == mid.clients[c].machine
  {
    s' := Takes(s, mid, c, Report(FinishList(list)));
    s' := SkipsNothing(s, s', c);
    s' := ReleasesNothing(s, s', c);
    s' := Takes(s, s', c, Report(Settle(0)));
  }

  // ---------- unordered stamps ----------

  function Row(id: int, name: string, status: Status, dependsOn: seq<string>, onFailure: bool): Stage {
    Stage(id, 1, 1, id, name, status, "", Platform("linux", "amd64", "", "", map[]), 0, 0, 0, 0, 1,
          true, onFailure, dependsOn)
  }

  function NewBuild(): Build {
    Build(1, 1, 1, Pending, 0, 0, 0, 1)
  }

  /** A build is created and a pass lists its ready stages. */
  lemma Offers(s: State, rows: Stages) returns (s': State)
    requires Start(s) && Fresh(s, NewBuild(), rows)
    ensures Reaches(s, s') && s'.stages == rows && s'.offer == Ready(rows) && s'.log == [] && s'.clients == s.clients
    ensures s'.builds == map[1 := NewBuild()]
  {
    ReachesSelf(s);
    var mid := s.(stages := s.stages + rows, builds := s.builds[1 := NewBuild()]);
    ReachesNext(s, s, Create(NewBuild(), rows), mid);
    assert mid.stages == rows;
    s' := mid.(offer := Ready(rows), listed := mid.listed + Ready(rows));
    ReachesNext(s, mid, Serve(List), s');
  }

  function TwoAndOne(): Stages {
    map[1 := Row(1, "a", Pending, [], true), 2 := Row(2, "b", Pending, [], true),
        3 := Row(3, "x", Waiting, ["a", "b"], true)]
  }

  lemma TwoAndOneIsFresh(s: State)
    requires Start(s)
    ensures Fresh(s, NewBuild(), TwoAndOne()) && Ready(TwoAndOne()) == {1, 2}
  {
    var rows := TwoAndOne();
    assert FreshStage(rows[1], 1, 1) && FreshStage(rows[2], 2, 1) && FreshStage(rows[3], 3, 1);
  }

  lemma Names()
    ensures "a" != "b" && "a" != "x" && "b" != "x" && "a" != "c" && "b" != "c" && "c" != "x"
  {
    assert "a"[0] != "b"[0] && "a"[0] != "x"[0] && "b"[0] != "x"[0];
    assert "a"[0] != "c"[0] && "b"[0] != "c"[0] && "c"[0] != "x"[0];
  }

  function First(m: string): Stage {
    ReportedRow(TwoAndOne()[1], m, Errored, 0, 5, 2)
  }

  function Second(m: string): Stage {
    ReportedRow(TwoAndOne()[2], m, Errored, 0, 3, 2)
  }

  /** The first teardown finds the second dependency unfinished. */
  lemma FirstList(m: string) returns (list: seq<Stage>)
    ensures IsListing(TwoAndOne()[1 := First(m)], 1, list) && !BuildComplete(list)
    ensures forall r :: r in list ==> !MustSkip(r, AnyFailed(list)) && !MustRelease(First(m), r, list)
  {
    Names();
    var rows := TwoAndOne();
    list := [First(m), rows[2], rows[3]];
    assert rows[2] in list && rows[3] in list && First(m) in list;
    assert IsDep(rows[2], rows[3]);
  }

  /** The second finds the first one later than its own stage. */
  lemma SecondList(m: string) returns (list: seq<Stage>)
    ensures IsListing(TwoAndOne()[1 := First(m)][2 := Second(m)], 1, list) && !BuildComplete(list)
    ensures forall r :: r in list ==> !MustSkip(r, AnyFailed(list)) && !MustRelease(Second(m), r, list)
  {
    Names();
    var rows := TwoAndOne();
    list := [First(m), Second(m), rows[3]];
    assert rows[3] in list && First(m) in list && Second(m) in list;
    assert IsDep(First(m), rows[3]) && Later(First(m), Second(m));
  }

  lemma FirstTeardown(s: State, c: nat) returns (s': State)
    requires Init(s) && c in s.clients
    ensures Reaches(s, s') && c in s'.clients
    ensures s'.clients[c].phase.Idle? && s'.clients[c].machine == s.clients[c].machine
    ensures s'.stages == TwoAndOne()[1 := First(s.clients[c].machine)] && s'.offer == {2}
    ensures s'.builds == map[1 := NewBuild()] && s'.log == [Accepted(1), Finished(1, 5), Scheduled(1)]
  {
    TwoAndOneIsFresh(s);
    s' := Offers(s, TwoAndOne());
    s' := Fails(s, s', c, 1, 5);
    var list := FirstList(s.clients[c].machine);
    s' := Idles(s, s', c, list);
  }

  lemma SecondTeardown(s: State, mid: State, c: nat, m: string) returns (s': State)
    requires Reaches(s, mid) && c in mid.clients && mid.clients[c].phase.Idle? && mid.clients[c].machine == m
    requires mid.stages == TwoAndOne()[1 := First(m)] && mid.offer == {2} && mid.builds == map[1 := NewBuild()]
    ensures Reaches(s, s') && s'.stages == TwoAndOne()[1 := First(m)][2 := Second(m)]
    ensures s'.log == mid.log + [Accepted(2), Finished(2, 3), Scheduled(2)]
  {
    s' := Fails(s, mid, c, 2, 3);
    var list := SecondList(m);
    s' := Idles(s, s', c, list);
  }

  /** A stage is forgotten: its first dependency reports with stamp 5, the second later
      with stamp 3, and neither teardown releases it. */
  lemma StampsMatter(s: State, c: nat) returns (s': State)
    requires Init(s) && c in s.clients
    ensures Reaches(s, s') && Release.Quiet(s'.log) && !Exact.Ordered(s')
    ensures 3 in s'.stages && s'.stages[3].status.Waiting? && DepOf(s'.stages, 1, 3)
    ensures forall d :: DepOf(s'.stages, d, 3) ==> Exact.HasFinished(s'.log, d) && Scheduled(d) in s'.log
    ensures forall a :: Released(3, a) !in s'.log
  {
    Names();
    var m := s.clients[c].machine;
    var mid := FirstTeardown(s, c);
    s' := SecondTeardown(s, mid, c, m);
    TwoReports(s'.log);
    assert s'.log[1].stamp >= s'.log[4].stamp;
  }

  lemma TwoReports(log: seq<Event>)
    requires log == [Accepted(1), Finished(1, 5), Scheduled(1)] + [Accepted(2), Finished(2, 3), Scheduled(2)]
    ensures log == [Accepted(1), Finished(1, 5), Scheduled(1), Accepted(2), Finished(2, 3), Scheduled(2)]
    ensures Release.Quiet(log) && (forall a :: Released(3, a) !in log)
    ensures Exact.HasFinished(log, 1) && Exact.HasFinished(log, 2)
  {
    assert Exact.FinishedAt(log, 1, 1) && Exact.FinishedAt(log, 4, 2);
  }

  // ---------- overlapping sweeps ----------

  /** Stage c waits for a and runs on success only; stage x waits for b and c and runs on
      failure too. */
  function Four(): Stages {
    map[1 := Row(1, "a", Pending, [], true), 2 := Row(2, "b", Pending, [], true),
        3 := Row(3, "c", Waiting, ["a"], false), 4 := Row(4, "x", Waiting, ["b", "c"], true)]
  }

  lemma FourIsFresh(s: State)
    requires Start(s)
    ensures Fresh(s, NewBuild(), Four()) && Ready(Four()) == {1, 2}
  {
    var rows := Four();
    assert FreshStage(rows[1], 1, 1) && FreshStage(rows[2], 2, 1);
    assert FreshStage(rows[3], 3, 1) && FreshStage(rows[4], 4, 1);
  }

  function Passed(m: string): Stage {
    ReportedRow(Four()[1], m, Passing, 0, 1, 3)
  }

  function Failed(m: string): Stage {
    ReportedRow(Four()[2], m, Errored, 0, 2, 2)
  }

  function ListA(m: string): seq<Stage> {
    [Passed(m), Four()[2], Four()[3], Four()[4]]
  }

  function ListB(m: string, n: string): seq<Stage> {
    [Passed(m), Failed(n), Four()[3], Four()[4]]
  }

  /** The list of the second sweep after its skip of c. */
  function ListC(m: string, n: string): seq<Stage> {
    ListB(m, n)[2 := Four()[3].(status := Skipped)]
  }

  lemma ListAFacts(m: string)
    ensures IsListing(Four()[1 := Passed(m)], 1, ListA(m)) && !AnyFailed(ListA(m))
    ensures forall j :: 0 <= j < 4 ==> !MustSkip(ListA(m)[j], false)
    ensures forall j :: 0 <= j < 2 ==> !MustRelease(Passed(m), ListA(m)[j], ListA(m))
    ensures MustRelease(Passed(m), ListA(m)[2], ListA(m))
  {
    Names();
    var list := ListA(m);
    assert list[0] in list && list[1] in list && list[2] in list && list[3] in list;
  }

  lemma ListBFacts(m: string, n: string)
    ensures IsListing(Four()[1 := Passed(m)][2 := Failed(n)], 1, ListB(m, n)) && AnyFailed(ListB(m, n))
    ensures forall j :: 0 <= j < 2 ==> !MustSkip(ListB(m, n)[j], true)
    ensures MustSkip(ListB(m, n)[2], true) && !MustSkip(ListB(m, n)[3], true)
  {
    var list := ListB(m, n);
    assert list[0] in list && list[1] in list && list[2] in list && list[3] in list;
  }

  lemma ListCFacts(m: string, n: string)
    ensures forall j :: 0 <= j < 3 ==> !MustRelease(Failed(n), ListC(m, n)[j], ListC(m, n))
    ensures MustRelease(Failed(n), ListC(m, n)[3], ListC(m, n))
  {
    Names();
  }

  /** Stage a passes, and its teardown lists the build and comes to the release loop. */
  lemma SweepBegins(s: State, c: nat) returns (s': State)
    requires Init(s) && c in s.clients
    ensures Reaches(s, s') && c in s'.clients && s'.clients == s.clients[c := s'.clients[c]]
    ensures s'.stages == Four()[1 := Passed(s.clients[c].machine)] && s'.offer == {2}
    ensures s'.builds.Keys == {1} && s'.builds[1].id == 1
    ensures var cl := s'.clients[c];
      && cl.phase.Releasing? && cl.i == 0 && cl.list == ListA(s.clients[c].machine) && cl.task == 1
      && cl.copy == Some(Passed(s.clients[c].machine))
    ensures s'.log == [Accepted(1), Began(1), Announced(1), Finished(1, 1)]
  {
    FourIsFresh(s);
    var m := s.clients[c].machine;
    ListAFacts(m);
    s' := Offers(s, Four());
    s' := Passes(s, s', c, 1, 1);
    s' := Takes(s, s', c, Report(FinishList(ListA(m))));
    s' := SkipsNothing(s, s', c);
  }

  /** Meanwhile stage b fails, and its teardown lists the build. */
  lemma SweepOverlaps(s: State, mid: State, d: nat, m: string) returns (s': State)
    requires Reaches(s, mid) && d in mid.clients && mid.clients[d].phase.Idle? && mid.offer == {2}
    requires mid.stages == Four()[1 := Passed(m)] && mid.builds.Keys == {1} && mid.builds[1].id == 1
    ensures Reaches(s, s') && d in s'.clients && s'.clients == mid.clients[d := s'.clients[d]]
    ensures s'.stages == Four()[1 := Passed(m)][2 := Failed(mid.clients[d].machine)]
    ensures var cl := s'.clients[d];
      && cl.phase.Skipping? && cl.i == 0 && cl.failed && cl.list == ListB(m, mid.clients[d].machine) && cl.task == 2
      && cl.copy == Some(Failed(mid.clients[d].machine))
    ensures s'.log == mid.log + [Accepted(2), Finished(2, 2)]
  {
    ListBFacts(m, mid.clients[d].machine);
    s' := Fails(s, mid, d, 2, 2);
    s' := Takes(s, s', d, Report(FinishList(ListB(m, mid.clients[d].machine))));
  }

  /** The first sweep releases c. */
  lemma FirstReleases(s: State, mid: State, c: nat, m: string) returns (s': State)
    requires Reaches(s, mid) && c in mid.clients && 3 in mid.stages && mid.stages[3] == Four()[3]
    requires var cl := mid.clients[c];
      cl.phase.Releasing? && cl.i == 0 && cl.list == ListA(m) && cl.task == 1 && cl.copy == Some(Passed(m))
    ensures Reaches(s, s') && c in s'.clients && s'.clients == mid.clients[c := s'.clients[c]]
    ensures s'.stages == mid.stages[3 := Four()[3].(status := Pending, version := 2)]
    ensures s'.log == mid.log + [Released(3, 1)]
  {
    ListAFacts(m);
    s' := PassesOver(s, mid, c, 2);
    s' := Takes(s, s', c, Report(Protocol.Release(0)));
  }

  /** The sweep of the failed stage rules out the third record of its list. */
  lemma SecondSkips(s: State, mid: State, d: nat, m: string, n: string) returns (s': State)
    requires Reaches(s, mid) && d in mid.clients && 3 in mid.stages && mid.stages[3].version == 2
    requires var cl := mid.clients[d]; cl.phase.Skipping? && cl.i == 0 && cl.failed && cl.list == ListB(m, n)
    ensures Reaches(s, s') && s'.stages == mid.stages && s'.log == mid.log + [SkipMarked(3)] && d in s'.clients
    ensures s'.clients[d] == mid.clients[d].(i := 3, list := ListC(m, n))
  {
    ListBFacts(m, n);
    s' := SkipsOver(s, mid, d, 2);
    s' := Takes(s, s', d, Report(Skip(0)));
    assert s'.clients[d].list == ListC(m, n);
  }

  /** The second takes c for skipped, although its write is lost, and releases x. */
  lemma SecondReleases(s: State, mid: State, d: nat, m: string, n: string) returns (s': State)
    requires Reaches(s, mid) && d in mid.clients && 3 in mid.stages && 4 in mid.stages
    requires mid.stages[3].version == 2 && mid.stages[4] == Four()[4]
    requires var cl := mid.clients[d];
      && cl.phase.Skipping? && cl.i == 0 && cl.failed && cl.list == ListB(m, n)
      && cl.task == 2 && cl.copy == Some(Failed(n))
    ensures Reaches(s, s') && s'.stages == mid.stages[4 := Four()[4].(status := Pending, version := 2)]
    ensures s'.log == mid.log + [SkipMarked(3), Released(4, 2)]
  {
    s' := SecondSkips(s, mid, d, m, n);
    ListCFacts(m, n);
    s' := SkipsNothing(s, s', d);
    s' := PassesOver(s, s', d, 3);
    s' := Takes(s, s', d, Report(Protocol.Release(0)));
  }

  /** Two overlapping sweeps release a stage before its dependency is done, without any
      cancel or approval. */
  lemma OverlapMatters(s: State, c: nat, d: nat) returns (s': State)
    requires Init(s) && c in s.clients && d in s.clients && c != d
    ensures Reaches(s, s') && Order.Calm(s'.log)
    ensures DepOf(s'.stages, 3, 4) && s'.stages[4].status.Pending? && s'.stages[3].status.Pending?
  {
    var m, n := s.clients[c].machine, s.clients[d].machine;
    s' := SweepBegins(s, c);
    s' := SweepOverlaps(s, s', d, m);
    s' := FirstReleases(s, s', c, m);
    s' := SecondReleases(s, s', d, m, n);
  }
}
