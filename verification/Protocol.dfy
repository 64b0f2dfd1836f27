/** The build execution protocol as a state machine.  Any number of clients
    (runner loops, cancel, approve and decline requests) interleave single store
    operations: a read, a list, or one compare-and-set.  Edits a client makes to
    its copy between two store operations are applied at the operation that
    writes them. */
module Protocol {
  import opened Core
  import opened Store
  import Deps

  datatype Phase =
    | Idle
    | Offered       // Request returned a stage
    | Found         // Accept read a row without a machine
    | Claimed       // Accept committed
    | Detailed      // Details read the row
    | Inspected     // and the build
    | SetupRead     // setup read the build
    | Begun         // setup committed the running stage
    | Executing     // setup is over
    | Finishing     // AfterAll was called
    | FinishRead    // teardown read the build
    | Listing       // teardown committed the finished stage
    | Skipping      // the cancelDownstream loop
    | Releasing     // the scheduleDownstream loop
    | Closing       // the completeness test and the build update
    | CancelRead
    | CancelListing
    | Cancelling    // the cancel loop over stages
    | Approving
    | DeclineRead
    | Declining
    | DeclineClosing

  datatype Client = Client(
    phase: Phase,
    machine: string,
    task: int,              // the stage a runner works on
    begun: bool,            // setup committed for this task
    outcome: Status,        // the status a runner reports
    copy: Option<Stage>,
    build: Option<Build>,
    list: seq<Stage>,
    failed: bool,
    i: nat)

  datatype Event =
    | Accepted(stage: int)
    | Began(stage: int)
    | Finished(stage: int, stamp: int)
    | SkipMarked(stage: int)
    | CancelMarked(stage: int)
    | Released(target: int, dep: int)
    | Scheduled(stage: int)
    | Approved(stage: int)
    | Announced(build: int)
    | Settled(build: int)

  datatype State = State(
    stages: Stages,
    builds: Builds,
    listed: set<int>,       // stages the queue has ever listed as ready
    offer: set<int>,        // those the pass under way may still hand over
    clients: map<nat, Client>,
    log: seq<Event>)

  datatype Action =
    | Create(build: Build, rows: Stages)
    | Serve(q: QueueOp)
    | Turn(c: nat, op: Op)

  /** The dispatcher.  Passes are serial: one lists the ready stages, hands some of them
      to waiting clients, and ends. */
  datatype QueueOp =
    | List
    | Hand(c: nat, id: int)
    | EndPass

  datatype Op =
    | Poll(poll: PollOp)
    | Report(report: ReportOp)
    | Kill(kill: KillOp)
    | Review(review: ReviewOp)
    | Abort          // a crash, an error return, or the check for a killed build

  /** The runner loop up to the point where it calls AfterAll. */
  datatype PollOp =
    | AcceptFind
    | AcceptCommit(now: int)
    | Details
    | Inspect
    | SetupFind
    | SetupCommit(now: int)
    | UpdateBuild(now: int)
    | Complete(outcome: Status)

  /** teardown.do */
  datatype ReportOp =
    | FinishFind
    | FinishCommit(now: int)
    | FinishList(list: seq<Stage>)
    | Skip(now: int)
    | Release(now: int)
    | Settle(now: int)

  /** HandleCancel */
  datatype KillOp =
    | CancelFind(id: int)
    | CancelBuild(now: int)
    | CancelList(list: seq<Stage>)
    | CancelStage(now: int)

  /** HandleApprove and HandleDecline */
  datatype ReviewOp =
    | ApproveFind(id: int)
    | ApproveCommit
    | DeclineFind(id: int)
    | DeclineFindStage(id: int)
    | DeclineCommit
    | DeclineBuild

  /** What one operation does: change the client only, or attempt a
      compare-and-set with one client state for each verdict. */
  datatype Effect =
    | Local(next: Client, note: seq<Event>)
    | WriteStage(base: Stage, change: Stage, won: Client, lost: Client, wonNote: seq<Event>, lostNote: seq<Event>)
    | WriteBuild(record: Build, won: Client, lost: Client, wonNote: seq<Event>)

  function Reset(cl: Client): Client {
    cl.(phase := Idle, begun := false, copy := None, build := None, list := [], i := 0)
  }

  function Next1(cl: Client): Client {
    cl.(i := cl.i + 1)
  }

  function Bump(s: Stage): Stage {
    s.(version := s.version + 1)
  }

  predicate IsListing(rows: Stages, b: int, list: seq<Stage>) {
    && (forall j :: 0 <= j < |list| ==> list[j].id in rows && rows[list[j].id] == list[j] && list[j].buildId == b)
    && (forall id :: id in rows && rows[id].buildId == b ==> rows[id] in list)
    && (forall j, k :: 0 <= j < k < |list| ==> list[j].id < list[k].id)
  }

  /** The runner does not run a killed or skipped build. */
  predicate Cancelled(b: Build) {
    b.status.Killed? || b.status.Skipped?
  }

  /** From here on an error is reported as the outcome of the stage. */
  predicate Started(ph: Phase) {
    ph.Inspected? || ph.SetupRead? || ph.Begun? || ph.Executing?
  }

  predicate PollEnabled(s: State, cl: Client, op: PollOp) {
    match op
    case AcceptFind => cl.phase.Offered? && cl.task in s.stages
    case AcceptCommit(_) => cl.phase.Found? && cl.copy.Some?
    case Details => cl.phase.Claimed? && cl.task in s.stages
    case Inspect => cl.phase.Detailed? && cl.copy.Some? && cl.copy.value.buildId in s.builds
    case SetupFind =>
      && cl.phase.Inspected? && cl.copy.Some? && cl.copy.value.buildId in s.builds
      && cl.build.Some? && !Cancelled(cl.build.value)
    case SetupCommit(_) => cl.phase.SetupRead? && cl.copy.Some?
    case UpdateBuild(_) => cl.phase.Begun? && cl.build.Some?
    case Complete(o) => Started(cl.phase) && ((o.Errored? || o.Failing?) || (o.Passing? && cl.phase.Executing?))
  }

  function PollPlan(s: State, cl: Client, op: PollOp): Effect
    requires PollEnabled(s, cl, op)
  {
    match op
    case AcceptFind =>
      var row := s.stages[cl.task];
      if row.machine == "" then Local(cl.(phase := Found, copy := Some(row)), []) else Local(Reset(cl), [])
    case AcceptCommit(now) =>
      var k := cl.copy.value;
      WriteStage(k, k.(machine := cl.machine, status := Pending, updated := now),
                 cl.(phase := Claimed, copy := None), Reset(cl), [Accepted(k.id)], [])
    case Details => Local(cl.(phase := Detailed, copy := Some(s.stages[cl.task])), [])
    case Inspect => Local(cl.(phase := Inspected, build := Some(s.builds[cl.copy.value.buildId])), [])
    case SetupFind => Local(cl.(phase := SetupRead, build := Some(s.builds[cl.copy.value.buildId])), [])
    case SetupCommit(now) =>
      var k := cl.copy.value;
      var k' := k.(status := Running, machine := cl.machine, started := now, updated := now);
      WriteStage(k, k', cl.(phase := Begun, begun := true, copy := Some(Bump(k'))),
                 cl.(phase := Finishing, outcome := Errored, copy := Some(k')), [Began(k.id)], [])
    case UpdateBuild(now) =>
      var b := cl.build.value;
      var cl' := cl.(phase := Executing);
      if !b.status.Pending? then Local(cl', [])
      else WriteBuild(b.(status := Running, started := now, updated := now), cl', cl', [Announced(b.id)])
    case Complete(o) => Local(cl.(phase := Finishing, outcome := o), [])
  }

  predicate ReportEnabled(s: State, cl: Client, op: ReportOp) {
    match op
    case FinishFind => cl.phase.Finishing? && cl.copy.Some? && cl.copy.value.buildId in s.builds
    case FinishCommit(_) => cl.phase.FinishRead? && cl.copy.Some?
    case FinishList(list) => cl.phase.Listing? && cl.build.Some? && IsListing(s.stages, cl.build.value.id, list)
    case Skip(_) => cl.phase.Skipping?
    case Release(_) => cl.phase.Releasing? && cl.copy.Some?
    case Settle(_) => cl.phase.Closing? && cl.build.Some?
  }

  function ReportPlan(s: State, cl: Client, op: ReportOp): Effect
    requires ReportEnabled(s, cl, op)
  {
    match op
    case FinishFind => Local(cl.(phase := FinishRead, build := Some(s.builds[cl.copy.value.buildId])), [])
    case FinishCommit(now) =>
      var k := cl.copy.value;
      var k' := k.(status := cl.outcome, stopped := now, updated := now);
      WriteStage(k, k', cl.(phase := Listing, copy := Some(Bump(k'))), Reset(cl), [Finished(k.id, now)], [])
    case FinishList(list) => Local(cl.(phase := Skipping, list := list, failed := Deps.AnyFailed(list), i := 0), [])
    case Skip(now) =>
      if cl.i >= |cl.list| then Local(cl.(phase := Releasing, i := 0), [])
      else if !Deps.MustSkip(cl.list[cl.i], cl.failed) then Local(Next1(cl), [])
      else Mark(cl, cl.list[cl.i].(status := Skipped, started := now, stopped := now), SkipMarked(cl.list[cl.i].id))
    case Release(now) =>
      if cl.i >= |cl.list| then Local(cl.(phase := Closing), [Scheduled(cl.task)])
      else if !Deps.MustRelease(cl.copy.value, cl.list[cl.i], cl.list) then Local(Next1(cl), [])
      else Mark(cl, cl.list[cl.i].(status := Pending, updated := now), Released(cl.list[cl.i].id, cl.task))
    case Settle(now) =>
      var b := cl.build.value;
      if !Deps.BuildComplete(cl.list) then Local(Reset(cl), [])
      else WriteBuild(b.(status := Deps.Verdict(cl.list), finished := now), Reset(cl), Reset(cl), [Settled(b.id)])
  }

  predicate KillEnabled(s: State, cl: Client, op: KillOp) {
    match op
    case CancelFind(id) => cl.phase.Idle? && id in s.builds && UnfinishedStatus(s.builds[id].status)
    case CancelBuild(_) => cl.phase.CancelRead? && cl.build.Some?
    case CancelList(list) => cl.phase.CancelListing? && cl.build.Some? && IsListing(s.stages, cl.build.value.id, list)
    case CancelStage(_) => cl.phase.Cancelling?
  }

  function KillPlan(s: State, cl: Client, op: KillOp): Effect
    requires KillEnabled(s, cl, op)
  {
    match op
    case CancelFind(id) => Local(cl.(phase := CancelRead, build := Some(s.builds[id])), [])
    case CancelBuild(now) =>
      var b := cl.build.value;
      WriteBuild(b.(status := Killed, finished := now, started := if b.started == 0 then now else b.started),
                 cl.(phase := CancelListing), Reset(cl), [])
    case CancelList(list) => Local(cl.(phase := Cancelling, list := list, i := 0), [])
    case CancelStage(now) =>
      if cl.i >= |cl.list| then Local(Reset(cl), [])
      else if cl.list[cl.i].IsDone() then Local(Next1(cl), [])
      else Mark(cl, CancelledStage(cl.list[cl.i], now), CancelMarked(cl.list[cl.i].id))
  }

  predicate ReviewEnabled(s: State, cl: Client, op: ReviewOp) {
    match op
    case ApproveFind(id) => cl.phase.Idle? && id in s.stages && s.stages[id].status.Blocked?
    case ApproveCommit => cl.phase.Approving? && cl.copy.Some?
    case DeclineFind(id) => cl.phase.Idle? && id in s.builds
    case DeclineFindStage(id) => cl.phase.DeclineRead? && id in s.stages && s.stages[id].status.Blocked?
    case DeclineCommit => cl.phase.Declining? && cl.copy.Some?
    case DeclineBuild => cl.phase.DeclineClosing? && cl.build.Some?
  }

  function ReviewPlan(s: State, cl: Client, op: ReviewOp): Effect
    requires ReviewEnabled(s, cl, op)
  {
    match op
    case ApproveFind(id) => Local(cl.(phase := Approving, copy := Some(s.stages[id])), [])
    case ApproveCommit =>
      var k := cl.copy.value;
      WriteStage(k, k.(status := Pending), Reset(cl), Reset(cl), [Approved(k.id)], [])
    case DeclineFind(id) => Local(cl.(phase := DeclineRead, build := Some(s.builds[id])), [])
    case DeclineFindStage(id) => Local(cl.(phase := Declining, copy := Some(s.stages[id])), [])
    case DeclineCommit =>
      var k := cl.copy.value;
      WriteStage(k, k.(status := Declined), cl.(phase := DeclineClosing, copy := None), Reset(cl), [], [])
    case DeclineBuild => WriteBuild(cl.build.value.(status := Declined), Reset(cl), Reset(cl), [])
  }

  predicate Enabled(s: State, cl: Client, op: Op) {
    match op
    case Poll(p) => PollEnabled(s, cl, p)
    case Report(r) => ReportEnabled(s, cl, r)
    case Kill(k) => KillEnabled(s, cl, k)
    case Review(v) => ReviewEnabled(s, cl, v)
    case Abort => true
  }

  function Plan(s: State, cl: Client, op: Op): Effect
    requires Enabled(s, cl, op)
  {
    match op
    case Poll(p) => PollPlan(s, cl, p)
    case Report(r) => ReportPlan(s, cl, r)
    case Kill(k) => KillPlan(s, cl, k)
    case Review(v) => ReviewPlan(s, cl, v)
    case Abort => Local(Reset(cl), [])
  }

  /** One turn of a loop over the client's list that writes its i-th record. */
  function Mark(cl: Client, change: Stage, note: Event): Effect
    requires cl.i < |cl.list|
  {
    WriteStage(cl.list[cl.i], change, Next1(cl.(list := cl.list[cl.i := Bump(change)])),
               Next1(cl.(list := cl.list[cl.i := change])), [note], [note])
  }

  function CancelledStage(s: Stage, now: int): Stage {
    if s.started != 0 then s.(status := Killed, stopped := now)
    else s.(status := Skipped, started := now, stopped := now)
  }

  function Apply(s: State, c: nat, e: Effect): State {
    match e
    case Local(next, note) => s.(clients := s.clients[c := next], log := s.log + note)
    case WriteStage(_, change, won, lost, wonNote, lostNote) =>
      if Current(s.stages, change) then
        s.(stages := Committed(s.stages, change), clients := s.clients[c := won], log := s.log + wonNote)
      else
        s.(clients := s.clients[c := lost], log := s.log + lostNote)
    case WriteBuild(record, won, lost, wonNote) =>
      if CurrentBuild(s.builds, record) then
        s.(builds := CommittedBuild(s.builds, record), clients := s.clients[c := won], log := s.log + wonNote)
      else
        s.(clients := s.clients[c := lost])
  }

  /** What Trigger stores: a pending build and its stages, all at version one. */
  predicate Fresh(s: State, b: Build, rows: Stages) {
    && b.id !in s.builds && b.status.Pending? && b.version == 1
    && rows.Keys !! s.stages.Keys
    && (forall id :: id in rows ==> FreshStage(rows[id], id, b.id))
    && (forall i, j :: i in rows && j in rows && rows[i].number == rows[j].number ==> i == j)
  }

  predicate FreshStage(s: Stage, id: int, b: int) {
    && s.id == id && s.buildId == b && s.version == 1 && s.machine == "" && s.started == 0
    && (s.status.Blocked? || s.status == if |s.dependsOn| == 0 then Pending else Waiting)
  }

  /** How many older unfinished stages share the repository and the name. */
  function OlderSiblings(rows: Stages, r: Stage): set<int> {
    set y | y in rows && y < r.id && UnfinishedStatus(rows[y].status) && rows[y].repoId == r.repoId &&
            rows[y].name == r.name
  }

  predicate WithinLimit(rows: Stages, r: Stage) {
    r.limit == 0 || |OlderSiblings(rows, r)| < r.limit
  }

  /** What a pass over the listed stages may hand over. */
  function Ready(rows: Stages): set<int> {
    set id | id in rows && rows[id].status.Pending? && rows[id].machine == "" && WithinLimit(rows, rows[id])
  }

  predicate Served(s: State, q: QueueOp, s': State) {
    match q
    case List => s.offer == {} && s' == s.(offer := Ready(s.stages), listed := s.listed + Ready(s.stages))
    case Hand(c, id) =>
      && c in s.clients && s.clients[c].phase.Idle? && id in s.offer
      && s' == s.(clients := s.clients[c := s.clients[c].(phase := Offered, task := id)], offer := s.offer - {id})
    case EndPass => s' == s.(offer := {})
  }

  predicate Next(s: State, a: Action, s': State) {
    match a
    case Create(b, rows) =>
      Fresh(s, b, rows) && s' == s.(stages := s.stages + rows, builds := s.builds[b.id := b])
    case Serve(q) => Served(s, q, s')
    case Turn(c, op) =>
      && c in s.clients && Enabled(s, s.clients[c], op)
      && s' == Apply(s, c, Plan(s, s.clients[c], op))
  }

  /** Nothing stored yet, every client idle. */
  predicate Start(s: State) {
    && s.stages == map[] && s.builds == map[] && s.listed == {} && s.offer == {} && s.log == []
    && (forall c :: c in s.clients ==> s.clients[c] == Reset(s.clients[c]))
  }

  predicate NamesGiven(s: State) {
    forall c :: c in s.clients ==> s.clients[c].machine != ""
  }

  predicate Init(s: State) {
    Start(s) && NamesGiven(s)
  }

  predicate Steps(states: seq<State>, acts: seq<Action>) {
    && |states| == |acts| + 1
    && (forall i :: 0 <= i < |acts| ==> Next(states[i], acts[i], states[i + 1]))
  }

  predicate Run(states: seq<State>, acts: seq<Action>) {
    Steps(states, acts) && Init(states[0])
  }
}
