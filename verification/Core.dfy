/** The entities every component shares: build and stage statuses, the stage
    record with its steps, and the build record. */
module Core {

  datatype Option<+T> = None | Some(value: T)

  /** The ten status words of core/status.go. */
  datatype Status =
    | Skipped
    | Blocked
    | Declined
    | Waiting
    | Pending
    | Running
    | Passing
    | Failing
    | Killed
    | Errored

  predicate DoneStatus(s: Status) {
    !s.Waiting? && !s.Pending? && !s.Running? && !s.Blocked?
  }

  predicate FailedStatus(s: Status) {
    s.Failing? || s.Killed? || s.Errored?
  }

  /** What the queue lists. */
  predicate UnfinishedStatus(s: Status) {
    s.Pending? || s.Running?
  }

  datatype Step = Step(
    id: int,
    stageId: int,
    number: int,
    name: string,
    status: Status,
    exitCode: int,
    started: int,
    stopped: int,
    version: int)
  {
    predicate IsDone() {
      DoneStatus(status)
    }
  }

  /** What a stage asks of, or a worker offers as, an execution platform. */
  datatype Platform = Platform(
    os: string,
    arch: string,
    variant: string,
    kernel: string,
    labels: map<string, string>)

  /** A row of the stages table. */
  datatype Stage = Stage(
    id: int,
    repoId: int,
    buildId: int,
    number: int,
    name: string,
    status: Status,
    machine: string,
    platform: Platform,
    limit: int,
    started: int,
    stopped: int,
    updated: int,
    version: int,
    onSuccess: bool,
    onFailure: bool,
    dependsOn: seq<string>)
  {
    predicate IsDone() {
      DoneStatus(status)
    }

    predicate IsFailed() {
      FailedStatus(status)
    }
  }

  datatype Build = Build(
    id: int,
    repoId: int,
    number: int,
    status: Status,
    started: int,
    finished: int,
    updated: int,
    version: int)
}
