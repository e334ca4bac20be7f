/** The records of `src/types.rs` and the part of the configuration the model reads. */
module Types {
  import opened Wrappers

  datatype BuildStatus = Queued | Running | Succeeded | Failed

  predicate IsTerminal(status: BuildStatus) {
    status.Succeeded? || status.Failed?
  }

  /** One entry of the `buildArgs` tree map; a request lists its entries in key order. */
  datatype BuildArg = BuildArg(key: string, value: string)

  datatype DeployRequest = DeployRequest(
    kind: string,
    path: string,
    namespace: Option<string>,
    rollout: Option<string>,
    rolloutTimeoutSeconds: Option<nat>)

  datatype BuildRequest = BuildRequest(
    schemaVersion: Option<string>,
    jobKind: Option<string>,
    repoUrl: string,
    gitRef: Option<string>,
    image: string,
    profile: Option<string>,
    contextDir: Option<string>,
    dockerfile: Option<string>,
    buildArgs: Option<seq<BuildArg>>,
    push: Option<bool>,
    deploy: Option<DeployRequest>,
    executor: Option<string>,
    requestId: Option<string>)

  /** The two numbers rendered into "build-{atMs}-{counter}"; see JobIds. */
  datatype JobId = JobId(atMs: nat, counter: nat)

  datatype JobRecord = JobRecord(
    id: JobId,
    status: BuildStatus,
    request: BuildRequest,
    source: string,
    executor: string,
    createdAtMs: nat,
    startedAtMs: Option<nat>,
    finishedAtMs: Option<nat>,
    logPath: string,
    error: Option<string>,
    lockKey: Option<string>,
    fencingToken: Option<nat>)

  /** `src/fiducia.rs`: a granted distributed lock and the four ways an acquisition ends. */
  datatype LockGrant = LockGrant(key: string, holder: string, fencingToken: nat)

  datatype LockOutcome =
    | Disabled
    | Acquired(grant: LockGrant)
    | Busy(key: string)
    | Unavailable(error: string)

  // The errors a job is refused with at the lock stage.

  function BusyError(key: string): string {
    "another build holds the fiducia lock for " + key + "; retry later"
  }

  function UnavailableError(error: string): string {
    "fiducia coordination is required but unavailable: " + error
  }
}
