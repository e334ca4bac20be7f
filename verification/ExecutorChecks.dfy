/** The checks that the executors of `src/jobs.rs` repeat: an accepted request never fails one. */
module ExecutorChecks {
  import opened Wrappers
  import opened Types
  import opened Text
  import opened LockKeys
  import opened Validation
  import opened JobTable
  import opened Engine
  import opened EngineLives
  import opened EngineSafety
  import opened EngineInvariants
  import opened RequestMap

  /** The failures an executor can run into by itself; `Unreachable` is the `unreachable!` arm. */
  datatype CheckError =
    | LostProfile
    | ProfileNotInstalled
    | BadPath(error: string)
    | BadImage(error: string)
    | NotEcr
    | BadRollout(error: string)
    | Unreachable

  /** What the executor derives from the request once its own checks have passed. */
  datatype Plan =
    | ProfilePlan(profile: string, context: seq<string>)
    | BuildPlan(context: seq<string>, dockerfile: seq<string>, login: Option<EcrImage>, apply: Option<ApplyPlan>)
    | LambdaPlan

  datatype ApplyPlan = ApplyPlan(namespace: string, flag: string, path: seq<string>, rollout: Option<string>)

  type Checked<T> = Result<T, CheckError>

  function ResolvePath(name: string, value: string): Checked<seq<string>> {
    match RelativePath(name, value)
    case Success(path) => Success(path)
    case Failure(error) => Failure(BadPath(error))
  }

  /** `execute_profile` with every external step succeeding. */
  function ExecuteProfile(c: ValidationConfig, request: BuildRequest): Checked<Plan> {
    match CleanOptional(request.profile)
    case None => Failure(LostProfile)
    case Some(profile) =>
      if profile !in c.installedProfiles then Failure(ProfileNotInstalled)
      else
        var context :- ResolvePath("contextDir", request.contextDir.GetOr("."));
        Success(ProfilePlan(profile, context))
  }

  /** The push of `execute_build`: the image is checked again, and a login needs an ECR image. */
  function CheckPush(c: ValidationConfig, request: BuildRequest): Checked<Option<EcrImage>> {
    if !request.push.GetOr(false) then Success(None)
    else
      match ValidateImage(c, request.image, true)
      case Failure(error) => Failure(BadImage(error))
      case Success(ecr) =>
        if !c.ecrLoginEnabled then Success(None)
        else if ecr.None? then Failure(NotEcr)
        else Success(ecr)
  }

  /** The deployment of `execute_build`. */
  function CheckDeploy(request: BuildRequest): Checked<Option<ApplyPlan>> {
    match request.deploy
    case None => Success(None)
    case Some(deploy) =>
      if deploy.kind == "none" then Success(None)
      else
        var path :- ResolvePath("deploy.path", deploy.path);
        var flag :- ApplyFlag(deploy.kind);
        var namespace := deploy.namespace.GetOr("default");
        match deploy.rollout
        case None => Success(Some(ApplyPlan(namespace, flag, path, None)))
        case Some(rollout) =>
          match ValidateRolloutResource(rollout)
          case Failure(error) => Failure(BadRollout(error))
          case Success(resource) => Success(Some(ApplyPlan(namespace, flag, path, Some(resource))))
  }

  function ApplyFlag(kind: string): Checked<string> {
    if kind == "kustomize" then Success("-k")
    else if kind == "manifest" then Success("-f")
    else Failure(Unreachable)
  }

  /** `execute_build` with every external step succeeding. */
  function ExecuteBuild(c: ValidationConfig, request: BuildRequest): Checked<Plan> {
    var context :- ResolvePath("contextDir", request.contextDir.GetOr("."));
    var dockerfile :- ResolvePath("dockerfile", request.dockerfile.GetOr("Dockerfile"));
    var login :- CheckPush(c, request);
    var apply :- CheckDeploy(request);
    Success(BuildPlan(context, dockerfile, login, apply))
  }

  /** The choice of executor in `run_job`, which goes by the record. */
  function ExecuteJob(c: ValidationConfig, request: BuildRequest, executor: string): Checked<Plan> {
    if RunsProfile(request) then ExecuteProfile(c, request)
    else if executor == "lambda" then Success(LambdaPlan)
    else ExecuteBuild(c, request)
  }

  /** The executor that a request asks for. */
  predicate AsksFor(request: BuildRequest, executor: string) {
    request.executor == Some(executor) || (request.executor.None? && executor == "local")
  }

  predicate StaysInside(path: seq<string>) {
    path == ["."] || (path != [] && forall part :: part in path ==> IsNormalPart(part))
  }

  /** A plan within the limits that validation promised, for the executor that the record names. */
  predicate PlanIsSafe(c: ValidationConfig, request: BuildRequest, executor: string, plan: Plan) {
    && HasPrefixIn(request.repoUrl, c.allowedRepoPrefixes)
    && match plan
       case ProfilePlan(profile, context) =>
         && RunsProfile(request) && profile in c.allowedProfiles
         && HasPrefixIn(request.repoUrl, c.allowedProfileRepoPrefixes)
         && StaysInside(context)
       case BuildPlan(context, dockerfile, login, apply) =>
         && !RunsProfile(request) && executor == "local" && StaysInside(context) && StaysInside(dockerfile)
         && HasPrefixIn(request.image, c.allowedImagePrefixes) && request.image != "" && request.image[0] != '-'
         && (request.push.GetOr(false) ==> c.pushEnabled && (c.ecrLoginEnabled ==> login.Some?))
         && (apply.Some? ==> c.deployEnabled && ApplyIsSafe(c, apply.value))
       case LambdaPlan =>
         && !RunsProfile(request) && executor == "lambda" && c.lambdaExecutorEnabled
         && HasPrefixIn(request.image, c.allowedImagePrefixes)
  }

  predicate ApplyIsSafe(c: ValidationConfig, apply: ApplyPlan) {
    && apply.namespace in c.allowedNamespaces && StaysInside(apply.path) && (apply.flag == "-k" || apply.flag == "-f")
    && (apply.rollout.Some? ==> IsResource(apply.rollout.value))
  }

  /** The path is what the text says, without the parts that name nothing. */
  predicate IsPathOf(text: string, path: seq<string>) {
    var named := Named(Split(Trim(text), '/'));
    path == if named == [] then ["."] else named
  }

  /** What is applied is what the request deploys. */
  predicate ApplyFollows(deploy: DeployRequest, apply: ApplyPlan) {
    && apply.namespace == (if deploy.namespace.Some? then deploy.namespace.value else "default")
    && (apply.flag == "-k" <==> deploy.kind == "kustomize") && (apply.flag == "-f" <==> deploy.kind == "manifest")
    && IsPathOf(deploy.path, apply.path) && (apply.rollout.Some? <==> deploy.rollout.Some?)
    && (apply.rollout.Some? ==>
          apply.rollout.value in [Trim(deploy.rollout.value), "deployment/" + Trim(deploy.rollout.value)])
  }

  /** The plan takes every part from the field of the request that names it. */
  predicate PlanFollows(request: BuildRequest, plan: Plan) {
    match plan
    case ProfilePlan(profile, context) =>
      && request.profile.Some? && profile == Trim(request.profile.value)
      && IsPathOf(request.contextDir.GetOr("."), context)
    case BuildPlan(context, dockerfile, login, apply) =>
      && IsPathOf(request.contextDir.GetOr("."), context)
      && IsPathOf(request.dockerfile.GetOr("Dockerfile"), dockerfile)
      && (login.Some? ==> request.push == Some(true) && login.value.registry == Split(request.image, '/')[0])
      && (apply.Some? <==> request.deploy.Some? && request.deploy.value.kind != "none")
      && (apply.Some? ==> ApplyFollows(request.deploy.value, apply.value))
    case LambdaPlan => true
  }

  lemma CheckedPath(name: string, value: string)
    ensures var r := ResolvePath(name, value); r.Success? ==> IsPathOf(value, r.value)
  {
    RelativePathExact(name, value);
  }

  lemma RolloutFollows(raw: string)
    requires ValidateRolloutResource(raw).Success?
    ensures ValidateRolloutResource(raw).value in [Trim(raw), "deployment/" + Trim(raw)]
  {
  }

  lemma ApplyFlagFollows(kind: string)
    requires ApplyFlag(kind).Success?
    ensures ApplyFlag(kind).value == "-k" <==> kind == "kustomize"
    ensures ApplyFlag(kind).value == "-f" <==> kind == "manifest"
  {
    assert "-k"[1] == 'k' && "-f"[1] == 'f';
  }

  lemma DeployFollows(request: BuildRequest)
    requires CheckDeploy(request).Success?
    ensures var apply := CheckDeploy(request).value;
      && (apply.Some? <==> request.deploy.Some? && request.deploy.value.kind != "none")
      && (apply.Some? ==> ApplyFollows(request.deploy.value, apply.value))
  {
    if request.deploy.Some? && request.deploy.value.kind != "none" {
      var deploy := request.deploy.value;
      CheckedPath("deploy.path", deploy.path);
      ApplyFlagFollows(deploy.kind);
      if deploy.rollout.Some? {
        RolloutFollows(deploy.rollout.value);
      }
    }
  }

  lemma PushFollows(c: ValidationConfig, request: BuildRequest)
    requires CheckPush(c, request).Success? && CheckPush(c, request).value.Some?
    ensures request.push == Some(true) && CheckPush(c, request).value.value.registry == Split(request.image, '/')[0]
  {
  }

  /** Whatever an executor goes on with, it is what the request says. */
  lemma PlansFollowRequests(c: ValidationConfig, request: BuildRequest, executor: string)
    requires ExecuteJob(c, request, executor).Success?
    ensures PlanFollows(request, ExecuteJob(c, request, executor).value)
  {
    CheckedPath("contextDir", request.contextDir.GetOr("."));
    CheckedPath("dockerfile", request.dockerfile.GetOr("Dockerfile"));
    if !RunsProfile(request) && executor != "lambda" {
      DeployFollows(request);
      if CheckPush(c, request).Success? && CheckPush(c, request).value.Some? {
        PushFollows(c, request);
      }
    }
  }

  lemma AcceptedDeploy(c: ValidationConfig, request: BuildRequest)
    requires ValidateDeploy(c, request.deploy).Success?
    ensures var r := CheckDeploy(request);
      r.Success? && (r.value.Some? ==> c.deployEnabled && ApplyIsSafe(c, r.value.value))
  {
    if request.deploy.Some? && request.deploy.value.kind != "none" {
      var deploy := request.deploy.value;
      RelativePathStaysInside("deploy.path", deploy.path);
      if deploy.rollout.Some? {
        AcceptedRollout(deploy.rollout.value);
      }
    }
  }

  lemma AcceptedPush(c: ValidationConfig, request: BuildRequest)
    requires ValidateImage(c, request.image, request.push.GetOr(false)).Success?
    ensures var r := CheckPush(c, request);
      r.Success? && (request.push.GetOr(false) && c.ecrLoginEnabled ==> r.value.Some?)
  {
  }

  /** Acceptance is the success of every stage. */
  lemma AcceptedStages(c: ValidationConfig, request: BuildRequest)
    requires Accepts(c, request)
    ensures ValidateSubject(c, request).Success? && ValidateFiles(request).Success?
    ensures ValidateExecutor(c, request).Success?
    ensures HasPrefixIn(request.repoUrl, c.allowedRepoPrefixes) && (request.push.GetOr(false) ==> c.pushEnabled)
    ensures !RunsProfile(request) ==> ValidateDeploy(c, request.deploy).Success?
  {
    AcceptedSource(c, request);
    AcceptedOptions(c, request);
  }

  lemma AcceptedSource(c: ValidationConfig, request: BuildRequest)
    requires ValidateSource(c, request).Success?
    ensures ValidateSubject(c, request).Success? && HasPrefixIn(request.repoUrl, c.allowedRepoPrefixes)
  {
    assert ValidateSchema(request).Success? && ValidateRepoUrl(request.repoUrl).Success?;
  }

  lemma AcceptedOptions(c: ValidationConfig, request: BuildRequest)
    requires ValidateOptions(c, request).Success?
    ensures ValidateFiles(request).Success? && ValidateExecutor(c, request).Success?
    ensures request.push.GetOr(false) ==> c.pushEnabled
    ensures !RunsProfile(request) ==> ValidateDeploy(c, request.deploy).Success?
  {
  }

  lemma AcceptedSubject(c: ValidationConfig, request: BuildRequest)
    requires ValidateSubject(c, request).Success?
    ensures RunsProfile(request) ==>
      && CleanOptional(request.profile).Some?
      && CleanOptional(request.profile).value in c.installedProfiles * c.allowedProfiles
      && HasPrefixIn(request.repoUrl, c.allowedProfileRepoPrefixes)
    ensures !RunsProfile(request) ==> ValidateImage(c, request.image, request.push.GetOr(false)).Success?
  {
  }

  lemma AcceptedFiles(request: BuildRequest)
    requires ValidateFiles(request).Success?
    ensures RelativePath("contextDir", request.contextDir.GetOr(".")).Success?
    ensures !RunsProfile(request) ==>
      RelativePath("dockerfile", request.dockerfile.GetOr("Dockerfile")).Success?
      && ValidateBuildArgs(request.buildArgs).Success?
  {
  }

  lemma AcceptedExecutor(c: ValidationConfig, request: BuildRequest)
    requires ValidateExecutor(c, request).Success? && AsksFor(request, "lambda")
    ensures c.lambdaExecutorEnabled && !RunsProfile(request)
  {
  }

  /**
   * For every configuration and accepted request no executor reaches its missing-profile errors, the
   * non-ECR push error, the repeated image, path or rollout errors, or the unreachable arm, and what
   * it goes on with stays within the repository and the allowlists.
   */
  lemma AcceptedRequestsExecute(c: ValidationConfig, request: BuildRequest, executor: string)
    requires Accepts(c, request) && AsksFor(request, executor)
    ensures ExecuteJob(c, request, executor).Success?
    ensures PlanIsSafe(c, request, executor, ExecuteJob(c, request, executor).value)
  {
    AcceptedStages(c, request);
    AcceptedSubject(c, request);
    AcceptedFiles(request);
    RelativePathStaysInside("contextDir", request.contextDir.GetOr("."));
    if !RunsProfile(request) {
      RelativePathStaysInside("dockerfile", request.dockerfile.GetOr("Dockerfile"));
      AcceptedImage(c, request.image, request.push.GetOr(false));
      AcceptedPush(c, request);
      AcceptedDeploy(c, request);
      if executor == "lambda" {
        AcceptedExecutor(c, request);
      }
    }
  }

  /** In every run of the engine, every job that reaches its executor passes the executor's checks. */
  lemma ExecutingJobsPassTheirChecks(c: EngineConfig, v: ValidationConfig, s: State, t: nat)
    requires Reachable(c, s) && forall request :: c.admits(request) ==> Accepts(v, request)
    requires t < |s.tasks| && s.tasks[t].Worker? && s.tasks[t].wp.Execute?
    ensures var job := s.tasks[t].wp.job;
      && ExecuteJob(v, job.request, job.executor).Success?
      && PlanIsSafe(v, job.request, job.executor, ExecuteJob(v, job.request, job.executor).value)
  {
    var first := TaskJob(c, s, t);
    JobNumbersAreFresh(c, s);
    ExecutedRecord(s.jobs, s.tasks[t], first);
    RecordedExecutor(c, s, s.tasks[t].id);
    AcceptedRequestsExecute(v, s.tasks[t].wp.job.request, s.tasks[t].wp.job.executor);
  }

  /** The executor in a record is the one that its request asks for. */
  lemma RecordedExecutor(c: EngineConfig, s: State, id: JobId)
    requires Reachable(c, s) && id in s.jobs
    ensures AsksFor(s.jobs[id].request, s.jobs[id].executor)
  {
    var run, events :| IsRun(c, run, events) && run[|run| - 1] == s;
    RecordTellsLife(c, run, events, |events|, id);
  }

  lemma ExecutedRecord(jobs: Table, k: Task, first: JobRecord)
    requires k.Worker? && k.wp.Execute? && OwnJob(jobs, k.id, k, first)
    ensures k.id in jobs && jobs[k.id] == k.wp.job
  {
  }

  /** The request with a blank after the name of its profile. */
  function Padded(request: BuildRequest, name: string): BuildRequest {
    request.(profile := Some(name + " "))
  }

  lemma PaddedCleans(request: BuildRequest, name: string)
    requires request.profile == Some(name)
    ensures CleanOptional(Padded(request, name).profile) == CleanOptional(request.profile)
    ensures JobKind(Padded(request, name)) == JobKind(request)
  {
    TrimDropsTrailingSpace(name);
  }

  lemma PaddedSubject(c: ValidationConfig, request: BuildRequest, name: string)
    requires RunsProfile(request) && request.profile == Some(name)
    ensures ValidateSubject(c, Padded(request, name)) == ValidateSubject(c, request)
  {
    PaddedCleans(request, name);
  }

  lemma PaddedStages(c: ValidationConfig, request: BuildRequest, name: string)
    requires RunsProfile(request) && request.profile == Some(name)
    ensures var b := Padded(request, name);
      && ValidateSchema(b) == ValidateSchema(request) && ValidateFiles(b) == ValidateFiles(request)
      && ValidateExecutor(c, b) == ValidateExecutor(c, request) && RunsProfile(b)
  {
    PaddedCleans(request, name);
  }

  /** A padded profile name changes neither whether the request is accepted nor what is executed. */
  lemma PaddedProfileRunsTheSame(c: ValidationConfig, request: BuildRequest, name: string, executor: string)
    requires RunsProfile(request) && request.profile == Some(name)
    ensures Accepts(c, Padded(request, name)) <==> Accepts(c, request)
    ensures ExecuteJob(c, Padded(request, name), executor) == ExecuteJob(c, request, executor)
  {
    PaddedAccepts(c, request, name);
    PaddedExecutes(c, request, Padded(request, name), name, executor);
  }

  lemma PaddedSource(c: ValidationConfig, request: BuildRequest, name: string)
    requires RunsProfile(request) && request.profile == Some(name)
    ensures ValidateSource(c, Padded(request, name)) == ValidateSource(c, request)
  {
    PaddedSubject(c, request, name);
    PaddedStages(c, request, name);
    assert Padded(request, name).repoUrl == request.repoUrl;
  }

  lemma PaddedOptions(c: ValidationConfig, request: BuildRequest, name: string)
    requires RunsProfile(request) && request.profile == Some(name)
    ensures ValidateOptions(c, Padded(request, name)) == ValidateOptions(c, request)
  {
    PaddedStages(c, request, name);
    var b := Padded(request, name);
    assert b.gitRef == request.gitRef && b.push == request.push && b.requestId == request.requestId;
  }

  lemma PaddedAccepts(c: ValidationConfig, request: BuildRequest, name: string)
    requires RunsProfile(request) && request.profile == Some(name)
    ensures ValidateBuildRequest(c, Padded(request, name)) == ValidateBuildRequest(c, request)
  {
    PaddedSource(c, request, name);
    PaddedOptions(c, request, name);
  }

  lemma PaddedExecutes(c: ValidationConfig, request: BuildRequest, b: BuildRequest, name: string, executor: string)
    requires RunsProfile(request) && request.profile == Some(name) && b == Padded(request, name)
    ensures ExecuteJob(c, b, executor) == ExecuteJob(c, request, executor)
  {
    PaddedCleans(request, name);
    assert b.contextDir == request.contextDir;
  }

  /**
   * So the lock of a profile job can be escaped: for every accepted profile job there is another
   * accepted request that executes the same and goes by another key, whatever the hash.
   */
  lemma ProfileLockCanBeEscaped(c: ValidationConfig, request: BuildRequest, executor: string, hash: string -> string)
    returns (b: BuildRequest)
    requires Accepts(c, request) && RunsProfile(request) && AsksFor(request, executor)
    ensures Accepts(c, b) && AsksFor(b, executor) && ExecuteJob(c, b, executor) == ExecuteJob(c, request, executor)
    ensures LockKey(b, hash) != LockKey(request, hash)
  {
    AcceptedStages(c, request);
    AcceptedSubject(c, request);
    var name := request.profile.value;
    b := Padded(request, name);
    PaddedProfileRunsTheSame(c, request, name, executor);
    PaddedProfileEscapesTheLock(request, name, hash);
  }
}
