/** Request validation of `src/validation.rs`, with the image parsing of `src/ecr.rs` it uses. */
module Validation {
  import opened Wrappers
  import opened Types
  import opened Text
  import opened LockKeys

  datatype ValidationConfig = ValidationConfig(
    allowedRepoPrefixes: seq<string>,
    allowedImagePrefixes: seq<string>,
    allowedProfileRepoPrefixes: seq<string>,
    allowedNamespaces: set<string>,
    allowedProfiles: set<string>,
    installedProfiles: set<string>,
    deployEnabled: bool,
    pushEnabled: bool,
    ecrLoginEnabled: bool,
    lambdaExecutorEnabled: bool)

  datatype EcrImage = EcrImage(registry: string, region: string)

  type Check = Result<Unit, string>

  const OK: Check := Success(Unit.Unit)

  predicate HasPrefixIn(value: string, prefixes: seq<string>) {
    exists p :: p in prefixes && p <= value
  }

  /** `ensure_allowed_prefix`: an empty list allows nothing. */
  function EnsureAllowedPrefix(name: string, value: string, prefixes: seq<string>, envName: string): Check {
    if prefixes == [] then Failure(name + " is rejected because " + envName + " is empty")
    else if HasPrefixIn(value, prefixes) then OK
    else Failure(name + " is not allowed by " + envName)
  }

  function ValidateNoWhitespace(name: string, value: string, maxLen: nat): Check {
    if Trim(value) == "" then Failure(name + " must not be empty")
    else if Utf8Len(value) > maxLen then Failure(name + " is too long")
    else if exists c :: c in value && IsWhitespace(c) then Failure(name + " must not contain whitespace")
    else if exists c :: c in value && IsControl(c) then Failure(name + " must not contain control characters")
    else OK
  }

  function ValidateRepoUrl(repoUrl: string): Check {
    var url := Trim(repoUrl);
    if url == "" then Failure("repoUrl is required")
    else if Utf8Len(url) > 2048 then Failure("repoUrl must be 2048 characters or fewer")
    else if exists c :: c in url && IsControl(c) then Failure("repoUrl must not contain control characters")
    else if StartsWith(url, "https://") || StartsWith(url, "ssh://") || StartsWith(url, "git@") then OK
    else Failure("repoUrl must use https://, ssh://, or git@")
  }

  function Last<T>(xs: seq<T>): T
    requires |xs| > 0
  {
    xs[|xs| - 1]
  }

  predicate HasExplicitImageVersion(image: string) {
    '@' in image || ':' in Last(Split(image, '/'))
  }

  function ImageRegistry(image: string): Option<string> {
    var first := Split(image, '/')[0];
    if '.' in first || ':' in first || first == "localhost" then Some(first) else None
  }

  function ParseEcrImage(image: string): Option<EcrImage> {
    match ImageRegistry(image)
    case None => None
    case Some(registry) =>
      var parts := Split(registry, '.');
      if |parts| >= 6 && parts[1] == "dkr" && parts[2] == "ecr" && parts[4] == "amazonaws"
         && (parts[5] == "com" || parts[5] == "com.cn")
      then Some(EcrImage(registry, parts[3]))
      else None
  }

  function ValidateImage(c: ValidationConfig, image: string, push: bool): Result<Option<EcrImage>, string> {
    var _ :- ValidateNoWhitespace("image", image, 512);
    if StartsWith(TrimStart(image), "-") then Failure("image must not start with '-'")
    else if !HasExplicitImageVersion(image) then Failure("image must include an explicit tag or digest")
    else
      var _ :- EnsureAllowedPrefix("image", image, c.allowedImagePrefixes, "BUILD_SERVER_ALLOWED_IMAGE_PREFIXES");
      var ecr := ParseEcrImage(image);
      if push && c.ecrLoginEnabled && ecr.None?
      then Failure("push currently requires an Amazon ECR image when ECR login is enabled")
      else Success(ecr)
  }

  // Path components, as the standard library splits a relative path.

  predicate IsUnsupported(ch: char) {
    ch == ',' || ch == '=' || ch == ':' || IsControl(ch)
  }

  predicate IsNormalPart(part: string) {
    part != "" && part != "." && part != ".." && '/' !in part && forall ch :: ch in part ==> !IsUnsupported(ch)
  }

  /** Empty and current-directory parts vanish; a parent part or an unsupported character is refused. */
  function CleanParts(name: string, parts: seq<string>): Result<seq<string>, string> {
    if parts == [] then Success([])
    else if parts[0] == "" || parts[0] == "." then CleanParts(name, parts[1..])
    else if parts[0] == ".." then Failure(name + " must stay inside the repository root")
    else if exists ch :: ch in parts[0] && IsUnsupported(ch) then Failure(name + " contains unsupported characters")
    else
      var rest :- CleanParts(name, parts[1..]);
      Success([parts[0]] + rest)
  }

  /** What `validate_relative_path` computes. */
  function RelativePath(name: string, value: string): Result<seq<string>, string> {
    var trimmed := Trim(value);
    if trimmed == "" then Failure(name + " must not be empty")
    else if Utf8Len(trimmed) > 240 then Failure(name + " must be 240 characters or fewer")
    else if trimmed[0] == '/' then Failure(name + " must be relative to the repository root")
    else
      var clean :- CleanParts(name, Split(trimmed, '/'));
      Success(if clean == [] then ["."] else clean)
  }

  /** The outcome when the parts in `clean` came first. */
  function After(clean: seq<string>, r: Result<seq<string>, string>): Result<seq<string>, string> {
    match r
    case Success(rest) => Success(clean + rest)
    case Failure(error) => Failure(error)
  }

  lemma AfterNothing(r: Result<seq<string>, string>)
    ensures After([], r) == r
  {
    assert r.Success? ==> [] + r.value == r.value;
  }

  lemma AfterStep(clean: seq<string>, part: string, r: Result<seq<string>, string>)
    ensures After(clean, After([part], r)) == After(clean + [part], r)
  {
    assert r.Success? ==> clean + ([part] + r.value) == clean + [part] + r.value;
  }

  /** `validate_relative_path`: the clean path grows component by component. */
  method ValidateRelativePath(name: string, value: string) returns (r: Result<seq<string>, string>)
    ensures r == RelativePath(name, value)
  {
    var trimmed := Trim(value);
    if trimmed == "" {
      return Failure(name + " must not be empty");
    }
    if Utf8Len(trimmed) > 240 {
      return Failure(name + " must be 240 characters or fewer");
    }
    if trimmed[0] == '/' {
      return Failure(name + " must be relative to the repository root");
    }
    var parts := Split(trimmed, '/');
    var clean: seq<string> := [];
    AfterNothing(CleanParts(name, parts));
    assert parts[0..] == parts;
    for i := 0 to |parts|
      invariant CleanParts(name, parts) == After(clean, CleanParts(name, parts[i..]))
    {
      var part := parts[i];
      AfterStep(clean, part, CleanParts(name, parts[i + 1..]));
      assert parts[i..][0] == part && parts[i..][1..] == parts[i + 1..];
      if part == "" || part == "." {
        continue;
      }
      if part == ".." {
        return Failure(name + " must stay inside the repository root");
      }
      if exists ch :: ch in part && IsUnsupported(ch) {
        return Failure(name + " contains unsupported characters");
      }
      clean := clean + [part];
    }
    assert parts[|parts|..] == [] && clean + [] == clean;
    return Success(if clean == [] then ["."] else clean);
  }

  lemma {:induction false} CleanPartsAreNormal(name: string, parts: seq<string>)
    requires forall part :: part in parts ==> '/' !in part
    ensures CleanParts(name, parts).Success? ==>
      forall part :: part in CleanParts(name, parts).value ==> IsNormalPart(part)
  {
    if parts != [] {
      CleanPartsAreNormal(name, parts[1..]);
      assert parts[0] in parts;
    }
  }

  /** The parts that name something, in their order. */
  function Named(parts: seq<string>): seq<string> {
    if parts == [] then []
    else (if parts[0] == "" || parts[0] == "." then [] else [parts[0]]) + Named(parts[1..])
  }

  /** A part that leads out of the repository or that a command line could misread. */
  predicate IsRefusedPart(part: string) {
    part == ".." || exists ch :: ch in part && (ch in ",=:" || IsControl(ch))
  }

  lemma {:induction false} CleanPartsExact(name: string, parts: seq<string>)
    ensures CleanParts(name, parts).Success? <==> forall part :: part in parts ==> !IsRefusedPart(part)
    ensures CleanParts(name, parts).Success? ==> CleanParts(name, parts).value == Named(parts)
  {
    if parts != [] {
      CleanPartsExact(name, parts[1..]);
      RefusedPart(parts[0]);
      assert forall part :: part in parts <==> part == parts[0] || part in parts[1..];
    }
  }

  lemma RefusedPart(part: string)
    ensures IsRefusedPart(part) <==> part == ".." || exists ch :: ch in part && IsUnsupported(ch)
    ensures part == "" || part == "." ==> !IsRefusedPart(part)
  {
    forall ch ensures ch in ",=:" <==> ch == ',' || ch == '=' || ch == ':' {
      assert ",=:"[0] == ',' && ",=:"[1] == '=' && ",=:"[2] == ':';
    }
  }

  /**
   * A path is accepted exactly if it is a relative one of at most 240 bytes none of whose parts is
   * refused, and what is accepted are its named parts in their order, or the current directory.
   */
  lemma RelativePathExact(name: string, value: string)
    ensures var text, r := Trim(value), RelativePath(name, value);
      && (r.Success? <==>
            && text != "" && Utf8Len(text) <= 240 && text[0] != '/'
            && forall part :: part in Split(text, '/') ==> !IsRefusedPart(part))
      && (r.Success? ==> r.value == if Named(Split(text, '/')) == [] then ["."] else Named(Split(text, '/')))
  {
    CleanPartsExact(name, Split(Trim(value), '/'));
  }

  /** A validated path is the current directory or a list of ordinary names, none of which leads out. */
  lemma RelativePathStaysInside(name: string, value: string)
    requires RelativePath(name, value).Success?
    ensures var path := RelativePath(name, value).value;
      path == ["."] || (path != [] && forall part :: part in path ==> IsNormalPart(part))
  {
    SplitJoins(Trim(value), '/');
    CleanPartsAreNormal(name, Split(Trim(value), '/'));
  }

  const SECRET_WORDS := ["SECRET", "PASSWORD", "TOKEN", "CREDENTIAL", "PRIVATE_KEY"]

  predicate LooksSecret(key: string) {
    exists w :: w in SECRET_WORDS && Contains(ToUpper(key), w)
  }

  predicate IsKeyChar(ch: char) {
    IsAlphanumeric(ch) || ch == '_' || ch == '-' || ch == '.'
  }

  function ValidateBuildArg(arg: BuildArg): Check {
    if arg.key == "" || Utf8Len(arg.key) > 80 then Failure("build arg keys must be 1-80 characters")
    else if LooksSecret(arg.key) then Failure("build arg key looks secret-like")
    else if exists ch :: ch in arg.key && !IsKeyChar(ch) then Failure("build arg key contains unsupported characters")
    else if Utf8Len(arg.value) > 1024 || exists ch :: ch in arg.value && IsControl(ch)
    then Failure("build arg must be printable and 1024 characters or fewer")
    else OK
  }

  function ValidateEach(args: seq<BuildArg>): Check {
    if args == [] then OK
    else
      var _ :- ValidateBuildArg(args[0]);
      ValidateEach(args[1..])
  }

  function ValidateBuildArgs(buildArgs: Option<seq<BuildArg>>): Check {
    match buildArgs
    case None => OK
    case Some(args) =>
      if |args| > 32 then Failure("buildArgs can contain at most 32 entries") else ValidateEach(args)
  }

  function ValidateNamespace(c: ValidationConfig, namespace: string): Check {
    var _ :- ValidateNoWhitespace("deploy.namespace", namespace, 63);
    if namespace in c.allowedNamespaces then OK
    else Failure("namespace is not allowed by BUILD_SERVER_ALLOWED_NAMESPACES")
  }

  predicate IsKind(kind: string) {
    kind != "" && forall ch :: ch in kind ==> IsLower(ch) || IsDigit(ch) || ch == '.' || ch == '-'
  }

  predicate IsName(name: string) {
    name != "" && Utf8Len(name) <= 253 && forall ch :: ch in name ==> IsAlphanumeric(ch) || ch == '.' || ch == '-'
  }

  function ValidateRolloutResource(raw: string): Result<string, string> {
    var value := Trim(raw);
    var _ :- ValidateNoWhitespace("deploy.rollout", value, 160);
    if Contains(value, "..") then Failure("deploy.rollout must not contain '..'")
    else if StartsWith(value, "-") then Failure("deploy.rollout must not start with '-'")
    else
      var resource := if '/' in value then value else "deployment/" + value;
      match SplitOnce(resource, '/')
      case None => Failure("deploy.rollout must be TYPE/NAME")
      case Some((kind, name)) =>
        if IsKind(kind) && IsName(name) then Success(resource)
        else Failure("deploy.rollout must be a valid TYPE/NAME resource")
  }

  function ValidateDeploy(c: ValidationConfig, deploy: Option<DeployRequest>): Check {
    match deploy
    case None => OK
    case Some(d) =>
      if d.kind != "kustomize" && d.kind != "manifest" && d.kind != "none" then
        Failure("deploy.kind must be one of: kustomize, manifest, none")
      else if d.kind == "none" then OK
      else if !c.deployEnabled then Failure("deploy is disabled by BUILD_SERVER_DEPLOY_ENABLED=false")
      else
        var _ :- RelativePath("deploy.path", d.path);
        var _ :- ValidateNamespace(c, d.namespace.GetOr("default"));
        match d.rollout
        case None => OK
        case Some(rollout) =>
          var _ :- ValidateRolloutResource(rollout);
          OK
  }

  function ValidateSchema(request: BuildRequest): Check {
    if CleanOptional(request.schemaVersion).GetOr("build-server.v1") != "build-server.v1"
    then Failure("schemaVersion must be build-server.v1")
    else if JobKind(request) !in ["build-image", "build-and-deploy", "run-profile"]
    then Failure("jobKind must be build-image, build-and-deploy, or run-profile")
    else OK
  }

  /** The part of `validate_build_request` that depends on the kind of job. */
  function ValidateSubject(c: ValidationConfig, request: BuildRequest): Check {
    if RunsProfile(request) then
      var _ :- EnsureAllowedPrefix("profile repoUrl", request.repoUrl, c.allowedProfileRepoPrefixes,
                                   "BUILD_SERVER_ALLOWED_PROFILE_REPO_PREFIXES");
      match CleanOptional(request.profile)
      case None => Failure("profile is required for jobKind=run-profile")
      case Some(profile) =>
        if profile !in c.installedProfiles || profile !in c.allowedProfiles then
          Failure("profile is not allowed by BUILD_SERVER_ALLOWED_PROFILES")
        else if Trim(request.image) != "" then Failure("image must be omitted for jobKind=run-profile")
        else if request.push.GetOr(false) || request.deploy.Some? || request.buildArgs.Some? || request.dockerfile.Some?
        then Failure("run-profile does not accept image, push, deploy, buildArgs, or dockerfile")
        else OK
    else if request.profile.Some? then Failure("profile is only valid for jobKind=run-profile")
    else
      var _ :- ValidateImage(c, request.image, request.push.GetOr(false));
      OK
  }

  function ValidateExecutor(c: ValidationConfig, request: BuildRequest): Check {
    match request.executor
    case None => OK
    case Some(executor) =>
      if executor == "local" then OK
      else if executor != "lambda" then Failure("executor must be local or lambda")
      else if RunsProfile(request) then Failure("run-profile currently requires executor=local")
      else if !c.lambdaExecutorEnabled then Failure("executor lambda is disabled by BUILD_SERVER_LAMBDA_ENABLED=false")
      else OK
  }

  function ValidateFiles(request: BuildRequest): Check {
    var _ :- RelativePath("contextDir", request.contextDir.GetOr("."));
    if RunsProfile(request) then OK
    else
      var _ :- RelativePath("dockerfile", request.dockerfile.GetOr("Dockerfile"));
      ValidateBuildArgs(request.buildArgs)
  }

  function ValidateText(name: string, value: Option<string>, maxLen: nat): Check {
    match CleanOptional(value)
    case None => OK
    case Some(text) => ValidateNoWhitespace(name, text, maxLen)
  }

  /** What is to be built, from where. */
  function ValidateSource(c: ValidationConfig, request: BuildRequest): Check {
    var _ :- ValidateSchema(request);
    var _ :- ValidateRepoUrl(request.repoUrl);
    var _ :- EnsureAllowedPrefix("repoUrl", request.repoUrl, c.allowedRepoPrefixes,
                                 "BUILD_SERVER_ALLOWED_REPO_PREFIXES");
    ValidateSubject(c, request)
  }

  /** How it is to be built, and what is to become of it. */
  function ValidateOptions(c: ValidationConfig, request: BuildRequest): Check {
    var _ :- ValidateText("gitRef", request.gitRef, 180);
    var _ :- ValidateFiles(request);
    if request.push.GetOr(false) && !c.pushEnabled then Failure("push is disabled by BUILD_SERVER_PUSH_ENABLED=false")
    else
      var _ :- ValidateExecutor(c, request);
      var _ :- ValidateText("requestId", request.requestId, 128);
      if RunsProfile(request) then OK else ValidateDeploy(c, request.deploy)
  }

  /** `validate_build_request`: the checks in the order they are made; the first refusal counts. */
  function ValidateBuildRequest(c: ValidationConfig, request: BuildRequest): Check {
    var _ :- ValidateSource(c, request);
    ValidateOptions(c, request)
  }

  predicate Accepts(c: ValidationConfig, request: BuildRequest) {
    ValidateBuildRequest(c, request).Success?
  }

  /** What an accepted key looks like: printable without '=', and never the name of the option itself. */
  lemma {:induction false} AcceptedKeys(args: seq<BuildArg>)
    requires ValidateEach(args).Success?
    ensures forall arg :: arg in args ==> arg.key != "" && '=' !in arg.key && ValidateBuildArg(arg).Success?
  {
    if args != [] {
      AcceptedKeys(args[1..]);
      assert '=' in args[0].key ==> !IsKeyChar('=');
    }
  }

  /** An accepted image has an allowed prefix and a version, and is no option. */
  lemma AcceptedImage(c: ValidationConfig, image: string, push: bool)
    requires ValidateImage(c, image, push).Success?
    ensures HasPrefixIn(image, c.allowedImagePrefixes) && HasExplicitImageVersion(image)
    ensures image != "" && image[0] != '-' && forall ch :: ch in image ==> !IsWhitespace(ch) && !IsControl(ch)
  {
    assert image != "" by {
      assert Trim("") == "";
    }
  }

  /** One positional TYPE/NAME, with nothing in it that a command line could read as an option. */
  predicate IsResource(resource: string) {
    && resource != "" && resource[0] != '-'
    && match SplitOnce(resource, '/')
       case None => false
       case Some((kind, name)) => IsKind(kind) && IsName(name)
  }

  lemma AcceptedRollout(raw: string)
    requires ValidateRolloutResource(raw).Success?
    ensures IsResource(ValidateRolloutResource(raw).value)
  {
    var value := Trim(raw);
    var resource := if '/' in value then value else "deployment/" + value;
    assert ValidateRolloutResource(raw).value == resource;
    assert resource != "" by {
      assert SplitOnce(resource, '/').Some?;
    }
    assert resource[0] != '-';
  }
}
