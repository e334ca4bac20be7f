/** Which build requests are accepted, as one condition instead of a series of checks. */
module Admission {
  import opened Wrappers
  import opened Types
  import opened Text
  import opened LockKeys
  import opened Validation

  /** One word of at most `maxLen` bytes. */
  predicate IsWord(text: string, maxLen: nat) {
    && Trim(text) != "" && Utf8Len(text) <= maxLen
    && forall i :: 0 <= i < |text| ==> !IsWhitespace(text[i]) && !IsControl(text[i])
  }

  lemma WordExact(name: string, text: string, maxLen: nat)
    ensures ValidateNoWhitespace(name, text, maxLen).Success? <==> IsWord(text, maxLen)
  {
    if c :| c in text && (IsWhitespace(c) || IsControl(c)) {
      var i :| 0 <= i < |text| && text[i] == c;
    }
    forall i | 0 <= i < |text| ensures text[i] in text {
    }
  }

  /** An optional text: left out, blank, or one word. */
  predicate IsOptionalWord(value: Option<string>, maxLen: nat) {
    value.None? || Trim(value.value) == "" || IsWord(Trim(value.value), maxLen)
  }

  lemma OptionalWordExact(name: string, value: Option<string>, maxLen: nat)
    ensures ValidateText(name, value, maxLen).Success? <==> IsOptionalWord(value, maxLen)
  {
    if CleanOptional(value).Some? {
      WordExact(name, CleanOptional(value).value, maxLen);
    }
  }

  predicate IsRepository(c: ValidationConfig, repoUrl: string) {
    var url := Trim(repoUrl);
    && 0 < Utf8Len(url) <= 2048 && (forall i :: 0 <= i < |url| ==> !IsControl(url[i]))
    && ("https://" <= url || "ssh://" <= url || "git@" <= url)
    && HasPrefixIn(repoUrl, c.allowedRepoPrefixes)
  }

  lemma {:induction false} Utf8LenPositive(s: string)
    ensures Utf8Len(s) == 0 <==> s == ""
  {
  }

  lemma PrefixExact(name: string, value: string, prefixes: seq<string>, envName: string)
    ensures EnsureAllowedPrefix(name, value, prefixes, envName).Success? <==> HasPrefixIn(value, prefixes)
  {
  }

  lemma RepositoryExact(c: ValidationConfig, repoUrl: string)
    ensures IsRepository(c, repoUrl) <==>
      ValidateRepoUrl(repoUrl).Success? && HasPrefixIn(repoUrl, c.allowedRepoPrefixes)
  {
    var url := Trim(repoUrl);
    Utf8LenPositive(url);
    if ch :| ch in url && IsControl(ch) {
      var i :| 0 <= i < |url| && url[i] == ch;
    }
    forall i | 0 <= i < |url| ensures url[i] in url {
    }
  }

  /** A digest, or a colon after the last slash. */
  ghost predicate HasTagOrDigest(image: string) {
    '@' in image || exists k :: 0 <= k < |image| && image[k] == ':' && '/' !in image[k..]
  }

  /** A joined text ends with its last part, after a separator if there is more than one. */
  lemma {:induction false} JoinedEnds(parts: seq<string>, sep: char)
    requires |parts| > 0
    ensures var s, last := JoinWith(parts, sep), Last(parts);
      && |last| <= |s| && s[|s| - |last|..] == last
      && (|parts| == 1 ==> |last| == |s|)
      && (|parts| > 1 ==> |last| < |s| && s[|s| - |last| - 1] == sep)
  {
    if |parts| > 1 {
      JoinedEnds(parts[1..], sep);
      var rest, head := JoinWith(parts[1..], sep), parts[0] + [sep];
      assert JoinWith(parts, sep) == head + rest && Last(parts[1..]) == Last(parts);
      assert (head + rest)[|head| + (|rest| - |Last(parts)|)..] == rest[|rest| - |Last(parts)|..];
    }
  }

  /** The last part of a text is what follows its last separator. */
  lemma LastPartExact(s: string, sep: char)
    ensures var last := Last(Split(s, sep));
      && sep !in last && |last| <= |s| && s[|s| - |last|..] == last
      && (|last| < |s| ==> s[|s| - |last| - 1] == sep)
  {
    SplitJoins(s, sep);
    JoinedEnds(Split(s, sep), sep);
    assert Last(Split(s, sep)) in Split(s, sep);
  }

  lemma VersionExact(image: string)
    ensures HasExplicitImageVersion(image) <==> HasTagOrDigest(image)
  {
    LastPartExact(image, '/');
    var last := Last(Split(image, '/'));
    var start := |image| - |last|;
    forall k | 0 <= k < start ensures '/' in image[k..] {
      assert image[k..][start - 1 - k] == image[start - 1];
    }
    if ':' in last {
      var i :| 0 <= i < |last| && last[i] == ':';
      assert image[start + i] == ':' && image[start + i..] == last[i..];
    }
    if k :| 0 <= k < |image| && image[k] == ':' && '/' !in image[k..] {
      assert last[k - start] == image[k];
    }
  }

  /** An image with a tag or a digest, within the allowlist, and one of ECR where a push logs in there. */
  ghost predicate IsImage(c: ValidationConfig, image: string, push: bool) {
    && IsWord(image, 512) && image[0] != '-' && HasPrefixIn(image, c.allowedImagePrefixes)
    && HasTagOrDigest(image)
    && (push && c.ecrLoginEnabled ==> ParseEcrImage(image).Some?)
  }

  lemma WordStartsUntrimmed(text: string, maxLen: nat)
    requires IsWord(text, maxLen)
    ensures text != "" && TrimStart(text) == text
  {
  }

  lemma ImageExact(c: ValidationConfig, image: string, push: bool)
    ensures ValidateImage(c, image, push).Success? <==> IsImage(c, image, push)
  {
    WordExact("image", image, 512);
    VersionExact(image);
    if IsWord(image, 512) {
      WordStartsUntrimmed(image, 512);
      assert StartsWith(image, "-") <==> image[0] == '-';
    }
  }

  /** A profile that is installed and allowed, for an allowed repository, with nothing that is not its. */
  predicate IsProfileJob(c: ValidationConfig, request: BuildRequest) {
    && HasPrefixIn(request.repoUrl, c.allowedProfileRepoPrefixes)
    && request.profile.Some? && Trim(request.profile.value) in c.installedProfiles * c.allowedProfiles
    && Trim(request.profile.value) != "" && Trim(request.image) == ""
    && request.push != Some(true) && request.deploy.None? && request.buildArgs.None? && request.dockerfile.None?
  }

  ghost predicate IsSubject(c: ValidationConfig, request: BuildRequest) {
    if RunsProfile(request) then IsProfileJob(c, request)
    else request.profile.None? && IsImage(c, request.image, request.push == Some(true))
  }

  lemma ProfileJobExact(c: ValidationConfig, request: BuildRequest)
    requires RunsProfile(request)
    ensures ValidateSubject(c, request).Success? <==> IsProfileJob(c, request)
  {
    PrefixExact("profile repoUrl", request.repoUrl, c.allowedProfileRepoPrefixes,
                "BUILD_SERVER_ALLOWED_PROFILE_REPO_PREFIXES");
    if request.profile.Some? {
      assert CleanOptional(request.profile) ==
        if Trim(request.profile.value) == "" then None else Some(Trim(request.profile.value));
    }
  }

  lemma ImageJobExact(c: ValidationConfig, request: BuildRequest)
    requires !RunsProfile(request)
    ensures ValidateSubject(c, request).Success? <==>
      request.profile.None? && IsImage(c, request.image, request.push == Some(true))
  {
    ImageExact(c, request.image, request.push.GetOr(false));
  }

  lemma SubjectExact(c: ValidationConfig, request: BuildRequest)
    ensures ValidateSubject(c, request).Success? <==> IsSubject(c, request)
  {
    if RunsProfile(request) {
      ProfileJobExact(c, request);
    } else {
      ImageJobExact(c, request);
    }
  }

  /** A relative path of which no part leads out or could be misread. */
  predicate IsPath(value: string) {
    var text := Trim(value);
    && text != "" && Utf8Len(text) <= 240 && text[0] != '/'
    && forall part :: part in Split(text, '/') ==> !IsRefusedPart(part)
  }

  lemma PathExact(name: string, value: string)
    ensures RelativePath(name, value).Success? <==> IsPath(value)
  {
    RelativePathExact(name, value);
  }

  /** A key of 1 to 80 harmless characters that names no secret, and a printable value. */
  predicate IsBuildArg(arg: BuildArg) {
    && 0 < Utf8Len(arg.key) <= 80 && Utf8Len(arg.value) <= 1024
    && (forall w :: w in ["SECRET", "PASSWORD", "TOKEN", "CREDENTIAL", "PRIVATE_KEY"] ==>
          !Contains(ToUpper(arg.key), w))
    && (forall i :: 0 <= i < |arg.key| ==> IsAlphanumeric(arg.key[i]) || arg.key[i] in "_-.")
    && (forall i :: 0 <= i < |arg.value| ==> !IsControl(arg.value[i]))
  }

  lemma KeyCharExact(ch: char)
    ensures IsKeyChar(ch) <==> IsAlphanumeric(ch) || ch in "_-."
  {
    assert "_-."[0] == '_' && "_-."[1] == '-' && "_-."[2] == '.';
  }

  lemma BuildArgExact(arg: BuildArg)
    ensures ValidateBuildArg(arg).Success? <==> IsBuildArg(arg)
  {
    Utf8LenPositive(arg.key);
    forall ch ensures IsKeyChar(ch) <==> IsAlphanumeric(ch) || ch in "_-." {
      KeyCharExact(ch);
    }
    CharsExact(arg);
  }

  lemma CharsExact(arg: BuildArg)
    ensures (exists ch :: ch in arg.key && !IsKeyChar(ch)) <==>
      (exists i :: 0 <= i < |arg.key| && !IsKeyChar(arg.key[i]))
    ensures (exists ch :: ch in arg.value && IsControl(ch)) <==>
      (exists i :: 0 <= i < |arg.value| && IsControl(arg.value[i]))
  {
    if ch :| ch in arg.key && !IsKeyChar(ch) {
      var i :| 0 <= i < |arg.key| && arg.key[i] == ch;
    }
    if ch :| ch in arg.value && IsControl(ch) {
      var i :| 0 <= i < |arg.value| && arg.value[i] == ch;
    }
    forall i | 0 <= i < |arg.key| ensures arg.key[i] in arg.key {
    }
    forall i | 0 <= i < |arg.value| ensures arg.value[i] in arg.value {
    }
  }

  lemma {:induction false} EachExact(args: seq<BuildArg>)
    ensures ValidateEach(args).Success? <==> forall i :: 0 <= i < |args| ==> IsBuildArg(args[i])
  {
    if args != [] {
      BuildArgExact(args[0]);
      EachExact(args[1..]);
      forall i | 0 < i < |args| ensures args[i] == args[1..][i - 1] {
      }
    }
  }

  /** The paths of the job, and for a build its Dockerfile and at most 32 build arguments. */
  predicate HasGoodFiles(request: BuildRequest) {
    && IsPath(request.contextDir.GetOr("."))
    && (!RunsProfile(request) ==>
          && IsPath(request.dockerfile.GetOr("Dockerfile"))
          && |request.buildArgs.GetOr([])| <= 32
          && forall i :: 0 <= i < |request.buildArgs.GetOr([])| ==> IsBuildArg(request.buildArgs.GetOr([])[i]))
  }

  lemma FilesExact(request: BuildRequest)
    ensures ValidateFiles(request).Success? <==> HasGoodFiles(request)
  {
    PathExact("contextDir", request.contextDir.GetOr("."));
    PathExact("dockerfile", request.dockerfile.GetOr("Dockerfile"));
    EachExact(request.buildArgs.GetOr([]));
  }

  /** The local executor, or the lambda one where it is enabled and no profile runs. */
  predicate HasGoodExecutor(c: ValidationConfig, request: BuildRequest) {
    || request.executor.None? || request.executor == Some("local")
    || (request.executor == Some("lambda") && !RunsProfile(request) && c.lambdaExecutorEnabled)
  }

  lemma ExecutorExact(c: ValidationConfig, request: BuildRequest)
    ensures ValidateExecutor(c, request).Success? <==> HasGoodExecutor(c, request)
  {
  }

  /** The text is this TYPE/NAME, or the name alone where the type is a deployment. */
  predicate NamesResource(text: string, kind: string, name: string) {
    && '/' !in kind && IsKind(kind) && IsName(name)
    && (text == kind + ['/'] + name || ('/' !in text && kind == "deployment" && name == text))
  }

  /** One TYPE/NAME, or a NAME of a deployment, in the restricted alphabets. */
  ghost predicate IsRollout(text: string) {
    && IsWord(text, 160) && !Contains(text, "..") && text[0] != '-'
    && exists kind, name :: NamesResource(text, kind, name)
  }

  lemma RolloutExact(raw: string)
    ensures ValidateRolloutResource(raw).Success? <==> IsRollout(Trim(raw))
  {
    var text := Trim(raw);
    WordExact("deploy.rollout", text, 160);
    if IsWord(text, 160) {
      WordStartsUntrimmed(text, 160);
      assert StartsWith(text, "-") <==> text[0] == '-';
      var resource := if '/' in text then text else "deployment/" + text;
      ResourceExact(text, resource);
    }
  }

  /** The resource splits at its first slash in exactly one way. */
  lemma ResourceExact(text: string, resource: string)
    requires resource == if '/' in text then text else "deployment/" + text
    ensures (SplitOnce(resource, '/').Some? && IsKind(SplitOnce(resource, '/').value.0)
             && IsName(SplitOnce(resource, '/').value.1)) <==>
      exists kind, name :: NamesResource(text, kind, name)
  {
    SplitOnceExact(resource, '/');
    var split := SplitOnce(resource, '/');
    if split.Some? && IsKind(split.value.0) && IsName(split.value.1) && '/' in text {
      assert NamesResource(text, split.value.0, split.value.1);
    }
    if '/' !in text {
      assert "deployment/" + text == "deployment" + ['/'] + text;
      SplitOnceAt("deployment", '/', text);
      assert IsKind("deployment") && IsName(text) ==> NamesResource(text, "deployment", text);
    }
    if kind, name :| NamesResource(text, kind, name) {
      SplitOnceAt(kind, '/', name);
      assert (kind + ['/'] + name)[|kind|] == '/';
    }
  }

  /** A deployment that does something needs the switch, a path, an allowed namespace, a rollout that is one. */
  ghost predicate IsGoodDeploy(c: ValidationConfig, d: DeployRequest) {
    && d.kind in ["kustomize", "manifest"] && c.deployEnabled && IsPath(d.path)
    && IsWord(d.namespace.GetOr("default"), 63) && d.namespace.GetOr("default") in c.allowedNamespaces
    && (d.rollout.Some? ==> IsRollout(Trim(d.rollout.value)))
  }

  ghost predicate HasGoodDeploy(c: ValidationConfig, deploy: Option<DeployRequest>) {
    deploy.Some? && deploy.value.kind != "none" ==> IsGoodDeploy(c, deploy.value)
  }

  lemma NamespaceExact(c: ValidationConfig, namespace: string)
    ensures ValidateNamespace(c, namespace).Success? <==> IsWord(namespace, 63) && namespace in c.allowedNamespaces
  {
    WordExact("deploy.namespace", namespace, 63);
  }

  lemma DeployExact(c: ValidationConfig, deploy: Option<DeployRequest>)
    ensures ValidateDeploy(c, deploy).Success? <==> HasGoodDeploy(c, deploy)
  {
    if deploy.Some? {
      PathExact("deploy.path", deploy.value.path);
      NamespaceExact(c, deploy.value.namespace.GetOr("default"));
      if deploy.value.rollout.Some? {
        RolloutExact(deploy.value.rollout.value);
      }
    }
  }

  predicate HasGoodSchema(request: BuildRequest) {
    && (request.schemaVersion.None? || Trim(request.schemaVersion.value) in ["", "build-server.v1"])
    && (request.jobKind.None? || Trim(request.jobKind.value) in ["", "build-image", "build-and-deploy", "run-profile"])
  }

  lemma SchemaExact(request: BuildRequest)
    ensures ValidateSchema(request).Success? <==> HasGoodSchema(request)
  {
  }

  /** What is asked of a request, in no particular order. */
  ghost predicate IsAdmissible(c: ValidationConfig, request: BuildRequest) {
    && HasGoodSchema(request) && IsRepository(c, request.repoUrl) && IsSubject(c, request)
    && IsOptionalWord(request.gitRef, 180) && IsOptionalWord(request.requestId, 128)
    && HasGoodFiles(request) && HasGoodExecutor(c, request)
    && (request.push == Some(true) ==> c.pushEnabled)
    && (!RunsProfile(request) ==> HasGoodDeploy(c, request.deploy))
  }

  lemma SourceExact(c: ValidationConfig, request: BuildRequest)
    ensures ValidateSource(c, request).Success? <==>
      HasGoodSchema(request) && IsRepository(c, request.repoUrl) && IsSubject(c, request)
  {
    SchemaExact(request);
    RepositoryExact(c, request.repoUrl);
    PrefixExact("repoUrl", request.repoUrl, c.allowedRepoPrefixes, "BUILD_SERVER_ALLOWED_REPO_PREFIXES");
    SubjectExact(c, request);
  }

  lemma TextsExact(request: BuildRequest)
    ensures ValidateText("gitRef", request.gitRef, 180).Success? <==> IsOptionalWord(request.gitRef, 180)
    ensures ValidateText("requestId", request.requestId, 128).Success? <==> IsOptionalWord(request.requestId, 128)
  {
    OptionalWordExact("gitRef", request.gitRef, 180);
    OptionalWordExact("requestId", request.requestId, 128);
  }

  lemma OptionsExact(c: ValidationConfig, request: BuildRequest)
    ensures ValidateOptions(c, request).Success? <==>
      && IsOptionalWord(request.gitRef, 180) && IsOptionalWord(request.requestId, 128)
      && HasGoodFiles(request) && HasGoodExecutor(c, request)
      && (request.push == Some(true) ==> c.pushEnabled)
      && (!RunsProfile(request) ==> HasGoodDeploy(c, request.deploy))
  {
    TextsExact(request);
    FilesExact(request);
    ExecutorExact(c, request);
    DeployExact(c, request.deploy);
  }

  /** A request is accepted if and only if it meets every one of these conditions. */
  lemma AcceptedIff(c: ValidationConfig, request: BuildRequest)
    ensures Accepts(c, request) <==> IsAdmissible(c, request)
  {
    SourceExact(c, request);
    OptionsExact(c, request);
  }
}
