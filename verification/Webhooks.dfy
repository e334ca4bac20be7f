/** From a GitHub delivery to a build request (`src/webhooks.rs`). */
module Webhooks {
  import opened Wrappers
  import opened Types
  import opened Text
  import opened LockKeys
  import opened Substitution

  datatype WebhookRule = WebhookRule(
    repo: string,
    branch: Option<string>,
    tags: bool,
    events: Option<seq<string>>,
    image: Option<string>,
    profile: Option<string>,
    contextDir: Option<string>,
    dockerfile: Option<string>,
    push: bool,
    executor: Option<string>,
    deploy: Option<DeployRequest>)

  /** What the signed payload of a push or a finished workflow says. */
  datatype Delivery = Delivery(event: string, repo: string, gitRef: string, sha: string, actionable: bool)

  const HEADS := "refs/heads/"
  const TAGS := "refs/tags/"

  function BranchFromRef(gitRef: string): Option<string> {
    if StartsWith(gitRef, HEADS) then Some(gitRef[|HEADS|..]) else None
  }

  /** The text that stands for the ref in an image: the branch name where there is one. */
  function RefText(gitRef: string): string {
    BranchFromRef(gitRef).GetOr(gitRef)
  }

  predicate RuleMatches(rule: WebhookRule, d: Delivery) {
    && ToUpper(rule.repo) == ToUpper(d.repo)
    && d.event in rule.events.GetOr(["push"])
    && if BranchFromRef(d.gitRef).None? && StartsWith(d.gitRef, TAGS) then rule.tags
       else rule.branch.None? || rule.branch.value == RefText(d.gitRef)
  }

  function FirstMatch(rules: seq<WebhookRule>, d: Delivery): Option<WebhookRule> {
    if rules == [] then None
    else if RuleMatches(rules[0], d) then Some(rules[0])
    else FirstMatch(rules[1..], d)
  }

  /** `build_request_from_rule`. */
  function BuildRequestFromRule(rule: WebhookRule, d: Delivery): BuildRequest {
    BuildRequest(
      Some("build-server.v1"),
      Some(if rule.profile.Some? then "run-profile"
           else if rule.deploy.Some? then "build-and-deploy" else "build-image"),
      "https://github.com/" + d.repo + ".git",
      Some(RefText(d.gitRef)),
      if rule.image.Some? then SubstituteImage(rule.image.value, d.sha, RefText(d.gitRef)) else "",
      rule.profile, rule.contextDir, rule.dockerfile, None, Some(rule.push), rule.deploy, rule.executor, None)
  }

  /** The gate of `github_webhook`, then the first rule that matches. */
  function RequestOfDelivery(rules: seq<WebhookRule>, d: Delivery): Option<BuildRequest> {
    if !d.actionable || d.repo == "" || !ValidCommitSha(d.sha) then None
    else match FirstMatch(rules, d)
      case None => None
      case Some(rule) => Some(BuildRequestFromRule(rule, d))
  }

  lemma {:induction false} FirstMatchIsFirst(rules: seq<WebhookRule>, d: Delivery) returns (i: nat)
    requires FirstMatch(rules, d).Some?
    ensures i < |rules| && rules[i] == FirstMatch(rules, d).value && RuleMatches(rules[i], d)
    ensures forall j :: 0 <= j < i ==> !RuleMatches(rules[j], d)
  {
    if RuleMatches(rules[0], d) {
      i := 0;
    } else {
      i := FirstMatchIsFirst(rules[1..], d);
      i := i + 1;
      forall j | 0 <= j < i ensures !RuleMatches(rules[j], d) {
        assert j > 0 ==> rules[j] == rules[1..][j - 1];
      }
    }
  }

  /** The names of two repositories, which GitHub compares without their case. */
  predicate SameRepo(a: string, b: string) {
    |a| == |b| && forall i :: 0 <= i < |a| ==> SameButCase(a[i], b[i])
  }

  /** The rule wants this ref: its branch, if it names one, and a tag only if it says so. */
  ghost predicate WantsRef(rule: WebhookRule, gitRef: string) {
    || (exists branch ::
          gitRef == "refs/heads/" + branch && (rule.branch.None? || rule.branch == Some(branch)))
    || (StartsWith(gitRef, "refs/tags/") && rule.tags)
    || (!StartsWith(gitRef, "refs/heads/") && !StartsWith(gitRef, "refs/tags/")
        && (rule.branch.None? || rule.branch == Some(gitRef)))
  }

  /** What makes a rule match: the repository, the kind of event and the ref. */
  lemma RuleMatchesExact(rule: WebhookRule, d: Delivery)
    ensures RuleMatches(rule, d) <==>
      && SameRepo(rule.repo, d.repo)
      && (match rule.events case Some(events) => d.event in events case None => d.event == "push")
      && WantsRef(rule, d.gitRef)
  {
    ToUpperExact(rule.repo, d.repo);
    HeadsAreNoTags(d.gitRef);
    if StartsWith(d.gitRef, HEADS) {
      var branch := d.gitRef[|HEADS|..];
      assert d.gitRef == "refs/heads/" + branch;
      forall other | d.gitRef == "refs/heads/" + other ensures other == branch {
        assert other == ("refs/heads/" + other)[|HEADS|..];
      }
    } else {
      forall other ensures d.gitRef != "refs/heads/" + other {
        assert StartsWith("refs/heads/" + other, HEADS);
      }
    }
  }

  lemma HeadsAreNoTags(gitRef: string)
    ensures !(StartsWith(gitRef, "refs/heads/") && StartsWith(gitRef, "refs/tags/"))
  {
    assert "refs/heads/"[5] == 'h' && "refs/tags/"[5] == 't';
  }

  lemma {:induction false} FirstMatchExists(rules: seq<WebhookRule>, d: Delivery)
    ensures FirstMatch(rules, d).Some? <==> exists i :: 0 <= i < |rules| && RuleMatches(rules[i], d)
  {
    if rules != [] {
      FirstMatchExists(rules[1..], d);
      if i :| 0 <= i < |rules[1..]| && RuleMatches(rules[1..][i], d) {
        assert rules[i + 1] == rules[1..][i];
      }
      if i :| 0 < i < |rules| && RuleMatches(rules[i], d) {
        assert rules[1..][i - 1] == rules[i];
      }
    }
  }

  lemma CommitShaExact(sha: string)
    ensures ValidCommitSha(sha) <==>
      && 7 <= |sha| <= 64
      && forall i :: 0 <= i < |sha| ==>
           '0' <= sha[i] <= '9' || 'a' <= sha[i] <= 'f' || 'A' <= sha[i] <= 'F'
  {
    if forall i :: 0 <= i < |sha| ==> IsHexDigit(sha[i]) {
      HexLength(sha);
    } else {
      var i :| 0 <= i < |sha| && !IsHexDigit(sha[i]);
      assert sha[i] in sha;
    }
  }

  /** A delivery becomes a build exactly if its commit is 7 to 64 hexadecimal digits and some rule matches. */
  lemma DeliveryIsTakenIff(rules: seq<WebhookRule>, d: Delivery)
    ensures RequestOfDelivery(rules, d).Some? <==>
      && d.actionable && d.repo != "" && 7 <= |d.sha| <= 64
      && (forall i :: 0 <= i < |d.sha| ==>
            '0' <= d.sha[i] <= '9' || 'a' <= d.sha[i] <= 'f' || 'A' <= d.sha[i] <= 'F')
      && exists i :: 0 <= i < |rules| && RuleMatches(rules[i], d)
  {
    FirstMatchExists(rules, d);
    CommitShaExact(d.sha);
  }

  /**
   * A delivery that gets as far as a build asks for what its first matching rule says: a profile job
   * exactly if the rule names a profile, with no image if the rule has none, and otherwise with the
   * simultaneous substitution of the sha and the branch into the rule's template, because the gate
   * comes first.
   */
  lemma DeliveredRequest(rules: seq<WebhookRule>, d: Delivery) returns (i: nat)
    requires RequestOfDelivery(rules, d).Some?
    ensures i < |rules| && RuleMatches(rules[i], d) && forall j :: 0 <= j < i ==> !RuleMatches(rules[j], d)
    ensures var request := RequestOfDelivery(rules, d).value;
      && request.image == (if rules[i].image.None? then ""
                           else Substitute(rules[i].image.value, ImageRules(d.sha, RefText(d.gitRef))))
      && request.repoUrl == "https://github.com/" + d.repo + ".git"
      && request.gitRef.Some? && d.gitRef == (if StartsWith(d.gitRef, HEADS) then HEADS else "") + request.gitRef.value
      && (RunsProfile(request) <==> rules[i].profile.Some?) && request.profile == rules[i].profile
      && (rules[i].profile.None? ==> (JobKind(request) == "build-and-deploy" <==> rules[i].deploy.Some?))
      && request.contextDir == rules[i].contextDir && request.dockerfile == rules[i].dockerfile
      && request.push == Some(rules[i].push) && request.deploy == rules[i].deploy
      && request.executor == rules[i].executor && request.schemaVersion == Some("build-server.v1")
      && request.buildArgs.None? && request.requestId.None?
  {
    i := FirstMatchIsFirst(rules, d);
    if rules[i].image.Some? {
      PassesAreSimultaneous(rules[i].image.value, d.sha, RefText(d.gitRef));
    }
    KindsStayClean();
  }

  /** The job kinds that rules give are clean texts already. */
  lemma KindsStayClean()
    ensures CleanOptional(Some("run-profile")) == Some("run-profile")
    ensures CleanOptional(Some("build-and-deploy")) == Some("build-and-deploy")
    ensures CleanOptional(Some("build-image")) == Some("build-image")
  {
  }
}
