/** The name of the distributed lock of a job (`src/jobs.rs`). */
module LockKeys {
  import opened Wrappers
  import opened Types
  import opened Text

  const PROFILE_PREFIX := "build-server/profile/"
  const IMAGE_PREFIX := "build-server/image/"

  /** `request_job_kind`. */
  function JobKind(request: BuildRequest): string {
    CleanOptional(request.jobKind).GetOr("build-image")
  }

  predicate RunsProfile(request: BuildRequest) {
    JobKind(request) == "run-profile"
  }

  /** The key; `hash` stands for the SHA-256 digest in hexadecimal. */
  function LockKey(request: BuildRequest, hash: string -> string): string {
    if RunsProfile(request) then PROFILE_PREFIX + request.profile.GetOr("unknown") + "/" + hash(request.repoUrl)
    else IMAGE_PREFIX + request.image
  }

  /** The digests of these two texts have 64 characters and are equal only if the texts are. */
  predicate DigestsDiffer(hash: string -> string, x: string, y: string) {
    |hash(x)| == 64 && |hash(y)| == 64 && (hash(x) == hash(y) ==> x == y)
  }

  /** The profile and repository text that the key of a profile job is made from. */
  function KeyedBy(request: BuildRequest): (string, string) {
    if RunsProfile(request) then (request.profile.GetOr("unknown"), request.repoUrl) else ("", request.image)
  }

  /**
   * Two jobs share a lock exactly when they are of the same kind and agree on the image text, or on
   * the profile text and the repository text, as long as the digests of the two repositories differ.
   */
  lemma SameKeyIff(a: BuildRequest, b: BuildRequest, hash: string -> string)
    requires DigestsDiffer(hash, a.repoUrl, b.repoUrl)
    ensures LockKey(a, hash) == LockKey(b, hash) <==> RunsProfile(a) == RunsProfile(b) && KeyedBy(a) == KeyedBy(b)
  {
    var ka, kb := LockKey(a, hash), LockKey(b, hash);
    if RunsProfile(a) != RunsProfile(b) {
      KindsNeverCollide(a, b, hash);
    } else if RunsProfile(a) {
      ProfileKeyParts(a, hash);
      ProfileKeyParts(b, hash);
    } else {
      assert ka[|IMAGE_PREFIX|..] == a.image && kb[|IMAGE_PREFIX|..] == b.image;
    }
  }

  lemma ProfileKeyParts(a: BuildRequest, hash: string -> string)
    requires RunsProfile(a) && |hash(a.repoUrl)| == 64
    ensures var key := LockKey(a, hash);
      && |key| >= |PROFILE_PREFIX| + 65
      && key[|key| - 64..] == hash(a.repoUrl)
      && key[|PROFILE_PREFIX|..|key| - 65] == a.profile.GetOr("unknown")
  {
  }

  /** Whatever the digest, jobs of one kind that agree on these texts go by one key. */
  lemma SameTextsSameKey(a: BuildRequest, b: BuildRequest, hash: string -> string)
    requires RunsProfile(a) == RunsProfile(b) && KeyedBy(a) == KeyedBy(b)
    ensures LockKey(a, hash) == LockKey(b, hash)
  {
  }

  /** A profile job never waits for an image lock, nor the other way round. */
  lemma KindsNeverCollide(a: BuildRequest, b: BuildRequest, hash: string -> string)
    requires RunsProfile(a) != RunsProfile(b)
    ensures LockKey(a, hash) != LockKey(b, hash)
  {
    KeyStart(a, hash);
    KeyStart(b, hash);
  }

  lemma KeyStart(a: BuildRequest, hash: string -> string)
    ensures |LockKey(a, hash)| > 13 && LockKey(a, hash)[13] == if RunsProfile(a) then 'p' else 'i'
  {
  }

  /**
   * The key uses the profile text as submitted while execution uses it trimmed, so two requests for
   * the same profile of the same repository need not exclude each other.
   */
  lemma PaddedProfileEscapesTheLock(a: BuildRequest, name: string, hash: string -> string)
    requires RunsProfile(a) && a.profile == Some(name)
    ensures var b := a.(profile := Some(name + " "));
      RunsProfile(b) && CleanOptional(b.profile) == CleanOptional(a.profile) && LockKey(b, hash) != LockKey(a, hash)
  {
    var b := a.(profile := Some(name + " "));
    assert |LockKey(b, hash)| == |LockKey(a, hash)| + 1;
    TrimDropsTrailingSpace(name);
  }

  lemma {:induction false} TrimStartAppend(s: string)
    ensures TrimStart(s + " ") == (if TrimStart(s) == "" then "" else TrimStart(s) + " ")
  {
    if s == "" {
      assert (s + " ")[1..] == "";
    } else {
      assert (s + " ")[1..] == s[1..] + " ";
      TrimStartAppend(s[1..]);
    }
  }

  lemma TrimDropsTrailingSpace(s: string)
    ensures Trim(s + " ") == Trim(s)
  {
    TrimStartAppend(s);
    var t := TrimStart(s);
    assert (t + " ")[..|t|] == t;
  }
}
