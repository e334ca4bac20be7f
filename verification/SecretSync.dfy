/** Secret synchronisation of `src/gh_secrets.rs`: skipping unchanged values amounts to always writing. */
module SecretSync {
  import opened Wrappers

  /** A secret of a repository, and the environment variable its value comes from. */
  datatype Slot = Slot(repo: string, name: string)

  datatype Secret = Secret(name: string, fromEnv: string)

  datatype SyncRule = SyncRule(repo: string, secrets: seq<Secret>)

  datatype Status = Synced | SkippedUnchanged | SyncFailed

  /** An audit row; `at` is the time the database gave it. */
  datatype AuditRow = AuditRow(slot: Slot, hash: string, status: Status, at: nat)

  datatype Outcome = Outcome(slot: Slot, status: Status)

  /** What the world answers for one secret: audit read, sealing and PUT, audit write with its time. */
  datatype Io = Io(readWorks: bool, putWorks: bool, writeWorks: bool, at: nat)

  /** One pass: which repositories give their public key, the environment, and the answers in order. */
  datatype Pass = Pass(keyWorks: string -> bool, env: string -> Option<string>, io: (nat, nat) -> Io)

  datatype SyncConfig = SyncConfig(rules: seq<SyncRule>, hasToken: bool, hasDatabase: bool)

  type Remote = map<Slot, string>

  /** The remote secrets and the audit rows, in the order they were written. */
  datatype Store = Store(remote: Remote, rows: seq<AuditRow>)

  predicate CountsAsSynced(row: AuditRow, slot: Slot) {
    row.slot == slot && !row.status.SyncFailed?
  }

  /** `last_synced_sha256`: the hash of the newest row that counts. */
  function LastSynced(rows: seq<AuditRow>, slot: Slot): Option<AuditRow> {
    if rows == [] then None
    else
      var n := |rows| - 1;
      var before := LastSynced(rows[..n], slot);
      if CountsAsSynced(rows[n], slot) && (before.None? || before.value.at <= rows[n].at) then Some(rows[n]) else before
  }

  function Record(c: SyncConfig, rows: seq<AuditRow>, io: Io, slot: Slot, hash: string, status: Status): seq<AuditRow> {
    if c.hasDatabase && io.writeWorks then rows + [AuditRow(slot, hash, status, io.at)] else rows
  }

  /** The cached hash says that this value was the last one sent. */
  predicate IsUnchanged(c: SyncConfig, rows: seq<AuditRow>, io: Io, slot: Slot, hash: string) {
    && c.hasDatabase && io.readWorks && LastSynced(rows, slot).Some? && LastSynced(rows, slot).value.hash == hash
  }

  /** One secret of a pass, as specified. */
  function SyncOne(c: SyncConfig, s: Store, slot: Slot, value: Option<string>, io: Io, hash: string -> string): Store {
    match value
    case None => s.(rows := Record(c, s.rows, io, slot, "-", SyncFailed))
    case Some(v) =>
      if v == "" then s.(rows := Record(c, s.rows, io, slot, "-", SyncFailed))
      else if IsUnchanged(c, s.rows, io, slot, hash(v)) then
        s.(rows := Record(c, s.rows, io, slot, hash(v), SkippedUnchanged))
      else if io.putWorks then
        Store(s.remote[slot := v], Record(c, s.rows, io, slot, hash(v), Synced))
      else
        s.(rows := Record(c, s.rows, io, slot, hash(v), SyncFailed))
  }

  function OutcomeOne(c: SyncConfig, s: Store, slot: Slot, value: Option<string>, io: Io, hash: string -> string)
    : Outcome
  {
    Outcome(slot,
      if value.None? || value.value == "" then SyncFailed
      else if IsUnchanged(c, s.rows, io, slot, hash(value.value)) then SkippedUnchanged
      else if io.putWorks then Synced else SyncFailed)
  }

  /** The secrets of rule `i` up to the `n`th. */
  function SyncSecrets(c: SyncConfig, s: Store, i: nat, n: nat, p: Pass, hash: string -> string): Store
    requires i < |c.rules| && n <= |c.rules[i].secrets|
  {
    if n == 0 then s
    else
      var secret := c.rules[i].secrets[n - 1];
      SyncOne(c, SyncSecrets(c, s, i, n - 1, p, hash), Slot(c.rules[i].repo, secret.name), p.env(secret.fromEnv),
              p.io(i, n - 1), hash)
  }

  /** The rules up to the `n`th; a repository without its public key is left out of the pass. */
  function SyncRules(c: SyncConfig, s: Store, n: nat, p: Pass, hash: string -> string): Store
    requires n <= |c.rules|
  {
    if n == 0 then s
    else
      var before := SyncRules(c, s, n - 1, p, hash);
      if p.keyWorks(c.rules[n - 1].repo) then SyncSecrets(c, before, n - 1, |c.rules[n - 1].secrets|, p, hash)
      else before
  }

  function SyncPass(c: SyncConfig, s: Store, p: Pass, hash: string -> string): Store {
    if c.hasToken then SyncRules(c, s, |c.rules|, p, hash) else s
  }

  // The outcomes that a pass reports, in order.

  function SecretOutcomes(c: SyncConfig, s: Store, i: nat, n: nat, p: Pass, hash: string -> string): seq<Outcome>
    requires i < |c.rules| && n <= |c.rules[i].secrets|
  {
    if n == 0 then []
    else
      var secret := c.rules[i].secrets[n - 1];
      SecretOutcomes(c, s, i, n - 1, p, hash)
      + [OutcomeOne(c, SyncSecrets(c, s, i, n - 1, p, hash), Slot(c.rules[i].repo, secret.name), p.env(secret.fromEnv),
                    p.io(i, n - 1), hash)]
  }

  function FailedOutcomes(rule: SyncRule, n: nat): seq<Outcome>
    requires n <= |rule.secrets|
  {
    if n == 0 then []
    else FailedOutcomes(rule, n - 1) + [Outcome(Slot(rule.repo, rule.secrets[n - 1].name), SyncFailed)]
  }

  /** The outcomes of one rule, as a pass comes to it. */
  function BlockOf(c: SyncConfig, s: Store, i: nat, p: Pass, hash: string -> string): seq<Outcome>
    requires i < |c.rules|
  {
    if p.keyWorks(c.rules[i].repo)
    then SecretOutcomes(c, SyncRules(c, s, i, p, hash), i, |c.rules[i].secrets|, p, hash)
    else FailedOutcomes(c.rules[i], |c.rules[i].secrets|)
  }

  function RuleOutcomes(c: SyncConfig, s: Store, n: nat, p: Pass, hash: string -> string): seq<Outcome>
    requires n <= |c.rules|
  {
    if n == 0 then [] else RuleOutcomes(c, s, n - 1, p, hash) + BlockOf(c, s, n - 1, p, hash)
  }

  function PassOutcomes(c: SyncConfig, s: Store, p: Pass, hash: string -> string): seq<Outcome> {
    if c.hasToken then RuleOutcomes(c, s, |c.rules|, p, hash) else [Outcome(Slot("-", "-"), SyncFailed)]
  }

  /** The synchroniser as an object: remote store and audit rows change in place. */
  class Syncer {
    const config: SyncConfig
    var remote: Remote
    var rows: seq<AuditRow>

    constructor (c: SyncConfig, remote: Remote, rows: seq<AuditRow>)
      ensures config == c && this.remote == remote && this.rows == rows
    {
      config, this.remote, this.rows := c, remote, rows;
    }

    function Contents(): Store
      reads this
    {
      Store(remote, rows)
    }

    method RecordSync(io: Io, slot: Slot, hash: string, status: Status)
      modifies `rows
      ensures rows == Record(config, old(rows), io, slot, hash, status)
    {
      if config.hasDatabase && io.writeWorks {
        rows := rows + [AuditRow(slot, hash, status, io.at)];
      }
    }

    /** The body of the inner loop of `sync_all`. */
    method SyncSecret(slot: Slot, value: Option<string>, io: Io, hash: string -> string) returns (outcome: Outcome)
      modifies `remote, `rows
      ensures Contents() == SyncOne(config, old(Contents()), slot, value, io, hash)
      ensures outcome == OutcomeOne(config, old(Contents()), slot, value, io, hash)
    {
      if value.None? || value.value == "" {
        RecordSync(io, slot, "-", SyncFailed);
        return Outcome(slot, SyncFailed);
      }
      var digest := hash(value.value);
      if config.hasDatabase && io.readWorks {
        var last := LastSynced(rows, slot);
        if last.Some? && last.value.hash == digest {
          RecordSync(io, slot, digest, SkippedUnchanged);
          return Outcome(slot, SkippedUnchanged);
        }
      }
      var status := SyncFailed;
      if io.putWorks {
        remote := remote[slot := value.value];
        status := Synced;
      }
      RecordSync(io, slot, digest, status);
      return Outcome(slot, status);
    }

    /** The inner loop of `sync_all` over the secrets of one rule. */
    method SyncRepo(i: nat, p: Pass, hash: string -> string) returns (outcomes: seq<Outcome>)
      requires i < |config.rules|
      modifies `remote, `rows
      ensures Contents() == SyncSecrets(config, old(Contents()), i, |config.rules[i].secrets|, p, hash)
      ensures outcomes == SecretOutcomes(config, old(Contents()), i, |config.rules[i].secrets|, p, hash)
    {
      outcomes := [];
      var rule := config.rules[i];
      for j := 0 to |rule.secrets|
        invariant Contents() == SyncSecrets(config, old(Contents()), i, j, p, hash)
        invariant outcomes == SecretOutcomes(config, old(Contents()), i, j, p, hash)
      {
        var secret := rule.secrets[j];
        var outcome := SyncSecret(Slot(rule.repo, secret.name), p.env(secret.fromEnv), p.io(i, j), hash);
        outcomes := outcomes + [outcome];
      }
    }

    /** The loop over the secrets of a repository whose public key cannot be had. */
    method FailRepo(rule: SyncRule) returns (outcomes: seq<Outcome>)
      ensures outcomes == FailedOutcomes(rule, |rule.secrets|)
    {
      outcomes := [];
      for j := 0 to |rule.secrets|
        invariant outcomes == FailedOutcomes(rule, j)
      {
        outcomes := outcomes + [Outcome(Slot(rule.repo, rule.secrets[j].name), SyncFailed)];
      }
    }

    /** `sync_all`: the loop over the rules. */
    method SyncAll(p: Pass, hash: string -> string) returns (outcomes: seq<Outcome>)
      modifies `remote, `rows
      ensures Contents() == SyncPass(config, old(Contents()), p, hash)
      ensures outcomes == PassOutcomes(config, old(Contents()), p, hash)
    {
      outcomes := [];
      if !config.hasToken {
        return [Outcome(Slot("-", "-"), SyncFailed)];
      }
      for i := 0 to |config.rules|
        invariant Contents() == SyncRules(config, old(Contents()), i, p, hash)
        invariant outcomes == RuleOutcomes(config, old(Contents()), i, p, hash)
      {
        var rule := config.rules[i];
        var reported;
        if p.keyWorks(rule.repo) {
          reported := SyncRepo(i, p, hash);
        } else {
          reported := FailRepo(rule);
        }
        outcomes := outcomes + reported;
      }
    }
  }

  // What the reported outcomes say about the pass.

  /** An outcome tells what its step did to the remote store, and why. */
  predicate TellsStep(c: SyncConfig, before: Store, after: Store, o: Outcome, value: Option<string>, io: Io,
                      hash: string -> string)
  {
    && (o.status.Synced? ==>
          && value.Some? && value.value != "" && io.putWorks
          && after.remote == before.remote[o.slot := value.value])
    && (o.status.SkippedUnchanged? ==>
          && value.Some? && value.value != "" && after.remote == before.remote
          && c.hasDatabase && io.readWorks && LastSynced(before.rows, o.slot).Some?
          && LastSynced(before.rows, o.slot).value.hash == hash(value.value))
    && (o.status.SyncFailed? ==>
          after.remote == before.remote && (value.None? || value.value == "" || !io.putWorks))
    && (c.hasDatabase && io.writeWorks ==>
          && |after.rows| == |before.rows| + 1 && after.rows[..|before.rows|] == before.rows
          && after.rows[|before.rows|] == AuditRow(
               o.slot, if value.Some? && value.value != "" then hash(value.value) else "-", o.status, io.at))
    && (!(c.hasDatabase && io.writeWorks) ==> after.rows == before.rows)
  }

  lemma OutcomeTellsStep(c: SyncConfig, s: Store, slot: Slot, value: Option<string>, io: Io, hash: string -> string)
    ensures var o := OutcomeOne(c, s, slot, value, io, hash);
      o.slot == slot && TellsStep(c, s, SyncOne(c, s, slot, value, io, hash), o, value, io, hash)
  {
  }

  lemma {:induction false} SecretOutcomesAt(c: SyncConfig, s: Store, i: nat, n: nat, p: Pass, hash: string -> string,
                                            j: nat)
    requires i < |c.rules| && j < n <= |c.rules[i].secrets|
    ensures |SecretOutcomes(c, s, i, n, p, hash)| == n
    ensures var secret := c.rules[i].secrets[j];
      SecretOutcomes(c, s, i, n, p, hash)[j] ==
        OutcomeOne(c, SyncSecrets(c, s, i, j, p, hash), Slot(c.rules[i].repo, secret.name), p.env(secret.fromEnv),
                   p.io(i, j), hash)
  {
    if j < n - 1 {
      SecretOutcomesAt(c, s, i, n - 1, p, hash, j);
    } else if n > 1 {
      SecretOutcomesAt(c, s, i, n - 1, p, hash, 0);
    }
  }

  lemma {:induction false} FailedOutcomesAt(rule: SyncRule, n: nat, j: nat)
    requires j < n <= |rule.secrets|
    ensures |FailedOutcomes(rule, n)| == n
    ensures FailedOutcomes(rule, n)[j] == Outcome(Slot(rule.repo, rule.secrets[j].name), SyncFailed)
  {
    if j < n - 1 {
      FailedOutcomesAt(rule, n - 1, j);
    } else if n > 1 {
      FailedOutcomesAt(rule, n - 1, 0);
    }
  }

  lemma BlockLength(c: SyncConfig, s: Store, i: nat, p: Pass, hash: string -> string)
    requires i < |c.rules|
    ensures |BlockOf(c, s, i, p, hash)| == |c.rules[i].secrets|
  {
    var n := |c.rules[i].secrets|;
    if n > 0 {
      SecretOutcomesAt(c, SyncRules(c, s, i, p, hash), i, n, p, hash, 0);
      FailedOutcomesAt(c.rules[i], n, 0);
    }
  }

  // The blocks one after the other.

  function Blocks(c: SyncConfig, s: Store, p: Pass, hash: string -> string): (blocks: seq<seq<Outcome>>)
    ensures |blocks| == |c.rules|
  {
    seq(|c.rules|, i requires 0 <= i < |c.rules| => BlockOf(c, s, i, p, hash))
  }

  function Flatten(blocks: seq<seq<Outcome>>, n: nat): seq<Outcome>
    requires n <= |blocks|
  {
    if n == 0 then [] else Flatten(blocks, n - 1) + blocks[n - 1]
  }

  lemma {:induction false} GrowingIsFlatten(sofar: seq<seq<Outcome>>, blocks: seq<seq<Outcome>>, n: nat)
    requires n <= |blocks| < |sofar| && sofar[0] == []
    requires forall k :: 0 <= k < |blocks| ==> sofar[k + 1] == sofar[k] + blocks[k]
    ensures sofar[n] == Flatten(blocks, n)
  {
    if n > 0 {
      GrowingIsFlatten(sofar, blocks, n - 1);
      assert sofar[n - 1 + 1] == sofar[n - 1] + blocks[n - 1];
    }
  }

  lemma NextBlock(c: SyncConfig, s: Store, n: nat, p: Pass, hash: string -> string)
    requires n < |c.rules|
    ensures RuleOutcomes(c, s, n + 1, p, hash) == RuleOutcomes(c, s, n, p, hash) + BlockOf(c, s, n, p, hash)
  {
  }

  lemma OutcomesAreBlocks(c: SyncConfig, s: Store, p: Pass, hash: string -> string)
    ensures RuleOutcomes(c, s, |c.rules|, p, hash) == Flatten(Blocks(c, s, p, hash), |c.rules|)
  {
    var blocks := Blocks(c, s, p, hash);
    var sofar := seq(|c.rules| + 1, k requires 0 <= k <= |c.rules| => RuleOutcomes(c, s, k, p, hash));
    forall k | 0 <= k < |blocks| ensures sofar[k + 1] == sofar[k] + blocks[k] {
      NextBlock(c, s, k, p, hash);
    }
    GrowingIsFlatten(sofar, blocks, |c.rules|);
  }

  /**
   * A pass reports one outcome for every configured secret, in order: a failure for every secret of a
   * repository whose public key it does not get, and otherwise what became of that secret.
   */
  lemma PassReports(c: SyncConfig, s: Store, p: Pass, hash: string -> string, i: nat, j: nat)
    requires c.hasToken && i < |c.rules| && j < |c.rules[i].secrets|
    ensures PassOutcomes(c, s, p, hash) == Flatten(Blocks(c, s, p, hash), |c.rules|)
    ensures |Blocks(c, s, p, hash)[i]| == |c.rules[i].secrets|
    ensures var o, secret := Blocks(c, s, p, hash)[i][j], c.rules[i].secrets[j];
      && o.slot == Slot(c.rules[i].repo, secret.name)
      && (!p.keyWorks(c.rules[i].repo) ==> o.status.SyncFailed?)
      && (p.keyWorks(c.rules[i].repo) ==>
            var start := SyncRules(c, s, i, p, hash);
            TellsStep(c, SyncSecrets(c, start, i, j, p, hash), SyncSecrets(c, start, i, j + 1, p, hash), o,
                      p.env(secret.fromEnv), p.io(i, j), hash))
  {
    OutcomesAreBlocks(c, s, p, hash);
    BlockLength(c, s, i, p, hash);
    if p.keyWorks(c.rules[i].repo) {
      SecretTells(c, SyncRules(c, s, i, p, hash), p, hash, i, j);
    } else {
      FailedOutcomesAt(c.rules[i], |c.rules[i].secrets|, j);
    }
  }

  lemma SecretTells(c: SyncConfig, start: Store, p: Pass, hash: string -> string, i: nat, j: nat)
    requires i < |c.rules| && j < |c.rules[i].secrets|
    ensures |SecretOutcomes(c, start, i, |c.rules[i].secrets|, p, hash)| == |c.rules[i].secrets|
    ensures var o, secret := SecretOutcomes(c, start, i, |c.rules[i].secrets|, p, hash)[j], c.rules[i].secrets[j];
      && o.slot == Slot(c.rules[i].repo, secret.name)
      && TellsStep(c, SyncSecrets(c, start, i, j, p, hash), SyncSecrets(c, start, i, j + 1, p, hash), o,
                   p.env(secret.fromEnv), p.io(i, j), hash)
  {
    var secret := c.rules[i].secrets[j];
    SecretOutcomesAt(c, start, i, |c.rules[i].secrets|, p, hash, j);
    OutcomeTellsStep(c, SyncSecrets(c, start, i, j, p, hash), Slot(c.rules[i].repo, secret.name),
                     p.env(secret.fromEnv), p.io(i, j), hash);
  }

  /** The pass that would send every value every time. */
  function AlwaysOne(remote: Remote, slot: Slot, value: Option<string>, io: Io): Remote {
    if value.Some? && value.value != "" && io.putWorks then remote[slot := value.value] else remote
  }

  /** Row times increase, so that the newest row is the one written last. */
  predicate InOrder(rows: seq<AuditRow>) {
    forall i, j :: 0 <= i < j < |rows| ==> rows[i].at < rows[j].at
  }

  /** The newest audit row of this secret describes the value that the remote store holds. */
  predicate TruthfulAt(s: Store, slot: Slot, hash: string -> string) {
    var last := LastSynced(s.rows, slot);
    last.Some? ==> slot in s.remote && hash(s.remote[slot]) == last.value.hash
  }

  ghost predicate Truthful(s: Store, hash: string -> string) {
    InOrder(s.rows) && forall slot :: TruthfulAt(s, slot, hash)
  }

  /** The hash tells these texts apart. */
  ghost predicate TellsApart(hash: string -> string, texts: set<string>) {
    forall a, b :: a in texts && b in texts && hash(a) == hash(b) ==> a == b
  }

  /** The hash in the newest row of this secret, and the value behind it, come from these texts. */
  ghost predicate KnownAt(s: Store, slot: Slot, texts: set<string>, hash: string -> string) {
    var last := LastSynced(s.rows, slot);
    last.Some? ==>
      && slot in s.remote && s.remote[slot] in texts
      && exists v :: v in texts && v != "" && hash(v) == last.value.hash
  }

  ghost predicate Known(s: Store, texts: set<string>, hash: string -> string) {
    forall slot :: KnownAt(s, slot, texts, hash)
  }

  /** The row of this step gets a time newer than all before it. */
  predicate OnTime(s: Store, io: Io) {
    forall i :: 0 <= i < |s.rows| ==> s.rows[i].at < io.at
  }

  /** The step does not lose the row of a PUT that changed the value the cache knows. */
  predicate KeepsRow(c: SyncConfig, s: Store, slot: Slot, value: Option<string>, io: Io, hash: string -> string) {
    OutcomeOne(c, s, slot, value, io, hash).status.Synced? && !(c.hasDatabase && io.writeWorks) ==>
      LastSynced(s.rows, slot).None? || LastSynced(s.rows, slot).value.hash == hash(value.value)
  }

  lemma {:induction false} LastSyncedIsRow(rows: seq<AuditRow>, slot: Slot)
    ensures LastSynced(rows, slot).Some? ==> LastSynced(rows, slot).value in rows
  {
    if rows != [] {
      LastSyncedIsRow(rows[..|rows| - 1], slot);
    }
  }

  lemma LastSyncedAppend(rows: seq<AuditRow>, row: AuditRow, slot: Slot)
    requires forall i :: 0 <= i < |rows| ==> rows[i].at <= row.at
    ensures LastSynced(rows + [row], slot) == if CountsAsSynced(row, slot) then Some(row) else LastSynced(rows, slot)
  {
    assert (rows + [row])[..|rows|] == rows;
    LastSyncedIsRow(rows, slot);
  }

  lemma RecordedRows(c: SyncConfig, s: Store, io: Io, slot: Slot, hash: string, status: Status, other: Slot)
    requires forall i :: 0 <= i < |s.rows| ==> s.rows[i].at <= io.at
    ensures LastSynced(Record(c, s.rows, io, slot, hash, status), other) ==
      if c.hasDatabase && io.writeWorks && other == slot && !status.SyncFailed?
      then Some(AuditRow(slot, hash, status, io.at)) else LastSynced(s.rows, other)
  {
    LastSyncedAppend(s.rows, AuditRow(slot, hash, status, io.at), other);
  }

  /** The hash that a step records. */
  function RecordedHash(value: Option<string>, hash: string -> string): string {
    if value.None? || value.value == "" then "-" else hash(value.value)
  }

  lemma StepRows(c: SyncConfig, s: Store, slot: Slot, value: Option<string>, io: Io, hash: string -> string,
                 other: Slot)
    requires OnTime(s, io)
    ensures var s' := SyncOne(c, s, slot, value, io, hash);
      var status := OutcomeOne(c, s, slot, value, io, hash).status;
      && (InOrder(s.rows) ==> InOrder(s'.rows))
      && LastSynced(s'.rows, other) ==
           if c.hasDatabase && io.writeWorks && other == slot && !status.SyncFailed?
           then Some(AuditRow(slot, RecordedHash(value, hash), status, io.at)) else LastSynced(s.rows, other)
  {
    var status := OutcomeOne(c, s, slot, value, io, hash).status;
    assert SyncOne(c, s, slot, value, io, hash).rows == Record(c, s.rows, io, slot, RecordedHash(value, hash), status);
    RecordedRows(c, s, io, slot, RecordedHash(value, hash), status, other);
  }

  /** Whatever the answers, while its row is truthful, skipping a secret amounts to sending it. */
  lemma StepSends(c: SyncConfig, s: Store, slot: Slot, value: Option<string>, io: Io, hash: string -> string,
                  texts: set<string>)
    requires TellsApart(hash, texts) && TruthfulAt(s, slot, hash) && KnownAt(s, slot, texts, hash)
    requires value.Some? ==> value.value in texts
    ensures SyncOne(c, s, slot, value, io, hash).remote == AlwaysOne(s.remote, slot, value, io)
  {
    if OutcomeOne(c, s, slot, value, io, hash).status.SkippedUnchanged? {
      assert hash(s.remote[slot]) == hash(value.value);
      assert s.remote[slot := value.value] == s.remote;
    }
  }

  /** Only a PUT decides whether the row of its secret is truthful, whatever it was before. */
  lemma StepDecidesTruth(c: SyncConfig, s: Store, slot: Slot, value: Option<string>, io: Io, hash: string -> string,
                         other: Slot)
    requires OnTime(s, io)
    ensures TruthfulAt(SyncOne(c, s, slot, value, io, hash), other, hash) <==>
      if other == slot && OutcomeOne(c, s, slot, value, io, hash).status.Synced?
      then KeepsRow(c, s, slot, value, io, hash) else TruthfulAt(s, other, hash)
  {
    StepRows(c, s, slot, value, io, hash, other);
  }

  /** A step leaves the cache truthful exactly when it does not lose the row of a change. */
  lemma StepKeepsTruthIff(c: SyncConfig, s: Store, slot: Slot, value: Option<string>, io: Io, hash: string -> string)
    requires Truthful(s, hash) && OnTime(s, io)
    ensures Truthful(SyncOne(c, s, slot, value, io, hash), hash) <==> KeepsRow(c, s, slot, value, io, hash)
  {
    StepRows(c, s, slot, value, io, hash, slot);
    StepDecidesTruth(c, s, slot, value, io, hash, slot);
    forall other | other != slot ensures TruthfulAt(SyncOne(c, s, slot, value, io, hash), other, hash) {
      StepDecidesTruth(c, s, slot, value, io, hash, other);
    }
  }

  lemma StepKeepsKnown(c: SyncConfig, s: Store, slot: Slot, value: Option<string>, io: Io, hash: string -> string,
                       texts: set<string>)
    requires Known(s, texts, hash) && OnTime(s, io) && (value.Some? ==> value.value in texts)
    ensures Known(SyncOne(c, s, slot, value, io, hash), texts, hash)
  {
    var s' := SyncOne(c, s, slot, value, io, hash);
    forall other ensures KnownAt(s', other, texts, hash) {
      StepRows(c, s, slot, value, io, hash, other);
      assert KnownAt(s, other, texts, hash);
    }
  }

  // The same over histories: one step per secret, in the order in which the passes come to them.

  datatype SyncStep = SyncStep(slot: Slot, value: Option<string>, io: Io)

  function Do(c: SyncConfig, s: Store, step: SyncStep, hash: string -> string): Store {
    SyncOne(c, s, step.slot, step.value, step.io, hash)
  }

  function RunSteps(c: SyncConfig, s: Store, steps: seq<SyncStep>, hash: string -> string): Store {
    if steps == [] then s
    else Do(c, RunSteps(c, s, steps[..|steps| - 1], hash), steps[|steps| - 1], hash)
  }

  /** What the remote store would hold if every value had been sent. */
  function AlwaysSteps(remote: Remote, steps: seq<SyncStep>): Remote {
    if steps == [] then remote
    else
      var last := steps[|steps| - 1];
      AlwaysOne(AlwaysSteps(remote, steps[..|steps| - 1]), last.slot, last.value, last.io)
  }

  predicate AreOnTime(c: SyncConfig, s: Store, steps: seq<SyncStep>, hash: string -> string) {
    steps != [] ==>
      && AreOnTime(c, s, steps[..|steps| - 1], hash)
      && OnTime(RunSteps(c, s, steps[..|steps| - 1], hash), steps[|steps| - 1].io)
  }

  predicate KeepsRowOf(c: SyncConfig, s: Store, step: SyncStep, hash: string -> string) {
    KeepsRow(c, s, step.slot, step.value, step.io, hash)
  }

  predicate KeepRows(c: SyncConfig, s: Store, steps: seq<SyncStep>, hash: string -> string) {
    steps != [] ==>
      && KeepRows(c, s, steps[..|steps| - 1], hash)
      && KeepsRowOf(c, RunSteps(c, s, steps[..|steps| - 1], hash), steps[|steps| - 1], hash)
  }

  predicate AreFrom(steps: seq<SyncStep>, texts: set<string>) {
    forall i :: 0 <= i < |steps| && steps[i].value.Some? ==> steps[i].value.value in texts
  }

  lemma {:induction false} StepsKeepKnown(c: SyncConfig, s: Store, steps: seq<SyncStep>, hash: string -> string,
                                          texts: set<string>)
    requires Known(s, texts, hash) && AreFrom(steps, texts) && AreOnTime(c, s, steps, hash)
    ensures Known(RunSteps(c, s, steps, hash), texts, hash)
  {
    if steps != [] {
      var before, last := steps[..|steps| - 1], steps[|steps| - 1];
      StepsKeepKnown(c, s, before, hash, texts);
      StepKeepsKnown(c, RunSteps(c, s, before, hash), last.slot, last.value, last.io, hash, texts);
    }
  }

  lemma {:induction false} StepsRefine(c: SyncConfig, s: Store, steps: seq<SyncStep>, hash: string -> string,
                                       texts: set<string>)
    requires TellsApart(hash, texts) && Truthful(s, hash) && Known(s, texts, hash) && AreFrom(steps, texts)
    requires AreOnTime(c, s, steps, hash) && KeepRows(c, s, steps, hash)
    ensures Truthful(RunSteps(c, s, steps, hash), hash)
    ensures RunSteps(c, s, steps, hash).remote == AlwaysSteps(s.remote, steps)
  {
    if steps != [] {
      var before, last := steps[..|steps| - 1], steps[|steps| - 1];
      StepsRefine(c, s, before, hash, texts);
      StepsKeepKnown(c, s, before, hash, texts);
      StepKeepsTruthIff(c, RunSteps(c, s, before, hash), last.slot, last.value, last.io, hash);
      StepSends(c, RunSteps(c, s, before, hash), last.slot, last.value, last.io, hash, texts);
    }
  }

  /** The last PUT of this secret, if there was one, kept its row or changed nothing. */
  predicate LastPutKept(c: SyncConfig, s: Store, steps: seq<SyncStep>, slot: Slot, hash: string -> string) {
    steps != [] ==>
      var before, last := RunSteps(c, s, steps[..|steps| - 1], hash), steps[|steps| - 1];
      if last.slot == slot && OutcomeOne(c, before, slot, last.value, last.io, hash).status.Synced?
      then KeepsRowOf(c, before, last, hash)
      else LastPutKept(c, s, steps[..|steps| - 1], slot, hash)
  }

  ghost predicate LastPutsKept(c: SyncConfig, s: Store, steps: seq<SyncStep>, hash: string -> string) {
    forall slot :: LastPutKept(c, s, steps, slot, hash)
  }

  /** After any history the newest row of a secret is truthful exactly when its last PUT kept its row. */
  lemma {:induction false} HistoryDecidesTruth(c: SyncConfig, s: Store, steps: seq<SyncStep>, hash: string -> string,
                                               slot: Slot)
    requires Truthful(s, hash) && AreOnTime(c, s, steps, hash)
    ensures InOrder(RunSteps(c, s, steps, hash).rows)
    ensures TruthfulAt(RunSteps(c, s, steps, hash), slot, hash) <==> LastPutKept(c, s, steps, slot, hash)
  {
    if steps != [] {
      var before, last := steps[..|steps| - 1], steps[|steps| - 1];
      HistoryDecidesTruth(c, s, before, hash, slot);
      StepRows(c, RunSteps(c, s, before, hash), last.slot, last.value, last.io, hash, slot);
      StepDecidesTruth(c, RunSteps(c, s, before, hash), last.slot, last.value, last.io, hash, slot);
    }
  }

  /** A later history with these values that loses no row of a change itself. */
  ghost predicate MayFollow(c: SyncConfig, s: Store, more: seq<SyncStep>, hash: string -> string, texts: set<string>) {
    AreFrom(more, texts) && AreOnTime(c, s, more, hash) && KeepRows(c, s, more, hash)
  }

  /** From here on, whatever follows, the remote store is as if every value were sent. */
  ghost predicate GoesOnSending(c: SyncConfig, s: Store, hash: string -> string, texts: set<string>) {
    forall more :: MayFollow(c, s, more, hash, texts) ==>
      RunSteps(c, s, more, hash).remote == AlwaysSteps(s.remote, more)
  }

  /**
   * Lost rows matter exactly when they are the last: after any history, whatever rows it lost, all
   * later values end up as if they had been sent if and only if for every secret the last PUT kept its
   * row or changed nothing. Without a database there are no rows to skip by.
   */
  lemma SendingGoesOnIff(c: SyncConfig, s: Store, steps: seq<SyncStep>, hash: string -> string, texts: set<string>)
    requires TellsApart(hash, texts) && Truthful(s, hash) && Known(s, texts, hash)
    requires AreFrom(steps, texts) && AreOnTime(c, s, steps, hash)
    ensures GoesOnSending(c, RunSteps(c, s, steps, hash), hash, texts) <==>
      (c.hasDatabase ==> LastPutsKept(c, s, steps, hash))
  {
    var now := RunSteps(c, s, steps, hash);
    StepsKeepKnown(c, s, steps, hash, texts);
    forall slot ensures InOrder(now.rows) && (TruthfulAt(now, slot, hash) <==> LastPutKept(c, s, steps, slot, hash)) {
      HistoryDecidesTruth(c, s, steps, hash, slot);
    }
    assert InOrder(now.rows) by { HistoryDecidesTruth(c, s, steps, hash, Slot("", "")); }
    if !c.hasDatabase {
      forall more ensures RunSteps(c, now, more, hash).remote == AlwaysSteps(now.remote, more) {
        NothingIsSkipped(c, now, more, hash);
      }
    } else if !LastPutsKept(c, s, steps, hash) {
      var slot :| !LastPutKept(c, s, steps, slot, hash);
      SettingBackIsSkipped(c, now, slot, hash, texts);
    } else {
      forall more | MayFollow(c, now, more, hash, texts)
        ensures RunSteps(c, now, more, hash).remote == AlwaysSteps(now.remote, more)
      {
        StepsRefine(c, now, more, hash, texts);
      }
    }
  }

  lemma {:induction false} NothingIsSkipped(c: SyncConfig, s: Store, steps: seq<SyncStep>, hash: string -> string)
    requires !c.hasDatabase
    ensures RunSteps(c, s, steps, hash).remote == AlwaysSteps(s.remote, steps)
  {
    if steps != [] {
      NothingIsSkipped(c, s, steps[..|steps| - 1], hash);
    }
  }

  function TimeAfter(rows: seq<AuditRow>): nat {
    if rows == [] then 0 else rows[|rows| - 1].at + 1
  }

  /** With an untruthful row, sending the value of that row again is skipped. */
  lemma SettingBackIsSkipped(c: SyncConfig, s: Store, slot: Slot, hash: string -> string, texts: set<string>)
    requires c.hasDatabase && InOrder(s.rows) && Known(s, texts, hash) && !TruthfulAt(s, slot, hash)
    ensures !GoesOnSending(c, s, hash, texts)
  {
    assert KnownAt(s, slot, texts, hash);
    var v :| v in texts && v != "" && hash(v) == LastSynced(s.rows, slot).value.hash;
    var step := SyncStep(slot, Some(v), Io(true, true, true, TimeAfter(s.rows)));
    OneStep(c, s, step, hash);
    assert MayFollow(c, s, [step], hash, texts);
    assert RunSteps(c, s, [step], hash).remote[slot] != v && AlwaysSteps(s.remote, [step])[slot] == v;
  }

  lemma OneStep(c: SyncConfig, s: Store, step: SyncStep, hash: string -> string)
    ensures RunSteps(c, s, [step], hash) == Do(c, s, step, hash)
    ensures AlwaysSteps(s.remote, [step]) == AlwaysOne(s.remote, step.slot, step.value, step.io)
    ensures AreOnTime(c, s, [step], hash) <==> OnTime(s, step.io)
    ensures KeepRows(c, s, [step], hash) <==> KeepsRowOf(c, s, step, hash)
  {
    assert [step][..0] == [];
  }

  // Passes as histories.

  function SecretSteps(c: SyncConfig, i: nat, n: nat, p: Pass): seq<SyncStep>
    requires i < |c.rules| && n <= |c.rules[i].secrets|
  {
    if n == 0 then []
    else
      var secret := c.rules[i].secrets[n - 1];
      SecretSteps(c, i, n - 1, p)
      + [SyncStep(Slot(c.rules[i].repo, secret.name), p.env(secret.fromEnv), p.io(i, n - 1))]
  }

  function RuleSteps(c: SyncConfig, n: nat, p: Pass): seq<SyncStep>
    requires n <= |c.rules|
  {
    if n == 0 then []
    else
      RuleSteps(c, n - 1, p)
      + if p.keyWorks(c.rules[n - 1].repo) then SecretSteps(c, n - 1, |c.rules[n - 1].secrets|, p) else []
  }

  function PassSteps(c: SyncConfig, p: Pass): seq<SyncStep> {
    if c.hasToken then RuleSteps(c, |c.rules|, p) else []
  }

  function AllSteps(c: SyncConfig, passes: seq<Pass>): seq<SyncStep>
    decreases |passes|
  {
    if passes == [] then [] else PassSteps(c, passes[0]) + AllSteps(c, passes[1..])
  }

  lemma {:induction false} RunStepsAppend(c: SyncConfig, s: Store, a: seq<SyncStep>, b: seq<SyncStep>,
                                          hash: string -> string)
    ensures RunSteps(c, s, a + b, hash) == RunSteps(c, RunSteps(c, s, a, hash), b, hash)
  {
    if b == [] {
      assert a + b == a;
    } else {
      assert (a + b)[..|a + b| - 1] == a + b[..|b| - 1];
      RunStepsAppend(c, s, a, b[..|b| - 1], hash);
    }
  }

  lemma {:induction false} SecretsAreSteps(c: SyncConfig, s: Store, i: nat, n: nat, p: Pass, hash: string -> string)
    requires i < |c.rules| && n <= |c.rules[i].secrets|
    ensures SyncSecrets(c, s, i, n, p, hash) == RunSteps(c, s, SecretSteps(c, i, n, p), hash)
  {
    if n > 0 {
      SecretsAreSteps(c, s, i, n - 1, p, hash);
      var steps := SecretSteps(c, i, n, p);
      assert steps[..|steps| - 1] == SecretSteps(c, i, n - 1, p);
    }
  }

  lemma {:induction false} RulesAreSteps(c: SyncConfig, s: Store, n: nat, p: Pass, hash: string -> string)
    requires n <= |c.rules|
    ensures SyncRules(c, s, n, p, hash) == RunSteps(c, s, RuleSteps(c, n, p), hash)
  {
    if n > 0 {
      RulesAreSteps(c, s, n - 1, p, hash);
      var before, secrets := RuleSteps(c, n - 1, p), |c.rules[n - 1].secrets|;
      if p.keyWorks(c.rules[n - 1].repo) {
        SecretsAreSteps(c, SyncRules(c, s, n - 1, p, hash), n - 1, secrets, p, hash);
        RunStepsAppend(c, s, before, SecretSteps(c, n - 1, secrets, p), hash);
      } else {
        assert RuleSteps(c, n, p) == before;
      }
    }
  }

  function SyncPasses(c: SyncConfig, s: Store, passes: seq<Pass>, hash: string -> string): Store
    decreases |passes|
  {
    if passes == [] then s else SyncPasses(c, SyncPass(c, s, passes[0], hash), passes[1..], hash)
  }

  lemma {:induction false} PassesAreSteps(c: SyncConfig, s: Store, passes: seq<Pass>, hash: string -> string)
    ensures SyncPasses(c, s, passes, hash) == RunSteps(c, s, AllSteps(c, passes), hash)
    decreases |passes|
  {
    if passes != [] {
      if c.hasToken {
        RulesAreSteps(c, s, |c.rules|, passes[0], hash);
      }
      PassesAreSteps(c, SyncPass(c, s, passes[0], hash), passes[1..], hash);
      RunStepsAppend(c, s, PassSteps(c, passes[0]), AllSteps(c, passes[1..]), hash);
    }
  }

  /**
   * Over any sequence of passes and value changes the remote store is the same as if every value had
   * always been sent, failed audit reads and failed PUTs included, as long as no row of a change is lost,
   * row times increase and the hash tells the values at hand apart.
   */
  lemma SkippingRefinesSending(c: SyncConfig, s: Store, passes: seq<Pass>, hash: string -> string, texts: set<string>)
    requires TellsApart(hash, texts) && Truthful(s, hash) && Known(s, texts, hash)
    requires MayFollow(c, s, AllSteps(c, passes), hash, texts)
    ensures var s' := SyncPasses(c, s, passes, hash);
      Truthful(s', hash) && s'.remote == AlwaysSteps(s.remote, AllSteps(c, passes))
  {
    PassesAreSteps(c, s, passes, hash);
    StepsRefine(c, s, AllSteps(c, passes), hash, texts);
  }

  /** In particular from a store without audit rows, whatever it holds, where every history starts. */
  lemma SkippingRefinesSendingFromScratch(c: SyncConfig, remote: Remote, passes: seq<Pass>, hash: string -> string,
                                          texts: set<string>)
    requires TellsApart(hash, texts) && MayFollow(c, Store(remote, []), AllSteps(c, passes), hash, texts)
    ensures SyncPasses(c, Store(remote, []), passes, hash).remote == AlwaysSteps(remote, AllSteps(c, passes))
  {
    SkippingRefinesSending(c, Store(remote, []), passes, hash, texts);
  }

  /**
   * A lost audit row is not harmless: after a change from `v` to `w` whose row is lost, setting the
   * value back to `v` is skipped, and the remote store keeps `w` for good.
   */
  lemma LostRowKeepsOldValue(c: SyncConfig, s: Store, slot: Slot, v: string, w: string, lost: Io, back: Io,
                             hash: string -> string)
    requires c.hasDatabase && hash(v) != hash(w) && Truthful(s, hash)
    requires slot in s.remote && s.remote[slot] == v && LastSynced(s.rows, slot).Some?
    requires v != "" && w != ""
    requires lost.putWorks && !lost.writeWorks && back.readWorks && back.putWorks
    ensures var s1 := SyncOne(c, s, slot, Some(w), lost, hash);
      var s2 := SyncOne(c, s1, slot, Some(v), back, hash);
      && s2.remote[slot] == w
      && AlwaysOne(AlwaysOne(s.remote, slot, Some(w), lost), slot, Some(v), back)[slot] == v
      && OutcomeOne(c, s1, slot, Some(v), back, hash).status == SkippedUnchanged
  {
    assert TruthfulAt(s, slot, hash);
  }
}
