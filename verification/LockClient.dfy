/** The client side of the distributed lock: reply classification and the retry loop of `src/fiducia.rs`. */
module LockClient {
  import opened Wrappers
  import opened Types

  /** A JSON value as far as the client looks at it. */
  datatype Field = Number(value: nat) | Flag(on: bool) | Other

  datatype Body = Body(
    snakeToken: Option<Field>,
    camelToken: Option<Field>,
    acquired: Option<Field>,
    ok: Option<Field>,
    text: string)

  datatype Reply = Replied(status: nat, body: Body) | NoReply(error: string)

  /** One attempt: what came back, how long the call took and how long the sleep after it lasted. */
  datatype Exchange = Exchange(reply: Reply, callMs: nat, sleepMs: nat)

  datatype LockConfig = LockConfig(coordinationEnabled: bool, budgetMs: nat, retryMs: nat)

  const CALL_TIMEOUT_MS := 10_000

  function FencingToken(body: Body): Option<nat> {
    match (if body.snakeToken.Some? then body.snakeToken else body.camelToken)
    case Some(Number(n)) => Some(n)
    case _ => None
  }

  predicate ExplicitlyNotAcquired(body: Body) {
    body.acquired == Some(Flag(false)) || body.ok == Some(Flag(false))
  }

  predicate IsAuthorizationError(status: nat) {
    status == 401 || status == 403
  }

  /** What a reply means to the loop. */
  datatype Meaning = Granted(token: nat) | Contended | Refused(error: string) | Trouble(error: string)

  function Classify(reply: Reply): Meaning {
    match reply
    case NoReply(error) => Trouble(error)
    case Replied(status, body) =>
      if 200 <= status < 300 then
        if FencingToken(body).Some? && !ExplicitlyNotAcquired(body) then Granted(FencingToken(body).value)
        else Contended
      else if status == 409 || status == 423 then Contended
      else if IsAuthorizationError(status) then Refused(body.text)
      else Trouble(body.text)
  }

  // The replies as they come, whatever the loop makes of them.

  predicate IsSuccess(reply: Reply) {
    reply.Replied? && 200 <= reply.status <= 299
  }

  /** A success that gives this token, under either name, and does not say that the lock was not acquired. */
  predicate Grants(reply: Reply, token: nat) {
    && IsSuccess(reply)
    && (reply.body.snakeToken == Some(Number(token))
        || (reply.body.snakeToken.None? && reply.body.camelToken == Some(Number(token))))
    && reply.body.acquired != Some(Flag(false)) && reply.body.ok != Some(Flag(false))
  }

  ghost predicate IsGrant(reply: Reply) {
    exists token :: Grants(reply, token)
  }

  /** Somebody else has the lock: a success without a grant, a conflict, or a resource that is locked. */
  ghost predicate SaysTaken(reply: Reply) {
    (IsSuccess(reply) && !IsGrant(reply)) || (reply.Replied? && (reply.status == 409 || reply.status == 423))
  }

  predicate RefusesCredential(reply: Reply) {
    reply.Replied? && (reply.status == 401 || reply.status == 403)
  }

  /** Neither a grant nor an answer about the lock: no reply, or some other status. */
  predicate Fails(reply: Reply, error: string) {
    match reply
    case NoReply(text) => error == text
    case Replied(status, body) =>
      !(200 <= status <= 299) && status !in [401, 403, 409, 423] && error == body.text
  }

  /** The loop reads every reply for what it is. */
  lemma ClassifyExact(reply: Reply)
    ensures forall token :: Classify(reply) == Granted(token) <==> Grants(reply, token)
    ensures Classify(reply).Granted? <==> IsGrant(reply)
    ensures Classify(reply).Contended? <==> SaysTaken(reply)
    ensures Classify(reply).Refused? <==> RefusesCredential(reply)
    ensures Classify(reply).Refused? ==> Classify(reply).error == reply.body.text
    ensures forall error :: Classify(reply) == Trouble(error) <==> Fails(reply, error)
  {
    if Classify(reply).Granted? {
      assert Grants(reply, Classify(reply).token);
    }
  }

  /** The time from the start of the loop to the end of call `i`. */
  function Elapsed(script: nat -> Exchange, i: nat): nat {
    (if i == 0 then 0 else Elapsed(script, i - 1) + script(i - 1).sleepMs) + script(i).callMs
  }

  /** The loop ends after call `i`: with a grant, with a credential refused, or past the budget. */
  ghost predicate EndsAt(script: nat -> Exchange, budgetMs: nat, i: nat) {
    IsGrant(script(i).reply) || RefusesCredential(script(i).reply) || Elapsed(script, i) >= budgetMs
  }

  /** The last error among the first `n` attempts. */
  function LastTrouble(script: nat -> Exchange, n: nat): Option<string> {
    if n == 0 then None
    else match Classify(script(n - 1).reply)
      case Trouble(error) => Some(error)
      case _ => LastTrouble(script, n - 1)
  }

  /** The outcome as a fold over the replies up to the last one. */
  function OutcomeOf(script: nat -> Exchange, n: nat, key: string, holder: string): LockOutcome
    requires n > 0
  {
    match Classify(script(n - 1).reply)
    case Granted(token) => Acquired(LockGrant(key, holder, token))
    case Refused(error) => Unavailable(error)
    case _ =>
      match LastTrouble(script, n)
      case Some(error) => Unavailable(error)
      case None => Busy(key)
  }

  /** `acquire_lock`; a sleep may last longer than asked for, never shorter. */
  method AcquireLock(c: LockConfig, key: string, holder: string, script: nat -> Exchange)
    returns (outcome: LockOutcome, attempts: nat, elapsedMs: nat)
    requires c.retryMs > 0 && forall i: nat :: script(i).sleepMs >= c.retryMs
    ensures !c.coordinationEnabled ==> outcome == Disabled && attempts == 0 && elapsedMs == 0
    ensures c.coordinationEnabled ==>
      && attempts > 0 && elapsedMs == Elapsed(script, attempts - 1)
      && EndsAt(script, c.budgetMs, attempts - 1)
      && (forall i: nat :: i < attempts - 1 ==> !EndsAt(script, c.budgetMs, i))
      && outcome == OutcomeOf(script, attempts, key, holder)
  {
    if !c.coordinationEnabled {
      return Disabled, 0, 0;
    }
    var lastError: Option<string> := None;
    attempts, elapsedMs := 0, 0;
    while true
      invariant elapsedMs == if attempts == 0 then 0 else Elapsed(script, attempts - 1) + script(attempts - 1).sleepMs
      invariant forall i: nat :: i < attempts ==> !EndsAt(script, c.budgetMs, i)
      invariant lastError == LastTrouble(script, attempts)
      decreases c.budgetMs - elapsedMs
    {
      var exchange := script(attempts);
      ClassifyExact(exchange.reply);
      attempts, elapsedMs := attempts + 1, elapsedMs + exchange.callMs;
      assert elapsedMs == Elapsed(script, attempts - 1);
      match Classify(exchange.reply) {
        case Granted(token) =>
          return Acquired(LockGrant(key, holder, token)), attempts, elapsedMs;
        case Contended =>
        case Refused(error) =>
          return Unavailable(error), attempts, elapsedMs;
        case Trouble(error) =>
          lastError := Some(error);
      }
      if elapsedMs >= c.budgetMs {
        return if lastError.Some? then Unavailable(lastError.value) else Busy(key), attempts, elapsedMs;
      }
      elapsedMs := elapsedMs + exchange.sleepMs;
    }
  }

  /** The loop has run and ended after `n` attempts. */
  ghost predicate Ran(c: LockConfig, script: nat -> Exchange, n: nat) {
    && c.retryMs > 0 && (forall i: nat :: script(i).sleepMs >= c.retryMs)
    && n > 0 && EndsAt(script, c.budgetMs, n - 1)
    && forall i: nat :: i < n - 1 ==> !EndsAt(script, c.budgetMs, i)
  }

  lemma {:induction false} ElapsedGrows(c: LockConfig, script: nat -> Exchange, i: nat)
    requires forall j: nat :: script(j).sleepMs >= c.retryMs
    ensures Elapsed(script, i) >= i * c.retryMs
  {
    if i > 0 {
      ElapsedGrows(c, script, i - 1);
      assert i * c.retryMs == (i - 1) * c.retryMs + c.retryMs;
    }
  }

  function CeilDiv(a: nat, b: nat): nat
    requires b > 0
  {
    (a + b - 1) / b
  }

  /** At most ceil(budget / retry) + 1 attempts. */
  lemma AttemptsAreBounded(c: LockConfig, script: nat -> Exchange, n: nat)
    requires Ran(c, script, n)
    ensures n <= CeilDiv(c.budgetMs, c.retryMs) + 1
  {
    if n >= 2 {
      assert !EndsAt(script, c.budgetMs, n - 2);
      ElapsedGrows(c, script, n - 2);
      BelowCeil(n - 2, c.budgetMs, c.retryMs);
    }
  }

  lemma BelowCeil(k: nat, a: nat, b: nat)
    requires b > 0 && k * b < a
    ensures k + 1 <= CeilDiv(a, b)
  {
    var q := CeilDiv(a, b);
    assert a + b - 1 == q * b + (a + b - 1) % b;
    assert k * b < q * b;
  }

  /** With calls cut off at ten seconds and sleeps at most `lateMs` late, the loop ends on time. */
  lemma EndsOnTime(c: LockConfig, script: nat -> Exchange, n: nat, lateMs: nat)
    requires Ran(c, script, n)
    requires forall i: nat :: script(i).callMs <= CALL_TIMEOUT_MS && script(i).sleepMs <= c.retryMs + lateMs
    ensures Elapsed(script, n - 1) < c.budgetMs + c.retryMs + lateMs + CALL_TIMEOUT_MS
  {
    if n >= 2 {
      assert !EndsAt(script, c.budgetMs, n - 2);
    }
  }

  /** The error that is kept is the one of the last attempt that failed. */
  lemma {:induction false} LastTroubleExact(script: nat -> Exchange, n: nat)
    ensures LastTrouble(script, n).None? <==> forall i: nat, error :: i < n ==> !Fails(script(i).reply, error)
    ensures LastTrouble(script, n).Some? ==> exists i: nat ::
      && i < n && Fails(script(i).reply, LastTrouble(script, n).value)
      && forall j: nat, error :: i < j < n ==> !Fails(script(j).reply, error)
  {
    if n > 0 {
      LastTroubleExact(script, n - 1);
      NextTrouble(script, n);
    }
  }

  lemma NextTrouble(script: nat -> Exchange, n: nat)
    requires n > 0
    ensures var reply := script(n - 1).reply;
      if exists error :: Fails(reply, error)
      then LastTrouble(script, n).Some? && Fails(reply, LastTrouble(script, n).value)
      else LastTrouble(script, n) == LastTrouble(script, n - 1)
  {
    ClassifyExact(script(n - 1).reply);
    if Classify(script(n - 1).reply).Trouble? {
      assert Fails(script(n - 1).reply, Classify(script(n - 1).reply).error);
    }
  }

  lemma EarlierRepliesGoOn(c: LockConfig, script: nat -> Exchange, n: nat, i: nat)
    requires Ran(c, script, n) && i < n - 1
    ensures !IsGrant(script(i).reply) && !RefusesCredential(script(i).reply)
  {
    assert !EndsAt(script, c.budgetMs, i);
  }

  /** A reply is exactly one of these. */
  lemma RepliesExclude(reply: Reply)
    ensures SaysTaken(reply) <==>
      (!IsGrant(reply) && !RefusesCredential(reply) && forall error :: !Fails(reply, error))
  {
    ClassifyExact(reply);
    if Classify(reply).Trouble? {
      assert Fails(reply, Classify(reply).error);
    }
  }

  /**
   * In terms of the replies themselves: acquired, for the caller's key and holder and under the token of
   * the reply, exactly if some reply is a grant; busy exactly if every reply says that the lock is
   * taken; and otherwise unavailable, at once with the text of a refused credential.
   */
  lemma OutcomesExplained(c: LockConfig, script: nat -> Exchange, n: nat, key: string, holder: string)
    requires Ran(c, script, n)
    ensures var outcome := OutcomeOf(script, n, key, holder);
      && (outcome.Acquired? <==> exists i: nat :: i < n && IsGrant(script(i).reply))
      && (outcome.Acquired? ==>
            && outcome.grant.key == key && outcome.grant.holder == holder
            && Grants(script(n - 1).reply, outcome.grant.fencingToken))
      && (outcome.Busy? <==> forall i: nat :: i < n ==> SaysTaken(script(i).reply))
      && (outcome.Busy? ==> outcome.key == key)
      && (RefusesCredential(script(n - 1).reply) ==> outcome == Unavailable(script(n - 1).reply.body.text))
      && !outcome.Disabled?
  {
    LastTroubleExact(script, n);
    ClassifyExact(script(n - 1).reply);
    forall i: nat | i < n
      ensures i < n - 1 ==> !IsGrant(script(i).reply) && !RefusesCredential(script(i).reply)
      ensures SaysTaken(script(i).reply) <==>
        (!IsGrant(script(i).reply) && !RefusesCredential(script(i).reply)
         && forall error :: !Fails(script(i).reply, error))
    {
      RepliesExclude(script(i).reply);
      if i < n - 1 {
        EarlierRepliesGoOn(c, script, n, i);
      }
    }
    assert n - 1 < n && script(n - 1) == script(n - 1);
  }
}
