/**
 * The lock service and everybody who ever got a lock from it: any number of replicas, one clock.
 *
 * The service is an environment with stated rules: it grants a key only while no unexpired lease
 * exists for it, every grant has a fresh token and lasts one time-to-live, and a release removes a
 * lease only when the token matches. Releases may be late or lost, a grant may reach nobody, and a
 * process may end with its locks held.
 */
module LockService {

  datatype Phase = Waiting | Executing(since: nat) | Ended | Released

  /** A job that received a grant, on any replica. */
  datatype Client = Client(key: string, grantedAt: nat, phase: Phase)

  datatype Lease = Lease(token: nat, expiresAt: nat)

  /** Clients are known by the token of their grant. */
  datatype Service = Service(now: nat, leases: map<string, Lease>, nextToken: nat, clients: map<nat, Client>)

  /**
   * `lock_ttl`, `job_deadline`, the longest time from a grant to the start of the executor, and the
   * longest time by which the timer of the deadline is late.
   */
  datatype Timing = Timing(ttl: nat, deadline: nat, startDelay: nat, lateness: nat)

  /** The longest time from a grant to the end of the execution under it. */
  function Span(c: Timing): nat {
    c.startDelay + c.deadline + c.lateness
  }

  datatype Event =
    | Wait(ms: nat)
    | Grant(key: string)
    | LoseGrant(key: string)
    | Start(token: nat)
    | Finish(token: nat)
    | ReleaseLock(token: nat, arrives: bool)
    | Abandon(tokens: set<nat>)
    | Expire(key: string)

  const EMPTY := Service(0, map[], 0, map[])

  predicate IsFree(s: Service, key: string) {
    key in s.leases ==> s.leases[key].expiresAt <= s.now
  }

  ghost predicate Can(c: Timing, s: Service, ev: Event) {
    match ev
    // The deadline ends an execution, as late as its timer may be.
    case Wait(ms) => forall token :: token in s.clients && s.clients[token].phase.Executing? ==>
      s.now + ms <= s.clients[token].phase.since + c.deadline + c.lateness
    case Grant(key) => IsFree(s, key)
    case LoseGrant(key) => IsFree(s, key)
    case Start(token) =>
      && token in s.clients && s.clients[token].phase.Waiting?
      && s.now <= s.clients[token].grantedAt + c.startDelay
    case Finish(token) => token in s.clients && s.clients[token].phase.Executing?
    case ReleaseLock(token, _) => token in s.clients && s.clients[token].phase.Ended?
    case Abandon(tokens) => forall token :: token in tokens ==> token in s.clients && !s.clients[token].phase.Released?
    case Expire(key) => key in s.leases && s.leases[key].expiresAt <= s.now
  }

  function WithPhase(clients: map<nat, Client>, token: nat, phase: Phase): map<nat, Client>
    requires token in clients
  {
    clients[token := clients[token].(phase := phase)]
  }

  ghost function Next(c: Timing, s: Service, ev: Event): Service
    requires Can(c, s, ev)
  {
    match ev
    case Wait(ms) => s.(now := s.now + ms)
    case Grant(key) =>
      s.(leases := s.leases[key := Lease(s.nextToken, s.now + c.ttl)], nextToken := s.nextToken + 1,
         clients := s.clients[s.nextToken := Client(key, s.now, Waiting)])
    case LoseGrant(key) =>
      s.(leases := s.leases[key := Lease(s.nextToken, s.now + c.ttl)], nextToken := s.nextToken + 1)
    case Start(token) => s.(clients := WithPhase(s.clients, token, Executing(s.now)))
    case Finish(token) => s.(clients := WithPhase(s.clients, token, Ended))
    case ReleaseLock(token, arrives) =>
      var key := s.clients[token].key;
      var held := key in s.leases && s.leases[key].token == token;
      s.(leases := if arrives && held then s.leases - {key} else s.leases,
         clients := WithPhase(s.clients, token, Released))
    case Abandon(tokens) =>
      s.(clients := map token | token in s.clients ::
           if token in tokens then s.clients[token].(phase := Ended) else s.clients[token])
    case Expire(key) => s.(leases := s.leases - {key})
  }

  ghost predicate IsRun(c: Timing, run: seq<Service>, events: seq<Event>) {
    && |run| == |events| + 1 && run[0] == EMPTY
    && forall i :: 0 <= i < |events| ==> Can(c, run[i], events[i]) && run[i + 1] == Next(c, run[i], events[i])
  }

  /** Two jobs are inside their executors under the same key. */
  predicate Overlap(s: Service, a: nat, b: nat) {
    && a in s.clients && b in s.clients && a != b && s.clients[a].key == s.clients[b].key
    && s.clients[a].phase.Executing? && s.clients[b].phase.Executing?
  }

  /** Until its lease expires or it sends its release, a client's lease is the one on record. */
  predicate ClientOk(c: Timing, s: Service, token: nat, client: Client) {
    && token < s.nextToken
    && (client.phase.Executing? ==>
          && s.now <= client.phase.since + c.deadline + c.lateness
          && client.phase.since <= client.grantedAt + c.startDelay)
    && (!client.phase.Released? && s.now < client.grantedAt + c.ttl ==>
          client.key in s.leases && s.leases[client.key] == Lease(token, client.grantedAt + c.ttl))
  }

  ghost predicate Inv(c: Timing, s: Service) {
    && (forall token :: token in s.clients ==> ClientOk(c, s, token, s.clients[token]))
    && (forall key :: key in s.leases ==> s.leases[key].token < s.nextToken)
  }

  lemma EventKeepsInv(c: Timing, s: Service, ev: Event)
    requires Inv(c, s) && Can(c, s, ev)
    ensures Inv(c, Next(c, s, ev))
  {
    var s' := Next(c, s, ev);
    forall token | token in s'.clients ensures ClientOk(c, s', token, s'.clients[token]) {
      assert token in s.clients ==> ClientOk(c, s, token, s.clients[token]);
    }
  }

  lemma {:induction false} RunInv(c: Timing, run: seq<Service>, events: seq<Event>, i: nat)
    requires IsRun(c, run, events) && i < |run|
    ensures Inv(c, run[i])
  {
    if i > 0 {
      RunInv(c, run, events, i - 1);
      EventKeepsInv(c, run[i - 1], events[i - 1]);
      assert run[i - 1 + 1] == Next(c, run[i - 1], events[i - 1]);
    }
  }

  /** Both executors' leases are still on record, so they are the same lease. */
  lemma OneExecutorPerKey(c: Timing, s: Service, a: nat, b: nat)
    requires Span(c) < c.ttl && Inv(c, s)
    ensures !Overlap(s, a, b)
  {
    if a in s.clients && b in s.clients {
      LeaseOnRecord(c, s, a);
      LeaseOnRecord(c, s, b);
    }
  }

  lemma LeaseOnRecord(c: Timing, s: Service, token: nat)
    requires Span(c) < c.ttl && Inv(c, s) && token in s.clients
    ensures s.clients[token].phase.Executing? ==>
      s.clients[token].key in s.leases && s.leases[s.clients[token].key].token == token
  {
    assert ClientOk(c, s, token, s.clients[token]);
  }

  /** With enough lease time two executions under one key never overlap, in any run. */
  lemma ExecutionsExclude(c: Timing, run: seq<Service>, events: seq<Event>, t: nat, a: nat, b: nat)
    requires Span(c) < c.ttl
    requires IsRun(c, run, events) && t < |run|
    ensures !Overlap(run[t], a, b)
  {
    RunInv(c, run, events, t);
    OneExecutorPerKey(c, run[t], a, b);
  }

  /** When a job may start late enough to outlive its lease: as late as allowed, but within the lease. */
  function LateStart(c: Timing): nat {
    if c.startDelay < c.ttl then c.startDelay else c.ttl
  }

  /** With any less lease time there is a run in which they do. */
  lemma ShortLeasesOverlap(c: Timing) returns (run: seq<Service>, events: seq<Event>)
    requires Span(c) >= c.ttl
    ensures IsRun(c, run, events) && Overlap(run[|run| - 1], 0, 1)
  {
    var late := LateStart(c);
    var a, b := Client("k", 0, Waiting), Client("k", c.ttl, Waiting);
    var running, second := a.(phase := Executing(late)), b.(phase := Executing(c.ttl));
    var lease, next := map["k" := Lease(0, c.ttl)], map["k" := Lease(1, c.ttl + c.ttl)];
    events := [Grant("k"), Wait(late), Start(0), Wait(c.ttl - late), Grant("k"), Start(1)];
    run := [EMPTY, Service(0, lease, 1, map[0 := a]), Service(late, lease, 1, map[0 := a]),
            Service(late, lease, 1, map[0 := running]), Service(c.ttl, lease, 1, map[0 := running]),
            Service(c.ttl, next, 2, map[0 := running, 1 := b]),
            Service(c.ttl, next, 2, map[0 := running, 1 := second])];
    forall i | 0 <= i < |events| ensures Can(c, run[i], events[i]) && run[i + 1] == Next(c, run[i], events[i]) {
      match i
      case 0 => assert map[][0 := a] == map[0 := a];
      case 2 => assert map[0 := a][0 := running] == map[0 := running];
      case 4 => assert lease["k" := Lease(1, c.ttl + c.ttl)] == next;
      case 5 => assert map[0 := running, 1 := b][1 := second] == map[0 := running, 1 := second];
      case _ =>
    }
  }

  /** Mutual exclusion holds in every run exactly when the lease outlasts start delay, deadline and lateness. */
  lemma ExclusionIff(c: Timing)
    ensures (forall run, events, t: nat, a, b :: IsRun(c, run, events) && t < |run| ==> !Overlap(run[t], a, b))
      <==> Span(c) < c.ttl
  {
    if Span(c) < c.ttl {
      forall run, events, t: nat, a, b | IsRun(c, run, events) && t < |run|
        ensures !Overlap(run[t], a, b)
      {
        ExecutionsExclude(c, run, events, t, a, b);
      }
    } else {
      var run, events := ShortLeasesOverlap(c);
      assert Overlap(run[|run| - 1], 0, 1);
    }
  }
}
