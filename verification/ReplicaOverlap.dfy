/** Replicas whose leases are too short, run until two of their jobs build under one key at once. */
module ReplicaOverlap {
  import opened Wrappers
  import opened Types
  import opened Engine
  import opened EngineSafety
  import opened EngineProgress
  import opened EngineWitness
  import opened Replicas
  import LS = LockService

  ghost predicate ClusterReachable(c: ClusterConfig, k: Cluster) {
    exists run, events :: IsClusterRun(c, run, events) && run[|run| - 1] == k
  }

  lemma NextClusterReachable(c: ClusterConfig, k: Cluster, ev: ClusterEvent)
    requires ClusterReachable(c, k) && |k.nodes| == |c.replicas| && CanCluster(c, k, ev)
    ensures ClusterReachable(c, NextCluster(c, k, ev))
  {
    var run, events :| IsClusterRun(c, run, events) && run[|run| - 1] == k;
    var run', events' := run + [NextCluster(c, k, ev)], events + [ev];
    forall i | 0 <= i < |events'|
      ensures CanCluster(c, run'[i], events'[i]) && run'[i + 1] == NextCluster(c, run'[i], events'[i])
    {
      if i < |events| {
        assert run'[i] == run[i] && run'[i + 1] == run[i + 1] && events'[i] == events[i];
      }
    }
    assert IsClusterRun(c, run', events');
  }

  lemma FirstClusterReachable(c: ClusterConfig) returns (k: Cluster)
    ensures ClusterReachable(c, k) && k.service == LS.EMPTY && |k.nodes| == |c.replicas|
    ensures forall r :: 0 <= r < |c.replicas| ==> k.nodes[r] == Boot(c.replicas[r], map[], map[], 0)
  {
    k := Cluster(seq(|c.replicas|, r requires 0 <= r < |c.replicas| => Boot(c.replicas[r], map[], map[], 0)), LS.EMPTY);
    assert IsClusterRun(c, [k], []) && [k][|[k]| - 1] == k;
  }

  function At(k: Cluster, r: nat, s: State): Cluster
    requires r < |k.nodes|
  {
    k.(nodes := k.nodes[r := s])
  }

  /** The states that replica `r` can reach while everybody else stands still. */
  ghost function Lift(c: ClusterConfig, k: Cluster, r: nat): State -> bool
    requires r < |k.nodes|
  {
    s => ClusterReachable(c, At(k, r, s))
  }

  /** Quiet events of one replica are events of the cluster that the service does not notice. */
  lemma QuietLifts(c: ClusterConfig, k: Cluster, r: nat)
    requires r < |k.nodes| == |c.replicas|
    ensures IsKept(c.replicas[r], Lift(c, k, r))
  {
    var p := Lift(c, k, r);
    forall s, ev | Reachable(c.replicas[r], s) && p(s) && Can(c.replicas[r], s, ev) && IsQuiet(c.replicas[r], s, ev)
      ensures p(Next(c.replicas[r], s, ev))
    {
      QuietEventLifts(c, k, r, s, ev);
    }
  }

  lemma QuietEventLifts(c: ClusterConfig, k: Cluster, r: nat, s: State, ev: Event)
    requires r < |k.nodes| == |c.replicas| && ClusterReachable(c, At(k, r, s))
    requires Can(c.replicas[r], s, ev) && IsQuiet(c.replicas[r], s, ev)
    ensures ClusterReachable(c, At(k, r, Next(c.replicas[r], s, ev)))
  {
    assert NodeAction(c.replicas[r], s, ev, true).None?;
    NextClusterReachable(c, At(k, r, s), OnNode(r, ev, true));
    assert NextCluster(c, At(k, r, s), OnNode(r, ev, true)) == At(k, r, Next(c.replicas[r], s, ev));
  }

  /** A replica that has just started comes to ask for its first lock. */
  lemma ReplicaAsks(c: ClusterConfig, k: Cluster, r: nat, request: BuildRequest) returns (k': Cluster, id: JobId)
    requires ClusterReachable(c, k) && r < |k.nodes| == |c.replicas|
    requires k.nodes[r] == Boot(c.replicas[r], map[], map[], 0)
    requires c.replicas[r].admits(request) && c.replicas[r].maxQueued > 0 && c.replicas[r].maxConcurrent > 0
    ensures ClusterReachable(c, k') && k' == At(k, r, k'.nodes[r]) && Reachable(c.replicas[r], k'.nodes[r])
    ensures IsRunner(k'.nodes[r], Starter(id, CallLock(Some(c.replicas[r].lockKey(request)))))
  {
    QuietLifts(c, k, r);
    assert At(k, r, k.nodes[r]) == k;
    var s;
    s, id := FirstAsksForLock(c.replicas[r], Lift(c, k, r), request, "http");
    k' := At(k, r, s);
  }

  /** The grant that the service has ready for this replica. */
  function NextGrant(c: ClusterConfig, k: Cluster, r: nat, key: string): LockGrant
    requires r < |c.replicas|
  {
    LockGrant(key, c.replicas[r].holder, k.service.nextToken)
  }

  /** A runner that asks for a lock can be given this grant. */
  lemma AskerTakesGrant(c: EngineConfig, s: State, id: JobId, grant: LockGrant) returns (e: Choice)
    requires Reachable(c, s) && IsRunner(s, Starter(id, CallLock(Some(grant.key)))) && grant.holder == c.holder
    requires c.maxConcurrent > 0 && c.coordinationEnabled
    ensures Can(c, s, Step(1, e))
    ensures var next := NextMove(c, s, s.tasks[1], e).next;
      && next == Worker(id, Some(grant), Begin) && Next(c, s, Step(1, e)).tasks == s.tasks[1 := next]
  {
    e := ChoiceExists(c, s, s.tasks[1]);
    e := e.(lock := Acquired(grant));
    TaskCanStep(c, s, 1, e);
  }

  /** Asked for a free key, the service grants it. */
  lemma ReplicaIsGranted(c: ClusterConfig, k: Cluster, r: nat, id: JobId, key: string) returns (k': Cluster)
    requires ClusterReachable(c, k) && r < |k.nodes| == |c.replicas| && Reachable(c.replicas[r], k.nodes[r])
    requires IsRunner(k.nodes[r], Starter(id, CallLock(Some(key)))) && LS.IsFree(k.service, key)
    requires c.replicas[r].maxConcurrent > 0 && c.replicas[r].coordinationEnabled
    ensures ClusterReachable(c, k') && |k'.nodes| == |k.nodes| && k'.nodes == k.nodes[r := k'.nodes[r]]
    ensures k'.service == LS.Next(c.timing, k.service, LS.Grant(key)) && Reachable(c.replicas[r], k'.nodes[r])
    ensures IsRunner(k'.nodes[r], Worker(id, Some(NextGrant(c, k, r, key)), Begin))
  {
    var s := k.nodes[r];
    var e := AskerTakesGrant(c.replicas[r], s, id, NextGrant(c, k, r, key));
    assert NodeAction(c.replicas[r], s, Step(1, e), true) == Some(LS.Grant(key));
    NextReachable(c.replicas[r], s, Step(1, e));
    NextClusterReachable(c, k, OnNode(r, Step(1, e), true));
    k' := NextCluster(c, k, OnNode(r, Step(1, e), true));
  }

  /** The job comes to the door of its executor without the service noticing. */
  lemma ReplicaIsReady(c: ClusterConfig, k: Cluster, r: nat, id: JobId, grant: LockGrant) returns (k': Cluster)
    requires ClusterReachable(c, k) && r < |k.nodes| == |c.replicas| && Reachable(c.replicas[r], k.nodes[r])
    requires IsRunner(k.nodes[r], Worker(id, Some(grant), Begin)) && c.replicas[r].maxConcurrent > 0
    ensures ClusterReachable(c, k') && k' == At(k, r, k'.nodes[r]) && Reachable(c.replicas[r], k'.nodes[r])
    ensures IsRunner(k'.nodes[r], Worker(id, Some(grant), GetJob)) && id in k'.nodes[r].jobs
  {
    QuietLifts(c, k, r);
    assert At(k, r, k.nodes[r]) == k;
    var s := WorkerIsReady(c.replicas[r], Lift(c, k, r), k.nodes[r], id, Some(grant));
    k' := At(k, r, s);
  }

  /** At the door of its executor a job can go in. */
  lemma ReadyGoesIn(c: EngineConfig, s: State, id: JobId, grant: LockGrant) returns (e: Choice)
    requires Reachable(c, s) && IsRunner(s, Worker(id, Some(grant), GetJob)) && id in s.jobs && c.maxConcurrent > 0
    ensures Can(c, s, Step(1, e)) && !e.applied
    ensures var next := NextMove(c, s, s.tasks[1], e).next;
      && next == Worker(id, Some(grant), Execute(s.jobs[id]))
      && Next(c, s, Step(1, e)).tasks == s.tasks[1 := next]
  {
    e := ChoiceExists(c, s, s.tasks[1]);
    TaskCanStep(c, s, 1, e);
  }

  /** It starts while its grant is young enough. */
  lemma ReplicaStarts(c: ClusterConfig, k: Cluster, r: nat, id: JobId, grant: LockGrant) returns (k': Cluster)
    requires ClusterReachable(c, k) && r < |k.nodes| == |c.replicas| && Reachable(c.replicas[r], k.nodes[r])
    requires IsRunner(k.nodes[r], Worker(id, Some(grant), GetJob)) && id in k.nodes[r].jobs
    requires c.replicas[r].maxConcurrent > 0 && LS.Can(c.timing, k.service, LS.Start(grant.fencingToken))
    ensures ClusterReachable(c, k') && |k'.nodes| == |k.nodes| && k'.nodes == k.nodes[r := k'.nodes[r]]
    ensures k'.service == LS.Next(c.timing, k.service, LS.Start(grant.fencingToken))
    ensures IsExecuting(k', r, 1) && k'.nodes[r].tasks[1].grant == Some(grant)
  {
    var e := ReadyGoesIn(c.replicas[r], k.nodes[r], id, grant);
    assert NodeAction(c.replicas[r], k.nodes[r], Step(1, e), true) == Some(LS.Start(grant.fencingToken));
    NextClusterReachable(c, k, OnNode(r, Step(1, e), true));
    k' := NextCluster(c, k, OnNode(r, Step(1, e), true));
  }

  lemma TaskCanStep(c: EngineConfig, s: State, t: nat, e: Choice)
    requires Reachable(c, s) && AloneAt(s, t) && c.maxConcurrent > 0 && Allowed(c, s, s.tasks[t], e)
    ensures Can(c, s, Step(t, e))
  {
    AnythingIsKept(c);
    var s' := AloneSteps(c, Anything(), s, t, e);
  }

  lemma TimePasses(c: ClusterConfig, k: Cluster, ms: nat) returns (k': Cluster)
    requires ClusterReachable(c, k) && |k.nodes| == |c.replicas| && LS.Can(c.timing, k.service, LS.Wait(ms))
    ensures ClusterReachable(c, k') && k' == k.(service := k.service.(now := k.service.now + ms))
  {
    NextClusterReachable(c, k, OnService(LS.Wait(ms)));
    k' := NextCluster(c, k, OnService(LS.Wait(ms)));
  }

  /** Two replicas that serve, and whose jobs for this request go by one key. */
  predicate AreRivals(c: ClusterConfig, request: BuildRequest) {
    && |c.replicas| >= 2
    && (forall r :: 0 <= r < 2 ==>
          && c.replicas[r].admits(request) && c.replicas[r].maxQueued > 0 && c.replicas[r].maxConcurrent > 0
          && c.replicas[r].coordinationEnabled)
    && c.replicas[0].lockKey(request) == c.replicas[1].lockKey(request)
  }

  lemma BothAsk(c: ClusterConfig, request: BuildRequest) returns (k: Cluster, a: JobId, b: JobId)
    requires AreRivals(c, request)
    ensures ClusterReachable(c, k) && |k.nodes| == |c.replicas| && k.service == LS.EMPTY
    ensures Reachable(c.replicas[0], k.nodes[0]) && Reachable(c.replicas[1], k.nodes[1])
    ensures IsRunner(k.nodes[0], Starter(a, CallLock(Some(c.replicas[0].lockKey(request)))))
    ensures IsRunner(k.nodes[1], Starter(b, CallLock(Some(c.replicas[0].lockKey(request)))))
  {
    k := FirstClusterReachable(c);
    k, a := ReplicaAsks(c, k, 0, request);
    k, b := ReplicaAsks(c, k, 1, request);
  }

  /** The service as the first replica's job has left it. */
  function FirstLease(c: LS.Timing, now: nat, key: string, phase: LS.Phase): LS.Service {
    LS.Service(now, map[key := LS.Lease(0, c.ttl)], 1, map[0 := LS.Client(key, 0, phase)])
  }

  predicate AsksBeside(c: ClusterConfig, k: Cluster, b: JobId, key: string) {
    |k.nodes| == |c.replicas| >= 2 && IsRunner(k.nodes[1], Starter(b, CallLock(Some(key))))
  }

  lemma FirstIsReady(c: ClusterConfig, request: BuildRequest) returns (k: Cluster, a: JobId, b: JobId, grant: LockGrant)
    requires AreRivals(c, request)
    ensures var key := c.replicas[0].lockKey(request);
      && ClusterReachable(c, k) && AsksBeside(c, k, b, key)
      && Reachable(c.replicas[0], k.nodes[0]) && Reachable(c.replicas[1], k.nodes[1])
      && IsRunner(k.nodes[0], Worker(a, Some(grant), GetJob)) && a in k.nodes[0].jobs
      && grant.key == key && grant.fencingToken == 0 && k.service == FirstLease(c.timing, 0, key, LS.Waiting)
  {
    var key := c.replicas[0].lockKey(request);
    k, a, b := BothAsk(c, request);
    grant := NextGrant(c, k, 0, key);
    k := ReplicaIsGranted(c, k, 0, a, key);
    k := ReplicaIsReady(c, k, 0, a, grant);
  }

  /** The first one is in its executor under this key, and the second asks for it. */
  ghost predicate FirstIsBusy(c: ClusterConfig, k: Cluster, b: JobId, key: string) {
    && ClusterReachable(c, k) && AsksBeside(c, k, b, key) && Reachable(c.replicas[1], k.nodes[1])
    && IsExecuting(k, 0, 1) && k.nodes[0].tasks[1].grant.Some? && k.nodes[0].tasks[1].grant.value.key == key
  }

  /** The first one starts as late as it may. */
  lemma FirstStartsLate(c: ClusterConfig, request: BuildRequest) returns (k: Cluster, b: JobId)
    requires AreRivals(c, request)
    ensures var key, late := c.replicas[0].lockKey(request), LS.LateStart(c.timing);
      FirstIsBusy(c, k, b, key) && k.service == FirstLease(c.timing, late, key, LS.Executing(late))
  {
    var key, late := c.replicas[0].lockKey(request), LS.LateStart(c.timing);
    var a, grant;
    k, a, b, grant := FirstIsReady(c, request);
    k := TimePasses(c, k, late);
    assert k.service == FirstLease(c.timing, late, key, LS.Waiting);
    k := ReplicaStarts(c, k, 0, a, grant);
    StartedLease(c.timing, late, key);
  }

  lemma StartedLease(c: LS.Timing, late: nat, key: string)
    requires LS.Can(c, FirstLease(c, late, key, LS.Waiting), LS.Start(0))
    ensures LS.Next(c, FirstLease(c, late, key, LS.Waiting), LS.Start(0)) ==
      FirstLease(c, late, key, LS.Executing(late))
  {
  }

  /** It is still at work when its lease runs out. */
  lemma FirstOutlivesLease(c: ClusterConfig, request: BuildRequest) returns (k: Cluster, b: JobId)
    requires AreRivals(c, request) && LS.Span(c.timing) >= c.timing.ttl
    ensures var key := c.replicas[0].lockKey(request);
      && FirstIsBusy(c, k, b, key)
      && k.service == FirstLease(c.timing, c.timing.ttl, key, LS.Executing(LS.LateStart(c.timing)))
  {
    k, b := FirstStartsLate(c, request);
    k := TimePasses(c, k, c.timing.ttl - LS.LateStart(c.timing));
  }

  lemma ShortLeasesClash(c: ClusterConfig, request: BuildRequest) returns (k: Cluster)
    requires AreRivals(c, request) && LS.Span(c.timing) >= c.timing.ttl
    ensures Clash(c, k, 0, 1, 1, 1)
  {
    var b;
    k, b := FirstOutlivesLease(c, request);
    var key := c.replicas[0].lockKey(request);
    var grant := NextGrant(c, k, 1, key);
    k := ReplicaIsGranted(c, k, 1, b, key);
    k := ReplicaIsReady(c, k, 1, b, grant);
    k := ReplicaStarts(c, k, 1, b, grant);
  }

  /** Two jobs are inside their executors with tokens for one key. */
  ghost predicate Clash(c: ClusterConfig, k: Cluster, r: nat, t: nat, q: nat, u: nat) {
    && ClusterReachable(c, k) && IsExecuting(k, r, t) && IsExecuting(k, q, u) && (r != q || t != u)
    && k.nodes[r].tasks[t].grant.Some? && k.nodes[q].tasks[u].grant.Some?
    && k.nodes[r].tasks[t].grant.value.key == k.nodes[q].tasks[u].grant.value.key
  }

  /**
   * On any number of replicas that serve one request under one key, jobs with tokens for the same key
   * exclude one another in every reachable state if and only if the lease outlasts start delay,
   * deadline and lateness.
   */
  lemma ReplicasExcludeIff(c: ClusterConfig, request: BuildRequest)
    requires AreRivals(c, request)
    ensures (forall k, r: nat, t: nat, q: nat, u: nat :: !Clash(c, k, r, t, q, u))
      <==> LS.Span(c.timing) < c.timing.ttl
  {
    if LS.Span(c.timing) < c.timing.ttl {
      forall k, r: nat, t: nat, q: nat, u: nat ensures !Clash(c, k, r, t, q, u) {
        LongLeasesExclude(c, k, r, t, q, u);
      }
    } else {
      var k := ShortLeasesClash(c, request);
    }
  }

  lemma LongLeasesExclude(c: ClusterConfig, k: Cluster, r: nat, t: nat, q: nat, u: nat)
    requires LS.Span(c.timing) < c.timing.ttl
    ensures !Clash(c, k, r, t, q, u)
  {
    if Clash(c, k, r, t, q, u) {
      var run, events :| IsClusterRun(c, run, events) && run[|run| - 1] == k;
      TokensExclude(c, run, events, |run| - 1, r, t, q, u);
    }
  }
}
