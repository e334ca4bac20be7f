/**
 * Any number of build servers under one lock service: every engine with its own jobs, and the moves
 * of its runners as the grants, starts, ends and releases that the service and its clock see.
 */
module Replicas {
  import opened Wrappers
  import opened JobTable
  import opened Engine
  import opened EngineSafety
  import opened EngineCoordination
  import opened RequestMap
  import LS = LockService
  import opened LockKeys

  datatype ClusterConfig = ClusterConfig(replicas: seq<EngineConfig>, timing: LS.Timing)

  datatype Cluster = Cluster(nodes: seq<State>, service: LS.Service)

  /** What a change of seat is to the lock service. */
  function ActionOf(before: Option<Seat>, after: Option<Seat>, arrives: bool): Option<LS.Event> {
    match (before, after)
    case (None, Some(seat)) => Some(LS.Grant(seat.grant.key))
    case (Some(seat), None) => Some(LS.ReleaseLock(seat.grant.fencingToken, arrives))
    case (Some(a), Some(b)) =>
      if a.stage == b.stage then None
      else if b.stage.During? then Some(LS.Start(a.grant.fencingToken))
      else Some(LS.Finish(a.grant.fencingToken))
    case (None, None) => None
  }

  /** The tokens a process holds when it ends. */
  function LiveTokens(tasks: seq<Task>): set<nat> {
    set t | 0 <= t < |tasks| && SeatOf(tasks[t]).Some? :: SeatOf(tasks[t]).value.grant.fencingToken
  }

  /** An event of one replica; `arrives` says whether a release it sends takes effect. */
  datatype ClusterEvent = OnNode(r: nat, ev: Event, arrives: bool) | OnService(change: LS.Event)

  ghost function NodeAction(c: EngineConfig, s: State, ev: Event, arrives: bool): Option<LS.Event>
    requires Can(c, s, ev)
  {
    match ev
    case Step(t, e) => ActionOf(SeatOf(s.tasks[t]), SeatOf(NextMove(c, s, s.tasks[t], e).next), arrives)
    case Restart(_, _, _) => Some(LS.Abandon(LiveTokens(s.tasks)))
    case _ => None
  }

  /** A grant that a runner receives carries the token that the service gives it. */
  predicate TokenFits(service: LS.Service, next: Task) {
    SeatOf(next).Some? ==> SeatOf(next).value.grant.fencingToken == service.nextToken
  }

  ghost predicate CanCluster(c: ClusterConfig, k: Cluster, ev: ClusterEvent)
    requires |c.replicas| == |k.nodes|
  {
    match ev
    case OnService(change) =>
      (change.Wait? || change.LoseGrant? || change.Expire?) && LS.Can(c.timing, k.service, change)
    case OnNode(r, ev, arrives) =>
      && r < |k.nodes| && Can(c.replicas[r], k.nodes[r], ev)
      && (var action := NodeAction(c.replicas[r], k.nodes[r], ev, arrives);
          action.Some? ==>
            && LS.Can(c.timing, k.service, action.value)
            && (action.value.Grant? && ev.Step? ==>
                  TokenFits(k.service, NextMove(c.replicas[r], k.nodes[r], k.nodes[r].tasks[ev.t], ev.choice).next)))
  }

  ghost function NextCluster(c: ClusterConfig, k: Cluster, ev: ClusterEvent): Cluster
    requires |c.replicas| == |k.nodes| && CanCluster(c, k, ev)
  {
    match ev
    case OnService(change) => k.(service := LS.Next(c.timing, k.service, change))
    case OnNode(r, ev, arrives) =>
      var action := NodeAction(c.replicas[r], k.nodes[r], ev, arrives);
      Cluster(k.nodes[r := Next(c.replicas[r], k.nodes[r], ev)],
              if action.Some? then LS.Next(c.timing, k.service, action.value) else k.service)
  }

  ghost predicate IsClusterRun(c: ClusterConfig, run: seq<Cluster>, events: seq<ClusterEvent>) {
    && |run| == |events| + 1
    && run[0].service == LS.EMPTY
    && (forall i :: 0 <= i < |run| ==> |run[i].nodes| == |c.replicas|)
    && (forall r :: 0 <= r < |c.replicas| ==> Init(c.replicas[r], run[0].nodes[r]))
    && forall i :: 0 <= i < |events| ==>
         CanCluster(c, run[i], events[i]) && run[i + 1] == NextCluster(c, run[i], events[i])
  }

  // The agreement between the runners of all replicas and the clients of the service.

  predicate StageFits(stage: Stage, phase: LS.Phase) {
    match stage
    case Before => phase.Waiting?
    case During => phase.Executing?
    case After => phase.Ended?
  }

  predicate Backed(clients: map<nat, LS.Client>, seat: Seat) {
    && seat.grant.fencingToken in clients
    && clients[seat.grant.fencingToken].key == seat.grant.key
    && StageFits(seat.stage, clients[seat.grant.fencingToken].phase)
  }

  predicate Sits(rosters: seq<seq<Task>>, r: nat, t: nat, token: nat) {
    && r < |rosters| && t < |rosters[r]| && SeatOf(rosters[r][t]).Some?
    && SeatOf(rosters[r][t]).value.grant.fencingToken == token
  }

  /** Every grant in use is known to the service under its token, and no two runners use the same. */
  ghost predicate SeatsOk(rosters: seq<seq<Task>>, clients: map<nat, LS.Client>) {
    && (forall r: nat, t: nat, token: nat ::
          Sits(rosters, r, t, token) ==> Backed(clients, SeatOf(rosters[r][t]).value))
    && (forall r: nat, t: nat, q: nat, u: nat, token: nat ::
          Sits(rosters, r, t, token) && Sits(rosters, q, u, token) ==> r == q && t == u)
  }

  function TokenOf(k: Task): Option<nat> {
    if SeatOf(k).Some? then Some(SeatOf(k).value.grant.fencingToken) else None
  }

  /** One task of one replica changes its seat, and the service changes no client but that one. */
  lemma MoveKeepsSeats(rosters: seq<seq<Task>>, clients: map<nat, LS.Client>, r: nat, t: nat, tasks': seq<Task>,
                       clients': map<nat, LS.Client>)
    requires SeatsOk(rosters, clients) && r < |rosters| && t < |rosters[r]| <= |tasks'|
    requires forall u :: 0 <= u < |rosters[r]| && u != t ==> tasks'[u] == rosters[r][u]
    requires forall u :: |rosters[r]| <= u < |tasks'| ==> SeatOf(tasks'[u]).None?
    requires forall token :: token in clients && TokenOf(rosters[r][t]) != Some(token) ==>
      token in clients' && clients'[token] == clients[token]
    requires SeatOf(tasks'[t]).Some? ==>
      && Backed(clients', SeatOf(tasks'[t]).value)
      && (TokenOf(tasks'[t]) == TokenOf(rosters[r][t]) || TokenOf(tasks'[t]).value !in clients)
    ensures SeatsOk(rosters[r := tasks'], clients')
  {
    var rosters' := rosters[r := tasks'];
    forall q: nat, u: nat, token: nat | Sits(rosters', q, u, token) && (q != r || u != t)
      ensures Sits(rosters, q, u, token) && token in clients && TokenOf(rosters[r][t]) != Some(token)
      ensures rosters'[q][u] == rosters[q][u]
    {
      assert Sits(rosters, q, u, token);
      if TokenOf(rosters[r][t]) == Some(token) {
        assert Sits(rosters, r, t, token);
      }
    }
  }

  /** A process ends, and the service forgets nothing but the phases of its clients. */
  lemma EndKeepsSeats(rosters: seq<seq<Task>>, clients: map<nat, LS.Client>, r: nat, clients': map<nat, LS.Client>)
    requires SeatsOk(rosters, clients) && r < |rosters|
    requires forall token :: token in clients && token !in LiveTokens(rosters[r]) ==>
      token in clients' && clients'[token] == clients[token]
    ensures SeatsOk(rosters[r := []], clients')
  {
    var rosters' := rosters[r := []];
    forall q: nat, u: nat, token: nat | Sits(rosters', q, u, token)
      ensures Sits(rosters, q, u, token) && token !in LiveTokens(rosters[r])
    {
      assert Sits(rosters, q, u, token);
      if token in LiveTokens(rosters[r]) {
        var t: nat :| t < |rosters[r]| && SeatOf(rosters[r][t]).Some?
          && SeatOf(rosters[r][t]).value.grant.fencingToken == token;
        assert Sits(rosters, r, t, token);
      }
    }
  }

  lemma ArrivalKeepsSeats(rosters: seq<seq<Task>>, clients: map<nat, LS.Client>, r: nat, k: Task)
    requires SeatsOk(rosters, clients) && r < |rosters| && SeatOf(k).None?
    ensures SeatsOk(rosters[r := rosters[r] + [k]], clients)
  {
    var rosters' := rosters[r := rosters[r] + [k]];
    forall q: nat, u: nat, token: nat | Sits(rosters', q, u, token) ensures Sits(rosters, q, u, token) {
    }
  }

  /** The seats a move may lead between. */
  predicate SeatRule(before: Option<Seat>, after: Option<Seat>) {
    match (before, after)
    case (None, None) => true
    case (None, Some(b)) => b.stage.Before?
    case (Some(a), None) => a.stage.After?
    case (Some(a), Some(b)) =>
      && a.grant == b.grant
      && (a.stage == b.stage || (a.stage.Before? && b.stage.During?) || (a.stage.During? && b.stage.After?))
  }

  lemma MoveKeepsSeatRule(c: EngineConfig, s: State, k: Task, e: Choice)
    requires !IsDone(k) && (k.Worker? ==> k.id in s.jobs)
    ensures var m := NextMove(c, s, k, e);
      SeatRule(SeatOf(k), SeatOf(m.next)) && (m.change.Hatch? ==> SeatOf(m.change.runner).None?)
  {
  }

  /** The service's side of a change of seat: that one client changes, as the new seat demands. */
  lemma ActionFits(c: LS.Timing, s: LS.Service, before: Option<Seat>, after: Option<Seat>, arrives: bool)
    requires LS.Inv(c, s) && SeatRule(before, after) && (before.Some? ==> Backed(s.clients, before.value))
    requires var action := ActionOf(before, after, arrives);
      action.Some? ==> (
        && LS.Can(c, s, action.value)
        && (action.value.Grant? && after.Some? ==> after.value.grant.fencingToken == s.nextToken))
    ensures var action := ActionOf(before, after, arrives);
      var s' := if action.Some? then LS.Next(c, s, action.value) else s;
      && LS.Inv(c, s')
      && (after.Some? ==> Backed(s'.clients, after.value))
      && (before.None? && after.Some? ==> after.value.grant.fencingToken !in s.clients)
      && (forall token :: token in s.clients && (before.Some? ==> before.value.grant.fencingToken != token) ==>
            token in s'.clients && s'.clients[token] == s.clients[token])
  {
    var action := ActionOf(before, after, arrives);
    if action.Some? {
      LS.EventKeepsInv(c, s, action.value);
    }
    forall token | token in s.clients ensures token < s.nextToken {
      assert LS.ClientOk(c, s, token, s.clients[token]);
    }
  }

  function Rosters(nodes: seq<State>): seq<seq<Task>> {
    seq(|nodes|, r requires 0 <= r < |nodes| => nodes[r].tasks)
  }

  ghost predicate ClusterInv(c: ClusterConfig, k: Cluster) {
    && |k.nodes| == |c.replicas|
    && (forall r :: 0 <= r < |k.nodes| ==> Reachable(c.replicas[r], k.nodes[r]))
    && LS.Inv(c.timing, k.service) && SeatsOk(Rosters(k.nodes), k.service.clients)
  }

  lemma NodeStepKeepsSeats(c: ClusterConfig, k: Cluster, r: nat, t: nat, e: Choice, arrives: bool)
    requires ClusterInv(c, k) && CanCluster(c, k, OnNode(r, Step(t, e), arrives))
    ensures var k' := NextCluster(c, k, OnNode(r, Step(t, e), arrives));
      LS.Inv(c.timing, k'.service) && SeatsOk(Rosters(k'.nodes), k'.service.clients)
  {
    var s := k.nodes[r];
    var m := NextMove(c.replicas[r], s, s.tasks[t], e);
    if s.tasks[t].Worker? {
      LiveJobIsRetained(c.replicas[r], s, t);
    }
    MoveKeepsSeatRule(c.replicas[r], s, s.tasks[t], e);
    StepSeats(c.timing, k.service, Rosters(k.nodes), r, t, m, arrives);
    var k' := NextCluster(c, k, OnNode(r, Step(t, e), arrives));
    assert Rosters(k'.nodes) == Rosters(k.nodes)[r := NewTasks(s.tasks, t, m)];
  }

  lemma StepSeats(c: LS.Timing, s: LS.Service, rosters: seq<seq<Task>>, r: nat, t: nat, m: Move, arrives: bool)
    requires LS.Inv(c, s) && SeatsOk(rosters, s.clients) && r < |rosters| && t < |rosters[r]|
    requires SeatRule(SeatOf(rosters[r][t]), SeatOf(m.next)) && (m.change.Hatch? ==> SeatOf(m.change.runner).None?)
    requires var action := ActionOf(SeatOf(rosters[r][t]), SeatOf(m.next), arrives);
      action.Some? ==> LS.Can(c, s, action.value) && (action.value.Grant? ==> TokenFits(s, m.next))
    ensures var action := ActionOf(SeatOf(rosters[r][t]), SeatOf(m.next), arrives);
      var s' := if action.Some? then LS.Next(c, s, action.value) else s;
      LS.Inv(c, s') && SeatsOk(rosters[r := NewTasks(rosters[r], t, m)], s'.clients)
  {
    var before, after := SeatOf(rosters[r][t]), SeatOf(m.next);
    if before.Some? {
      assert Sits(rosters, r, t, before.value.grant.fencingToken);
    }
    ActionFits(c, s, before, after, arrives);
    var action := ActionOf(before, after, arrives);
    var s' := if action.Some? then LS.Next(c, s, action.value) else s;
    MoveKeepsSeats(rosters, s.clients, r, t, NewTasks(rosters[r], t, m), s'.clients);
  }

  lemma DropKeepsSeats(c: ClusterConfig, k: Cluster, r: nat, t: nat, arrives: bool)
    requires ClusterInv(c, k) && CanCluster(c, k, OnNode(r, Drop(t), arrives))
    ensures SeatsOk(Rosters(NextCluster(c, k, OnNode(r, Drop(t), arrives)).nodes), k.service.clients)
  {
    var s := k.nodes[r];
    var m := DropMove(s.tasks[t]);
    MoveKeepsSeats(Rosters(k.nodes), k.service.clients, r, t, NewTasks(s.tasks, t, m), k.service.clients);
    var k' := NextCluster(c, k, OnNode(r, Drop(t), arrives));
    assert Rosters(k'.nodes) == Rosters(k.nodes)[r := NewTasks(s.tasks, t, m)];
  }

  lemma NodeEventKeepsSeats(c: ClusterConfig, k: Cluster, r: nat, ev: Event, arrives: bool)
    requires ClusterInv(c, k) && CanCluster(c, k, OnNode(r, ev, arrives))
    ensures var k' := NextCluster(c, k, OnNode(r, ev, arrives));
      LS.Inv(c.timing, k'.service) && SeatsOk(Rosters(k'.nodes), k'.service.clients)
  {
    var k' := NextCluster(c, k, OnNode(r, ev, arrives));
    match ev
    case Step(t, e) => NodeStepKeepsSeats(c, k, r, t, e, arrives);
    case Drop(t) => DropKeepsSeats(c, k, r, t, arrives);
    case Submit(request, source) =>
      ArrivalKeepsSeats(Rosters(k.nodes), k.service.clients, r, Checker(request, source, RequestId(request), Arrived));
      assert Rosters(k'.nodes) == Rosters(k.nodes)[r := k'.nodes[r].tasks];
    case View =>
      ArrivalKeepsSeats(Rosters(k.nodes), k.service.clients, r, Viewer(WaitView));
      assert Rosters(k'.nodes) == Rosters(k.nodes)[r := k'.nodes[r].tasks];
    case Restart(_, _, _) =>
      LS.EventKeepsInv(c.timing, k.service, LS.Abandon(LiveTokens(k.nodes[r].tasks)));
      EndKeepsSeats(Rosters(k.nodes), k.service.clients, r, k'.service.clients);
      assert Rosters(k'.nodes) == Rosters(k.nodes)[r := []];
  }

  lemma ClusterEventKeepsInv(c: ClusterConfig, k: Cluster, ev: ClusterEvent)
    requires ClusterInv(c, k) && CanCluster(c, k, ev)
    ensures ClusterInv(c, NextCluster(c, k, ev))
  {
    match ev
    case OnService(change) => LS.EventKeepsInv(c.timing, k.service, change);
    case OnNode(r, ev, arrives) =>
      NodeEventKeepsSeats(c, k, r, ev, arrives);
      NextReachable(c.replicas[r], k.nodes[r], ev);
  }

  lemma {:induction false} ClusterRunInv(c: ClusterConfig, run: seq<Cluster>, events: seq<ClusterEvent>, i: nat)
    requires IsClusterRun(c, run, events) && i < |run|
    ensures ClusterInv(c, run[i])
  {
    if i == 0 {
      forall r | 0 <= r < |c.replicas| ensures Reachable(c.replicas[r], run[0].nodes[r]) {
        assert IsRun(c.replicas[r], [run[0].nodes[r]], []);
        assert [run[0].nodes[r]][|[run[0].nodes[r]]| - 1] == run[0].nodes[r];
      }
      assert forall r :: 0 <= r < |run[0].nodes| ==> Rosters(run[0].nodes)[r] == [];
    } else {
      ClusterRunInv(c, run, events, i - 1);
      ClusterEventKeepsInv(c, run[i - 1], events[i - 1]);
      assert run[i - 1 + 1] == NextCluster(c, run[i - 1], events[i - 1]);
    }
  }

  predicate IsExecuting(k: Cluster, r: nat, t: nat) {
    r < |k.nodes| && t < |k.nodes[r].tasks| && k.nodes[r].tasks[t].Worker? && k.nodes[r].tasks[t].wp.Execute?
  }

  /**
   * Across any number of replicas, two jobs that carry a token for the same key are never inside their
   * executors at once: they are the same job.
   */
  lemma TokensExclude(c: ClusterConfig, run: seq<Cluster>, events: seq<ClusterEvent>, i: nat,
                      r: nat, t: nat, q: nat, u: nat)
    requires IsClusterRun(c, run, events) && i < |run| && LS.Span(c.timing) < c.timing.ttl
    requires IsExecuting(run[i], r, t) && IsExecuting(run[i], q, u)
    requires var a, b := run[i].nodes[r].tasks[t].grant, run[i].nodes[q].tasks[u].grant;
      a.Some? && b.Some? && a.value.key == b.value.key
    ensures r == q && t == u
  {
    ClusterRunInv(c, run, events, i);
    SeatsExclude(c.timing, run[i].service, Rosters(run[i].nodes), r, t, q, u);
  }

  lemma SeatsExclude(c: LS.Timing, s: LS.Service, rosters: seq<seq<Task>>, r: nat, t: nat, q: nat, u: nat)
    requires LS.Inv(c, s) && SeatsOk(rosters, s.clients) && LS.Span(c) < c.ttl
    requires r < |rosters| && t < |rosters[r]| && q < |rosters| && u < |rosters[q]|
    requires var a, b := SeatOf(rosters[r][t]), SeatOf(rosters[q][u]);
      a.Some? && b.Some? && a.value.stage.During? && b.value.stage.During? && a.value.grant.key == b.value.grant.key
    ensures r == q && t == u
  {
    var a, b := SeatOf(rosters[r][t]).value.grant.fencingToken, SeatOf(rosters[q][u]).value.grant.fencingToken;
    assert Sits(rosters, r, t, a) && Sits(rosters, q, u, b);
    LS.OneExecutorPerKey(c, s, a, b);
  }

  /**
   * With coordination enabled and required this covers every executing job: on replicas that name
   * their locks by one hash, whatever it is, two executing jobs of the same kind never have the same image text, or
   * the same profile and repository text, unless they are the same job.
   */
  lemma ExecutingJobsExclude(c: ClusterConfig, run: seq<Cluster>, events: seq<ClusterEvent>, i: nat,
                             r: nat, t: nat, q: nat, u: nat, hash: string -> string)
    requires IsClusterRun(c, run, events) && i < |run| && LS.Span(c.timing) < c.timing.ttl
    requires forall n :: 0 <= n < |c.replicas| ==>
      && c.replicas[n].coordinationEnabled && c.replicas[n].coordinationRequired
      && forall request :: c.replicas[n].lockKey(request) == LockKey(request, hash)
    requires IsExecuting(run[i], r, t) && IsExecuting(run[i], q, u)
    requires var a, b := run[i].nodes[r].tasks[t].wp.job.request, run[i].nodes[q].tasks[u].wp.job.request;
      RunsProfile(a) == RunsProfile(b) && KeyedBy(a) == KeyedBy(b)
    ensures r == q && t == u
  {
    ClusterRunInv(c, run, events, i);
    ExecutingKey(c.replicas[r], run[i].nodes[r], t);
    ExecutingKey(c.replicas[q], run[i].nodes[q], u);
    SameTextsSameKey(run[i].nodes[r].tasks[t].wp.job.request, run[i].nodes[q].tasks[u].wp.job.request, hash);
    TokensExclude(c, run, events, i, r, t, q, u);
  }

  lemma ExecutingKey(c: EngineConfig, s: State, t: nat)
    requires Reachable(c, s) && t < |s.tasks| && s.tasks[t].Worker? && s.tasks[t].wp.Execute?
    requires c.coordinationEnabled && c.coordinationRequired
    ensures s.tasks[t].grant.Some? && s.tasks[t].grant.value.key == c.lockKey(s.tasks[t].wp.job.request)
  {
    ExecutingJobsHoldTheirLock(c, s, t);
    var first := TaskJob(c, s, t);
  }
}
