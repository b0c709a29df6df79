/**
 The methods of the proxy and of the managers, called in a state of a run: each call they accept is a step of the
 run, or several in a row if nothing else happens meanwhile. So the runs leave out nothing that the programs do.
 */
module Calls {
  import opened Wrappers
  import opened RoutingTable
  import opened UeAppLcmProxyBase
  import opened ProxyModel
  import opened StaticProxy
  import opened ProxySystem

  /** `state` is the state of the proxy, as a system has it. */
  ghost predicate Runs(proxy: StaticUeAppLcmProxy, s: System)
    reads proxy, proxy.base
  {
    Inv(s) && s.proxy == proxy.State()
  }

  /** Whatever the address, an association that names an application and an end-point is a step. */
  method Associate(proxy: StaticUeAppLcmProxy, ghost s: System, address: string, appName: string, edgeRouter: string)
    returns (result: Result<seq<Notification>, EditError>, ghost s': System)
    requires Runs(proxy, s)
    modifies proxy`table, proxy`contexts
    ensures Runs(proxy, s')
    ensures if appName == "" || edgeRouter == "" then result.Failure? && s' == s
      else
        && result.Success? && Step(s, EditTable(Enter(address, appName, edgeRouter)), s')
        && s'.workers == s.workers + [Worker(result.value, [], None)]
  {
    hide Exact, ServesAllOrphans, Inv;
    assert Valid(s.proxy) by { InvParts(s); }
    var assertionsHeld;
    result, assertionsHeld := proxy.AssociateLocked(address, appName, edgeRouter);
    s' := s;
    if result.Success? {
      s' := s.(proxy := proxy.State(), workers := s.workers + [Worker(result.value, [], None)]);
      StepKeepsInv(s, EditTable(Enter(address, appName, edgeRouter)), s');
    }
  }

  /** Whatever the address, dropping an association of an application is a step, be it there or not. */
  method Remove(proxy: StaticUeAppLcmProxy, ghost s: System, address: string, appName: string)
    returns (result: Result<seq<Notification>, EditError>, ghost s': System)
    requires Runs(proxy, s)
    modifies proxy`table, proxy`contexts
    ensures Runs(proxy, s')
    ensures if appName == "" then result.Failure? && s' == s
      else
        && result.Success? && Step(s, EditTable(Drop(address, appName)), s')
        && s'.workers == s.workers + [Worker(result.value, [], None)]
  {
    hide Exact, Inv;
    assert Valid(s.proxy) by { InvParts(s); }
    result := proxy.RemoveLocked(address, appName);
    s' := s;
    if result.Success? {
      s' := s.(proxy := proxy.State(), workers := s.workers + [Worker(result.value, [], None)]);
      StepKeepsInv(s, EditTable(Drop(address, appName)), s');
    }
  }

  lemma InvParts(s: System)
    requires Inv(s)
    ensures Valid(s.proxy) && Accounted(s) && forall worker <- s.workers :: worker.Shaped()
  {
  }

  method AddApp(proxy: StaticUeAppLcmProxy, ghost s: System, info: AppInfo) returns (added: bool, ghost s': System)
    requires Runs(proxy, s)
    modifies proxy.base
    ensures Runs(proxy, s') && Step(s, ChangeList(Add(info)), s')
  {
    hide Inv;
    added := proxy.base.AddApp(info);
    s' := s.(proxy := proxy.State());
    StepKeepsInv(s, ChangeList(Add(info)), s');
  }

  method DelApp(proxy: StaticUeAppLcmProxy, ghost s: System, info: AppInfo) returns (removed: bool, ghost s': System)
    requires Runs(proxy, s)
    modifies proxy.base
    ensures Runs(proxy, s') && Step(s, ChangeList(Del(info)), s')
  {
    hide Inv;
    removed := proxy.base.DelApp(info);
    s' := s.(proxy := proxy.State());
    StepKeepsInv(s, ChangeList(Del(info)), s');
  }

  /** A creation is a step if, as the code asserts, the context ID was never issued and the UE application ID is new. */
  method CreateContext(
    proxy: StaticUeAppLcmProxy, ghost s: System, clientAddress: string, request: AppContext, uuid: string)
    returns (reply: Result<AppContext, CreateError>, ghost s': System)
    requires Runs(proxy, s) && request.Valid()
    requires uuid !in s.issued && request.ueAppId !in s.proxy.ueIndex
    modifies proxy`contexts, proxy`ueIndex
    ensures Runs(proxy, s') && Step(s, ProxySystem.CreateContext(clientAddress, request, uuid), s')
  {
    hide Inv, Accepts, Create;
    assert Valid(s.proxy) && Accounted(s) by { InvParts(s); }
    var assertionsHeld;
    reply, assertionsHeld := proxy.CreateContext(clientAddress, request, uuid);
    s' := s.(
      proxy := proxy.State(),
      issued := s.issued + if Accepts(s.proxy, clientAddress, request, uuid) then {uuid} else {});
    StepKeepsInv(s, ProxySystem.CreateContext(clientAddress, request, uuid), s');
  }

  method UpdateContext(proxy: StaticUeAppLcmProxy, ghost s: System, request: AppContext)
    returns (updated: bool, ghost s': System)
    requires Runs(proxy, s)
    modifies proxy`contexts
    ensures Runs(proxy, s') && Step(s, ProxySystem.UpdateContext(request.ueAppId, request.callback), s')
  {
    hide Inv, Update;
    assert Valid(s.proxy) by { InvParts(s); }
    updated := proxy.UpdateContext(request);
    s' := s.(proxy := proxy.State());
    StepKeepsInv(s, ProxySystem.UpdateContext(request.ueAppId, request.callback), s');
  }

  method DeleteContext(proxy: StaticUeAppLcmProxy, ghost s: System, contextId: string)
    returns (deleted: bool, ghost s': System)
    requires Runs(proxy, s)
    modifies proxy`contexts, proxy`ueIndex
    ensures Runs(proxy, s') && Step(s, ProxySystem.DeleteContext(contextId), s')
    ensures s'.deleted == s.deleted + if deleted then {contextId} else {}
  {
    hide Inv, Without;
    assert Valid(s.proxy) by { InvParts(s); }
    deleted := proxy.DeleteContext(contextId);
    s' := s.(proxy := proxy.State(), deleted := s.deleted + {contextId} * s.proxy.contexts.Keys);
    StepKeepsInv(s, ProxySystem.DeleteContext(contextId), s');
  }

  // ---- A pass over a batch

  /** Steps in a row, from any state. */
  ghost predicate Path(states: seq<System>, events: seq<Event>) {
    |states| == |events| + 1 && forall k | 0 <= k < |events| :: Step(states[k], events[k], states[k + 1])
  }

  lemma JoinPaths(states: seq<System>, events: seq<Event>, states': seq<System>, events': seq<Event>)
    requires Path(states, events) && Path(states', events') && states[|events|] == states'[0]
    ensures Path(states[..|events|] + states', events + events')
  {
    hide Step;
    var all, more := states[..|events|] + states', events + events';
    forall k | 0 <= k < |more| ensures Step(all[k], more[k], all[k + 1]) {
      if k >= |events| {
        assert all[k] == states'[k - |events|] && all[k + 1] == states'[k + 1 - |events|];
      } else if k + 1 == |events| {
        assert all[k + 1] == states'[0];
      }
    }
  }

  /** A reply, and the purge if it is a bad one, take a worker one notification further. */
  lemma OneDelivery(s: System, i: nat, reply: PostResult) returns (states: seq<System>, events: seq<Event>)
    requires i < |s.workers| && s.workers[i].verdict.None? && |s.workers[i].replies| < |s.workers[i].batch|
    ensures Path(states, events) && states[0] == s
    ensures var s' := states[|events|]; var worker := s.workers[i];
      && |s'.workers| == |s.workers|
      && s'.workers[i] == Worker(worker.batch, worker.replies + [reply], None)
      && s'.proxy ==
        if reply == OtherStatus then Without(s.proxy, {worker.batch[|worker.replies|].contextId}) else s.proxy
  {
    hide Without;
    var worker := s.workers[i];
    var posted := s.(workers := s.workers[i := Posted(worker, reply)]);
    states, events := [s, posted], [Post(i, reply)];
    if reply == OtherStatus {
      var id := worker.batch[|worker.replies|].contextId;
      var purged := posted.(
        proxy := Without(s.proxy, {id}),
        workers := posted.workers[i := posted.workers[i].(verdict := None)],
        purged := if id in s.proxy.contexts then s.purged[id := i] else s.purged);
      assert Step(posted, Purge(i), purged);
      states, events := states + [purged], events + [Purge(i)];
    }
  }

  /** From some way through its batch, undisturbed, a worker purges those answered badly in the rest. */
  lemma {:induction false} RestOfPass(s: System, i: nat, post: Notification -> PostResult)
    returns (states: seq<System>, events: seq<Event>)
    requires i < |s.workers| && s.workers[i].verdict.None? && |s.workers[i].replies| <= |s.workers[i].batch|
    ensures Path(states, events) && states[0] == s
    ensures var s' := states[|events|]; var worker := s.workers[i];
      && s'.proxy == Without(s.proxy, BadlyAnswered(worker.batch[|worker.replies|..], post))
      && i < |s'.workers| && s'.workers[i].Work() == 0
    decreases |s.workers[i].batch| - |s.workers[i].replies|
  {
    hide Step, Without, BadlyAnswered;
    var worker := s.workers[i];
    var done := |worker.replies|;
    if done == |worker.batch| {
      states, events := [s], [];
      assert worker.batch[done..] == [];
      BadlyAnsweredNone(post);
      WithoutNone(s.proxy);
    } else {
      var n := worker.batch[done];
      var states1, events1 := OneDelivery(s, i, post(n));
      var s1 := states1[|events1|];
      var states2, events2 := RestOfPass(s1, i, post);
      JoinPaths(states1, events1, states2, events2);
      states, events := states1[..|events1|] + states2, events1 + events2;
      assert worker.batch[done..] == [n] + worker.batch[done + 1..];
      BadlyAnsweredFirst(n, worker.batch[done + 1..], post);
      assert s1.workers[i].batch[|s1.workers[i].replies|..] == worker.batch[done + 1..];
      assert {} + BadlyAnswered(worker.batch[done + 1..], post) == BadlyAnswered(worker.batch[done + 1..], post);
      if post(n) == OtherStatus {
        WithoutTwice(s.proxy, {n.contextId}, BadlyAnswered(worker.batch[done + 1..], post));
      }
    }
  }

  lemma BadlyAnsweredFirst(n: Notification, rest: seq<Notification>, post: Notification -> PostResult)
    ensures BadlyAnswered([n] + rest, post) ==
      (if post(n) == OtherStatus then {n.contextId} else {}) + BadlyAnswered(rest, post)
  {
  }

  /** A pass in which nothing else happens takes a worker from its first notification to the end of its work. */
  method NotifyClients(proxy: StaticUeAppLcmProxy, ghost s: System, ghost i: nat, notifications: seq<Notification>,
    post: Notification -> PostResult)
    returns (ghost states: seq<System>, ghost events: seq<Event>)
    requires Runs(proxy, s) && i < |s.workers| && s.workers[i] == Worker(notifications, [], None)
    modifies proxy`contexts, proxy`ueIndex
    ensures Path(states, events) && states[0] == s && states[|events|].proxy == proxy.State()
    ensures i < |states[|events|].workers| && states[|events|].workers[i].Work() == 0
  {
    hide Inv, Without, BadlyAnswered, Step, Path;
    assert Valid(s.proxy) by { InvParts(s); }
    var purged, assertionsHeld := proxy.NotifyClients(notifications, post);
    states, events := RestOfPass(s, i, post);
    assert notifications[0..] == notifications;
  }
}
