/**
 The methods of a manager, called in a state of a run of the closed system: creating a context is two steps if nothing
 else happens meanwhile, handling a notification is one, and the destructor is a step for each deletion request.
 */
module ManagerCalls {
  import opened Wrappers
  import opened RoutingTable
  import opened UeAppLcmProxyBase
  import opened ProxyModel
  import opened StaticProxy
  import opened ClientManager
  import opened ClosedSystem
  import opened ClientSafety
  import opened ClientPurges
  import Net = ProxySystem

  /** `manager` is one of the managers of the system. */
  ghost predicate IsManager(manager: AppContextManager, s: System)
    reads manager
  {
    manager.notificationUri in s.managers && s.managers[manager.notificationUri].contexts == manager.contexts
  }

  /** A new UE application ID is neither at the proxy nor at any manager. */
  lemma NewIdsAreNew(s: System, uri: string, ueAppId: string, uuid: string)
    requires Safe(s) && uri in s.managers
    requires uuid !in s.net.issued && forall id <- s.owner :: s.owner[id].ueAppId != ueAppId
    ensures ueAppId !in s.net.proxy.ueIndex && ueAppId !in s.managers[uri].contexts && uuid !in s.net.proxy.contexts
    ensures uuid !in s.inFlight && uuid !in s.owner
  {
    hide Addressed, LateAddressed, Net.WorkersShaped, Net.PurgesExact;
    forall id <- s.net.proxy.contexts
      ensures id in s.owner && s.net.proxy.contexts[id].ueAppId == s.owner[id].ueAppId
    {
      assert RecordedOne(s.net.proxy.contexts[id], s.owner[id], s.history[id]);
    }
    if ueAppId in s.managers[uri].contexts {
      OwnerOfEntry(s, uri, ueAppId);
    }
  }

  /** The proxy's half of an accepted creation, and then the manager's. */
  lemma CreationSteps(s: System, uri: string, clientAddress: string, appInfo: AppInfo, ueAppId: string, uuid: string)
    returns (s1: System, s2: System)
    requires Safe(s) && Running(s, uri) && appInfo.Valid() && IsSegment(ueAppId)
    requires uuid !in s.net.issued && forall id <- s.owner :: s.owner[id].ueAppId != ueAppId
    requires Accepts(s.net.proxy, clientAddress, RequestOf(uri, appInfo, ueAppId), uuid)
    ensures Step(s, CreateContext(uri, clientAddress, appInfo, ueAppId, uuid), s1) && Step(s1, StoreReply(uuid), s2)
    ensures s2.net.proxy == Create(s.net.proxy, clientAddress, RequestOf(uri, appInfo, ueAppId), uuid)
    ensures uri in s2.managers && s2.managers[uri].contexts == s.managers[uri].contexts[
      ueAppId := ClientDesc(Route(s.net.proxy.table, clientAddress, appInfo.appName), uuid)]
  {
    hide Safe, Route, CallbackFor;
    NewIdsAreNew(s, uri, ueAppId, uuid);
    var net := s.net.(
      proxy := Create(s.net.proxy, clientAddress, RequestOf(uri, appInfo, ueAppId), uuid),
      issued := s.net.issued + {uuid});
    var event := CreateContext(uri, clientAddress, appInfo, ueAppId, uuid);
    s1 := AtClients(s, event, net);
    assert Step(s, event, s1);
    s2 := AtClients(s1, StoreReply(uuid), s1.net);
  }

  method ContextCreate(manager: AppContextManager, proxy: StaticUeAppLcmProxy, ghost s: System,
    clientAddress: string, appInfo: AppInfo, ueAppId: string, uuid: string)
    returns (result: Result<(string, string), ClientError>, ghost s1: System, ghost s2: System)
    requires Safe(s) && s.net.proxy == proxy.State() && IsManager(manager, s) && Running(s, manager.notificationUri)
    requires appInfo.Valid() && IsSegment(ueAppId) && uuid != "" && uuid !in s.net.issued
    requires forall id <- s.owner :: s.owner[id].ueAppId != ueAppId
    modifies manager`contexts, proxy`contexts, proxy`ueIndex
    ensures result.Success? ==>
      && Step(s, CreateContext(manager.notificationUri, clientAddress, appInfo, ueAppId, uuid), s1)
      && Step(s1, StoreReply(uuid), s2)
    ensures result.Failure? ==> s1 == s2 == s
    ensures s2.net.proxy == proxy.State() && IsManager(manager, s2)
  {
    hide Safe, Step, Create;
    NetOfSafe(s);
    NetInvParts(s);
    NewIdsAreNew(s, manager.notificationUri, ueAppId, uuid);
    s1, s2 := s, s;
    ghost var before, known := proxy.State(), manager.contexts;
    result := manager.ContextCreate(proxy, clientAddress, appInfo, ueAppId, uuid);
    if result.Success? {
      RouteEmptyIffUnrouted(before.table, clientAddress, appInfo.appName);
      FindIsMostSpecific(before.table, clientAddress, appInfo.appName);
      s1, s2 := CreationSteps(s, manager.notificationUri, clientAddress, appInfo, ueAppId, uuid);
    }
  }

  /** A worker can post its next notification. */
  predicate ReadyToPost(s: System, i: nat) {
    CanPost(s, i) && s.net.workers[i].verdict.None?
  }

  /** The event takes the notification to a server. */
  predicate Carries(s: System, event: Event, n: Notification) {
    match event
    case Post(i, fate) => ReadyToPost(s, i) && Head(s, i) == n && (fate == Answered || fate == AnswerLost)
    case Arrive(notification) => notification == n && n in s.late
    case _ => false
  }

  /** A notification that gets to a manager, whether its answer gets back or not, or long after it was given up. */
  method HandleNotification(manager: AppContextManager, ghost s: System, ghost event: Event, n: Notification)
    returns (outcome: HandlerOutcome, ghost s': System)
    requires IsManager(manager, s) && Carries(s, event, n)
    requires n.callback[..PathStart(n.callback)] == manager.notificationUri
    modifies manager`contexts
    ensures Step(s, event, s') && IsManager(manager, s')
    ensures outcome.Updated? <==> Reaches(s.managers, n)
    ensures event.Arrive? ==> n in s'.late
    ensures event.Post? ==>
      var reply := if event.fate == AnswerLost then Exception else if outcome.Updated? then NoContent else OtherStatus;
      s'.net.workers[event.worker].replies == s.net.workers[event.worker].replies + [reply]
  {
    outcome := manager.HandleNotification(n.callback[PathStart(n.callback)..], Some(n.router));
    if event.Post? {
      s' := AnyFate(s, event.worker, event.fate);
    } else {
      s' := AtClients(s, event, s.net);
    }
  }

  // ---- What clients and network are free to do

  /** Whatever becomes of a notification, it can. */
  lemma AnyFate(s: System, i: nat, fate: Fate) returns (s': System)
    requires ReadyToPost(s, i)
    ensures Step(s, Post(i, fate), s')
    ensures s' == AtClients(s, Post(i, fate), s'.net) && (fate == Delayed ==> Head(s, i) in s'.late)
    ensures i < |s'.net.workers| && s'.net.workers[i].replies ==
      s.net.workers[i].replies + [ReplyTo(s.managers, Head(s, i), fate)]
  {
    hide Reaches;
    var worker := s.net.workers[i];
    var net := s.net.(workers := s.net.workers[i := Net.Posted(worker, ReplyTo(s.managers, Head(s, i), fate))]);
    s' := AtClients(s, Post(i, fate), net);
  }

  /** A manager that is not there can start, and any creation reply on its way can be lost. */
  lemma AnyStartAnyLoss(s: System, uri: string, id: string)
    ensures uri !in s.managers ==> exists s' :: Step(s, OpenManager(uri), s') && Running(s', uri)
    ensures id in s.inFlight ==> exists s' :: Step(s, LoseReply(id), s') && id !in s'.inFlight
  {
    if uri !in s.managers {
      var s' := AtClients(s, OpenManager(uri), s.net);
      assert Step(s, OpenManager(uri), s') && Running(s', uri);
    }
    if id in s.inFlight {
      var s' := AtClients(s, LoseReply(id), s.net);
      assert Step(s, LoseReply(id), s') && id !in s'.inFlight;
    }
  }

  // ---- The destructor

  ghost predicate Path(states: seq<System>, events: seq<Event>) {
    |states| == |events| + 1 && forall k | 0 <= k < |events| :: Step(states[k], events[k], states[k + 1])
  }

  /** One deletion request, arrived or not. */
  lemma OneRequest(s: System, uri: string, ueAppId: string, arrives: bool) returns (s': System)
    requires uri in s.managers && s.managers[uri].closing.Some?
    requires ueAppId in s.managers[uri].closing.value && ueAppId in s.managers[uri].contexts
    ensures Step(s, SendDelete(uri, ueAppId, arrives), s')
    ensures s'.managers == s.managers[uri :=
      s.managers[uri].(closing := Some(s.managers[uri].closing.value - {ueAppId}))]
    ensures s'.net.proxy ==
      if arrives then Without(s.net.proxy, {s.managers[uri].contexts[ueAppId].contextId}) else s.net.proxy
  {
    hide Without;
    var id := s.managers[uri].contexts[ueAppId].contextId;
    var net := if arrives then
        s.net.(proxy := Without(s.net.proxy, {id}), deleted := s.net.deleted + {id} * s.net.proxy.contexts.Keys)
      else s.net;
    s' := AtClients(s, SendDelete(uri, ueAppId, arrives), net);
  }

  lemma PrependStep(s: System, event: Event, states: seq<System>, events: seq<Event>)
    requires Path(states, events) && Step(s, event, states[0])
    ensures Path([s] + states, [event] + events)
  {
    hide Step;
    forall k | 0 <= k < |events| + 1
      ensures Step(([s] + states)[k], ([event] + events)[k], ([s] + states)[k + 1])
    {
      if k > 0 {
        assert Step(states[k - 1], events[k - 1], states[k]);
      }
    }
  }

  /** The rest of the requests of a manager that has begun to end. */
  lemma {:induction false} RestOfRequests(s: System, uri: string, arrives: string -> bool)
    returns (states: seq<System>, events: seq<Event>)
    requires uri in s.managers && s.managers[uri].closing.Some?
    requires s.managers[uri].closing.value <= s.managers[uri].contexts.Keys
    ensures Path(states, events) && states[0] == s
    ensures var s' := states[|events|]; var manager := s.managers[uri];
      && s'.managers == s.managers[uri := manager.(closing := Some({}))]
      && s'.net.proxy == Without(s.net.proxy,
           IdsOf(manager.contexts - (manager.contexts.Keys - manager.closing.value), arrives))
    decreases s.managers[uri].closing.value
  {
    hide Step, Without, IdsOf;
    var manager := s.managers[uri];
    var todo := manager.closing.value;
    if todo == {} {
      states, events := [s], [];
      assert manager.contexts - (manager.contexts.Keys - {}) == manager.contexts - manager.contexts.Keys;
      IdsOfNone(manager.contexts, arrives);
      WithoutNone(s.net.proxy);
    } else {
      var ueAppId :| ueAppId in todo;
      var s1 := OneRequest(s, uri, ueAppId, arrives(ueAppId));
      var states1, events1 := RestOfRequests(s1, uri, arrives);
      PrependStep(s, SendDelete(uri, ueAppId, arrives(ueAppId)), states1, events1);
      states, events := [s] + states1, [SendDelete(uri, ueAppId, arrives(ueAppId))] + events1;
      var rest := manager.contexts.Keys - (todo - {ueAppId});
      assert manager.contexts.Keys - todo == rest - {ueAppId};
      IdsOfStep(manager.contexts, rest, ueAppId, arrives);
      var own := if arrives(ueAppId) then {manager.contexts[ueAppId].contextId} else {};
      var others := IdsOf(manager.contexts - rest, arrives);
      assert own + others == others + own && {} + others == others;
      if arrives(ueAppId) {
        WithoutTwice(s.net.proxy, own, others);
      }
    }
  }

  lemma BeginStep(s: System, uri: string) returns (s': System)
    requires Enabled(s, BeginClose(uri))
    ensures Step(s, BeginClose(uri), s') && s'.net == s.net
    ensures uri in s'.managers && s'.managers[uri] == s.managers[uri].(closing := Some(s.managers[uri].contexts.Keys))
  {
    s' := AtClients(s, BeginClose(uri), s.net);
  }

  lemma EndStep(s: System, uri: string) returns (s': System)
    requires Enabled(s, EndClose(uri))
    ensures Step(s, EndClose(uri), s') && s'.net == s.net && uri !in s'.managers
  {
    s' := AtClients(s, EndClose(uri), s.net);
  }

  /** The destructor: the manager begins to end, sends its requests, and is gone. */
  method Destroy(manager: AppContextManager, proxy: StaticUeAppLcmProxy, ghost s: System, arrives: string -> bool)
    returns (ghost states: seq<System>, ghost events: seq<Event>, ghost s': System)
    requires Safe(s) && s.net.proxy == proxy.State() && IsManager(manager, s)
    requires Enabled(s, BeginClose(manager.notificationUri))
    modifies proxy`contexts, proxy`ueIndex
    ensures Path(states, events) && states[0] == s
    ensures Step(states[|events|], EndClose(manager.notificationUri), s')
    ensures s'.net.proxy == proxy.State() && manager.notificationUri !in s'.managers
  {
    hide Safe, Step, Without, IdsOf;
    NetOfSafe(s);
    NetInvParts(s);
    var uri := manager.notificationUri;
    manager.Destroy(proxy, arrives);
    ghost var s1 := BeginStep(s, uri);
    ghost var states1, events1 := RestOfRequests(s1, uri, arrives);
    PrependStep(s, BeginClose(uri), states1, events1);
    states, events := [s] + states1, [BeginClose(uri)] + events1;
    assert manager.contexts - (manager.contexts.Keys - manager.contexts.Keys) == manager.contexts;
    s' := EndStep(states[|events|], uri);
  }
}
