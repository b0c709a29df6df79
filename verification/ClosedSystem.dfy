/**
 The proxy together with its clients, all of which are context managers. Creating a context takes two steps,
 one at the proxy and one when the manager handles the reply; that reply can be lost. Notifications can be lost, can
 have their answers lost, and can arrive after the proxy has given them up, late, out of order and more than once.
 */
module ClosedSystem {
  import opened Wrappers
  import opened RoutingTable
  import opened UeAppLcmProxyBase
  import opened ProxyModel
  import opened StaticProxy
  import opened ClientManager
  import Net = ProxySystem

  /** Who asked for a context: a manager, by its notification URI, for one of its UE applications. */
  datatype Owner = Owner(uri: string, ueAppId: string) {
    function Callback(): string {
      CallbackFor(uri, ueAppId)
    }
  }

  /** `closing` are the UE applications whose contexts are yet to be deleted, once the manager has begun to end. */
  datatype Manager = Manager(contexts: ClientContexts, closing: Option<set<string>>)

  /**
   Besides the two programs: `owner` of each context ID ever issued; creation replies `inFlight`, with the
   end-point they carry; contexts `adrift`, whose creation reply was lost or whose manager has begun to end;
   the `history` of non-empty end-points assigned to each context; contexts whose last notification was `missed` by
   the manager; notifications that may still arrive `late`, the proxy having given them up.
   */
  datatype System = System(
    net: Net.System,
    managers: map<string, Manager>,
    owner: map<string, Owner>,
    inFlight: map<string, string>,
    adrift: set<string>,
    history: map<string, seq<string>>,
    missed: set<string>,
    late: set<Notification>)

  const START := System(Net.START, map[], map[], map[], {}, map[], {}, {})

  /** What becomes of a notification and of the answer to it. */
  datatype Fate = Skipped | Lost | Delayed | Answered | AnswerLost

  datatype Event =
    | OpenManager(uri: string)
    | EditTable(edit: Edit)
    | ChangeList(change: Change)
    | CreateContext(uri: string, clientAddress: string, appInfo: AppInfo, ueAppId: string, contextId: string)
    | StoreReply(contextId: string)
    | LoseReply(contextId: string)
    | Post(worker: nat, fate: Fate)
    | Arrive(notification: Notification)
    | Purge(worker: nat)
    | BeginClose(uri: string)
    | SendDelete(uri: string, ueAppId: string, arrives: bool)
    | EndClose(uri: string)

  // ---- Delivery of a notification

  /** Where the path of a callback begins: at its last slash. */
  function PathStart(callback: string): (start: nat)
    ensures start <= |callback|
  {
    var segment := AfterLastSlash(callback);
    if |segment| < |callback| then |callback| - |segment| - 1 else 0
  }

  /** Where a callback leads: the server before the path, and the application its handler makes of the path. */
  function Addressee(callback: string): Owner {
    var start := PathStart(callback);
    Owner(callback[..start], LastSegment(callback[start..]))
  }

  lemma {:induction false} AfterLastSlashLength(path: string)
    ensures |AfterLastSlash(path)| <= |path|
  {
    if path != "" && path[|path| - 1] != '/' {
      AfterLastSlashLength(path[..|path| - 1]);
    }
  }

  lemma AddresseeOfCallback(owner: Owner)
    requires IsSegment(owner.ueAppId)
    ensures Addressee(owner.Callback()) == owner
  {
    var callback := owner.Callback();
    AfterLastSlashOf(owner.uri + "/", owner.ueAppId);
    assert callback[..|owner.uri|] == owner.uri;
    assert callback[|owner.uri|..] == CallbackFor("", owner.ueAppId);
    CallbackNamesApplication("", owner.ueAppId);
  }

  /** The manager is there and has the application. */
  predicate Known(managers: map<string, Manager>, owner: Owner) {
    owner.uri in managers && owner.ueAppId in managers[owner.uri].contexts
  }

  /** A notification that arrives finds its application. */
  predicate Reaches(managers: map<string, Manager>, n: Notification) {
    Addressee(n.callback).ueAppId != "" && Known(managers, Addressee(n.callback))
  }

  predicate Received(managers: map<string, Manager>, n: Notification, fate: Fate) {
    (fate == Answered || fate == AnswerLost) && Reaches(managers, n)
  }

  function ReplyTo(managers: map<string, Manager>, n: Notification, fate: Fate): PostResult {
    match fate
    case Skipped => InvalidUri
    case Lost => Exception
    case Delayed => Exception
    case AnswerLost => Exception
    case Answered => if Received(managers, n, fate) then NoContent else OtherStatus
  }

  /** The answer that the proxy expects is given exactly by a server that is there and whose handler does its update. */
  lemma GoodAnswerIffUpdated(managers: map<string, Manager>, n: Notification)
    ensures ReplyTo(managers, n, Answered) == NoContent <==>
      var start := PathStart(n.callback); var server := n.callback[..start];
      server in managers && HandlerReply(managers[server].contexts, n.callback[start..], Some(n.router)).Updated?
  {
  }

  function Deliver(managers: map<string, Manager>, n: Notification): map<string, Manager>
    requires Known(managers, Addressee(n.callback))
  {
    var to := Addressee(n.callback);
    var manager := managers[to.uri];
    managers[to.uri := manager.(contexts := Overwrite(manager.contexts, to.ueAppId, n.router))]
  }

  // ---- Steps

  function Todo(worker: Net.Worker): seq<Notification> {
    if |worker.replies| <= |worker.batch| then worker.batch[|worker.replies|..] else []
  }

  /** The next notification of a worker. */
  function Head(s: System, i: nat): Notification
    requires i < |s.net.workers| && Todo(s.net.workers[i]) != []
  {
    Todo(s.net.workers[i])[0]
  }

  predicate CanPost(s: System, i: nat) {
    i < |s.net.workers| && Todo(s.net.workers[i]) != []
  }

  function RequestOf(uri: string, appInfo: AppInfo, ueAppId: string): AppContext {
    AppContext("", ueAppId, CallbackFor(uri, ueAppId), appInfo)
  }

  /** The notification that an event takes to a manager, whether or not it gets there. */
  function Carried(s: System, event: Event): Option<Notification> {
    match event
    case Post(i, fate) => if CanPost(s, i) then Some(Head(s, i)) else None
    case Arrive(n) => Some(n)
    case _ => None
  }

  predicate GetsThrough(s: System, event: Event) {
    match event
    case Post(i, fate) => CanPost(s, i) && Received(s.managers, Head(s, i), fate)
    case Arrive(n) => Reaches(s.managers, n)
    case _ => false
  }

  /** When an event can happen on the client side. UE application IDs are drawn at random, never twice the same. */
  ghost predicate Enabled(s: System, event: Event) {
    match event
    case OpenManager(uri) => uri !in s.managers
    case CreateContext(uri, clientAddress, appInfo, ueAppId, contextId) =>
      && uri in s.managers && s.managers[uri].closing.None?
      && appInfo.message.AppContextRequest? && IsSegment(ueAppId)
      && (forall id <- s.owner :: s.owner[id].ueAppId != ueAppId)
    case StoreReply(id) => id in s.inFlight && id in s.owner && s.owner[id].uri in s.managers
    case LoseReply(id) => id in s.inFlight
    case Post(i, fate) => CanPost(s, i)
    case Arrive(n) => n in s.late
    case BeginClose(uri) =>
      && uri in s.managers && s.managers[uri].closing.None?
      && (forall id <- s.inFlight :: id in s.owner ==> s.owner[id].uri != uri)
    case SendDelete(uri, ueAppId, arrives) =>
      && uri in s.managers && s.managers[uri].closing.Some?
      && ueAppId in s.managers[uri].closing.value && ueAppId in s.managers[uri].contexts
    case EndClose(uri) => uri in s.managers && s.managers[uri].closing == Some({})
    case _ => true
  }

  /** What an event is to the proxy. */
  function AtProxy(s: System, event: Event): Option<Net.Event>
    requires Enabled(s, event)
  {
    match event
    case EditTable(edit) => Some(Net.EditTable(edit))
    case ChangeList(change) => Some(Net.ChangeList(change))
    case CreateContext(uri, clientAddress, appInfo, ueAppId, contextId) =>
      Some(Net.CreateContext(clientAddress, RequestOf(uri, appInfo, ueAppId), contextId))
    case Post(i, fate) => Some(Net.Post(i, ReplyTo(s.managers, Head(s, i), fate)))
    case Purge(i) => Some(Net.Purge(i))
    case SendDelete(uri, ueAppId, arrives) =>
      if arrives then Some(Net.DeleteContext(s.managers[uri].contexts[ueAppId].contextId)) else None
    case _ => None
  }

  /** The end-points that an edit newly assigns are added to the histories. */
  function Extend(history: map<string, seq<string>>, before: Contexts, after: Contexts): map<string, seq<string>> {
    map id <- history ::
      if id in before && id in after && before[id].edgeRouter != after[id].edgeRouter && after[id].edgeRouter != ""
      then history[id] + [after[id].edgeRouter] else history[id]
  }

  function HandOver(s: System, n: Notification, received: bool): System
    requires received ==> Known(s.managers, Addressee(n.callback))
  {
    if received then
      s.(managers := Deliver(s.managers, n), missed := s.missed - {n.contextId})
    else
      s.(missed := s.missed + {n.contextId})
  }

  /** A notification changes no more than the end-point that its addressee holds. */
  lemma HandOverStep(s: System, n: Notification, received: bool)
    requires received ==> Known(s.managers, Addressee(n.callback))
    ensures var s' := HandOver(s, n, received);
      && s' == s.(managers := s'.managers, missed := s'.missed)
      && s'.managers.Keys == s.managers.Keys
      && forall uri <- s.managers :: ManagerAfter(s.managers[uri], n, uri, s'.managers[uri])
  {
    hide Addressee;
  }

  ghost predicate ManagerAfter(manager: Manager, n: Notification, uri: string, manager': Manager) {
    && manager'.closing == manager.closing
    && manager'.contexts.Keys == manager.contexts.Keys
    && forall ueAppId <- manager.contexts ::
      || manager'.contexts[ueAppId] == manager.contexts[ueAppId]
      || (Addressee(n.callback) == Owner(uri, ueAppId) &&
          manager'.contexts[ueAppId] == manager.contexts[ueAppId].(referenceUri := n.router))
  }

  /** What an event does on the client side, `net` being the proxy afterwards. */
  function AtClients(s: System, event: Event, net: Net.System): System
    requires Enabled(s, event)
  {
    match event
    case OpenManager(uri) => s.(managers := s.managers[uri := Manager(map[], None)])
    case EditTable(edit) => s.(net := net, history := Extend(s.history, s.net.proxy.contexts, net.proxy.contexts))
    case CreateContext(uri, clientAddress, appInfo, ueAppId, id) =>
      if id in net.proxy.contexts && id !in s.net.proxy.contexts then
        var router := net.proxy.contexts[id].edgeRouter;
        s.(net := net, owner := s.owner[id := Owner(uri, ueAppId)],
           inFlight := s.inFlight[id := router], history := s.history[id := [router]])
      else s.(net := net)
    case StoreReply(id) =>
      var o := s.owner[id];
      var manager := s.managers[o.uri];
      var contexts := manager.contexts[o.ueAppId := ClientDesc(s.inFlight[id], id)];
      s.(managers := s.managers[o.uri := manager.(contexts := contexts)], inFlight := s.inFlight - {id})
    case LoseReply(id) => s.(inFlight := s.inFlight - {id}, adrift := s.adrift + {id})
    case Post(i, fate) =>
      var n := Head(s, i);
      var posted := s.(net := net, late := if fate == Delayed then s.late + {n} else s.late);
      HandOver(posted, n, Received(s.managers, n, fate))
    case Arrive(n) => HandOver(s, n, Reaches(s.managers, n))
    case BeginClose(uri) =>
      var manager := s.managers[uri];
      s.(managers := s.managers[uri := manager.(closing := Some(manager.contexts.Keys))],
         adrift := s.adrift + set ueAppId <- manager.contexts :: manager.contexts[ueAppId].contextId)
    case SendDelete(uri, ueAppId, arrives) =>
      var manager := s.managers[uri];
      s.(net := net, managers := s.managers[uri := manager.(closing := Some(manager.closing.value - {ueAppId}))])
    case EndClose(uri) => s.(managers := s.managers - {uri})
    case _ => s.(net := net)
  }

  ghost predicate Step(s: System, event: Event, s': System) {
    && Enabled(s, event)
    && (match AtProxy(s, event)
        case None => s'.net == s.net
        case Some(e) => Net.Step(s.net, e, s'.net))
    && s' == AtClients(s, event, s'.net)
  }

  ghost predicate Run(states: seq<System>, events: seq<Event>) {
    && |states| == |events| + 1 && states[0] == START
    && forall k | 0 <= k < |events| :: Step(states[k], events[k], states[k + 1])
  }

  function Last<T>(s: seq<T>): T
    requires s != []
  {
    s[|s| - 1]
  }
}
