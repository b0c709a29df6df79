/**
 Proxy and manager come to hold the same end-point for a context, as long as the notifications about that context
 are posted in the order of the edits that caused them. Without that, they do exactly if the last one the manager
 was sent was the last one assigned.
 */
module ClientAgreement {
  import opened Wrappers
  import opened RoutingTable
  import opened ProxyModel
  import opened ClientManager
  import opened ClosedSystem
  import opened ClientSafety
  import opened ClientPurges
  import Net = ProxySystem

  /**
   A worker posts a notification about the context only if no worker of an earlier edit has one left, and none that
   was given up arrives.
   */
  ghost predicate InOrder(s: System, event: Event, id: string) {
    match event
    case Post(i, fate) => CanPost(s, i) && Head(s, i).contextId == id ==> Pending(s.net.workers[..i], id) == []
    case Arrive(n) => n.contextId != id
    case _ => true
  }

  // ---- Notifications still to be posted

  /** The end-points that a list of notifications has for a context. */
  function Routers(notifications: seq<Notification>, id: string): seq<string> {
    if notifications == [] then []
    else
      (if notifications[0].contextId == id then [notifications[0].router] else []) + Routers(notifications[1..], id)
  }

  /** The end-points yet to be notified for a context, those of earlier edits first. */
  function Pending(workers: seq<Net.Worker>, id: string): seq<string> {
    if workers == [] then []
    else Pending(workers[..|workers| - 1], id) + Routers(Todo(workers[|workers| - 1]), id)
  }

  lemma {:induction false} RoutersNone(notifications: seq<Notification>, id: string)
    requires forall n <- notifications :: n.contextId != id
    ensures Routers(notifications, id) == []
  {
    if notifications != [] {
      assert notifications[0] in notifications;
      assert forall n <- notifications[1..] :: n in notifications;
      RoutersNone(notifications[1..], id);
    }
  }

  lemma {:induction false} RoutersOne(notifications: seq<Notification>, n: Notification)
    requires Distinct(notifications) && n in notifications
    ensures Routers(notifications, n.contextId) == [n.router]
  {
    if notifications[0] == n {
      forall other <- notifications[1..] ensures other.contextId != n.contextId {
        var j :| 0 <= j < |notifications[1..]| && notifications[1..][j] == other;
        assert notifications[j + 1] == other;
      }
      RoutersNone(notifications[1..], n.contextId);
    } else {
      var j :| 0 <= j < |notifications| && notifications[j] == n;
      assert notifications[0].contextId != n.contextId;
      assert notifications[1..][j - 1] == n;
      RoutersOne(notifications[1..], n);
    }
  }

  /** An edit leaves one notification for a context it moves to a new end-point, none for any other. */
  lemma RoutersOfExact(before: Contexts, after: Contexts, notifications: seq<Notification>, id: string)
    requires before.Keys == after.Keys && Exact(before, after, notifications)
    ensures Routers(notifications, id) ==
      if id in after && before[id].edgeRouter != after[id].edgeRouter && after[id].edgeRouter != ""
      then [after[id].edgeRouter] else []
  {
    if id in after && before[id].edgeRouter != after[id].edgeRouter && after[id].edgeRouter != "" {
      RoutersOne(notifications, Notification(after[id].callback, after[id].edgeRouter, id));
    } else {
      RoutersNone(notifications, id);
    }
  }

  lemma PendingAppend(workers: seq<Net.Worker>, worker: Net.Worker, id: string)
    ensures Pending(workers + [worker], id) == Pending(workers, id) + Routers(Todo(worker), id)
  {
  }

  lemma {:induction false} PendingSame(workers: seq<Net.Worker>, workers': seq<Net.Worker>, id: string)
    requires |workers| == |workers'|
    requires forall i | 0 <= i < |workers| :: Routers(Todo(workers[i]), id) == Routers(Todo(workers'[i]), id)
    ensures Pending(workers, id) == Pending(workers', id)
  {
    if workers != [] {
      PendingSame(workers[..|workers| - 1], workers'[..|workers| - 1], id);
    }
  }

  lemma {:induction false} PendingNone(workers: seq<Net.Worker>, id: string)
    requires forall worker <- workers, n <- worker.batch :: n.contextId != id
    ensures Pending(workers, id) == []
  {
    if workers != [] {
      var last := workers[|workers| - 1];
      assert forall n <- Todo(last) :: n in last.batch;
      RoutersNone(Todo(last), id);
      PendingNone(workers[..|workers| - 1], id);
    }
  }

  /** Posting the only notification a worker has for a context takes the first end-point off the pending ones. */
  lemma {:induction false} PendingHead(workers: seq<Net.Worker>, i: nat, worker': Net.Worker, id: string,
    router: string)
    requires i < |workers| && Pending(workers[..i], id) == []
    requires Routers(Todo(workers[i]), id) == [router] && Routers(Todo(worker'), id) == []
    ensures Pending(workers, id) == [router] + Pending(workers[i := worker'], id)
    decreases |workers|
  {
    hide Todo, Routers;
    var n := |workers| - 1;
    var updated := workers[i := worker'];
    var last := Routers(Todo(workers[n]), id);
    if i == n {
      assert updated[..n] == workers[..n];
      assert Pending(updated, id) == [];
      assert Pending(workers, id) == [router];
    } else {
      assert workers[..n][..i] == workers[..i];
      assert updated[..n] == workers[..n][i := worker'];
      PendingHead(workers[..n], i, worker', id, router);
      var rest := Pending(updated[..n], id);
      assert Pending(workers, id) == ([router] + rest) + last;
      assert Pending(updated, id) == rest + last;
    }
  }

  // ---- Invariant

  /** What the manager of a context has, or is about to have, for it. */
  ghost predicate Holds(s: System, id: string, router: string) {
    && (id in s.inFlight ==> s.inFlight[id] == router)
    && (Attended(s, id) ==> s.managers[s.owner[id].uri].contexts[s.owner[id].ueAppId].referenceUri == router)
  }

  /**
   The last end-point assigned to a context is the last one pending or, with none pending, the one its manager holds.
   */
  ghost predicate Agrees(s: System, id: string)
    requires id in s.history
  {
    var pending := Pending(s.net.workers, id);
    s.history[id] != [] &&
    if pending != [] then Last(pending) == Last(s.history[id])
    else id !in s.missed ==> Holds(s, id, Last(s.history[id]))
  }

  // ---- Each event keeps the invariant

  /** Nothing is written about a context but by its own creation reply or a notification about it. */
  lemma HoldsStep(s: System, event: Event, s': System, id: string, router: string)
    requires Safe(s) && Tidy(s) && Step(s, event, s') && id in s.owner && Holds(s, id, router)
    requires Carried(s, event).Some? ==> Carried(s, event).value.contextId != id
    requires !event.CreateContext? || event.contextId != id
    ensures Holds(s', id, router)
  {
    hide Net.Step, AtClients, AtProxy, Addressee, Net.Inv, Recorded, Genuine, RepliesGenuine;
    hide EntriesPlaced, AllAttended, Grows, LateAddressed;
    StepGrows(s, event, s');
    KnownStep(s, event, s', id);
    AttendedOrigin(s, event, s', id);
    if id in s'.inFlight {
      ReplyStep(s, event, s', id);
    }
    if Attended(s', id) {
      var o := s.owner[id];
      assert o == Owner(o.uri, o.ueAppId);
      EntryStep(s, event, s', o.uri, o.ueAppId);
      if event.StoreReply? && event.contextId in s.owner {
        assert s.owner[event.contextId] == o ==> event.contextId == id;
      }
      if Carried(s, event).Some? {
        CarriedIsAddressed(s, event);
      }
    }
  }

  lemma AttendedOrigin(s: System, event: Event, s': System, id: string)
    requires Step(s, event, s') && id in s.owner && id in s'.owner && s.owner[id] == s'.owner[id]
    requires Known(s'.managers, s.owner[id]) ==> Known(s.managers, s.owner[id]) || event == StoreReply(id)
    ensures Attended(s', id) ==> Attended(s, id) || event == StoreReply(id)
  {
    hide Step;
    ManagerStep(s, event, s', s.owner[id].uri);
    if event == OpenManager(s.owner[id].uri) {
      OpenedKnowsNothing(s, event, s');
    }
  }

  lemma OpenedKnowsNothing(s: System, event: Event, s': System)
    requires Step(s, event, s') && event.OpenManager?
    ensures event.uri in s'.managers && s'.managers[event.uri].contexts == map[]
  {
    hide Net.Step;
  }

  lemma TodoStep(s: System, event: Event, s': System, i: nat)
    requires Step(s, event, s') && !event.CreateContext? && !event.EditTable? && i < |s.net.workers|
    ensures s'.net.workers != [] && i < |s'.net.workers|
    ensures event.Post? ==> CanPost(s, event.worker)
    ensures Todo(s'.net.workers[i]) ==
      if event.Post? && event.worker == i then Todo(s.net.workers[i])[1..] else Todo(s.net.workers[i])
  {
    hide AtClients, ReplyTo;
  }

  lemma MissedStep(s: System, event: Event, s': System)
    requires Step(s, event, s')
    ensures s'.missed == match Carried(s, event)
      case None => s.missed
      case Some(n) => if GetsThrough(s, event) then s.missed - {n.contextId} else s.missed + {n.contextId}
  {
    hide Net.Step, Extend, Reaches, Addressee, AtProxy;
  }

  lemma EditKeepsAgrees(s: System, event: Event, s': System, id: string)
    requires Safe(s) && Tidy(s) && Step(s, event, s') && event.EditTable?
    requires id in s.history && id in s.owner && id in s'.history && Agrees(s, id)
    ensures Agrees(s', id)
  {
    hide Step, Safe, Tidy, Exact, Extend, Pending, Routers, Todo, Holds;
    EditStep(s, event, s');
    var added := s'.net.workers[|s.net.workers|];
    assert s'.net.workers == s.net.workers + [added];
    ExtendedHistory(s.history, s.net.proxy.contexts, s'.net.proxy.contexts, id);
    PendingAppend(s.net.workers, added, id);
    TodoOfNew(added);
    RoutersOfExact(s.net.proxy.contexts, s'.net.proxy.contexts, added.batch, id);
    if id !in s.missed && Holds(s, id, Last(s.history[id])) {
      HoldsStep(s, event, s', id, Last(s.history[id]));
    }
  }

  lemma TodoOfNew(worker: Net.Worker)
    requires worker.replies == []
    ensures Todo(worker) == worker.batch
  {
  }

  lemma CreateKeepsAgrees(s: System, event: Event, s': System, id: string)
    requires Safe(s) && Tidy(s) && Step(s, event, s') && event.CreateContext? && id in s'.history
    requires id in s.history ==> id in s.owner && Agrees(s, id)
    ensures Agrees(s', id)
  {
    hide Step, Owned, Addressed, Genuine, RepliesGenuine, Net.Inv, Valid, Net.Accounted, Net.PurgesExact, Tidy, Pending;
    NetInvParts(s);
    var added := CreateStep(s, event, s');
    CreatedIsUnknown(s, event, s');
    if id == event.contextId && added.Some? {
      assert forall worker <- s.net.workers, n <- worker.batch :: n.contextId in s.net.issued by {
        BatchesIssued(s.net);
      }
      PendingNone(s.net.workers, id);
      NetOfSafe(s);
    } else if id !in s.missed && Holds(s, id, Last(s.history[id])) {
      HoldsStep(s, event, s', id, Last(s.history[id]));
    }
  }

  lemma BatchesIssued(net: Net.System)
    requires Net.Inv(net)
    ensures forall worker <- net.workers, n <- worker.batch :: n.contextId in net.issued
  {
    hide Valid, Net.Accounted, Net.PurgesExact;
  }

  /** A notification about another context. */
  lemma CarryKeepsOthersAgree(s: System, event: Event, s': System, id: string)
    requires Safe(s) && Tidy(s) && Step(s, event, s') && Carried(s, event).Some?
    requires id in s.history && id in s.owner && id in s'.history && s'.history[id] == s.history[id] && Agrees(s, id)
    requires Carried(s, event).value.contextId != id
    ensures Agrees(s', id)
  {
    hide Step, Safe, Tidy, Todo, Holds, Pending, CanPost, GetsThrough;
    MissedStep(s, event, s');
    PendingOfOthers(s, event, s', id);
    if id !in s.missed && Holds(s, id, Last(s.history[id])) {
      HoldsStep(s, event, s', id, Last(s.history[id]));
    }
  }

  lemma PendingOfOthers(s: System, event: Event, s': System, id: string)
    requires Step(s, event, s') && !event.CreateContext? && !event.EditTable?
    requires event.Post? && CanPost(s, event.worker) ==> Head(s, event.worker).contextId != id
    ensures Pending(s'.net.workers, id) == Pending(s.net.workers, id)
  {
    hide Step, Todo;
    OtherStep(s, event, s');
    forall i | 0 <= i < |s.net.workers|
      ensures Routers(Todo(s.net.workers[i]), id) == Routers(Todo(s'.net.workers[i]), id)
    {
      TodoStep(s, event, s', i);
    }
    PendingSame(s.net.workers, s'.net.workers, id);
  }

  /** A post takes the first pending end-point of its context away. */
  lemma PostOnPending(s: System, event: Event, s': System)
    requires Net.Inv(s.net) && Step(s, event, s') && event.Post? && CanPost(s, event.worker)
    requires InOrder(s, event, Head(s, event.worker).contextId)
    ensures var n := Head(s, event.worker);
      Pending(s.net.workers, n.contextId) == [n.router] + Pending(s'.net.workers, n.contextId)
  {
    hide Step, Net.Inv, Routers, Pending;
    var i, n := event.worker, Head(s, event.worker);
    OtherStep(s, event, s');
    DistinctTodo(s.net, i);
    RoutersOne(Todo(s.net.workers[i]), n);
    TodoStep(s, event, s', i);
    forall other <- Todo(s'.net.workers[i]) ensures other.contextId != n.contextId {
      var k :| 0 <= k < |Todo(s'.net.workers[i])| && Todo(s'.net.workers[i])[k] == other;
      assert other == Todo(s.net.workers[i])[k + 1];
    }
    RoutersNone(Todo(s'.net.workers[i]), n.contextId);
    PendingHead(s.net.workers, i, s'.net.workers[i], n.contextId, n.router);
    forall j | 0 <= j < |s.net.workers|
      ensures Todo(s.net.workers[i := s'.net.workers[i]][j]) == Todo(s'.net.workers[j])
    {
      TodoStep(s, event, s', j);
    }
    PendingSame(s.net.workers[i := s'.net.workers[i]], s'.net.workers, n.contextId);
  }

  lemma DistinctTodo(net: Net.System, i: nat)
    requires Net.Inv(net) && i < |net.workers|
    ensures Distinct(Todo(net.workers[i]))
  {
    hide Valid, Net.Accounted, Net.PurgesExact;
  }

  /** A manager that has received a notification holds the end-point in it. */
  lemma ReceivedIsHeld(s: System, event: Event, s': System)
    requires Safe(s) && RepliesAwaited(s) && Step(s, event, s') && Carried(s, event).Some? && GetsThrough(s, event)
    ensures var n := Carried(s, event).value; n.contextId in s'.owner && Holds(s', n.contextId, n.router)
  {
    hide Net.Step, AtProxy, Net.Inv, Owned, Recorded, Addressed, LateAddressed, Genuine, RepliesGenuine, Addressee;
    CarriedIsAddressed(s, event);
  }

  /** A post about the context itself. */
  lemma PostKeepsAgrees(s: System, event: Event, s': System)
    requires Safe(s) && Tidy(s) && Step(s, event, s') && event.Post? && CanPost(s, event.worker)
    requires InOrder(s, event, Head(s, event.worker).contextId)
    requires var id := Head(s, event.worker).contextId;
      id in s.history && id in s'.history && s'.history[id] == s.history[id] && Agrees(s, id)
    ensures Agrees(s', Head(s, event.worker).contextId)
  {
    hide Step, Safe, Todo, Pending, GetsThrough, Holds, RepliesAwaited, EntriesPlaced, AllAttended;
    var n := Head(s, event.worker);
    NetOfSafe(s);
    PostOnPending(s, event, s');
    MissedStep(s, event, s');
    var rest := Pending(s'.net.workers, n.contextId);
    if rest != [] {
      assert Last([n.router] + rest) == Last(rest);
    } else if GetsThrough(s, event) {
      ReceivedIsHeld(s, event, s');
    }
  }

  lemma OthersKeepAgrees(s: System, event: Event, s': System, id: string)
    requires Safe(s) && Tidy(s) && Step(s, event, s') && Carried(s, event).None?
    requires !event.EditTable? && !event.CreateContext?
    requires id in s.history && id in s.owner && id in s'.history && s'.history[id] == s.history[id] && Agrees(s, id)
    ensures Agrees(s', id)
  {
    hide Step, Safe, Tidy, Todo, Holds, Pending, CanPost;
    MissedStep(s, event, s');
    PendingOfOthers(s, event, s', id);
    if id !in s.missed && Holds(s, id, Last(s.history[id])) {
      HoldsStep(s, event, s', id, Last(s.history[id]));
    }
  }

  lemma StepKeepsAgrees(s: System, event: Event, s': System, id: string)
    requires Safe(s) && Tidy(s) && Step(s, event, s') && InOrder(s, event, id)
    requires id in s'.history && (id in s.history ==> Agrees(s, id))
    ensures Agrees(s', id)
  {
    hide Net.Step, AtClients, AtProxy, Enabled, Safe, Tidy, Agrees, Exact, Extend, Pending, Todo;
    NetOfSafe(s);
    if event.CreateContext? {
      CreateKeepsAgrees(s, event, s', id);
    } else if event.EditTable? {
      EditStep(s, event, s');
      ExtendKeys(s.history, s.net.proxy.contexts, s'.net.proxy.contexts);
      EditKeepsAgrees(s, event, s', id);
    } else {
      OtherStep(s, event, s');
      if Carried(s, event).None? {
        OthersKeepAgrees(s, event, s', id);
      } else if Carried(s, event).value.contextId != id {
        CarryKeepsOthersAgree(s, event, s', id);
      } else {
        PostKeepsAgrees(s, event, s');
      }
    }
  }

  // ---- What holds at every moment of the runs whose notifications about a context are posted in order

  ghost predicate Orderly(states: seq<System>, events: seq<Event>, id: string) {
    Run(states, events) && forall k | 0 <= k < |events| :: InOrder(states[k], events[k], id)
  }

  lemma {:induction false} RunKeepsAgrees(states: seq<System>, events: seq<Event>, k: nat, id: string)
    requires Orderly(states, events, id) && k < |states|
    ensures Safe(states[k]) && Tidy(states[k]) && (id in states[k].history ==> Agrees(states[k], id))
  {
    hide Step, Safe, Tidy, InOrder, Agrees;
    RunKeepsTidy(states, events, k);
    if k > 0 {
      RunKeepsAgrees(states, events, k - 1, id);
      if id in states[k].history {
        StepKeepsAgrees(states[k - 1], events[k - 1], states[k], id);
      }
    }
  }

  /**
   Applying the pending notifications of a context, in order, to what its manager holds gives the last end-point
   assigned to it, unless the manager missed the last one posted and none is pending.
   */
  lemma PendingLeadsToLastAssigned(states: seq<System>, events: seq<Event>, k: nat, id: string)
    requires Orderly(states, events, id) && k < |states| && Attended(states[k], id)
    ensures var s := states[k];
      var entry := s.managers[s.owner[id].uri].contexts[s.owner[id].ueAppId];
      && id in s.history && s.history[id] != []
      && (id !in s.missed || Pending(s.net.workers, id) != [] ==>
            Last([entry.referenceUri] + Pending(s.net.workers, id)) == Last(s.history[id]))
  {
    hide Step, Safe, Tidy, Orderly, Pending;
    RunKeepsAgrees(states, events, k, id);
    NetOfSafe(states[k]);
    var s := states[k];
    assert Agrees(s, id);
    var pending := Pending(s.net.workers, id);
    var held := s.managers[s.owner[id].uri].contexts[s.owner[id].ueAppId].referenceUri;
    if pending != [] {
      assert Last([held] + pending) == Last(pending);
    }
  }

  /** Nothing is on its way to the manager of the context, and the manager has received what it was last sent. */
  predicate Settled(s: System, id: string) {
    id in s.net.proxy.contexts && id !in s.inFlight && id !in s.adrift && id !in s.missed
  }

  /** The manager holds for the context, under its ID, what the table in force says. */
  predicate FollowsTable(s: System, id: string)
    requires id in s.net.proxy.contexts
  {
    var desc := s.net.proxy.contexts[id];
    Attended(s, id) &&
    s.managers[s.owner[id].uri].contexts[s.owner[id].ueAppId] ==
      ClientDesc(Route(s.net.proxy.table, desc.clientAddress, desc.appName), id)
  }

  /**
   With nothing pending and the last notification received, the manager of an active context holds what the table
   in force says for it, if the table says anything.
   */
  lemma ManagersFollowTable(states: seq<System>, events: seq<Event>, k: nat, id: string)
    requires Orderly(states, events, id) && k < |states|
    requires Settled(states[k], id) && Pending(states[k].net.workers, id) == []
    ensures !Orphan(states[k].net.proxy.contexts[id]) ==> FollowsTable(states[k], id)
  {
    hide Step, Safe, Tidy, InOrder, Pending, Attended, Route;
    RunKeepsAgrees(states, events, k, id);
    LastOfHistoryIsRoute(states[k], id);
    ContextsAreKnown(states, events, k);
  }

  lemma LastOfHistoryIsRoute(s: System, id: string)
    requires Safe(s) && id in s.net.proxy.contexts
    ensures id in s.net.issued && id in s.history && s.history[id] != []
    ensures var desc := s.net.proxy.contexts[id];
      desc.edgeRouter == Route(s.net.proxy.table, desc.clientAddress, desc.appName) &&
      (desc.edgeRouter != "" ==> Last(s.history[id]) == desc.edgeRouter)
  {
    hide Net.Accounted, Net.WorkersShaped, Net.PurgesExact, Owned, Addressed, LateAddressed, Genuine, RepliesGenuine;
    hide Inverse, NamesPresent, WellFormed;
    assert RecordedOne(s.net.proxy.contexts[id], s.owner[id], s.history[id]);
  }

  // ---- What managers hold in any run

  /** The end-point that an event sends to the manager of the context: by a notification, or by the creation reply. */
  function Sent(s: System, event: Event, s': System, id: string): Option<string> {
    var carried := Carried(s, event);
    if carried.Some? && carried.value.contextId == id then Some(carried.value.router)
    else if event.CreateContext? && event.contextId == id && id in s'.inFlight then Some(s'.inFlight[id])
    else None
  }

  /** What the manager of a context was last sent in the first `k` events. */
  ghost function LastSent(states: seq<System>, events: seq<Event>, k: nat, id: string): string
    requires k <= |events| < |states|
  {
    if k == 0 then ""
    else match Sent(states[k - 1], events[k - 1], states[k], id)
      case Some(router) => router
      case None => LastSent(states, events, k - 1, id)
  }

  /** Whatever the order, a manager holds what it was last sent, unless it missed that. */
  lemma {:induction false} LastSentIsHeld(states: seq<System>, events: seq<Event>, k: nat, id: string)
    requires Run(states, events) && k < |states| && id in states[k].owner && id !in states[k].missed
    ensures Holds(states[k], id, LastSent(states, events, k, id))
    decreases k
  {
    hide Step, Safe, Tidy, Holds, Sent, Carried;
    if k > 0 {
      var s, event, s' := states[k - 1], events[k - 1], states[k];
      RunKeepsTidy(states, events, k - 1);
      if Sent(s, event, s', id).Some? {
        SentIsHeld(s, event, s', id);
      } else {
        NothingSent(s, event, s', id);
        LastSentIsHeld(states, events, k - 1, id);
        HoldsStep(s, event, s', id, LastSent(states, events, k - 1, id));
      }
    }
  }

  lemma NothingSent(s: System, event: Event, s': System, id: string)
    requires Safe(s) && Step(s, event, s')
    requires id in s'.owner && id !in s'.missed && Sent(s, event, s', id).None?
    ensures id in s.owner && id !in s.missed
    ensures Carried(s, event).Some? ==> Carried(s, event).value.contextId != id
    ensures !event.CreateContext? || event.contextId != id
  {
    hide Step, Safe;
    MissedStep(s, event, s');
    OwnerStep(s, event, s');
    if event.CreateContext? {
      NetOfSafe(s);
      CreatedIsUnknown(s, event, s');
    }
  }

  lemma SentIsHeld(s: System, event: Event, s': System, id: string)
    requires Safe(s) && Tidy(s) && Step(s, event, s') && Sent(s, event, s', id).Some? && id !in s'.missed
    ensures Holds(s', id, Sent(s, event, s', id).value)
  {
    hide Step, Safe, RepliesAwaited, EntriesPlaced, AllAttended, GetsThrough;
    if Carried(s, event).Some? {
      MissedStep(s, event, s');
      ReceivedIsHeld(s, event, s');
    } else {
      NetOfSafe(s);
      CreatedIsUnknown(s, event, s');
    }
  }

  /**
   A manager that has received what it was last sent holds what the table in force says exactly if that was the last
   end-point assigned to the context.
   */
  lemma FollowsTableIffLastSentIsLastAssigned(states: seq<System>, events: seq<Event>, k: nat, id: string)
    requires Run(states, events) && k < |states| && Settled(states[k], id) && !Orphan(states[k].net.proxy.contexts[id])
    ensures id in states[k].history && states[k].history[id] != []
    ensures FollowsTable(states[k], id) <==> LastSent(states, events, k, id) == Last(states[k].history[id])
  {
    hide Step, Safe, Tidy, Attended, Route, LastSent;
    RunKeepsTidy(states, events, k);
    NetOfSafe(states[k]);
    LastOfHistoryIsRoute(states[k], id);
    ContextsAreKnown(states, events, k);
    LastSentIsHeld(states, events, k, id);
  }
}
