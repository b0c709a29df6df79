/**
 The proxy in operation: requests of any kind from any client, interleaved with threads that post the
 notifications of earlier edits. Every critical section is one step; between posting a notification and acting
 on its reply anything may happen. One thing is asked of the clients, as the code asserts it of them: none reuses
 the UE application ID of an active context.
 */
module ProxySystem {
  import opened Wrappers
  import opened RoutingTable
  import opened UeAppLcmProxyBase
  import opened ProxyModel
  import opened StaticProxy

  /** A thread inside `notifyClients`. `verdict` is the context it has yet to purge because of the last reply. */
  datatype Worker = Worker(batch: seq<Notification>, replies: seq<PostResult>, verdict: Option<string>) {
    ghost predicate Shaped() {
      |replies| <= |batch| && Distinct(batch) && (verdict.Some? ==> BadAt(|replies| - 1, verdict.value))
    }

    /** Reply number `k` was not the expected one, and it concerned context `id`. */
    predicate BadAt(k: int, id: string) {
      0 <= k < |replies| && k < |batch| && replies[k] == OtherStatus && batch[k].contextId == id
    }

    /** A bad reply about the context has been received and acted upon. */
    ghost predicate Judged(id: string) {
      verdict != Some(id) && exists k :: BadAt(k, id)
    }

    /** How many more steps the thread will take at most. */
    function Work(): int {
      2 * (|batch| - |replies|) + if verdict.Some? then 1 else 0
    }
  }

  /**
   `issued` are all context IDs ever given out, `deleted` those removed at a client's request, and `purged` maps
   the others removed to the worker that did it.
   */
  datatype System = System(
    proxy: ProxyState,
    workers: seq<Worker>,
    issued: set<string>,
    deleted: set<string>,
    purged: map<string, nat>)

  const START := System(EMPTY, [], {}, {}, map[])

  datatype Event =
    | EditTable(edit: Edit)
    | ChangeList(change: Change)
    | CreateContext(clientAddress: string, request: AppContext, contextId: string)
    | UpdateContext(ueAppId: string, callback: string)
    | DeleteContext(contextId: string)
    | Post(worker: nat, reply: PostResult)
    | Purge(worker: nat)

  /** The identifiers of a creation are new. */
  ghost predicate Fresh(s: System, clientAddress: string, request: AppContext, contextId: string) {
    && contextId !in s.issued
    && (Accepts(s.proxy, clientAddress, request, contextId) ==> request.ueAppId !in s.proxy.ueIndex)
  }

  /** The requests that the proxy turns down at once change nothing and are not listed. */
  ghost predicate Step(s: System, event: Event, s': System) {
    match event
    case EditTable(edit) =>
      && edit.Allowed()
      && |s'.workers| == |s.workers| + 1
      && var added := s'.workers[|s.workers|];
      && added == Worker(added.batch, [], None)
      && s' == s.(proxy := Perform(s.proxy, edit), workers := s.workers + [added])
      && Exact(s.proxy.contexts, s'.proxy.contexts, added.batch)
    case ChangeList(change) =>
      s' == s.(proxy := ChangeApplications(s.proxy, change))
    case CreateContext(clientAddress, request, contextId) =>
      && request.Valid() && Fresh(s, clientAddress, request, contextId)
      && s' == s.(
        proxy := Create(s.proxy, clientAddress, request, contextId),
        issued := s.issued + if Accepts(s.proxy, clientAddress, request, contextId) then {contextId} else {})
    case UpdateContext(ueAppId, callback) =>
      s' == s.(proxy := Update(s.proxy, ueAppId, callback))
    case DeleteContext(contextId) =>
      s' == s.(proxy := Without(s.proxy, {contextId}), deleted := s.deleted + {contextId} * s.proxy.contexts.Keys)
    case Post(i, reply) =>
      && i < |s.workers| && var worker := s.workers[i];
      && worker.verdict.None? && |worker.replies| < |worker.batch|
      && s' == s.(workers := s.workers[i := Posted(worker, reply)])
    case Purge(i) =>
      && i < |s.workers| && s.workers[i].verdict.Some? && var id := s.workers[i].verdict.value;
      && s' == s.(
        proxy := Without(s.proxy, {id}),
        workers := s.workers[i := s.workers[i].(verdict := None)],
        purged := if id in s.proxy.contexts then s.purged[id := i] else s.purged)
  }

  function Posted(worker: Worker, reply: PostResult): Worker
    requires |worker.replies| < |worker.batch|
  {
    worker.(
      replies := worker.replies + [reply],
      verdict := if reply == OtherStatus then Some(worker.batch[|worker.replies|].contextId) else None)
  }

  ghost predicate Run(states: seq<System>, events: seq<Event>) {
    && |states| == |events| + 1 && states[0] == START
    && forall k | 0 <= k < |events| :: Step(states[k], events[k], states[k + 1])
  }

  // ---- Invariants

  /** Every context ID ever issued is either active, or deleted, or purged, and only one of the three. */
  ghost predicate Accounted(s: System) {
    && s.issued == s.proxy.contexts.Keys + s.deleted + s.purged.Keys
    && s.proxy.contexts.Keys !! s.deleted !! s.purged.Keys
  }

  ghost predicate WorkersShaped(s: System) {
    && (forall worker <- s.workers :: worker.Shaped())
    && (forall worker <- s.workers, n <- worker.batch :: n.contextId in s.issued && n.contextId != "" && n.router != "")
  }

  /** Bad replies have been acted upon, and nothing has been purged but for a bad reply. */
  ghost predicate PurgesExact(s: System) {
    && (forall i, id | 0 <= i < |s.workers| && s.workers[i].Judged(id) :: id !in s.proxy.contexts)
    && (forall id <- s.purged :: s.purged[id] < |s.workers| && s.workers[s.purged[id]].Judged(id))
  }

  ghost predicate Inv(s: System) {
    Valid(s.proxy) && Accounted(s) && WorkersShaped(s) && PurgesExact(s)
  }

  // ---- Each step keeps the invariants

  lemma StepKeepsValid(s: System, event: Event, s': System)
    requires Valid(s.proxy) && Accounted(s) && Step(s, event, s')
    ensures Valid(s'.proxy)
  {
    match event
    case EditTable(edit) =>
      EditsKeepValid(s.proxy, edit.address, edit.appName, if edit.Enter? then edit.edgeRouter else "unused");
    case CreateContext(clientAddress, request, contextId) =>
      CreateKeepsValid(s.proxy, clientAddress, request, contextId);
    case UpdateContext(ueAppId, callback) =>
      UpdateKeepsValid(s.proxy, ueAppId, callback);
    case DeleteContext(contextId) =>
      WithoutKeepsValid(s.proxy, {contextId});
    case Purge(i) =>
      WithoutKeepsValid(s.proxy, {s.workers[i].verdict.value});
    case _ =>
  }

  /** What a step does to the set of active contexts. */
  lemma StepOnContexts(s: System, event: Event, s': System)
    requires Step(s, event, s')
    ensures s'.proxy.contexts.Keys == match event
      case CreateContext(clientAddress, request, contextId) =>
        s.proxy.contexts.Keys + if Accepts(s.proxy, clientAddress, request, contextId) then {contextId} else {}
      case DeleteContext(contextId) => s.proxy.contexts.Keys - {contextId}
      case Purge(i) => s.proxy.contexts.Keys - {s.workers[i].verdict.value}
      case _ => s.proxy.contexts.Keys
  {
  }

  lemma StepKeepsAccounted(s: System, event: Event, s': System)
    requires Accounted(s) && Step(s, event, s')
    ensures Accounted(s')
  {
    StepOnContexts(s, event, s');
  }

  lemma StepKeepsWorkersShaped(s: System, event: Event, s': System)
    requires Inv(s) && Accounted(s') && Valid(s'.proxy) && Step(s, event, s')
    ensures WorkersShaped(s')
  {
    StepOnContexts(s, event, s');
    forall worker <- s'.workers
      ensures worker.Shaped() && forall n <- worker.batch ::
        n.contextId in s'.issued && n.contextId != "" && n.router != ""
    {
      if worker !in s.workers {
        match event
        case EditTable(edit) =>
        case Post(i, reply) => assert s.workers[i] in s.workers;
        case Purge(i) => assert s.workers[i] in s.workers;
      }
    }
  }

  lemma PostedJudgesTheSame(worker: Worker, reply: PostResult, id: string)
    requires worker.Shaped() && worker.verdict.None? && |worker.replies| < |worker.batch|
    ensures Posted(worker, reply).Judged(id) <==> worker.Judged(id)
  {
    var posted := Posted(worker, reply);
    if worker.Judged(id) {
      var k :| worker.BadAt(k, id);
      assert posted.BadAt(k, id);
      assert worker.batch[k].contextId != worker.batch[|worker.replies|].contextId;
    }
    if posted.Judged(id) {
      var k :| posted.BadAt(k, id);
      assert worker.BadAt(k, id);
    }
  }

  lemma PurgeJudgesOneMore(worker: Worker, id: string)
    requires worker.Shaped() && worker.verdict.Some?
    ensures worker.(verdict := None).Judged(id) <==> worker.Judged(id) || id == worker.verdict.value
  {
    var judged := worker.(verdict := None);
    if worker.Judged(id) {
      var k :| worker.BadAt(k, id);
      assert judged.BadAt(k, id);
    }
    if judged.Judged(id) {
      var k :| judged.BadAt(k, id);
      assert worker.BadAt(k, id);
    }
    assert judged.BadAt(|worker.replies| - 1, worker.verdict.value);
  }

  /** What a step does to the judgements of a worker. */
  lemma StepOnJudgements(s: System, event: Event, s': System, i: nat, id: string)
    requires WorkersShaped(s) && Step(s, event, s') && i < |s'.workers|
    ensures |s.workers| <= |s'.workers|
    ensures s'.workers[i].Judged(id) <==>
      i < |s.workers| && (s.workers[i].Judged(id) || (event == Purge(i) && s.workers[i].verdict == Some(id)))
  {
    if i < |s.workers| {
      assert s.workers[i] in s.workers;
      match event
      case Post(j, reply) =>
        if i == j {
          PostedJudgesTheSame(s.workers[i], reply, id);
        }
      case Purge(j) =>
        if i == j {
          PurgeJudgesOneMore(s.workers[i], id);
        }
      case _ =>
    }
  }

  /** A judged context does not come back: its identifier has been issued. */
  lemma JudgedWasIssued(s: System, i: nat, id: string)
    requires WorkersShaped(s) && i < |s.workers| && s.workers[i].Judged(id)
    ensures id in s.issued
  {
  }

  /** What a step does to the record of purges, and that a new context has a new identifier. */
  lemma StepOnPurged(s: System, event: Event, s': System)
    requires Step(s, event, s')
    ensures |s.workers| <= |s'.workers|
    ensures event.CreateContext? ==> event.contextId !in s.issued
    ensures forall id <- s'.purged ::
      || (id in s.purged && s'.purged[id] == s.purged[id])
      || (event == Purge(s'.purged[id]) && s'.purged[id] < |s.workers| && s.workers[s'.purged[id]].verdict == Some(id))
  {
    hide Perform, Create, Update, Without, Exact;
  }

  lemma JudgedStaysGone(s: System, event: Event, s': System, i: nat, id: string)
    requires Inv(s) && Step(s, event, s') && i < |s'.workers| && s'.workers[i].Judged(id)
    ensures id !in s'.proxy.contexts
  {
    hide Valid, WorkersShaped, Worker.Judged, Perform, Create, Update, Exact;
    StepOnContexts(s, event, s');
    StepOnPurged(s, event, s');
    StepOnJudgements(s, event, s', i, id);
    if i < |s.workers| && s.workers[i].Judged(id) {
      JudgedWasIssued(s, i, id);
    }
  }

  lemma StepKeepsPurgesExact(s: System, event: Event, s': System)
    requires Inv(s) && Step(s, event, s')
    ensures PurgesExact(s')
  {
    hide Valid, Accounted, WorkersShaped, Step, Worker.Judged;
    StepOnPurged(s, event, s');
    forall i, id | 0 <= i < |s'.workers| && s'.workers[i].Judged(id)
      ensures id !in s'.proxy.contexts
    {
      JudgedStaysGone(s, event, s', i, id);
    }
    forall id <- s'.purged
      ensures s'.purged[id] < |s'.workers| && s'.workers[s'.purged[id]].Judged(id)
    {
      StepOnJudgements(s, event, s', s'.purged[id], id);
    }
  }

  lemma StepKeepsInv(s: System, event: Event, s': System)
    requires Inv(s) && Step(s, event, s')
    ensures Inv(s')
  {
    StepKeepsValid(s, event, s');
    StepKeepsAccounted(s, event, s');
    StepKeepsWorkersShaped(s, event, s');
    StepKeepsPurgesExact(s, event, s');
  }

  lemma {:induction false} RunKeepsInv(states: seq<System>, events: seq<Event>, k: nat)
    requires Run(states, events) && k < |states|
    ensures Inv(states[k])
  {
    if k > 0 {
      RunKeepsInv(states, events, k - 1);
      StepKeepsInv(states[k - 1], events[k - 1], states[k]);
    }
  }

  // ---- What holds at every moment of every run

  /** Every context is assigned to the most specific entry of the table in force, and to none only if none applies. */
  lemma ContextsFollowTable(states: seq<System>, events: seq<Event>, k: nat, id: string)
    requires Run(states, events) && k < |states| && id in states[k].proxy.contexts
    ensures var table := states[k].proxy.table; var desc := states[k].proxy.contexts[id];
      && desc.edgeRouter == Route(table, desc.clientAddress, desc.appName)
      && (desc.edgeRouter == "" <==> forall key <- table :: !Matches(key, desc.clientAddress, desc.appName))
  {
    RunKeepsInv(states, events, k);
    var table, desc := states[k].proxy.table, states[k].proxy.contexts[id];
    RouteEmptyIffUnrouted(table, desc.clientAddress, desc.appName);
    FindIsMostSpecific(table, desc.clientAddress, desc.appName);
  }

  /**
   At any moment, the assertion in the loop of an association would hold for all contexts, or not be reached, exactly
   if the association serves all the orphans of its application or is there already.
   */
  lemma AssertionHoldsWhenOrphansServed(
    states: seq<System>, events: seq<Event>, k: nat, address: string, appName: string, edgeRouter: string)
    requires Run(states, events) && k < |states| && EditAllowed(appName, edgeRouter)
    ensures var proxy := states[k].proxy; var repeated := Repeated(proxy.table, address, appName, edgeRouter);
      repeated || AllRouted(proxy.table[AddressAppKey(address, appName) := edgeRouter], proxy.contexts, appName) <==>
        repeated || ServesAllOrphans(proxy.contexts, address, appName)
  {
    RunKeepsInv(states, events, k);
    AssertionHoldsIff(states[k].proxy, address, appName, edgeRouter);
  }

  /** Every notification to be posted names an end-point and a context, which was issued. */
  lemma NotificationsComplete(states: seq<System>, events: seq<Event>, k: nat)
    requires Run(states, events) && k < |states|
    ensures forall worker <- states[k].workers, n <- worker.batch ::
      n.router != "" && n.contextId != "" && n.contextId in states[k].issued
  {
    hide Step;
    RunKeepsInv(states, events, k);
  }

  // ---- When all notifications have a callback

  ghost predicate AllBatchesComplete(s: System) {
    forall worker <- s.workers :: AllComplete(worker.batch)
  }

  lemma StepOnBatches(s: System, event: Event, s': System)
    requires Valid(s.proxy) && Step(s, event, s')
    ensures AllBatchesComplete(s') <==>
      AllBatchesComplete(s) && (event.EditTable? ==> MovedHaveCallbacks(s.proxy, event.edit))
  {
    hide Valid, Exact, AllComplete, MovedHaveCallbacks, Perform, Create, Update, Without;
    if event.EditTable? {
      var added := s'.workers[|s.workers|];
      CompleteIffMovedHaveCallbacks(s.proxy, event.edit, added.batch);
    } else {
      assert forall i | 0 <= i < |s.workers| :: s'.workers[i].batch == s.workers[i].batch;
    }
  }

  /**
   All assertions on the notifications of a run hold exactly if each edit, at its time, moved only contexts that had
   a callback.
   */
  lemma {:induction false} NotificationsCompleteIff(states: seq<System>, events: seq<Event>, k: nat)
    requires Run(states, events) && k < |states|
    ensures AllBatchesComplete(states[k]) <==>
      forall j | 0 <= j < k && events[j].EditTable? :: MovedHaveCallbacks(states[j].proxy, events[j].edit)
  {
    hide Step, AllComplete, MovedHaveCallbacks, Valid, Accounted, WorkersShaped, PurgesExact;
    if k > 0 {
      hide AllBatchesComplete;
      NotificationsCompleteIff(states, events, k - 1);
      RunKeepsInv(states, events, k - 1);
      StepOnBatches(states[k - 1], events[k - 1], states[k]);
    }
  }

  predicate GivesCallback(event: Event) {
    match event
    case CreateContext(clientAddress, request, contextId) => request.callback != ""
    case UpdateContext(ueAppId, callback) => callback != ""
    case _ => true
  }

  ghost predicate AllHaveCallbacks(contexts: Contexts) {
    forall id <- contexts :: contexts[id].callback != ""
  }

  lemma StepKeepsCallbacks(s: System, event: Event, s': System)
    requires AllHaveCallbacks(s.proxy.contexts) && GivesCallback(event) && Step(s, event, s')
    ensures AllHaveCallbacks(s'.proxy.contexts)
  {
    hide Exact, Accepts;
  }

  lemma {:induction false} CallbacksStay(states: seq<System>, events: seq<Event>, k: nat)
    requires Run(states, events) && k < |states| && forall j | 0 <= j < k :: GivesCallback(events[j])
    ensures AllHaveCallbacks(states[k].proxy.contexts)
  {
    hide Step, GivesCallback;
    if k > 0 {
      hide AllHaveCallbacks;
      CallbacksStay(states, events, k - 1);
      StepKeepsCallbacks(states[k - 1], events[k - 1], states[k]);
    }
  }

  /** If all creations and all updates so far gave a callback, all notifications have one. */
  lemma CallbacksReachNotifications(states: seq<System>, events: seq<Event>, k: nat)
    requires Run(states, events) && k < |states| && forall j | 0 <= j < k :: GivesCallback(events[j])
    ensures forall worker <- states[k].workers :: AllComplete(worker.batch)
  {
    hide Step, AllComplete;
    NotificationsCompleteIff(states, events, k);
    forall j | 0 <= j < k && events[j].EditTable? ensures MovedHaveCallbacks(states[j].proxy, events[j].edit) {
      CallbacksStay(states, events, j);
    }
  }

  // ---- Who gets a context

  /** The changes of the list of applications among the events. */
  function ListChanges(events: seq<Event>): seq<Change> {
    if events == [] then []
    else
      var last := events[|events| - 1];
      ListChanges(events[..|events| - 1]) + if last.ChangeList? then [last.change] else []
  }

  lemma ApplicationsStep(s: System, event: Event, s': System)
    requires Step(s, event, s')
    ensures s'.proxy.applications ==
      if event.ChangeList? then Apply(s.proxy.applications, event.change) else s.proxy.applications
  {
    hide Exact, Accepts, Apply;
  }

  lemma {:induction false} ListFollowsChanges(states: seq<System>, events: seq<Event>, k: nat)
    requires Run(states, events) && k < |states|
    ensures states[k].proxy.applications == After(ListChanges(events[..k]))
  {
    hide Step, Apply;
    if k > 0 {
      hide After, ListChanges;
      ListFollowsChanges(states, events, k - 1);
      ApplicationsStep(states[k - 1], events[k - 1], states[k]);
      OneMoreListChange(events[..k - 1], events[k - 1]);
      assert events[..k] == events[..k - 1] + [events[k - 1]];
    }
  }

  lemma OneMoreListChange(events: seq<Event>, event: Event)
    ensures After(ListChanges(events + [event])) ==
      if event.ChangeList? then Apply(After(ListChanges(events)), event.change) else After(ListChanges(events))
  {
    hide Apply;
    var changes := ListChanges(events);
    assert (events + [event])[..|events|] == events;
    if event.ChangeList? {
      assert (changes + [event.change])[..|changes|] == changes;
    } else {
      assert changes + [] == changes;
    }
  }

  /** The last change that names the application, if any does, adds it. */
  ghost predicate IsListed(changes: seq<Change>, id: AppId) {
    exists i :: IsLastNaming(changes, i, id) && changes[i].Add?
  }

  lemma {:induction false} LastNaming(changes: seq<Change>, id: AppId) returns (i: int)
    ensures i == -1 || IsLastNaming(changes, i, id)
    ensures i == -1 ==> forall change <- changes :: Identity(change.info) != id
  {
    i := |changes| - 1;
    while i >= 0 && Identity(changes[i].info) != id
      invariant -1 <= i < |changes|
      invariant forall j | i < j < |changes| :: Identity(changes[j].info) != id
    {
      i := i - 1;
    }
  }

  lemma ListedIffLastAdds(changes: seq<Change>, ids: set<AppId>, id: AppId)
    requires Distinguished(ids) && Over(changes, ids) && id in ids
    ensures Join(id) in After(changes) <==> IsListed(changes, id)
  {
    hide Join;
    var i := LastNaming(changes, id);
    if i == -1 {
      NeverNamedIsAbsent(changes, ids, id);
    } else {
      LastChangeDecides(changes, ids, i, id);
      assert forall j | IsLastNaming(changes, j, id) :: j == i;
    }
  }

  /** What an accepted creation takes, and that nothing else issues a context ID. */
  lemma IssuedStep(s: System, event: Event, s': System, id: string)
    requires WellFormed(s.proxy.table) && Step(s, event, s') && id !in s.issued
    ensures id in s'.issued <==>
      && event.CreateContext? && event.contextId == id && id != "" && event.request.contextId == ""
      && event.request.appInfo.message.AppContextRequest? && Mangle(event.request.appInfo) in s.proxy.applications
      && exists key <- s.proxy.table :: Matches(key, event.clientAddress, event.request.appInfo.appName)
  {
    hide Exact, Perform, Without, Update, Mangle;
    if event.CreateContext? {
      FindIsMostSpecific(s.proxy.table, event.clientAddress, event.request.appInfo.appName);
      RouteEmptyIffUnrouted(s.proxy.table, event.clientAddress, event.request.appInfo.appName);
    }
  }

  /**
   Over applications that their joined texts tell apart, a context is issued exactly upon a request, sent as one, for
   an application that the last change naming it added, and for which the table has an entry for the client. None is
   issued after the application has been removed.
   */
  lemma IssuedIffListedAndRouted(states: seq<System>, events: seq<Event>, k: nat, ids: set<AppId>, id: string)
    requires Run(states, events) && k < |events| && id !in states[k].issued
    requires Distinguished(ids) && Over(ListChanges(events[..k]), ids)
    requires events[k].CreateContext? ==> Identity(events[k].request.appInfo) in ids
    ensures var event := events[k];
      id in states[k + 1].issued <==>
        && event.CreateContext? && event.contextId == id && id != "" && event.request.contextId == ""
        && event.request.appInfo.message.AppContextRequest?
        && IsListed(ListChanges(events[..k]), Identity(event.request.appInfo))
        && exists key <- states[k].proxy.table :: Matches(key, event.clientAddress, event.request.appInfo.appName)
  {
    hide Step, Coherent, Inverse, NamesPresent, Accounted, WorkersShaped, PurgesExact, Join, IsListed;
    RunKeepsInv(states, events, k);
    ListFollowsChanges(states, events, k);
    IssuedStep(states[k], events[k], states[k + 1], id);
    if events[k].CreateContext? {
      ListedIffLastAdds(ListChanges(events[..k]), ids, Identity(events[k].request.appInfo));
    }
  }

  /** What is known of an application is what the last change that names it said. */
  lemma RecordsFollowChanges(states: seq<System>, events: seq<Event>, k: nat, ids: set<AppId>, i: nat, id: AppId)
    requires Run(states, events) && k < |states| && id in ids
    requires Distinguished(ids) && Over(ListChanges(events[..k]), ids) && IsLastNaming(ListChanges(events[..k]), i, id)
    ensures var change := ListChanges(events[..k])[i]; var applications := states[k].proxy.applications;
      if change.Add? then Join(id) in applications && applications[Join(id)] == change.info
      else Join(id) !in applications
  {
    hide Step, Join;
    ListFollowsChanges(states, events, k);
    LastChangeDecides(ListChanges(events[..k]), ids, i, id);
  }

  /** The two indices of the contexts are inverse to each other, hence of the same size. */
  lemma IndicesStayInverse(states: seq<System>, events: seq<Event>, k: nat)
    requires Run(states, events) && k < |states|
    ensures Inverse(states[k].proxy.contexts, states[k].proxy.ueIndex)
    ensures |states[k].proxy.contexts| == |states[k].proxy.ueIndex|
  {
    RunKeepsInv(states, events, k);
    InverseSameSize(states[k].proxy.contexts, states[k].proxy.ueIndex);
  }

  /** Contexts are conserved: active ones are those issued, less those deleted, less those purged. */
  lemma ContextsConserved(states: seq<System>, events: seq<Event>, k: nat)
    requires Run(states, events) && k < |states|
    ensures var s := states[k];
      && s.proxy.contexts.Keys == s.issued - s.deleted - s.purged.Keys
      && |s.proxy.contexts| == |s.issued| - |s.deleted| - |s.purged|
  {
    RunKeepsInv(states, events, k);
    PartitionSizes(states[k].proxy.contexts.Keys, states[k].deleted, states[k].purged.Keys);
  }

  lemma PartitionSizes(live: set<string>, deleted: set<string>, purged: set<string>)
    requires live !! deleted !! purged
    ensures live + deleted + purged - deleted - purged == live
    ensures |live + deleted + purged| == |live| + |deleted| + |purged|
  {
  }

  /**
   Whatever happens between its deliveries, a worker purges exactly the contexts it got a bad reply about, except
   those that a client or another worker removed before it could.
   */
  lemma WorkerPurgesExactly(states: seq<System>, events: seq<Event>, k: nat, i: nat)
    requires Run(states, events) && k < |states| && i < |states[k].workers|
    ensures var s := states[k];
      forall id ::
        (id in s.purged && s.purged[id] == i) <==>
        s.workers[i].Judged(id) && id !in s.deleted && !(id in s.purged && s.purged[id] != i)
  {
    RunKeepsInv(states, events, k);
    var s := states[k];
    forall id | s.workers[i].Judged(id) ensures id in s.deleted || id in s.purged {
      JudgedWasIssued(s, i, id);
    }
  }

  // ---- A pass over a batch of notifications ends

  function StepsOf(events: seq<Event>, i: nat): nat {
    if events == [] then 0
    else
      var last := events[|events| - 1];
      StepsOf(events[..|events| - 1], i) + if (last.Post? || last.Purge?) && last.worker == i then 1 else 0
  }

  lemma StepOnWork(s: System, event: Event, s': System, i: nat)
    requires WorkersShaped(s) && Step(s, event, s') && i < |s.workers|
    ensures i < |s'.workers| && s'.workers[i].batch == s.workers[i].batch
    ensures s'.workers[i].Work() ==
      s.workers[i].Work() - if (event.Post? && event.worker == i && event.reply != OtherStatus) then 2
                            else if (event.Post? || event.Purge?) && event.worker == i then 1 else 0
  {
  }

  lemma NewWorkerIsIdle(s: System, event: Event, s': System, i: nat)
    requires Step(s, event, s') && |s.workers| <= i < |s'.workers|
    ensures event.EditTable? && s'.workers[i].Work() == 2 * |s'.workers[i].batch|
  {
  }

  /** A worker posts and purges at most twice per notification of its batch. */
  lemma {:induction false} PassesEnd(states: seq<System>, events: seq<Event>, i: nat)
    requires Run(states, events) && i < |states[|events|].workers|
    ensures var worker := states[|events|].workers[i];
      && worker.Work() >= 0
      && StepsOf(events, i) + worker.Work() <= 2 * |worker.batch|
    decreases |events|
  {
    hide Step, Valid, Accounted, PurgesExact, Distinct;
    var n := |events|;
    RunKeepsInv(states, events, n);
    assert states[n].workers[i] in states[n].workers;
    if n > 0 {
      var states0, events0 := states[..n], events[..n - 1];
      assert Run(states0, events0);
      RunKeepsInv(states0, events0, n - 1);
      if i < |states[n - 1].workers| {
        PassesEnd(states0, events0, i);
        StepOnWork(states[n - 1], events[n - 1], states[n], i);
      } else {
        NoStepsBeforeStart(states0, events0, i);
        NewWorkerIsIdle(states[n - 1], events[n - 1], states[n], i);
      }
    }
  }

  /** A worker with work left can take a step of its own: purge if the last reply was bad, else post. */
  lemma WorkerCanGoOn(s: System, i: nat, reply: PostResult) returns (event: Event, s': System)
    requires WorkersShaped(s) && i < |s.workers| && s.workers[i].Work() > 0
    ensures Step(s, event, s') && event == if s.workers[i].verdict.Some? then Purge(i) else Post(i, reply)
  {
    var worker := s.workers[i];
    if worker.verdict.Some? {
      event := Purge(i);
      s' := s.(
        proxy := Without(s.proxy, {worker.verdict.value}),
        workers := s.workers[i := worker.(verdict := None)],
        purged := if worker.verdict.value in s.proxy.contexts then s.purged[worker.verdict.value := i] else s.purged);
    } else {
      event := Post(i, reply);
      s' := s.(workers := s.workers[i := Posted(worker, reply)]);
    }
  }

  lemma {:induction false} NoStepsBeforeStart(states: seq<System>, events: seq<Event>, i: nat)
    requires Run(states, events) && i >= |states[|events|].workers|
    ensures StepsOf(events, i) == 0
    decreases |events|
  {
    var n := |events|;
    if n > 0 {
      assert Run(states[..n], events[..n - 1]);
      assert |states[n - 1].workers| <= |states[n].workers| by {
        assert Step(states[n - 1], events[n - 1], states[n]);
      }
      NoStepsBeforeStart(states[..n], events[..n - 1], i);
    }
  }
}
