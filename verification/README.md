# A Dafny model of the UE application LCM proxy and its clients

The subject is an ETSI MEC user application life cycle management proxy (ETSI GS MEC 016 v1.1.1: data model in
clause 6, API definition in clause 7) and the context manager its clients use.

The proxy keeps a table from a pair of edge client address and application name to the end-point of an edge router,
where the empty address is a wildcard, and it keeps the active application contexts under two indices. Each context
caches the end-point it was last assigned. An edit of the table patches these caches in one critical section, and
posts the notifications it has collected once the mutex is free; a bad reply purges the context. Each manager keeps
its own copy of the end-point and overwrites it when a notification arrives. The questions answered here are what
always holds at the proxy, and when proxy and managers agree.

`dafny verify dfyconfig.toml` checks the whole project.

## Files

- `Wrappers.dfy`, `Texts.dfy`: results of calls; texts cut at a separator.
- `RoutingTable.dfy`: the table and most-specific lookup.
- `UeAppLcmProxy.dfy`: the list of applications and the joined keys that identify them.
- `ProxyModel.dfy`: the state of the proxy, its invariants, and each operation said outright: an edit assigns every
  context afresh.
- `StaticUeAppLcmProxy.dfy`: the proxy as a class, with the loops of the code, proved against `ProxyModel`.
- `AppContextManager.dfy`: the manager as a class, and how a callback leads back to an application.
- `ProxySystem.dfy`: all runs of the proxy with any clients and any number of threads posting notifications.
- `ClosedSystem.dfy`: all runs of the proxy with managers as its clients; then what holds in them. `ClientSafety.dfy`:
  what managers hold is genuine. `ClientPurges.dfy`: which contexts are purged. `ClientTeardown.dfy`: which contexts go
  when a manager ends. `ClientAgreement.dfy`: when a manager holds what the table says.
- `Calls.dfy`, `ManagerCalls.dfy`: every call that the methods of the two classes accept is a step of the runs, or a few
  in a row, so the runs leave nothing out.
- `Counterexamples.dfy`: runs in which assertions of the code fail, or in which a condition of the theorems does.
- `Locking.dfy`: the mutexes of both programs, what they guard, and the order in which the handlers take them.
- `ConfigText.dfy`: the configuration file, the printed table, and their round trip.
- `Action.dfy`: the comparison of OpenWhisk action lists by the text form of their keys.

## How the code is represented

- Critical sections are atomic steps. `AssociateLocked` and `RemoveLocked` are the critical sections of
  `associateAddress` and `removeAddress`; `AssociateAddress` and `RemoveAddress` add the posting of the notifications
  for the case in which nothing else happens meanwhile. In `ProxySystem` anything may happen between two deliveries,
  and also between a reply and the purge it causes.
- That critical sections of one mutex do not overlap, and that what they use is used nowhere else, is proved in
  `Locking`, where taking mutexes, using a shared structure and calling are the actions of a handler. The one exception is
  the destructor of a manager, which goes through its contexts without the mutex (EtsiMec/appcontextmanager.cpp:58-65):
  it conflicts with a creation of the same manager that is not over, and with nothing else (`ConflictOnlyAtEnd`,
  `EndCanMeetCreation`). In `ClosedSystem` a manager begins to end only when none of its creations is under way.
- Iteration over an unordered map takes the elements in any order. An iterator into the context map is represented by
  the context ID it points to.
- Random identifiers, replies to posts, and whether a message arrives are parameters of the operations or choices of
  the runs. That a context ID is new is an assumption of the runs, as it is in the code
  (EtsiMec/staticueapplcmproxy.cpp:211-226); that a UE application ID is new likewise. The class method
  `CreateContext` assumes neither and says what happens.
- Runtime assertions that can fail do not stop the model. The method says in `assertionsHeld` whether all of them did
  hold, and goes on as the comments of the code intend: the assertion in the loop of `associateAddress`
  (EtsiMec/staticueapplcmproxy.cpp:80) is followed by an access that is only defined if it holds, and the model
  skips such a context. `AssertionHoldsIff` says exactly when it holds, `AssertionCanFail` gives a run in which it
  does not.
- The managers' system assumes nothing about what the network does to notifications: they can be lost, have their
  answers lost, be answered before the manager has stored the creation reply (EtsiMec/appcontextmanager.cpp:86-104), or
  arrive after their sender gave them up, at any time and more than once (the event `Arrive`). Creation replies can be
  lost, and so can deletion requests. What is not a run is a creation or deletion request that reaches the proxy after
  its manager gave it up.
- An early answer about a context is one given while the creation reply of that context is on its way. No theorem
  assumes that a run has none; `PurgedIffAnsweredEarly` says that they are exactly what gets contexts purged while their
  manager is there, one by one.
- `InOrder` is the condition, for one context, that its notifications are posted in the order of the edits and that none
  arrives after it was given up. The code does not provide for it when two edits overlap, because it frees the mutex
  before posting (EtsiMec/staticueapplcmproxy.cpp:88-89, 138-139). Both halves are shown to be needed, and
  `FollowsTableIffLastSentIsLastAssigned` says exactly when manager and table agree without it.
- That application information has a name and a provider is part of the model (EtsiMec/appinfo.cpp:93-94); that each
  part has at most 32 characters (lines 95-97) matters only to which joined keys are ambiguous, see
  `UnambiguousWithinLimits`.

## Where the code and its documentation differ

The model follows the code.

- EtsiMec/staticueapplcmproxy.h:174 says that any error while notifying removes the context. An exception is only
  logged (EtsiMec/staticueapplcmproxy.cpp:307-311), and an invalid callback is skipped (lines 288-292); only an
  unexpected status purges.
- EtsiMec/staticueapplcmproxy.h:140 says that `removeAddress` throws on an empty address. It throws on an empty
  application name (EtsiMec/staticueapplcmproxy.cpp:94-96); an empty address means the wildcard.
- EtsiMec/staticfileueapplcmproxy.h:40-45 describes lines of two words and no default. The constructor reads triples
  and turns a star into the wildcard (EtsiMec/staticfileueapplcmproxy.cpp:46-75).
- EtsiMec/appcontext.cpp:76 lets a callback be empty, EtsiMec/staticueapplcmproxy.cpp:285 asserts that it is not.
  `CallbackCanBeMissing` gives a run in which the assertion fails; `CompleteIffMovedHaveCallbacks` says exactly when the
  notifications of an edit satisfy it, in terms of the contexts and the table before the edit.
- EtsiMec/staticueapplcmproxy.cpp:224-226 asserts that a UE application ID is new, but it comes from the client.
  `UeAppIdCanBeShared` gives a run after which the assertion fails, `CreateKeepsInverseIff` the exact condition.

## Model

| member | source | states |
|---|---|---|
| `RoutingTable.FindIsMostSpecific` | EtsiMec/staticueapplcmproxy.cpp:331-344 | lookup finds nothing only if no entry applies to the client, and finds the wildcard only if no other entry applies: the most specific match, both ways |
| `RoutingTable.RouteAfterInsert` | EtsiMec/staticueapplcmproxy.cpp:59-87 | entering an association moves exactly the clients that resolve through it, to its end-point |
| `RoutingTable.RouteAfterRemove` | EtsiMec/staticueapplcmproxy.cpp:97-137 | dropping an association moves no client that does not resolve through it |
| `ProxyModel.InverseSameSize` | EtsiMec/staticueapplcmproxy.cpp:146-150 | two indices that are inverse to each other have the same size, as the context count asserts |
| `ProxyModel.CoherentIffRerouteIsIdentity` | EtsiMec/staticueapplcmproxy.cpp:72-87 | the cached end-points agree with the table exactly when looking all of them up again changes nothing |
| `ProxyModel.PatchedIsRerouted` | EtsiMec/staticueapplcmproxy.cpp:74-87 | writing the argument instead of the looked-up end-point, and skipping other applications, gives what a fresh lookup gives, if the caches were right before |
| `ProxyModel.RepeatedAssociationIsNoOp` | EtsiMec/staticueapplcmproxy.cpp:62-67 | the early return on a repeated association loses nothing |
| `ProxyModel.EditsKeepValid` | EtsiMec/staticueapplcmproxy.cpp:49-140 | edits keep all the invariants of the proxy |
| `ProxyModel.AssertionHoldsIff` | EtsiMec/staticueapplcmproxy.cpp:79-80 | the assertion in the loop of an association holds for all contexts exactly when the edited address is the wildcard or that of every orphan of the application |
| `ProxyModel.EditsAreLocal` | EtsiMec/staticueapplcmproxy.cpp:72-87 | an edit leaves a context alone if it belongs to another application or resolves through another entry |
| `ProxyModel.WildcardEditSparesSpecificClients` | EtsiMec/staticueapplcmproxy.h:185-191 | a client with an entry of its own is not notified of an edit of the wildcard |
| `ProxyModel.NotifiedIffMoved` | EtsiMec/staticueapplcmproxy.cpp:72-87 | the notifications of an edit are those foretold by the table before it: for each context that resolves through the edited entry and had another end-point, the new one |
| `ProxyModel.CompleteIffMovedHaveCallbacks` | EtsiMec/staticueapplcmproxy.cpp:285-287 | all three assertions on the notifications of an edit hold exactly when every context that it moves has a callback |
| `ProxyModel.ExactNothingChanged` | EtsiMec/staticueapplcmproxy.cpp:73-89 | nobody is notified exactly when no cached end-point has to change |
| `ProxyModel.RemoveUndoesAssociate` | EtsiMec/staticueapplcmproxy.cpp:49-140 | entering a new association and dropping it restores the table and every context |
| `ProxyModel.RemoveAbsentIsNoOp` | EtsiMec/staticueapplcmproxy.cpp:99-139 | dropping an association that is not there changes nothing and notifies nobody |
| `ProxyModel.EditsCommute` | EtsiMec/staticueapplcmproxy.cpp:49-140 | edits of different entries can be swapped |
| `ProxyModel.OrphanWaits` | EtsiMec/staticueapplcmproxy.cpp:119-130 | a context without a route stays as it is through any edits that do not match it |
| `ProxyModel.OrphanNotifiedByFirstMatch` | EtsiMec/staticueapplcmproxy.cpp:119-130 | the first association that matches an orphan is notified to it, even with the end-point it had before |
| `ProxyModel.LosingTheLastRouteIsSilent` | EtsiMec/staticueapplcmproxy.cpp:125-129 | a context that loses its last route becomes an orphan and is not notified |
| `ProxyModel.CreateKeepsInverseIff` | EtsiMec/staticueapplcmproxy.cpp:211-227 | an accepted creation keeps the two indices inverse exactly when both identifiers are new, or neither is |
| `ProxyModel.CreateKeepsValid` | EtsiMec/staticueapplcmproxy.cpp:192-243 | a creation under new identifiers keeps all the invariants |
| `ProxyModel.DeleteUndoesCreate` | EtsiMec/staticueapplcmproxy.cpp:192-276 | deleting a context just created under new identifiers restores the state |
| `ProxyModel.UpdateChangesOneCallback` | EtsiMec/staticueapplcmproxy.cpp:245-259 | an update reaches the context of the UE application through the second index and changes its callback, nothing else |
| `ProxyModel.WithoutOne` | EtsiMec/staticueapplcmproxy.cpp:261-276 | erasing a context and its UE application ID leaves no index entry that points to it |
| `StaticProxy.StaticUeAppLcmProxy.AssociateLocked` | EtsiMec/staticueapplcmproxy.cpp:49-88 | refuses empty names; otherwise the state is as if all contexts had been looked up again, the notifications name each moved context once, and the assertion of the loop held exactly under the stated condition |
| `StaticProxy.StaticUeAppLcmProxy.PatchContexts` | EtsiMec/staticueapplcmproxy.cpp:72-87 | the loop over the contexts amounts to a fresh lookup of all of them, with exact notifications |
| `StaticProxy.StaticUeAppLcmProxy.RemoveLocked` | EtsiMec/staticueapplcmproxy.cpp:92-138 | refuses an empty application name; otherwise as if all contexts had been looked up again, with exact notifications |
| `StaticProxy.StaticUeAppLcmProxy.FallBack` | EtsiMec/staticueapplcmproxy.cpp:110-137 | the loop over the contexts amounts to a fresh lookup of all of them; orphans are not notified |
| `StaticProxy.StaticUeAppLcmProxy.AssociateAddress` | EtsiMec/staticueapplcmproxy.cpp:49-90 | the edit, less the contexts whose notification was answered badly; all assertions on the way held exactly if the entry was there already or serves all orphans, and the contexts it moves have callbacks |
| `StaticProxy.StaticUeAppLcmProxy.RemoveAddress` | EtsiMec/staticueapplcmproxy.cpp:92-140 | the edit, less the contexts whose notification was answered badly; all assertions on the way held exactly if the contexts it moves have callbacks |
| `StaticProxy.StaticUeAppLcmProxy.NumContexts` | EtsiMec/staticueapplcmproxy.cpp:146-150 | the number of contexts is the size of either index |
| `StaticProxy.StaticUeAppLcmProxy.EdgeRouter` | EtsiMec/staticueapplcmproxy.cpp:152-167 | refuses empty arguments; otherwise the most specific end-point, which is also what every context of that client and application has |
| `StaticProxy.StaticUeAppLcmProxy.AddressAssociations` | EtsiMec/staticueapplcmproxy.cpp:169-178 | lists every entry of the table once |
| `StaticProxy.StaticUeAppLcmProxy.CreateContext` | EtsiMec/staticueapplcmproxy.cpp:192-243 | a request for an application that is not listed, or without a route, comes back unchanged and changes nothing; an accepted one comes back with only the context ID and the end-point filled in, and adds that context; the assertions on the identifiers held exactly if both were new or the request was refused |
| `StaticProxy.StaticUeAppLcmProxy.UpdateContext` | EtsiMec/staticueapplcmproxy.cpp:245-259 | succeeds exactly for a known UE application ID; keeps the invariants |
| `StaticProxy.StaticUeAppLcmProxy.DeleteContext` | EtsiMec/staticueapplcmproxy.cpp:261-276 | removes the context from both indices if it is there, and says whether it was |
| `StaticProxy.StaticUeAppLcmProxy.Purge` | EtsiMec/staticueapplcmproxy.cpp:315-329 | removes the context from both indices if it is there, and says whether it was |
| `StaticProxy.StaticUeAppLcmProxy.NotifyClients` | EtsiMec/staticueapplcmproxy.cpp:278-313 | purges exactly the active contexts whose notification got an unexpected status; lost or skipped ones leave theirs alone |
| `ProxySystem.StepKeepsInv` | EtsiMec/staticueapplcmproxy.cpp:49-344 | every critical section and every delivery keeps all the invariants of the proxy and its notifying threads |
| `ProxySystem.ContextsFollowTable` | EtsiMec/staticueapplcmproxy.h:77-86 | at any moment of any run each context has the most specific end-point of the table in force, and the empty one exactly if no entry applies |
| `ProxySystem.IndicesStayInverse` | EtsiMec/staticueapplcmproxy.h:202-208 | at any moment of any run the two indices are inverse to each other and of the same size |
| `ProxySystem.AssertionHoldsWhenOrphansServed` | EtsiMec/staticueapplcmproxy.cpp:60-80 | at any moment of any run the assertion of the association loop holds, or is not reached, exactly if the entry serves all orphans or is there already |
| `ProxySystem.NotificationsComplete` | EtsiMec/staticueapplcmproxy.cpp:286-287 | every notification names an end-point and a context that was issued |
| `ProxySystem.NotificationsCompleteIff` | EtsiMec/staticueapplcmproxy.cpp:285-287 | in any run all notifications satisfy the three assertions exactly if each edit, at its time, moved only contexts with a callback |
| `ProxySystem.CallbacksReachNotifications` | EtsiMec/staticueapplcmproxy.cpp:192-287 | if all creations and updates give a callback, all notifications of all threads have one |
| `ProxySystem.IssuedIffListedAndRouted` | EtsiMec/staticueapplcmproxy.cpp:199-216 | in any run, over applications with distinct joined keys, a context is issued exactly upon a proper request for an application that the last change naming it added, and that the table routes for the client |
| `ProxySystem.RecordsFollowChanges` | EtsiMec/ueapplcmproxy.cpp:78-93 | in any run, what the list holds of an application is what the last change naming it said |
| `ProxySystem.ContextsConserved` | EtsiMec/staticueapplcmproxy.cpp:192-329 | active contexts are those created, less those deleted, less those purged, also in number |
| `ProxySystem.WorkerPurgesExactly` | EtsiMec/staticueapplcmproxy.cpp:278-329 | with anything happening in between, a notifying thread purges exactly the contexts it got a bad reply about, except those removed by others before |
| `ProxySystem.PassesEnd` | EtsiMec/staticueapplcmproxy.cpp:281-312 | a notifying thread takes at most two steps per notification |
| `ProxySystem.WorkerCanGoOn` | EtsiMec/staticueapplcmproxy.cpp:281-312 | a notifying thread that is not done can take a step |
| `Calls.Associate` | EtsiMec/staticueapplcmproxy.cpp:49-90 | in any reachable state an association of any address with a name and an end-point is a step that leaves its notifications to a new thread; others are refused |
| `Calls.Remove` | EtsiMec/staticueapplcmproxy.cpp:92-140 | likewise for dropping one, be it there or not |
| `Calls.CreateContext` | EtsiMec/staticueapplcmproxy.cpp:192-243 | a creation by any client is a step if its identifiers are new as asserted |
| `Calls.UpdateContext` | EtsiMec/staticueapplcmproxy.cpp:245-259 | any update is a step |
| `Calls.DeleteContext` | EtsiMec/staticueapplcmproxy.cpp:261-276 | any deletion is a step, recorded as one exactly if the context was there |
| `Calls.NotifyClients` | EtsiMec/staticueapplcmproxy.cpp:278-313 | a pass in which nothing else happens is a row of steps of its thread, to the end of its work and the same state |
| `ClientManager.LastSegmentIsLastPiece` | EtsiMec/appcontextmanager.cpp:124-132 | the handler takes the last piece of a path, whatever slashes follow it |
| `ClientManager.CallbackNamesApplication` | EtsiMec/appcontextmanager.cpp:124-132 | the handler finds, in the path of a callback, the UE application it was made for |
| `ClientManager.CallbackForInjective` | EtsiMec/appcontextmanager.h:49-52 | callbacks of different applications or managers differ |
| `ClientManager.AppContextManager.ContextCreate` | EtsiMec/appcontextmanager.cpp:81-109 | succeeds exactly for a proper request for a listed application with a route; then manager and proxy hold the same end-point under the same context ID |
| `ClientManager.AppContextManager.HandleNotification` | EtsiMec/appcontextmanager.cpp:120-150 | malformed exactly without an end-point or without a piece in the path; otherwise overwrites the end-point of a known application, under the same context ID, and changes nothing for an unknown one |
| `ClientManager.AppContextManager.Destroy` | EtsiMec/appcontextmanager.cpp:58-79 | deletes at the proxy the contexts whose request arrives |
| `ClientManager.DestroyRemovesOwnContexts` | EtsiMec/appcontextmanager.h:73-74 | the active contexts go whose application the manager has and whose request arrives, exactly these, also in number |
| `ClosedSystem.AddresseeOfCallback` | EtsiMec/appcontextmanager.cpp:88-91 | a notification posted to a callback reaches the manager and the application the callback was made for |
| `ClosedSystem.GoodAnswerIffUpdated` | EtsiMec/appcontextmanager.cpp:120-150 | the answer the proxy expects comes exactly from a server whose handler does its update |
| `ManagerCalls.ContextCreate` | EtsiMec/appcontextmanager.cpp:81-109 | a creation in which nothing else happens is a step of the proxy and one of the manager, or none if refused |
| `ManagerCalls.HandleNotification` | EtsiMec/appcontextmanager.cpp:120-150 | handling a notification, posted or late, is a step with the same effect and the same reply |
| `ManagerCalls.Destroy` | EtsiMec/appcontextmanager.cpp:58-79 | the destructor is a row of steps, from its beginning through one request per context to its end |
| `ManagerCalls.AnyFate` | EtsiMec/staticueapplcmproxy.cpp:288-312 | at any moment a posted notification can have any of its fates, and one that was only delayed may still arrive |
| `ManagerCalls.AnyStartAnyLoss` | EtsiMec/appcontextmanager.cpp:86-101 | at any moment a new manager can start, and any creation reply on its way can be lost |
| `ClientSafety.StepKeepsSafe` | EtsiMec/appcontextmanager.cpp:81-150 | every event of the system of proxy and managers keeps the bookkeeping between them sound |
| `ClientSafety.ReferencesAreGenuine` | EtsiMec/appcontextmanager.cpp:132-143 | with any losses, delays, repetitions and order of notifications, what a manager holds for an application is non-empty and was once assigned by the proxy to that very application's context |
| `ClientSafety.ManagersGiveCallbacks` | EtsiMec/appcontextmanager.cpp:88-91 | with managers as clients, the assertions on notifications always hold |
| `ClientSafety.ManagersTrackContexts` | EtsiMec/appcontextmanager.cpp:102-104 | at any moment of any run, what a manager holds and what is active match, as teardown needs |
| `ClientPurges.StepKeepsTidy` | EtsiMec/appcontextmanager.cpp:81-109 | every event keeps each context awaited, attended to by its manager, or adrift |
| `ClientPurges.ContextsAreKnown` | EtsiMec/appcontextmanager.cpp:102-104 | contexts are known to their managers under the same context ID, and contexts known to running managers are active exactly if not purged |
| `ClientPurges.BadAnswerIffUnknown` | EtsiMec/appcontextmanager.cpp:137-146 | an answer is a bad one exactly if the creation reply is yet to be stored, or no manager knows the context any more |
| `ClientPurges.AnswersToAttendedAreGood` | EtsiMec/appcontextmanager.cpp:136-149 | at any moment of any run, a notification about a context its running manager knows is answered as the proxy expects |
| `ClientPurges.PurgedIffAnsweredEarly` | EtsiMec/staticueapplcmproxy.cpp:300-306 | a context not adrift is purged, or about to be, exactly if an early answer was given about that very context |
| `ClientPurges.PurgedOnlyIfAnsweredEarly` | EtsiMec/staticueapplcmproxy.cpp:300-306 | also while its manager ends, a context is purged only if an early answer was given about it |
| `ClientPurges.NoSpuriousPurge` | EtsiMec/staticueapplcmproxy.cpp:302-306 | a context of a running manager about which no early answer was given is active, and nobody is about to purge it, whatever happened to other contexts |
| `ClientTeardown.DeletedByOwnManager` | EtsiMec/appcontextmanager.cpp:58-65 | in any run a context was deleted by a request of its own manager for its own application, and was active until then |
| `ClientTeardown.TeardownRemovesAll` | EtsiMec/appcontextmanager.cpp:58-79 | if all its requests arrive, no context a manager knew is active when it has ended; all were deleted, but for those purged after an early answer |
| `ClientTeardown.TeardownRemovesOwnOnly` | EtsiMec/appcontextmanager.cpp:58-79 | what the requests of an ending manager remove are exactly the contexts it knew that are deleted in the end |
| `ClientAgreement.StepKeepsAgrees` | EtsiMec/staticueapplcmproxy.cpp:72-139 | every event in order for a context keeps proxy, pending notifications and manager in agreement about it |
| `ClientAgreement.PendingHead` | EtsiMec/staticueapplcmproxy.cpp:281-301 | posting in order takes the first of the pending end-points of a context away |
| `ClientAgreement.RoutersOfExact` | EtsiMec/staticueapplcmproxy.cpp:82-85 | an edit leaves one pending end-point for a context it moves, and none for any other |
| `ClientAgreement.PendingLeadsToLastAssigned` | EtsiMec/staticueapplcmproxy.cpp:72-139 | with the notifications of one context in order, applying its pending ones to what its manager holds gives the last end-point assigned to it |
| `ClientAgreement.ManagersFollowTable` | EtsiMec/appcontextmanager.cpp:136-143 | with nothing pending and the last notification received, the manager holds what the table in force says |
| `ClientAgreement.LastSentIsHeld` | EtsiMec/appcontextmanager.cpp:136-143 | in any order, a manager holds the end-point it was last sent for a context, unless it missed that |
| `ClientAgreement.FollowsTableIffLastSentIsLastAssigned` | EtsiMec/staticueapplcmproxy.cpp:72-139 | in any run, a manager that has received what it was last sent agrees with the table exactly if that was the last end-point assigned |
| `Counterexamples.AssertionCanFail` | EtsiMec/staticueapplcmproxy.cpp:80 | a run after which an association for somebody else fails the assertion |
| `Counterexamples.CallbackCanBeMissing` | EtsiMec/staticueapplcmproxy.cpp:285 | a run with a creation without a callback, after which an edit leaves a notification without one |
| `Counterexamples.UeAppIdCanBeShared` | EtsiMec/staticueapplcmproxy.cpp:224-226 | a run after which a second creation under the same UE application ID is accepted and breaks the second index |
| `Counterexamples.EarlyAnswerPurges` | EtsiMec/appcontextmanager.cpp:86-104 | a run in which a notification answered before the creation reply is stored gets a running manager's context purged |
| `Counterexamples.SwappedNotificationsDisagree` | EtsiMec/staticueapplcmproxy.cpp:88-89 | a run in which two notifications posted in the wrong order leave manager and proxy with different end-points for good |
| `Counterexamples.LateNotificationDisagrees` | EtsiMec/staticueapplcmproxy.cpp:307-311 | a run with all notifications posted in order in which one that was given up arrives after a later one, with the same result |
| `Locking.HandlersDo` | EtsiMec/staticueapplcmproxy.cpp:49-329 | what each handler uses, in which order and on which side of its calls, apart from the mutexes |
| `Locking.HandlersAreDisciplined` | EtsiMec/staticueapplcmproxy.cpp:192-200 | every handler takes the mutexes in one order, never twice, gives all back, holds none during an HTTP call, and uses nothing without its mutex, except that a manager's end looks at its entries |
| `Locking.AllGuardedIffNotDestroy` | EtsiMec/appcontextmanager.cpp:58-79 | exactly the destructor of a manager uses something without its mutex |
| `Locking.UsesAreGuarded` | EtsiMec/staticueapplcmproxy.cpp:61-88 | in any interleaving a structure is used only while the thread, and no other, holds its mutex, with that exception |
| `Locking.ConflictOnlyAtEnd` | EtsiMec/appcontextmanager.cpp:58-104 | in any interleaving two threads use the same structure at a time, one of them changing it, only if a manager ends while it stores a creation reply |
| `Locking.EndCanMeetCreation` | EtsiMec/appcontextmanager.cpp:58-104 | an interleaving in which that happens |
| `Locking.NotifyIsDisciplined` | EtsiMec/staticueapplcmproxy.cpp:280-316 | posting notifications, the handlers they run and the purges they cause keep that discipline |
| `Locking.NoDeadlock` | EtsiMec/ueapplcmproxy.cpp:78-98 | in any interleaving of the handlers of both programs some unfinished thread can go on |
| `Locking.CallsHoldNothing` | EtsiMec/staticueapplcmproxy.cpp:88-89 | in any interleaving nobody holds a mutex during an HTTP call or asks for one it has |
| `ConfigText.InputStream.Extract` | EtsiMec/staticfileueapplcmproxy.cpp:51-69 | word extraction with the end-of-file and failure flags of the stream: it yields the words in order and fails exactly when there is none |
| `ConfigText.FirstWord` | EtsiMec/staticfileueapplcmproxy.cpp:51-65 | a word followed by a space or the end is the first token of a text |
| `ConfigText.ReadTriple` | EtsiMec/staticfileueapplcmproxy.cpp:46-69 | the next three words, or the finding that there are none or too few |
| `ConfigText.Load` | EtsiMec/staticfileueapplcmproxy.cpp:37-80 | succeeds exactly for a readable file whose words are a positive multiple of three; no word is an empty configuration, an incomplete last triple is ill-formed; the proxy then has no contexts, and its table has the keys of the triples, each mapped to what its last triple says |
| `ConfigText.LastTripleWins` | EtsiMec/staticfileueapplcmproxy.cpp:46-75 | an entry is loaded exactly if some triple names it, and the last such triple decides |
| `ConfigText.TrailingSpaceIgnored` | EtsiMec/staticfileueapplcmproxy.cpp:46-54 | a file may end in a space or line break or not |
| `ConfigText.CutOffListingIsRefused` | EtsiMec/staticfileueapplcmproxy.cpp:58-69 | a listing that goes on with one or two more words is refused as ill-formed |
| `ConfigText.PrintTable` | Executables/ueapplcmproxyclientmain.cpp:126-132 | cut at line breaks, the text has one line per entry and ends with the last one; cut at blanks, each line is the address or a star, the application and the end-point |
| `ConfigText.RoundTripIff` | Executables/ueapplcmproxyclientmain.cpp:126-132 | printing a table in any order and loading the text gives the same table exactly when the table is not empty, no field has a space or is an empty word, and no address is a literal star |
| `UeAppLcmProxyBase.UeAppLcmProxy.AddApp` | EtsiMec/ueapplcmproxy.cpp:78-87 | files the very record given under its joined key, replacing an older one, leaves all others alone, and says whether there was one |
| `UeAppLcmProxyBase.UeAppLcmProxy.DelApp` | EtsiMec/ueapplcmproxy.cpp:89-93 | drops the record under the joined key, leaves all others alone, and says whether there was one |
| `UeAppLcmProxyBase.AnswersByLastChange` | EtsiMec/ueapplcmproxy.cpp:78-98 | where joined keys are distinct, an application exists exactly if the last change naming it added it |
| `UeAppLcmProxyBase.LastChangeDecides` | EtsiMec/ueapplcmproxy.cpp:78-93 | where joined keys are distinct, the last change naming an application decides whether it is there and what is known of it |
| `UeAppLcmProxyBase.RecordsAreFiledRight` | EtsiMec/ueapplcmproxy.cpp:78-103 | every record is filed under its own joined key |
| `UeAppLcmProxyBase.RegistryIsMapIffDistinguished` | EtsiMec/ueapplcmproxy.cpp:78-103 | over a set of identifiers, the list is a map keyed by name, provider and version exactly when their joined keys are distinct |
| `UeAppLcmProxyBase.PlusFreeIsDistinguished` | EtsiMec/ueapplcmproxy.cpp:100-103 | without a plus sign in names and providers, joined keys are distinct |
| `UeAppLcmProxyBase.UnambiguousIffOneReading` | EtsiMec/ueapplcmproxy.cpp:100-103 | among identifiers with a name and a provider, a joined key stands for one only exactly when the version has no plus sign, the name none after its first character, and the provider none unless it is just that |
| `UeAppLcmProxyBase.UnambiguousWithinLimits` | EtsiMec/appinfo.cpp:93-97 | the same among identifiers within the limits of length, for those whose three parts together stay within 32 characters |
| `Action.SameKeys` | OpenWhisk/action.cpp:60-77 | on all inputs, equal sizes and equal sets of text forms; equal key sets if no namespace has a slash |
| `Action.RenderKeys` | OpenWhisk/action.cpp:68-75 | the set of the text forms of the keys, in whatever order they come |
| `Action.ComparesKeysIffNoneNested` | OpenWhisk/action.cpp:60-77 | over a stock of namespaces, the comparison is right on all lists exactly when no namespace is another one followed by a slash and more |
| `Action.ToStringInjective` | OpenWhisk/action.h:55-57 | where namespaces are not nested, text forms identify keys |

## Left out

- HTTP and gRPC transport, and the JSON forms of the messages (EtsiMec/grpcueapplcmproxy.cpp,
  EtsiMec/appinfo.cpp, EtsiMec/appcontext.cpp): messages are datatypes, calls are steps.
- The URI check, UUIDs and the splitting of paths come from a support library that is not part of this model: the
  check is one of the outcomes of a post, UUIDs are parameters, and a path is split at slashes with empty pieces
  dropped.
- Foreign clients of the proxy are in `ProxySystem` but not in `ClosedSystem`, where every client is a manager that
  never sends an update of its callback, as the manager in the code never does.
- A server other than a manager that answers at a manager's former address: in `ClosedSystem` its answer counts as bad.
- UeAppLcmProxyBase.UnambiguousIffOneReading: does not model the limit of 32 characters on each part, which rules out
  some of the other readings of a longer key.
- The limit on the number of threads of an HTTP server: `Locking` has as many threads as there are requests.
- The list of contexts printed by the command-line client, option parsing and logging.
- The OpenWhisk invoker and lister, the application list client: network clients without state.
