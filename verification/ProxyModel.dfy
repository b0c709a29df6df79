/**
 What each operation of the static UE application LCM proxy does to its state, said outright: an edit of the
 address table assigns every context afresh, whatever shortcuts the code takes.
 */
module ProxyModel {
  import opened Wrappers
  import opened RoutingTable
  import opened UeAppLcmProxyBase

  /** An active application context. `edgeRouter` remembers the end-point last looked up, empty if there was none. */
  datatype Desc = Desc(
    ueAppId: string,
    callback: string,
    clientAddress: string,
    appName: string,
    edgeRouter: string)

  type Contexts = map<string, Desc>

  /** UE application ID to context ID. */
  type UeIndex = map<string, string>

  /** A message still to be posted to `callback`: context `contextId` has moved to `router`. */
  datatype Notification = Notification(callback: string, router: string, contextId: string)

  datatype ProxyState = ProxyState(
    table: Table,
    contexts: Contexts,
    ueIndex: UeIndex,
    applications: Applications)

  const EMPTY := ProxyState(map[], map[], map[], map[])

  // ---- Invariants

  /** Every context remembers what the table says now. */
  ghost predicate Coherent(table: Table, contexts: Contexts) {
    forall id <- contexts :: contexts[id].edgeRouter == Route(table, contexts[id].clientAddress, contexts[id].appName)
  }

  /** The two indices are inverse to each other: nothing dangles and nothing is missing. */
  ghost predicate Inverse(contexts: Contexts, ueIndex: UeIndex) {
    && (forall id <- contexts :: contexts[id].ueAppId in ueIndex && ueIndex[contexts[id].ueAppId] == id)
    && (forall ue <- ueIndex :: ueIndex[ue] in contexts && contexts[ueIndex[ue]].ueAppId == ue)
  }

  ghost predicate NamesPresent(contexts: Contexts) {
    forall id <- contexts :: id != "" && contexts[id].appName != ""
  }

  ghost predicate Valid(s: ProxyState) {
    WellFormed(s.table) && Coherent(s.table, s.contexts) && Inverse(s.contexts, s.ueIndex) && NamesPresent(s.contexts)
  }

  /** The two indices have the same size. */
  lemma {:induction false} InverseSameSize(contexts: Contexts, ueIndex: UeIndex)
    requires Inverse(contexts, ueIndex)
    ensures |contexts| == |ueIndex|
    decreases |contexts|
  {
    if contexts == map[] {
      assert ueIndex == map[];
    } else {
      var id :| id in contexts;
      var ue := contexts[id].ueAppId;
      InverseSameSize(contexts - {id}, ueIndex - {ue});
      assert |contexts.Keys| == |(contexts - {id}).Keys| + 1 by {
        assert (contexts - {id}).Keys == contexts.Keys - {id};
      }
      assert |ueIndex.Keys| == |(ueIndex - {ue}).Keys| + 1 by {
        assert (ueIndex - {ue}).Keys == ueIndex.Keys - {ue};
      }
    }
  }

  /** A context without a route. */
  predicate Orphan(desc: Desc) {
    desc.edgeRouter == ""
  }

  // ---- Editing the table

  function Rerouted(table: Table, desc: Desc): Desc {
    desc.(edgeRouter := Route(table, desc.clientAddress, desc.appName))
  }

  /** All contexts assigned afresh. */
  function Reroute(table: Table, contexts: Contexts): Contexts {
    map id <- contexts :: Rerouted(table, contexts[id])
  }

  predicate EditAllowed(appName: string, edgeRouter: string) {
    appName != "" && edgeRouter != ""
  }

  function Associate(s: ProxyState, address: string, appName: string, edgeRouter: string): ProxyState {
    var table := s.table[AddressAppKey(address, appName) := edgeRouter];
    s.(table := table, contexts := Reroute(table, s.contexts))
  }

  function Remove(s: ProxyState, address: string, appName: string): ProxyState {
    var table := s.table - {AddressAppKey(address, appName)};
    s.(table := table, contexts := Reroute(table, s.contexts))
  }

  lemma CoherentIffRerouteIsIdentity(table: Table, contexts: Contexts)
    ensures Coherent(table, contexts) <==> Reroute(table, contexts) == contexts
  {
  }

  lemma EditsKeepValid(s: ProxyState, address: string, appName: string, edgeRouter: string)
    requires Valid(s) && EditAllowed(appName, edgeRouter)
    ensures Valid(Associate(s, address, appName, edgeRouter))
    ensures Valid(Remove(s, address, appName))
  {
  }

  /** What the loop over the contexts does to one of them when an association to `edgeRouter` has just been entered. */
  function Patched(table: Table, appName: string, edgeRouter: string, desc: Desc): Desc {
    if desc.appName != appName then desc
    else match Find(table, desc.clientAddress, desc.appName)
      case None => desc
      case Some(key) => if table[key] != desc.edgeRouter then desc.(edgeRouter := edgeRouter) else desc
  }

  /**
   Writing the argument of the association instead of the looked-up end-point, skipping other applications and
   skipping contexts without a route are all harmless, provided the contexts agreed with the table before.
   */
  lemma PatchedIsRerouted(table: Table, address: string, appName: string, edgeRouter: string, desc: Desc)
    requires desc.edgeRouter == Route(table, desc.clientAddress, desc.appName)
    ensures var after := table[AddressAppKey(address, appName) := edgeRouter];
      Patched(after, appName, edgeRouter, desc) == Rerouted(after, desc)
  {
  }

  /** The early return on a repeated association loses nothing. */
  lemma RepeatedAssociationIsNoOp(s: ProxyState, address: string, appName: string, edgeRouter: string)
    requires Coherent(s.table, s.contexts)
    requires Repeated(s.table, address, appName, edgeRouter)
    ensures Associate(s, address, appName, edgeRouter) == s
  {
    assert s.table[AddressAppKey(address, appName) := edgeRouter] == s.table;
    CoherentIffRerouteIsIdentity(s.table, s.contexts);
  }

  /** The association is there already, with that end-point. */
  predicate Repeated(table: Table, address: string, appName: string, edgeRouter: string) {
    AddressAppKey(address, appName) in table && table[AddressAppKey(address, appName)] == edgeRouter
  }

  // ---- The assertion in the loop of an association

  /** Every context of the application has a route. */
  ghost predicate AllRouted(table: Table, contexts: Contexts, appName: string) {
    forall id <- contexts | contexts[id].appName == appName ::
      Find(table, contexts[id].clientAddress, contexts[id].appName).Some?
  }

  /** What the caller can check beforehand: the edited entry serves all the orphans of the application. */
  ghost predicate ServesAllOrphans(contexts: Contexts, address: string, appName: string) {
    address == WILDCARD ||
    forall id <- contexts | contexts[id].appName == appName && Orphan(contexts[id]) ::
      contexts[id].clientAddress == address
  }

  lemma AssertionHoldsIff(s: ProxyState, address: string, appName: string, edgeRouter: string)
    requires Valid(s) && EditAllowed(appName, edgeRouter)
    ensures AllRouted(s.table[AddressAppKey(address, appName) := edgeRouter], s.contexts, appName) <==>
      ServesAllOrphans(s.contexts, address, appName)
  {
    var after := s.table[AddressAppKey(address, appName) := edgeRouter];
    forall id <- s.contexts | s.contexts[id].appName == appName
      ensures Find(after, s.contexts[id].clientAddress, appName).Some? <==>
        address == WILDCARD || !Orphan(s.contexts[id]) || s.contexts[id].clientAddress == address
    {
      RouteEmptyIffUnrouted(s.table, s.contexts[id].clientAddress, appName);
      if address == WILDCARD {
        assert AddressAppKey(WILDCARD, appName) in after;
      }
    }
  }

  // ---- Notifications of an edit

  /**
   `notifications` names, once each, the contexts whose end-point changed to a non-empty one, with the new
   end-point, and names nothing else.
   */
  ghost predicate Exact(before: Contexts, after: Contexts, notifications: seq<Notification>)
    requires before.Keys == after.Keys
  {
    && (forall n <- notifications ::
          n.contextId in after && n.router != "" &&
          before[n.contextId].edgeRouter != after[n.contextId].edgeRouter == n.router &&
          n.callback == after[n.contextId].callback)
    && (forall id <- after | before[id].edgeRouter != after[id].edgeRouter && after[id].edgeRouter != "" ::
          Notification(after[id].callback, after[id].edgeRouter, id) in notifications)
    && Distinct(notifications)
  }

  /** No context is named twice. */
  ghost predicate Distinct(notifications: seq<Notification>) {
    forall i, j | 0 <= i < j < |notifications| :: notifications[i].contextId != notifications[j].contextId
  }

  lemma ExactNothingChanged(contexts: Contexts, notifications: seq<Notification>)
    ensures Exact(contexts, contexts, notifications) <==> notifications == []
  {
    if notifications != [] {
      assert notifications[0] in notifications;
    }
  }

  /** An edit touches only contexts of its application that resolve through the edited entry. */
  lemma EditsAreLocal(s: ProxyState, address: string, appName: string, edgeRouter: string, id: string)
    requires Valid(s) && id in s.contexts
    ensures var key := AddressAppKey(address, appName); var desc := s.contexts[id];
      !ResolvesThrough(s.table, key, desc.clientAddress, desc.appName) ==>
        Associate(s, address, appName, edgeRouter).contexts[id] == desc &&
        Remove(s, address, appName).contexts[id] == desc
  {
    var key := AddressAppKey(address, appName);
    var desc := s.contexts[id];
    RouteAfterInsert(s.table, key, edgeRouter, desc.clientAddress, desc.appName);
    if !ResolvesThrough(s.table, key, desc.clientAddress, desc.appName) {
      RouteAfterRemove(s.table, key, desc.clientAddress, desc.appName);
    }
  }

  /** A client with an entry of its own is not moved, nor notified, by an edit of the wildcard. */
  lemma WildcardEditSparesSpecificClients(s: ProxyState, appName: string, edgeRouter: string, id: string,
    notifications: seq<Notification>)
    requires Valid(s) && id in s.contexts && s.contexts[id].clientAddress != WILDCARD
    requires AddressAppKey(s.contexts[id].clientAddress, appName) in s.table
    requires
      || Exact(s.contexts, Associate(s, WILDCARD, appName, edgeRouter).contexts, notifications)
      || Exact(s.contexts, Remove(s, WILDCARD, appName).contexts, notifications)
    ensures forall n <- notifications :: n.contextId != id
  {
    EditsAreLocal(s, WILDCARD, appName, edgeRouter, id);
  }

  // ---- Undoing and reordering edits

  lemma RerouteTwice(table: Table, other: Table, contexts: Contexts)
    ensures Reroute(table, Reroute(other, contexts)) == Reroute(table, contexts)
  {
  }

  /** Entering an association that was not there and removing it again restores the table and every context. */
  lemma RemoveUndoesAssociate(s: ProxyState, address: string, appName: string, edgeRouter: string)
    requires Valid(s) && AddressAppKey(address, appName) !in s.table
    ensures Remove(Associate(s, address, appName, edgeRouter), address, appName) == s
  {
    var key := AddressAppKey(address, appName);
    assert s.table[key := edgeRouter] - {key} == s.table;
    RerouteTwice(s.table, s.table[key := edgeRouter], s.contexts);
    CoherentIffRerouteIsIdentity(s.table, s.contexts);
  }

  /** Removing an association that is not there changes nothing and notifies nobody. */
  lemma RemoveAbsentIsNoOp(s: ProxyState, address: string, appName: string, notifications: seq<Notification>)
    requires Valid(s) && AddressAppKey(address, appName) !in s.table
    requires Exact(s.contexts, Remove(s, address, appName).contexts, notifications)
    ensures Remove(s, address, appName) == s && notifications == []
  {
    assert s.table - {AddressAppKey(address, appName)} == s.table;
    CoherentIffRerouteIsIdentity(s.table, s.contexts);
    ExactNothingChanged(s.contexts, notifications);
  }

  datatype Edit = Enter(address: string, appName: string, edgeRouter: string) | Drop(address: string, appName: string) {
    function Key(): AddressAppKey {
      AddressAppKey(address, appName)
    }

    predicate Allowed() {
      appName != "" && (Enter? ==> edgeRouter != "")
    }
  }

  function Perform(s: ProxyState, edit: Edit): ProxyState {
    match edit
    case Enter(address, appName, edgeRouter) => Associate(s, address, appName, edgeRouter)
    case Drop(address, appName) => Remove(s, address, appName)
  }

  /** Edits of different entries can be swapped. */
  lemma EditsCommute(s: ProxyState, first: Edit, second: Edit)
    requires first.Key() != second.Key()
    ensures Perform(Perform(s, first), second) == Perform(Perform(s, second), first)
  {
    var table := Perform(Perform(s, first), second).table;
    assert table == Perform(Perform(s, second), first).table;
    RerouteTwice(table, Perform(s, first).table, s.contexts);
    RerouteTwice(table, Perform(s, second).table, s.contexts);
  }

  // ---- Who is notified of an edit

  /** The end-point that an edit leaves to the clients that resolve through its entry: the given one, or the default. */
  function RouterAfter(table: Table, edit: Edit): string {
    if edit.Enter? then edit.edgeRouter
    else if edit.address == WILDCARD then ""
    else Route(table, WILDCARD, edit.appName)
  }

  /** The edit moves a client of the table to an end-point other than the one it has. */
  predicate Moves(table: Table, edit: Edit, desc: Desc) {
    && ResolvesThrough(table, edit.Key(), desc.clientAddress, desc.appName)
    && RouterAfter(table, edit) != "" && RouterAfter(table, edit) != desc.edgeRouter
  }

  lemma RouteAfterEdit(s: ProxyState, edit: Edit, address: string, appName: string)
    ensures Route(Perform(s, edit).table, address, appName) ==
      if ResolvesThrough(s.table, edit.Key(), address, appName) then RouterAfter(s.table, edit)
      else Route(s.table, address, appName)
  {
  }

  /** Those moved are notified, once, of the end-point that the table before the edit foretells; no others are. */
  lemma NotifiedIffMoved(s: ProxyState, edit: Edit, notifications: seq<Notification>, n: Notification)
    requires Valid(s) && Exact(s.contexts, Perform(s, edit).contexts, notifications)
    ensures n in notifications <==>
      && n.contextId in s.contexts && Moves(s.table, edit, s.contexts[n.contextId])
      && n == Notification(s.contexts[n.contextId].callback, RouterAfter(s.table, edit), n.contextId)
  {
    if n.contextId in s.contexts {
      var desc := s.contexts[n.contextId];
      RouteAfterEdit(s, edit, desc.clientAddress, desc.appName);
      assert Perform(s, edit).contexts[n.contextId] == Rerouted(Perform(s, edit).table, desc);
    }
  }

  /** What the caller can check beforehand: every context that the edit moves has a callback. */
  ghost predicate MovedHaveCallbacks(s: ProxyState, edit: Edit) {
    forall id <- s.contexts | Moves(s.table, edit, s.contexts[id]) :: s.contexts[id].callback != ""
  }

  /** The notifications of an edit have what is asserted of them. */
  ghost predicate AllComplete(notifications: seq<Notification>) {
    forall n <- notifications :: n.callback != "" && n.router != "" && n.contextId != ""
  }

  lemma CompleteIffMovedHaveCallbacks(s: ProxyState, edit: Edit, notifications: seq<Notification>)
    requires Valid(s) && Exact(s.contexts, Perform(s, edit).contexts, notifications)
    ensures AllComplete(notifications) <==> MovedHaveCallbacks(s, edit)
  {
    hide Exact, Perform, Coherent, Inverse, WellFormed;
    forall id <- s.contexts | Moves(s.table, edit, s.contexts[id])
      ensures Notification(s.contexts[id].callback, RouterAfter(s.table, edit), id) in notifications
    {
      NotifiedIffMoved(s, edit, notifications, Notification(s.contexts[id].callback, RouterAfter(s.table, edit), id));
    }
    forall n <- notifications
      ensures n.contextId in s.contexts && Moves(s.table, edit, s.contexts[n.contextId])
      ensures n == Notification(s.contexts[n.contextId].callback, RouterAfter(s.table, edit), n.contextId)
    {
      NotifiedIffMoved(s, edit, notifications, n);
    }
  }

  // ---- Orphans

  function PerformAll(s: ProxyState, edits: seq<Edit>): ProxyState
    decreases |edits|
  {
    if edits == [] then s else PerformAll(Perform(s, edits[0]), edits[1..])
  }

  /** None of the edits enters an association that would serve the client. */
  ghost predicate NoneServes(edits: seq<Edit>, address: string, appName: string) {
    forall edit <- edits :: edit.Enter? ==> !Matches(edit.Key(), address, appName)
  }

  lemma OrphanKeptByEdit(s: ProxyState, edit: Edit, id: string)
    requires Valid(s) && id in s.contexts && Orphan(s.contexts[id]) && edit.Allowed()
    requires edit.Enter? ==> !Matches(edit.Key(), s.contexts[id].clientAddress, s.contexts[id].appName)
    ensures id in Perform(s, edit).contexts && Perform(s, edit).contexts[id] == s.contexts[id]
  {
    var desc := s.contexts[id];
    RouteEmptyIffUnrouted(s.table, desc.clientAddress, desc.appName);
    if edit.Enter? {
      RouteAfterInsert(s.table, edit.Key(), edit.edgeRouter, desc.clientAddress, desc.appName);
    }
  }

  /** An orphan stays one, unnotified, through edits that do not match it. */
  lemma {:induction false} OrphanWaits(s: ProxyState, edits: seq<Edit>, id: string)
    requires Valid(s) && id in s.contexts && Orphan(s.contexts[id])
    requires forall edit <- edits :: edit.Allowed()
    requires NoneServes(edits, s.contexts[id].clientAddress, s.contexts[id].appName)
    ensures Valid(PerformAll(s, edits)) && id in PerformAll(s, edits).contexts
    ensures PerformAll(s, edits).contexts[id] == s.contexts[id]
    decreases |edits|
  {
    if edits != [] {
      assert edits[0] in edits;
      assert forall later <- edits[1..] :: later in edits;
      var s' := Perform(s, edits[0]);
      OrphanKeptByEdit(s, edits[0], id);
      assert Valid(s') by {
        var edgeRouter := if edits[0].Enter? then edits[0].edgeRouter else "unused";
        EditsKeepValid(s, edits[0].address, edits[0].appName, edgeRouter);
      }
      OrphanWaits(s', edits[1..], id);
    }
  }

  /**
   The first association that matches an orphan is notified to it, whatever end-point it had before it was
   orphaned and whatever happened in between.
   */
  lemma OrphanNotifiedByFirstMatch(s: ProxyState, edits: seq<Edit>, address: string, edgeRouter: string, id: string)
    requires Valid(s) && id in s.contexts && Orphan(s.contexts[id]) && edgeRouter != ""
    requires forall edit <- edits :: edit.Allowed()
    requires NoneServes(edits, s.contexts[id].clientAddress, s.contexts[id].appName)
    requires var desc := s.contexts[id];
      Matches(AddressAppKey(address, desc.appName), desc.clientAddress, desc.appName)
    ensures var waiting := PerformAll(s, edits);
      var after := Associate(waiting, address, s.contexts[id].appName, edgeRouter);
      forall notifications | Exact(waiting.contexts, after.contexts, notifications) ::
        Notification(s.contexts[id].callback, edgeRouter, id) in notifications
  {
    var desc, waiting := s.contexts[id], PerformAll(s, edits);
    OrphanWaits(s, edits, id);
    RouteEmptyIffUnrouted(waiting.table, desc.clientAddress, desc.appName);
    RouteAfterInsert(waiting.table, AddressAppKey(address, desc.appName), edgeRouter, desc.clientAddress, desc.appName);
    var after := Associate(waiting, address, desc.appName, edgeRouter).contexts;
    assert after[id] == desc.(edgeRouter := edgeRouter);
  }

  /** A context that loses its last route is not told. */
  lemma LosingTheLastRouteIsSilent(s: ProxyState, address: string, appName: string, id: string,
    notifications: seq<Notification>)
    requires Valid(s) && id in s.contexts
    requires Exact(s.contexts, Remove(s, address, appName).contexts, notifications)
    requires forall key <- s.table | Matches(key, s.contexts[id].clientAddress, s.contexts[id].appName) ::
      key == AddressAppKey(address, appName)
    ensures Orphan(Remove(s, address, appName).contexts[id])
    ensures forall n <- notifications :: n.contextId != id
  {
    var desc, after := s.contexts[id], Remove(s, address, appName).table;
    FindIsMostSpecific(after, desc.clientAddress, desc.appName);
    assert Find(after, desc.clientAddress, desc.appName).None?;
  }

  // ---- Creating contexts

  /** A context creation message; the context ID is empty in a request. */
  datatype AppContext = AppContext(contextId: string, ueAppId: string, callback: string, appInfo: AppInfo) {
    predicate IsResponse() {
      contextId != ""
    }

    /** The fields that every such message has. */
    predicate Valid() {
      ueAppId != "" && appInfo.Valid()
    }
  }

  datatype CreateError = WrongMessageType | EmptyContextId | EmptyReferenceUri

  /** The response to a request, with the context ID and the end-point filled in. */
  function MakeResponse(request: AppContext, contextId: string, edgeRouter: string)
    : (response: Result<AppContext, CreateError>)
  {
    if request.IsResponse() then Failure(WrongMessageType)
    else if contextId == "" then Failure(EmptyContextId)
    else if edgeRouter == "" then Failure(EmptyReferenceUri)
    else if !request.appInfo.message.AppContextRequest? then Failure(WrongMessageType)
    else
      var appInfo := request.appInfo.(message := AppContextResponse(edgeRouter));
      Success(request.(contextId := contextId, appInfo := appInfo))
  }

  /** The application is known and there is an end-point for this client. */
  predicate Admissible(s: ProxyState, clientAddress: string, request: AppContext) {
    Mangle(request.appInfo) in s.applications && Find(s.table, clientAddress, request.appInfo.appName).Some?
  }

  /** The answer to a creation request: the request itself if refused. */
  function CreateReply(s: ProxyState, clientAddress: string, request: AppContext, contextId: string)
    : Result<AppContext, CreateError>
  {
    if Admissible(s, clientAddress, request) then
      MakeResponse(request, contextId, Route(s.table, clientAddress, request.appInfo.appName))
    else
      Success(request)
  }

  predicate Accepts(s: ProxyState, clientAddress: string, request: AppContext, contextId: string) {
    Admissible(s, clientAddress, request) && CreateReply(s, clientAddress, request, contextId).Success?
  }

  function NewDesc(s: ProxyState, clientAddress: string, request: AppContext): Desc {
    Desc(request.ueAppId, request.callback, clientAddress, request.appInfo.appName,
         Route(s.table, clientAddress, request.appInfo.appName))
  }

  /** Adds a binding unless there is one already. */
  function Emplace<K, V>(m: map<K, V>, k: K, v: V): map<K, V> {
    if k in m then m else m[k := v]
  }

  function Create(s: ProxyState, clientAddress: string, request: AppContext, contextId: string): ProxyState {
    if Accepts(s, clientAddress, request, contextId) then
      s.(contexts := Emplace(s.contexts, contextId, NewDesc(s, clientAddress, request)),
         ueIndex := Emplace(s.ueIndex, request.ueAppId, contextId))
    else
      s
  }

  /** An accepted creation keeps the two indices inverse exactly when both identifiers are new, or neither is. */
  lemma CreateKeepsInverseIff(s: ProxyState, clientAddress: string, request: AppContext, contextId: string)
    requires Inverse(s.contexts, s.ueIndex) && Accepts(s, clientAddress, request, contextId)
    ensures var s' := Create(s, clientAddress, request, contextId);
      Inverse(s'.contexts, s'.ueIndex) <==> (contextId in s.contexts <==> request.ueAppId in s.ueIndex)
  {
    hide Accepts;
    var s' := Create(s, clientAddress, request, contextId);
    if contextId in s.contexts && request.ueAppId !in s.ueIndex {
      assert s'.ueIndex[request.ueAppId] == contextId && s'.contexts[contextId].ueAppId != request.ueAppId;
    }
    if contextId !in s.contexts && request.ueAppId in s.ueIndex {
      assert s'.contexts[contextId].ueAppId == request.ueAppId && s'.ueIndex[request.ueAppId] != contextId;
    }
  }

  lemma CreateKeepsValid(s: ProxyState, clientAddress: string, request: AppContext, contextId: string)
    requires Valid(s) && request.Valid()
    requires Accepts(s, clientAddress, request, contextId) ==> contextId !in s.contexts && request.ueAppId !in s.ueIndex
    ensures Valid(Create(s, clientAddress, request, contextId))
  {
    if Accepts(s, clientAddress, request, contextId) {
      CreateKeepsInverseIff(s, clientAddress, request, contextId);
    }
  }

  // ---- Updating and deleting contexts

  function Update(s: ProxyState, ueAppId: string, callback: string): ProxyState {
    if ueAppId in s.ueIndex && s.ueIndex[ueAppId] in s.contexts then
      var id := s.ueIndex[ueAppId];
      s.(contexts := s.contexts[id := s.contexts[id].(callback := callback)])
    else
      s
  }

  /** The state without some contexts, in both indices; those that are not there do not matter. */
  function Without(s: ProxyState, ids: set<string>): ProxyState {
    s.(contexts := s.contexts - ids,
       ueIndex := map ue <- s.ueIndex | s.ueIndex[ue] !in ids :: s.ueIndex[ue])
  }

  /** The context of the UE application gets the new callback; nothing else changes. */
  lemma UpdateChangesOneCallback(s: ProxyState, ueAppId: string, callback: string)
    requires Inverse(s.contexts, s.ueIndex)
    ensures Update(s, ueAppId, callback) == s.(contexts := map id <- s.contexts ::
      if s.contexts[id].ueAppId == ueAppId then s.contexts[id].(callback := callback) else s.contexts[id])
  {
  }

  lemma UpdateKeepsValid(s: ProxyState, ueAppId: string, callback: string)
    requires Valid(s)
    ensures Valid(Update(s, ueAppId, callback))
    ensures Update(s, ueAppId, callback).contexts.Keys == s.contexts.Keys
  {
  }

  lemma WithoutKeepsValid(s: ProxyState, ids: set<string>)
    requires Valid(s)
    ensures Valid(Without(s, ids))
  {
  }

  /** Erasing a context and its UE application ID, if there, is all it takes to be without it. */
  lemma WithoutOne(s: ProxyState, id: string)
    requires Inverse(s.contexts, s.ueIndex)
    ensures Without(s, {id}) ==
      if id in s.contexts then s.(contexts := s.contexts - {id}, ueIndex := s.ueIndex - {s.contexts[id].ueAppId}) else s
  {
  }

  lemma WithoutNone(s: ProxyState)
    ensures Without(s, {}) == s
  {
  }

  lemma WithoutTwice(s: ProxyState, ids: set<string>, more: set<string>)
    ensures Without(Without(s, ids), more) == Without(s, ids + more)
  {
  }

  /** Deleting a context that has just been created under new identifiers restores the state. */
  lemma DeleteUndoesCreate(s: ProxyState, clientAddress: string, request: AppContext, contextId: string)
    requires Inverse(s.contexts, s.ueIndex) && contextId !in s.contexts && request.ueAppId !in s.ueIndex
    ensures Without(Create(s, clientAddress, request, contextId), {contextId}) == s
  {
    hide Accepts;
  }

  /** Changes of the list of applications leave the contexts alone, even those of an application that is removed. */
  function ChangeApplications(s: ProxyState, change: Change): ProxyState {
    s.(applications := Apply(s.applications, change))
  }
}
