/**
 The static UE application LCM proxy. Each method is what its counterpart does while holding the mutex; the
 loops over the contexts take them in any order.

 The code asserts a number of things as it goes. Where an assertion can fail, the method says in
 `assertionsHeld` whether all of them did, and goes on as its comments intend: a context without a route is skipped.
 */
module StaticProxy {
  import opened Wrappers
  import opened RoutingTable
  import opened UeAppLcmProxyBase
  import opened ProxyModel

  datatype EditError = EmptyAppName | EmptyEdgeRouter

  datatype LookupError = EmptyAddress | EmptyName

  /** What comes of posting one notification. */
  datatype PostResult = InvalidUri | NoContent | OtherStatus | Exception

  class StaticUeAppLcmProxy {
    const base: UeAppLcmProxy
    var table: Table
    var contexts: Contexts
    var ueIndex: UeIndex

    ghost function State(): ProxyState
      reads this, base
    {
      ProxyState(table, contexts, ueIndex, base.applications)
    }

    constructor ()
      ensures fresh(base) && State() == EMPTY && Valid(State())
    {
      base := new UeAppLcmProxy();
      table, contexts, ueIndex := map[], map[], map[];
    }

    // ---- The address table

    /**
     Enters an association and brings all contexts in line; returns the notifications to post once the mutex is free.
     */
    method AssociateLocked(address: string, appName: string, edgeRouter: string)
      returns (result: Result<seq<Notification>, EditError>, assertionsHeld: bool)
      requires Valid(State())
      modifies this`table, this`contexts
      ensures Valid(State())
      ensures result.Success? <==> appName != "" && edgeRouter != ""
      ensures result.Failure? ==> State() == old(State()) && assertionsHeld
      ensures result.Failure? ==> result.error == if appName == "" then EmptyAppName else EmptyEdgeRouter
      ensures result.Success? ==>
        State() == Associate(old(State()), address, appName, edgeRouter) &&
        Exact(old(contexts), contexts, result.value)
      ensures result.Success? ==> (assertionsHeld <==>
        Repeated(old(table), address, appName, edgeRouter) || ServesAllOrphans(old(contexts), address, appName))
    {
      hide Exact, ServesAllOrphans, AllRouted;
      if appName == "" {
        return Failure(EmptyAppName), true;
      }
      if edgeRouter == "" {
        return Failure(EmptyEdgeRouter), true;
      }
      var key := AddressAppKey(address, appName);
      if key in table && table[key] == edgeRouter {
        RepeatedAssociationIsNoOp(State(), address, appName, edgeRouter);
        ExactNothingChanged(contexts, []);
        return Success([]), true;
      }
      ghost var before := State();
      table := table[key := edgeRouter];
      var notifications;
      notifications, assertionsHeld := PatchContexts(address, appName, edgeRouter, before);
      EditsKeepValid(before, address, appName, edgeRouter);
      AssertionHoldsIff(before, address, appName, edgeRouter);
      result := Success(notifications);
    }

    /** The loop over the contexts after an association has been entered. */
    method PatchContexts(address: string, appName: string, edgeRouter: string, ghost before: ProxyState)
      returns (notifications: seq<Notification>, assertionsHeld: bool)
      requires edgeRouter != "" && Coherent(before.table, before.contexts)
      requires contexts == before.contexts && table == before.table[AddressAppKey(address, appName) := edgeRouter]
      modifies this`contexts
      ensures contexts == Reroute(table, before.contexts)
      ensures Exact(before.contexts, contexts, notifications)
      ensures assertionsHeld <==> AllRouted(table, before.contexts, appName)
    {
      hide Exact, Underway;
      UnderwayEnds(table, before.contexts, contexts);
      notifications, assertionsHeld := [], true;
      ExactNothingChanged(contexts, []);
      var todo := contexts.Keys;
      while todo != {}
        invariant todo <= contexts.Keys == before.contexts.Keys
        invariant Underway(table, before.contexts, contexts, todo)
        invariant Exact(before.contexts, contexts, notifications)
        invariant assertionsHeld <==>
          forall id <- before.contexts.Keys - todo | before.contexts[id].appName == appName ::
            Find(table, before.contexts[id].clientAddress, before.contexts[id].appName).Some?
      {
        var id :| id in todo;
        UnderwayStep(table, before.contexts, contexts, todo, id);
        todo := todo - {id};
        var desc := contexts[id];
        assert contexts[id := desc] == contexts;
        PatchedIsRerouted(before.table, address, appName, edgeRouter, desc);
        if desc.appName == appName {
          var found := Find(table, desc.clientAddress, desc.appName);
          if found.None? {
            assertionsHeld := false;
          } else if table[found.value] != desc.edgeRouter {
            ExactExtends(before.contexts, contexts, notifications, id, edgeRouter);
            notifications := notifications + [Notification(desc.callback, edgeRouter, id)];
            contexts := contexts[id := desc.(edgeRouter := edgeRouter)];
          }
        }
      }
      UnderwayEnds(table, before.contexts, contexts);
    }

    /** Drops an association, if there is one, and brings all contexts in line. */
    method RemoveLocked(address: string, appName: string)
      returns (result: Result<seq<Notification>, EditError>)
      requires Valid(State())
      modifies this`table, this`contexts
      ensures Valid(State())
      ensures result.Success? <==> appName != ""
      ensures result.Failure? ==> State() == old(State()) && result.error == EmptyAppName
      ensures result.Success? ==>
        State() == Remove(old(State()), address, appName) &&
        Exact(old(contexts), contexts, result.value)
    {
      hide Exact;
      if appName == "" {
        return Failure(EmptyAppName);
      }
      ghost var before := State();
      var key := AddressAppKey(address, appName);
      if key in table {
        table := table - {key};
      }
      assert table == before.table - {key};

      var notifications := FallBack(address, appName, before);
      EditsKeepValid(before, address, appName, "unused");
      result := Success(notifications);
    }

    /** The loop over the contexts after an association has been dropped. */
    method FallBack(address: string, appName: string, ghost before: ProxyState)
      returns (notifications: seq<Notification>)
      requires WellFormed(before.table) && Coherent(before.table, before.contexts)
      requires contexts == before.contexts && table == before.table - {AddressAppKey(address, appName)}
      modifies this`contexts
      ensures contexts == Reroute(table, before.contexts)
      ensures Exact(before.contexts, contexts, notifications)
    {
      hide Exact, Underway, Route;
      UnderwayEnds(table, before.contexts, contexts);
      notifications := [];
      ExactNothingChanged(contexts, []);
      var todo := contexts.Keys;
      while todo != {}
        invariant todo <= contexts.Keys == before.contexts.Keys
        invariant Underway(table, before.contexts, contexts, todo)
        invariant Exact(before.contexts, contexts, notifications)
      {
        var id :| id in todo;
        UnderwayStep(table, before.contexts, contexts, todo, id);
        todo := todo - {id};
        var desc := contexts[id];
        assert contexts[id := desc] == contexts;
        if desc.appName == appName {
          RouteIsFound(table, desc.clientAddress, desc.appName);
          var found := Find(table, desc.clientAddress, desc.appName);
          if found.None? {
            ExactSilent(before.contexts, contexts, notifications, id);
            contexts := contexts[id := desc.(edgeRouter := "")];
          } else if table[found.value] != desc.edgeRouter {
            var edgeRouter := table[found.value];
            assert edgeRouter != "";
            ExactExtends(before.contexts, contexts, notifications, id, edgeRouter);
            contexts := contexts[id := desc.(edgeRouter := edgeRouter)];
            notifications := notifications + [Notification(desc.callback, edgeRouter, id)];
          }
        } else {
          RouteAfterRemove(before.table, AddressAppKey(address, appName), desc.clientAddress, desc.appName);
        }
      }
      UnderwayEnds(table, before.contexts, contexts);
    }

    /**
     Enters an association and then posts the notifications, nothing else happening meanwhile. All assertions on the
     way hold exactly if the edited entry serves all orphans, unless it is there already, and every context it moves
     has a callback.
     */
    method AssociateAddress(address: string, appName: string, edgeRouter: string, post: Notification -> PostResult)
      returns (result: Result<seq<Notification>, EditError>, assertionsHeld: bool)
      requires Valid(State())
      modifies this
      ensures Valid(State())
      ensures result.Success? <==> appName != "" && edgeRouter != ""
      ensures result.Failure? ==> State() == old(State()) && assertionsHeld
      ensures result.Success? ==>
        var edited := Associate(old(State()), address, appName, edgeRouter);
        Exact(old(contexts), edited.contexts, result.value) &&
        State() == Without(edited, BadlyAnswered(result.value, post))
      ensures result.Success? ==> (assertionsHeld <==>
        (Repeated(old(table), address, appName, edgeRouter) || ServesAllOrphans(old(contexts), address, appName)) &&
        MovedHaveCallbacks(old(State()), Enter(address, appName, edgeRouter)))
    {
      hide Exact, ServesAllOrphans, MovedHaveCallbacks;
      ghost var before := State();
      result, assertionsHeld := AssociateLocked(address, appName, edgeRouter);
      if result.Success? {
        CompleteIffMovedHaveCallbacks(before, Enter(address, appName, edgeRouter), result.value);
        var _, complete := NotifyClients(result.value, post);
        assertionsHeld := assertionsHeld && complete;
      }
    }

    /**
     Drops an association and then posts the notifications, nothing else happening meanwhile. All assertions on the
     way hold exactly if every context that the edit moves has a callback.
     */
    method RemoveAddress(address: string, appName: string, post: Notification -> PostResult)
      returns (result: Result<seq<Notification>, EditError>, assertionsHeld: bool)
      requires Valid(State())
      modifies this
      ensures Valid(State())
      ensures result.Success? <==> appName != ""
      ensures result.Failure? ==> State() == old(State()) && assertionsHeld
      ensures result.Success? ==>
        var edited := Remove(old(State()), address, appName);
        Exact(old(contexts), edited.contexts, result.value) &&
        State() == Without(edited, BadlyAnswered(result.value, post))
      ensures result.Success? ==> (assertionsHeld <==> MovedHaveCallbacks(old(State()), Drop(address, appName)))
    {
      hide Exact, MovedHaveCallbacks;
      ghost var before := State();
      assertionsHeld := true;
      result := RemoveLocked(address, appName);
      if result.Success? {
        CompleteIffMovedHaveCallbacks(before, Drop(address, appName), result.value);
        var _, complete := NotifyClients(result.value, post);
        assertionsHeld := complete;
      }
    }

    method NumAddresses() returns (n: nat)
      ensures n == |table|
    {
      n := |table|;
    }

    /** The number of contexts, the same in both indices. */
    method NumContexts() returns (n: nat)
      requires Valid(State())
      ensures n == |contexts| == |ueIndex|
    {
      InverseSameSize(contexts, ueIndex);
      n := |contexts|;
    }

    /** The end-point for a client, empty if there is none. */
    method EdgeRouter(address: string, appName: string) returns (router: Result<string, LookupError>)
      requires Valid(State())
      ensures router.Failure? <==> address == "" || appName == ""
      ensures router.Failure? ==> router.error == if address == "" then EmptyAddress else EmptyName
      ensures router.Success? ==> router.value == Route(table, address, appName)
      ensures router.Success? ==> forall id <- contexts ::
        contexts[id].clientAddress == address && contexts[id].appName == appName ==>
          contexts[id].edgeRouter == router.value
    {
      if address == "" {
        return Failure(EmptyAddress);
      }
      if appName == "" {
        return Failure(EmptyName);
      }
      match Find(table, address, appName)
      case None => router := Success("");
      case Some(key) => router := Success(table[key]);
    }

    /** The table as a list of tuples, in any order. */
    method AddressAssociations() returns (entries: seq<(string, string, string)>)
      ensures Lists(entries, table)
    {
      entries := [];
      var todo := table.Keys;
      while todo != {}
        invariant todo <= table.Keys
        invariant Lists(entries, map key <- table | key !in todo :: table[key])
      {
        var key :| key in todo;
        todo := todo - {key};
        entries := entries + [(key.address, key.appName, table[key])];
        assert key == AddressAppKey(key.address, key.appName);
      }
      assert table == map key <- table | key !in todo :: table[key];
    }

    // ---- The contexts

    /**
     The answer to a creation request, and whether both identifiers proved to be new. A request for an application
     that is not listed, or that has no route, comes back as it is; an accepted one comes back with no more than the
     context ID and the end-point filled in.
     */
    method CreateContext(clientAddress: string, request: AppContext, uuid: string)
      returns (reply: Result<AppContext, CreateError>, assertionsHeld: bool)
      requires Valid(State()) && request.Valid()
      modifies this`contexts, this`ueIndex
      ensures var info := request.appInfo; var router := Route(table, clientAddress, info.appName);
        var listed := Mangle(info) in base.applications;
        var routed := exists key <- table :: Matches(key, clientAddress, info.appName);
        if !listed || !routed then
          reply == Success(request) && State() == old(State())
        else if request.contextId != "" || uuid == "" || !info.message.AppContextRequest? then
          reply.Failure? && State() == old(State())
        else
          && reply == Success(request.(contextId := uuid, appInfo := info.(message := AppContextResponse(router))))
          && (uuid !in old(contexts) ==> contexts == old(contexts)[
               uuid := Desc(request.ueAppId, request.callback, clientAddress, info.appName, router)])
          && (request.ueAppId !in old(ueIndex) ==> ueIndex == old(ueIndex)[request.ueAppId := uuid])
      ensures reply.Failure? ==>
        reply.error == if request.contextId == "" && uuid == "" then EmptyContextId else WrongMessageType
      ensures State() == Create(old(State()), clientAddress, request, uuid)
      ensures reply == CreateReply(old(State()), clientAddress, request, uuid)
      ensures assertionsHeld <==>
        (Accepts(old(State()), clientAddress, request, uuid) ==>
          uuid !in old(contexts) && request.ueAppId !in old(ueIndex))
      ensures assertionsHeld ==> Valid(State())
    {
      assertionsHeld := true;
      ghost var before := State();
      FindIsMostSpecific(table, clientAddress, request.appInfo.appName);
      RouteEmptyIffUnrouted(table, clientAddress, request.appInfo.appName);
      if !base.Exists(request.appInfo) {
        return Success(request), true;
      }
      var found := Find(table, clientAddress, request.appInfo.appName);
      if found.None? {
        return Success(request), true;
      }
      reply := MakeResponse(request, uuid, table[found.value]);
      if reply.Failure? {
        return;
      }
      var desc := Desc(request.ueAppId, request.callback, clientAddress, request.appInfo.appName, table[found.value]);
      if uuid in contexts {
        assertionsHeld := false;
      } else {
        contexts := contexts[uuid := desc];
      }
      if request.ueAppId in ueIndex {
        assertionsHeld := false;
      } else {
        ueIndex := ueIndex[request.ueAppId := uuid];
      }
      if assertionsHeld {
        CreateKeepsValid(before, clientAddress, request, uuid);
      }
    }

    /** Changes the callback of the context of a UE application. */
    method UpdateContext(request: AppContext) returns (updated: bool)
      requires Valid(State())
      modifies this`contexts
      ensures State() == Update(old(State()), request.ueAppId, request.callback)
      ensures updated <==> request.ueAppId in ueIndex
      ensures Valid(State())
    {
      UpdateKeepsValid(State(), request.ueAppId, request.callback);
      if request.ueAppId !in ueIndex {
        return false;
      }
      var id := ueIndex[request.ueAppId];
      contexts := contexts[id := contexts[id].(callback := request.callback)];
      return true;
    }

    method DeleteContext(contextId: string) returns (deleted: bool)
      requires Valid(State())
      modifies this`contexts, this`ueIndex
      ensures State() == Without(old(State()), {contextId})
      ensures deleted <==> contextId in old(contexts)
      ensures Valid(State())
    {
      WithoutKeepsValid(State(), {contextId});
      WithoutOne(State(), contextId);
      if contextId !in contexts {
        return false;
      }
      var ueAppId := contexts[contextId].ueAppId;
      assert ueAppId in ueIndex;
      contexts := contexts - {contextId};
      ueIndex := ueIndex - {ueAppId};
      return true;
    }

    method Purge(contextId: string) returns (purged: bool)
      requires Valid(State())
      modifies this`contexts, this`ueIndex
      ensures State() == Without(old(State()), {contextId})
      ensures purged <==> contextId in old(contexts)
      ensures Valid(State())
    {
      WithoutKeepsValid(State(), {contextId});
      WithoutOne(State(), contextId);
      if contextId !in contexts {
        return false;
      }
      var ueAppId := contexts[contextId].ueAppId;
      if ueAppId in ueIndex {
        ueIndex := ueIndex - {ueAppId};
      }
      contexts := contexts - {contextId};
      InverseSameSize(contexts, ueIndex);
      return true;
    }

    /** Posts the notifications in order; a bad reply purges the context, anything else leaves it alone. */
    method NotifyClients(notifications: seq<Notification>, post: Notification -> PostResult)
      returns (purged: set<string>, assertionsHeld: bool)
      requires Valid(State())
      modifies this`contexts, this`ueIndex
      ensures Valid(State())
      ensures State() == Without(old(State()), BadlyAnswered(notifications, post))
      ensures purged == BadlyAnswered(notifications, post) * old(contexts).Keys
      ensures assertionsHeld <==> AllComplete(notifications)
    {
      hide Valid, BadlyAnswered;
      purged, assertionsHeld := {}, true;
      ghost var before := State();
      BadlyAnsweredNone(post);
      assert Without(before, {}) == before;
      for i := 0 to |notifications|
        invariant Valid(State())
        invariant State() == Without(before, BadlyAnswered(notifications[..i], post))
        invariant purged == BadlyAnswered(notifications[..i], post) * before.contexts.Keys
        invariant assertionsHeld <==>
          forall n <- notifications[..i] :: n.callback != "" && n.router != "" && n.contextId != ""
      {
        var n := notifications[i];
        assert notifications[..i + 1] == notifications[..i] + [n];
        if n.callback == "" || n.router == "" || n.contextId == "" {
          assertionsHeld := false;
        }
        BadlyAnsweredStep(notifications[..i], n, post);
        WithoutTwice(before, BadlyAnswered(notifications[..i], post), {n.contextId});
        if post(n) == OtherStatus {
          var done := Purge(n.contextId);
          if done {
            purged := purged + {n.contextId};
          }
        }
      }
      assert notifications[..|notifications|] == notifications;
    }
  }

  /** The contexts whose notification got a reply other than the expected one. */
  ghost function BadlyAnswered(notifications: seq<Notification>, post: Notification -> PostResult): set<string> {
    set n <- notifications | post(n) == OtherStatus :: n.contextId
  }

  lemma BadlyAnsweredNone(post: Notification -> PostResult)
    ensures BadlyAnswered([], post) == {}
  {
  }

  lemma BadlyAnsweredStep(notifications: seq<Notification>, n: Notification, post: Notification -> PostResult)
    ensures BadlyAnswered(notifications + [n], post) ==
      BadlyAnswered(notifications, post) + if post(n) == OtherStatus then {n.contextId} else {}
  {
  }

  /** The contexts in `todo` are as before, the others have been assigned afresh. */
  ghost predicate Underway(table: Table, before: Contexts, now: Contexts, todo: set<string>) {
    && now.Keys == before.Keys
    && (forall id <- now :: now[id] == if id in todo then before[id] else Rerouted(table, before[id]))
  }

  lemma UnderwayStep(table: Table, before: Contexts, now: Contexts, todo: set<string>, id: string)
    requires Underway(table, before, now, todo) && id in todo && todo <= now.Keys
    ensures id in before && now[id] == before[id]
    ensures Underway(table, before, now[id := Rerouted(table, before[id])], todo - {id})
  {
  }

  lemma UnderwayEnds(table: Table, before: Contexts, now: Contexts)
    ensures before == now ==> Underway(table, before, now, before.Keys)
    ensures Underway(table, before, now, {}) ==> now == Reroute(table, before)
  {
  }

  lemma RouteIsFound(table: Table, address: string, appName: string)
    ensures var found := Find(table, address, appName);
      Route(table, address, appName) == if found.Some? then table[found.value] else ""
  {
  }

  /** A context that loses its route needs no notification. */
  lemma ExactSilent(before: Contexts, now: Contexts, notifications: seq<Notification>, id: string)
    requires before.Keys == now.Keys && Exact(before, now, notifications)
    requires id in now && now[id] == before[id]
    ensures Exact(before, now[id := now[id].(edgeRouter := "")], notifications)
  {
  }

  /** One more context has moved to `edgeRouter`, and one more notification says so. */
  lemma ExactExtends(before: Contexts, now: Contexts, notifications: seq<Notification>, id: string, edgeRouter: string)
    requires before.Keys == now.Keys && Exact(before, now, notifications)
    requires id in now && now[id] == before[id] && edgeRouter != "" && now[id].edgeRouter != edgeRouter
    ensures Exact(before, now[id := now[id].(edgeRouter := edgeRouter)],
                  notifications + [Notification(now[id].callback, edgeRouter, id)])
  {
  }

  /** The tuples are the entries of the table, each exactly once. */
  ghost predicate Lists(entries: seq<(string, string, string)>, table: Table) {
    && (forall e <- entries :: AddressAppKey(e.0, e.1) in table && table[AddressAppKey(e.0, e.1)] == e.2)
    && (forall key <- table :: (key.address, key.appName, table[key]) in entries)
    && (forall i, j | 0 <= i < j < |entries| :: entries[i] != entries[j])
  }
}
