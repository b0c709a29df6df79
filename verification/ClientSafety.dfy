/**
 What the clients can rely on whatever the network does to notifications: lost, repeated, delivered in any order,
 long after they were given up, or before the creation reply.
 */
module ClientSafety {
  import opened Wrappers
  import opened RoutingTable
  import opened ProxyModel
  import opened ClientManager
  import opened ClosedSystem
  import Net = ProxySystem

  // ---- Invariants

  /** Every context ID ever issued has one owner, and no two share an application. */
  ghost predicate Owned(s: System) {
    && s.owner.Keys == s.net.issued
    && (forall id <- s.owner :: IsSegment(s.owner[id].ueAppId))
    && (forall id <- s.owner, other <- s.owner :: s.owner[id].ueAppId == s.owner[other].ueAppId ==> id == other)
  }

  /**
   Active contexts belong to their owners, and their end-point is the last of their history unless they are orphans.
   */
  ghost predicate Recorded(s: System) {
    && s.history.Keys == s.net.issued
    && (forall id <- s.history :: s.history[id] != [] && "" !in s.history[id])
    && (forall id <- s.net.proxy.contexts ::
          id in s.owner && id in s.history && RecordedOne(s.net.proxy.contexts[id], s.owner[id], s.history[id]))
  }

  ghost predicate RecordedOne(desc: Desc, owner: Owner, history: seq<string>) {
    && desc.callback == owner.Callback() && desc.ueAppId == owner.ueAppId
    && (desc.edgeRouter != "" ==> history != [] && Last(history) == desc.edgeRouter)
  }

  /** Notifications, posted or not, are for the owner of their context and carry an end-point it was assigned. */
  ghost predicate Addressed(s: System) {
    forall worker <- s.net.workers, n <- worker.batch :: AddressedOne(s.owner, s.history, n)
  }

  ghost predicate LateAddressed(s: System) {
    forall n <- s.late :: AddressedOne(s.owner, s.history, n)
  }

  ghost predicate AddressedOne(owner: map<string, Owner>, history: map<string, seq<string>>, n: Notification) {
    && n.contextId in owner && n.callback == owner[n.contextId].Callback()
    && n.contextId in history && n.router in history[n.contextId]
  }

  /** Managers hold, under each application, its own context and an end-point assigned to that context. */
  ghost predicate Genuine(s: System) {
    forall uri <- s.managers, ueAppId <- s.managers[uri].contexts ::
      GenuineOne(s.owner, s.history, Owner(uri, ueAppId), s.managers[uri].contexts[ueAppId])
  }

  ghost predicate GenuineOne(owner: map<string, Owner>, history: map<string, seq<string>>, o: Owner, desc: ClientDesc) {
    && desc.contextId in owner && owner[desc.contextId] == o
    && desc.contextId in history && desc.referenceUri in history[desc.contextId]
  }

  ghost predicate RepliesGenuine(s: System) {
    forall id <- s.inFlight :: id in s.owner && id in s.history && s.inFlight[id] in s.history[id]
  }

  ghost predicate Safe(s: System) {
    && Net.Inv(s.net) && Owned(s) && Recorded(s) && Addressed(s) && LateAddressed(s)
    && Genuine(s) && RepliesGenuine(s)
  }

  // ---- Owners and histories only grow

  ghost predicate Grows(s: System, s': System) {
    && (forall id <- s.owner :: id in s'.owner && s'.owner[id] == s.owner[id])
    && (forall id <- s.history :: id in s'.history && s.history[id] <= s'.history[id])
  }

  lemma StepKeepsNet(s: System, event: Event, s': System)
    requires Net.Inv(s.net) && Step(s, event, s')
    ensures Net.Inv(s'.net)
  {
    hide Net.Step, Net.Inv;
    if AtProxy(s, event).Some? {
      Net.StepKeepsInv(s.net, AtProxy(s, event).value, s'.net);
    }
  }

  // ---- What the events do to the parts the invariants speak of

  /** Events that neither create a context nor edit the table. */
  lemma OtherStep(s: System, event: Event, s': System)
    requires Step(s, event, s') && !event.CreateContext? && !event.EditTable?
    ensures s'.owner == s.owner && s'.history == s.history && s'.net.issued == s.net.issued
    ensures forall id <- s'.net.proxy.contexts ::
      id in s.net.proxy.contexts && s'.net.proxy.contexts[id] == s.net.proxy.contexts[id]
    ensures |s'.net.workers| == |s.net.workers|
    ensures forall i | 0 <= i < |s.net.workers| :: s'.net.workers[i].batch == s.net.workers[i].batch
  {
    hide Deliver, Reaches, Extend;
  }

  lemma EditStep(s: System, event: Event, s': System)
    requires Step(s, event, s') && event.EditTable?
    ensures s' == s.(net := s'.net, history := Extend(s.history, s.net.proxy.contexts, s'.net.proxy.contexts))
    ensures s'.net == s.net.(proxy := s'.net.proxy, workers := s'.net.workers)
    ensures s'.net.proxy.contexts.Keys == s.net.proxy.contexts.Keys
    ensures forall id <- s.net.proxy.contexts ::
      s'.net.proxy.contexts[id] == s.net.proxy.contexts[id].(edgeRouter := s'.net.proxy.contexts[id].edgeRouter)
    ensures |s'.net.workers| == |s.net.workers| + 1 && s'.net.workers[..|s.net.workers|] == s.net.workers
    ensures var added := s'.net.workers[|s.net.workers|];
      added == Net.Worker(added.batch, [], None) && Exact(s.net.proxy.contexts, s'.net.proxy.contexts, added.batch)
  {
    hide Exact, Route, Extend;
  }

  /** A creation leaves the workers alone and adds the context, its owner and its history, or nothing at all. */
  lemma CreateStep(s: System, event: Event, s': System) returns (added: Option<Desc>)
    requires Valid(s.net.proxy) && Net.Accounted(s.net) && Step(s, event, s') && event.CreateContext?
    ensures event.contextId !in s.net.issued
    ensures IsSegment(event.ueAppId) && forall id <- s.owner :: s.owner[id].ueAppId != event.ueAppId
    ensures s'.net.workers == s.net.workers && s'.managers == s.managers
    ensures s'.adrift == s.adrift && s'.missed == s.missed
    ensures s'.net.deleted == s.net.deleted && s'.net.purged == s.net.purged
    ensures added.None? ==>
      && s'.net.issued == s.net.issued && s'.net.proxy.contexts == s.net.proxy.contexts
      && s'.owner == s.owner && s'.history == s.history && s'.inFlight == s.inFlight
    ensures added.Some? ==>
      var id, o, desc := event.contextId, Owner(event.uri, event.ueAppId), added.value;
      && desc.ueAppId == o.ueAppId && desc.callback == o.Callback() && desc.edgeRouter != ""
      && s'.net.issued == s.net.issued + {id} && s'.net.proxy.contexts == s.net.proxy.contexts[id := desc]
      && s'.owner == s.owner[id := o] && s'.history == s.history[id := [desc.edgeRouter]]
      && s'.inFlight == s.inFlight[id := desc.edgeRouter]
  {
    var id := event.contextId;
    if id in s'.net.proxy.contexts {
      added := Some(s'.net.proxy.contexts[id]);
    } else {
      added := None;
    }
  }

  /** An event that takes a notification to a manager changes no more than an end-point that one holds. */
  lemma CarryStep(s: System, event: Event, s': System)
    requires Step(s, event, s') && Carried(s, event).Some?
    ensures s'.managers.Keys == s.managers.Keys && s'.inFlight == s.inFlight && s'.adrift == s.adrift
    ensures forall uri <- s.managers :: ManagerAfter(s.managers[uri], Carried(s, event).value, uri, s'.managers[uri])
  {
    hide Net.Step, HandOver, AtProxy, Todo, Addressee, ManagerAfter;
    var n := Carried(s, event).value;
    if event.Post? {
      var late := if event.fate == Delayed then s.late + {n} else s.late;
      HandOverStep(s.(net := s'.net, late := late), n, Received(s.managers, n, event.fate));
    } else {
      HandOverStep(s, n, Reaches(s.managers, n));
    }
  }

  /**
   Where an entry of a manager comes from: it was there, or a creation reply or a notification has just written it.
   */
  lemma EntryStep(s: System, event: Event, s': System, uri: string, ueAppId: string)
    requires Step(s, event, s') && uri in s'.managers && ueAppId in s'.managers[uri].contexts
    ensures var entry := s'.managers[uri].contexts[ueAppId];
      || (uri in s.managers && ueAppId in s.managers[uri].contexts && entry == s.managers[uri].contexts[ueAppId])
      || (event.StoreReply? && event.contextId in s.inFlight && event.contextId in s.owner &&
          s.owner[event.contextId] == Owner(uri, ueAppId) &&
          entry == ClientDesc(s.inFlight[event.contextId], event.contextId))
      || (Carried(s, event).Some? && var n := Carried(s, event).value;
          Addressee(n.callback) == Owner(uri, ueAppId) && uri in s.managers && ueAppId in s.managers[uri].contexts &&
          entry == s.managers[uri].contexts[ueAppId].(referenceUri := n.router))
  {
    hide Net.Step, Extend, HandOver, AtProxy;
    if Carried(s, event).Some? {
      CarryStep(s, event, s');
    }
  }

  /** A notification may arrive late because it was to, or because it has just been given up. */
  lemma LateStep(s: System, event: Event, s': System)
    requires Step(s, event, s')
    ensures forall n <- s'.late ::
      n in s.late || (event.Post? && CanPost(s, event.worker) && n == Head(s, event.worker))
  {
    hide Net.Step, Extend, Reaches;
  }

  /** What an event takes to a manager is about a context of the application that it is addressed to. */
  lemma CarriedIsAddressed(s: System, event: Event)
    requires Safe(s) && Enabled(s, event) && Carried(s, event).Some?
    ensures var n := Carried(s, event).value;
      && AddressedOne(s.owner, s.history, n)
      && Addressee(n.callback) == s.owner[n.contextId] && Addressee(n.callback).ueAppId != ""
  {
    hide Net.Inv, Recorded, Genuine, RepliesGenuine;
    var n := Carried(s, event).value;
    assert AddressedOne(s.owner, s.history, n) by {
      if event.Post? {
        assert s.net.workers[event.worker] in s.net.workers && n in s.net.workers[event.worker].batch;
      }
    }
    AddresseeOfCallback(s.owner[n.contextId]);
  }

  // ---- Each step keeps the invariants

  lemma StepKeepsOwned(s: System, event: Event, s': System)
    requires Safe(s) && Step(s, event, s')
    ensures Owned(s')
  {
    hide Step, Net.Inv, Recorded, Addressed, LateAddressed, Genuine, RepliesGenuine;
    hide Valid, Net.Accounted, Exact, Extend;
    if event.CreateContext? {
      NetInvParts(s);
      var added := CreateStep(s, event, s');
    } else if event.EditTable? {
      EditStep(s, event, s');
    } else {
      OtherStep(s, event, s');
    }
  }

  lemma NetInvParts(s: System)
    requires Net.Inv(s.net)
    ensures Valid(s.net.proxy) && Net.Accounted(s.net)
    ensures forall id <- s.net.proxy.contexts :: id in s.net.issued
  {
  }

  lemma ExtendedHistory(history: map<string, seq<string>>, before: Contexts, after: Contexts, id: string)
    requires id in history
    ensures id in Extend(history, before, after)
    ensures history[id] <= Extend(history, before, after)[id]
    ensures Extend(history, before, after)[id] ==
      if id in before && id in after && before[id].edgeRouter != after[id].edgeRouter && after[id].edgeRouter != ""
      then history[id] + [after[id].edgeRouter] else history[id]
  {
  }

  lemma KeysAreIssued(s: System)
    requires Owned(s) && Recorded(s)
    ensures s.owner.Keys == s.history.Keys == s.net.issued
  {
  }

  lemma CreateGrows(s: System, event: Event, s': System)
    requires Safe(s) && Step(s, event, s') && event.CreateContext?
    ensures Grows(s, s')
  {
    hide Step, Net.Inv, Owned, Recorded, Addressed, LateAddressed, Genuine, RepliesGenuine, Valid, Net.Accounted, Grows;
    KeysAreIssued(s);
    NetInvParts(s);
    var added := CreateStep(s, event, s');
    if added.Some? {
      OneMoreGrows(s, s', event.contextId, Owner(event.uri, event.ueAppId), added.value.edgeRouter);
    } else {
      SameGrows(s, s');
    }
  }

  lemma OneMoreGrows(s: System, s': System, id: string, o: Owner, router: string)
    requires id !in s.owner.Keys && id !in s.history.Keys
    requires s'.owner == s.owner[id := o] && s'.history == s.history[id := [router]]
    ensures Grows(s, s')
  {
  }

  lemma SameGrows(s: System, s': System)
    requires s'.owner == s.owner && s'.history == s.history
    ensures Grows(s, s')
  {
  }

  lemma StepGrows(s: System, event: Event, s': System)
    requires Safe(s) && Step(s, event, s')
    ensures Grows(s, s')
  {
    hide Step, Safe, Extend, Exact;
    if event.CreateContext? {
      CreateGrows(s, event, s');
    } else if event.EditTable? {
      EditStep(s, event, s');
      forall id <- s.history ensures id in s'.history && s.history[id] <= s'.history[id] {
        ExtendedHistory(s.history, s.net.proxy.contexts, s'.net.proxy.contexts, id);
      }
    } else {
      OtherStep(s, event, s');
    }
  }

  lemma CreateKeepsRecorded(s: System, event: Event, s': System)
    requires Safe(s) && Step(s, event, s') && event.CreateContext?
    ensures Recorded(s')
  {
    hide Step, Net.Inv, Owned, Addressed, LateAddressed, Genuine, RepliesGenuine, Extend, Valid, Net.Accounted, Exact;
    KeysAreIssued(s);
    NetInvParts(s);
    var added := CreateStep(s, event, s');
    if added.Some? {
      OneMoreRecorded(s, s', event.contextId, Owner(event.uri, event.ueAppId), added.value);
    }
  }

  lemma OneMoreRecorded(s: System, s': System, id: string, o: Owner, desc: Desc)
    requires Recorded(s) && id !in s.net.issued && RecordedOne(desc, o, [desc.edgeRouter]) && desc.edgeRouter != ""
    requires s'.net.issued == s.net.issued + {id} && s'.net.proxy.contexts == s.net.proxy.contexts[id := desc]
    requires s'.owner == s.owner[id := o] && s'.history == s.history[id := [desc.edgeRouter]]
    ensures Recorded(s')
  {
    hide RecordedOne;
  }

  lemma EditKeepsRecorded(s: System, event: Event, s': System)
    requires Safe(s) && Step(s, event, s') && event.EditTable?
    ensures Recorded(s')
  {
    hide Step, Net.Inv, Owned, Addressed, LateAddressed, Genuine, RepliesGenuine, Extend, Exact;
    EditStep(s, event, s');
    HistoriesExtended(s.history, s.net.proxy.contexts, s'.net.proxy.contexts);
    forall id <- s'.net.proxy.contexts
      ensures id in s'.owner && id in s'.history && RecordedOne(s'.net.proxy.contexts[id], s'.owner[id], s'.history[id])
    {
      assert RecordedOne(s.net.proxy.contexts[id], s.owner[id], s.history[id]);
    }
  }

  lemma StepKeepsRecorded(s: System, event: Event, s': System)
    requires Safe(s) && Step(s, event, s')
    ensures Recorded(s')
  {
    hide Step, Net.Inv, Addressed, LateAddressed, Genuine, RepliesGenuine, Extend, RecordedOne;
    if event.CreateContext? {
      CreateKeepsRecorded(s, event, s');
    } else if event.EditTable? {
      EditKeepsRecorded(s, event, s');
    } else {
      OtherStep(s, event, s');
    }
  }

  lemma HistoriesExtended(history: map<string, seq<string>>, before: Contexts, after: Contexts)
    requires forall id <- history :: history[id] != [] && "" !in history[id]
    ensures var extended := Extend(history, before, after);
      && extended.Keys == history.Keys
      && (forall id <- extended :: extended[id] != [] && "" !in extended[id])
      && (forall id <- history ::
            if id in before && id in after &&
               before[id].edgeRouter != after[id].edgeRouter && after[id].edgeRouter != ""
            then Last(extended[id]) == after[id].edgeRouter
            else extended[id] == history[id])
  {
  }

  lemma AddressedGrows(s: System, s': System, n: Notification)
    requires Grows(s, s') && AddressedOne(s.owner, s.history, n)
    ensures AddressedOne(s'.owner, s'.history, n)
  {
  }

  lemma NewNotificationAddressed(s: System, event: Event, s': System, n: Notification)
    requires Safe(s) && Step(s, event, s') && Grows(s, s') && event.EditTable?
    requires |s'.net.workers| == |s.net.workers| + 1 && n in s'.net.workers[|s.net.workers|].batch
    ensures AddressedOne(s'.owner, s'.history, n)
  {
    hide Step, Net.Inv, Addressed, LateAddressed, Genuine, RepliesGenuine, Extend;
    EditStep(s, event, s');
    NetInvParts(s);
    ExtendedHistory(s.history, s.net.proxy.contexts, s'.net.proxy.contexts, n.contextId);
    assert RecordedOne(s.net.proxy.contexts[n.contextId], s.owner[n.contextId], s.history[n.contextId]);
  }

  lemma StepKeepsAddressed(s: System, event: Event, s': System)
    requires Safe(s) && Step(s, event, s')
    ensures Addressed(s')
  {
    hide Step, Net.Inv, Owned, Recorded, Genuine, RepliesGenuine, Grows, AddressedOne, Exact;
    StepGrows(s, event, s');
    NetInvParts(s);
    if event.CreateContext? {
      var added := CreateStep(s, event, s');
    } else if event.EditTable? {
      EditStep(s, event, s');
    } else {
      OtherStep(s, event, s');
    }
    forall i, n | 0 <= i < |s'.net.workers| && n in s'.net.workers[i].batch
      ensures AddressedOne(s'.owner, s'.history, n)
    {
      if i < |s.net.workers| {
        assert s'.net.workers[i].batch == s.net.workers[i].batch by {
          if event.EditTable? {
            assert s'.net.workers[..|s.net.workers|][i] == s'.net.workers[i];
          }
        }
        assert s.net.workers[i] in s.net.workers;
        AddressedGrows(s, s', n);
      } else {
        NewNotificationAddressed(s, event, s', n);
      }
    }
  }

  lemma StepKeepsLateAddressed(s: System, event: Event, s': System)
    requires Safe(s) && Step(s, event, s')
    ensures LateAddressed(s')
  {
    hide Net.Step, AtClients, AtProxy, Net.Inv, Owned, Recorded, Addressed, Genuine, RepliesGenuine;
    hide Grows, AddressedOne, Todo, Head, CanPost;
    StepGrows(s, event, s');
    LateStep(s, event, s');
    forall n <- s'.late ensures AddressedOne(s'.owner, s'.history, n) {
      if n !in s.late {
        CarriedIsAddressed(s, event);
      }
      AddressedGrows(s, s', n);
    }
  }

  lemma GenuineGrows(s: System, s': System, o: Owner, desc: ClientDesc)
    requires Grows(s, s') && GenuineOne(s.owner, s.history, o, desc)
    ensures GenuineOne(s'.owner, s'.history, o, desc)
  {
  }

  lemma StepKeepsGenuine(s: System, event: Event, s': System)
    requires Safe(s) && Step(s, event, s')
    ensures Genuine(s')
  {
    hide Net.Step, AtClients, AtProxy, Enabled, Carried, Net.Inv, Recorded, Grows;
    StepGrows(s, event, s');
    forall uri <- s'.managers, ueAppId <- s'.managers[uri].contexts
      ensures GenuineOne(s'.owner, s'.history, Owner(uri, ueAppId), s'.managers[uri].contexts[ueAppId])
    {
      var o, entry := Owner(uri, ueAppId), s'.managers[uri].contexts[ueAppId];
      EntryStep(s, event, s', uri, ueAppId);
      if Carried(s, event).Some? {
        CarriedIsAddressed(s, event);
      }
      assert GenuineOne(s.owner, s.history, o, entry);
      GenuineGrows(s, s', o, entry);
    }
  }

  /** Where a creation reply in flight comes from. */
  lemma ReplyStep(s: System, event: Event, s': System, id: string)
    requires Step(s, event, s') && id in s'.inFlight
    ensures
      || (id in s.inFlight && s'.inFlight[id] == s.inFlight[id])
      || (event.CreateContext? && event.contextId == id && id in s'.owner &&
          id in s'.history && s'.history[id] == [s'.inFlight[id]])
  {
    hide Net.Step;
  }

  lemma StepKeepsRepliesGenuine(s: System, event: Event, s': System)
    requires Safe(s) && Step(s, event, s')
    ensures RepliesGenuine(s')
  {
    hide Step, Net.Inv, Owned, Recorded, Addressed, LateAddressed, Genuine;
    StepGrows(s, event, s');
    forall id <- s'.inFlight ensures id in s'.owner && id in s'.history && s'.inFlight[id] in s'.history[id] {
      ReplyStep(s, event, s', id);
    }
  }

  lemma StepKeepsSafe(s: System, event: Event, s': System)
    requires Safe(s) && Step(s, event, s')
    ensures Safe(s')
  {
    hide Step, Net.Inv, Owned, Recorded, Addressed, LateAddressed, Genuine, RepliesGenuine;
    StepKeepsNet(s, event, s');
    StepKeepsOwned(s, event, s');
    StepKeepsRecorded(s, event, s');
    StepKeepsAddressed(s, event, s');
    StepKeepsLateAddressed(s, event, s');
    StepKeepsGenuine(s, event, s');
    StepKeepsRepliesGenuine(s, event, s');
  }

  lemma {:induction false} RunKeepsSafe(states: seq<System>, events: seq<Event>, k: nat)
    requires Run(states, events) && k < |states|
    ensures Safe(states[k])
  {
    hide Step, Safe;
    if k == 0 {
      StartIsSafe();
    } else {
      RunKeepsSafe(states, events, k - 1);
      StepKeepsSafe(states[k - 1], events[k - 1], states[k]);
    }
  }

  lemma StartIsSafe()
    ensures Safe(START)
  {
  }

  // ---- What holds at every moment of every run

  /** A new element of a history is an end-point the context has just been given. */
  lemma HistoryStep(s: System, event: Event, s': System, id: string, router: string)
    requires Safe(s) && Step(s, event, s')
    requires id in s'.history && router in s'.history[id]
    ensures
      || (id in s.history && router in s.history[id])
      || (id in s'.net.proxy.contexts && s'.net.proxy.contexts[id].edgeRouter == router)
  {
    hide Step, Net.Inv, Owned, Recorded, Addressed, LateAddressed, Genuine, RepliesGenuine;
    hide Extend, Valid, Net.Accounted, Exact;
    if event.CreateContext? {
      NetInvParts(s);
      var added := CreateStep(s, event, s');
    } else if event.EditTable? {
      EditStep(s, event, s');
      assert s'.history.Keys == s.history.Keys by {
        ExtendKeys(s.history, s.net.proxy.contexts, s'.net.proxy.contexts);
      }
      ExtendedHistory(s.history, s.net.proxy.contexts, s'.net.proxy.contexts, id);
    } else {
      OtherStep(s, event, s');
    }
  }

  lemma ExtendKeys(history: map<string, seq<string>>, before: Contexts, after: Contexts)
    ensures Extend(history, before, after).Keys == history.Keys
  {
  }

  /** Every end-point in the history of a context was once its end-point at the proxy. */
  lemma {:induction false} HistoriesAreReal(states: seq<System>, events: seq<Event>, k: nat, id: string,
    router: string) returns (j: nat)
    requires Run(states, events) && k < |states|
    requires id in states[k].history && router in states[k].history[id]
    ensures j <= k && id in states[j].net.proxy.contexts && states[j].net.proxy.contexts[id].edgeRouter == router
  {
    hide Step, Safe;
    assert k > 0;
    RunKeepsSafe(states, events, k - 1);
    HistoryStep(states[k - 1], events[k - 1], states[k], id, router);
    if id in states[k].net.proxy.contexts && states[k].net.proxy.contexts[id].edgeRouter == router {
      j := k;
    } else {
      j := HistoriesAreReal(states, events, k - 1, id, router);
    }
  }

  /**
   The end-point a manager holds for one of its applications is never empty, and it was assigned by the proxy, at
   that or an earlier moment, to that application's own context. Nothing is assumed about the network.
   */
  lemma ReferencesAreGenuine(states: seq<System>, events: seq<Event>, k: nat, uri: string, ueAppId: string)
    returns (j: nat)
    requires Run(states, events) && k < |states|
    requires uri in states[k].managers && ueAppId in states[k].managers[uri].contexts
    ensures var entry := states[k].managers[uri].contexts[ueAppId];
      && entry.referenceUri != "" && j <= k
      && entry.contextId in states[j].net.proxy.contexts
      && var desc := states[j].net.proxy.contexts[entry.contextId];
      && desc.edgeRouter == entry.referenceUri && desc.ueAppId == ueAppId && desc.callback == CallbackFor(uri, ueAppId)
  {
    hide Step, Net.Inv, Addressed, LateAddressed, RepliesGenuine;
    var entry := states[k].managers[uri].contexts[ueAppId];
    RunKeepsSafe(states, events, k);
    assert GenuineOne(states[k].owner, states[k].history, Owner(uri, ueAppId), entry);
    j := HistoriesAreReal(states, events, k, entry.contextId, entry.referenceUri);
    RunKeepsSafe(states, events, j);
    OwnersStay(states, events, j, k, entry.contextId);
    var id := entry.contextId;
    assert RecordedOne(states[j].net.proxy.contexts[id], states[j].owner[id], states[j].history[id]);
  }

  lemma {:induction false} OwnersStay(states: seq<System>, events: seq<Event>, j: nat, k: nat, id: string)
    requires Run(states, events) && j <= k < |states| && id in states[j].owner
    ensures id in states[k].owner && states[k].owner[id] == states[j].owner[id]
  {
    hide Step, Safe;
    if j < k {
      OwnersStay(states, events, j, k - 1, id);
      RunKeepsSafe(states, events, k - 1);
      StepGrows(states[k - 1], events[k - 1], states[k]);
    }
  }

  /** All notifications to managers have a callback, whatever happens: every manager gives one. */
  lemma ManagersGiveCallbacks(states: seq<System>, events: seq<Event>, k: nat)
    requires Run(states, events) && k < |states|
    ensures forall worker <- states[k].net.workers :: AllComplete(worker.batch)
  {
    hide Step, Valid, Net.Accounted, Net.PurgesExact, Owned, Recorded, LateAddressed, Genuine, RepliesGenuine;
    RunKeepsSafe(states, events, k);
    forall worker <- states[k].net.workers, n <- worker.batch
      ensures n.callback != "" && n.router != "" && n.contextId != ""
    {
      assert AddressedOne(states[k].owner, states[k].history, n);
    }
  }

  /** What a manager holds matches what is active at the proxy, context ID by context ID. */
  lemma ManagersTrackContexts(states: seq<System>, events: seq<Event>, k: nat, uri: string)
    requires Run(states, events) && k < |states| && uri in states[k].managers
    ensures Tracks(states[k].net.proxy, states[k].managers[uri].contexts)
  {
    hide Step, Net.Inv, Addressed, LateAddressed, RepliesGenuine;
    RunKeepsSafe(states, events, k);
    var s := states[k];
    forall ueAppId <- s.managers[uri].contexts, id <- s.net.proxy.contexts
      ensures s.managers[uri].contexts[ueAppId].contextId == id <==> s.net.proxy.contexts[id].ueAppId == ueAppId
    {
      assert GenuineOne(s.owner, s.history, Owner(uri, ueAppId), s.managers[uri].contexts[ueAppId]);
      assert s.net.proxy.contexts[id].ueAppId == s.owner[id].ueAppId by {
        assert RecordedOne(s.net.proxy.contexts[id], s.owner[id], s.history[id]);
      }
    }
  }
}
