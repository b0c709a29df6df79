/**
 What becomes of the contexts of a manager that ends: it has them deleted one by one, and nobody else does.
 */
module ClientTeardown {
  import opened Wrappers
  import opened ProxyModel
  import opened ClientManager
  import opened ClosedSystem
  import opened ClientSafety
  import opened ClientPurges
  import Net = ProxySystem

  // ---- Contexts are deleted by their own manager only

  /** A deletion request takes the context of its application away, and no other. */
  lemma DeleteStep(s: System, event: Event, s': System)
    requires Safe(s) && Step(s, event, s') && event.SendDelete? && event.arrives
    ensures var id := s.managers[event.uri].contexts[event.ueAppId].contextId;
      && id in s.owner && s.owner[id] == Owner(event.uri, event.ueAppId)
      && s'.net.proxy.contexts == s.net.proxy.contexts - {id}
      && s'.net.deleted == s.net.deleted + {id} * s.net.proxy.contexts.Keys
  {
    hide Net.Inv, Recorded, Addressed, LateAddressed, RepliesGenuine, Genuine, Owned, AtClients;
    OwnerOfEntry(s, event.uri, event.ueAppId);
  }

  /** A context was deleted by a request of its own manager for its own application, and was active until then. */
  lemma {:induction false} DeletedByOwnManager(states: seq<System>, events: seq<Event>, k: nat, id: string)
    returns (j: nat)
    requires Run(states, events) && k < |states| && id in states[k].net.deleted
    ensures j < k && id in states[j].net.proxy.contexts && id in states[j].owner
    ensures events[j] == SendDelete(states[j].owner[id].uri, states[j].owner[id].ueAppId, true)
    ensures id !in states[j + 1].net.proxy.contexts && id in states[j + 1].net.deleted
  {
    assert k > 0;
    hide Step, Safe, Tidy;
    if id in states[k - 1].net.deleted {
      j := DeletedByOwnManager(states, events, k - 1, id);
    } else {
      j := k - 1;
      RunKeepsTidy(states, events, j);
      RemovalStep(states[j], events[j], states[k]);
      assert id in states[k].net.deleted - states[j].net.deleted;
      DeleteStep(states[j], events[j], states[k]);
    }
  }

  // ---- A manager on its way to its end

  /** Since it began to end in `s0`, the manager has kept its entries. */
  ghost predicate Closing(s0: System, s: System, uri: string)
    requires uri in s0.managers
  {
    && uri in s.managers && s.managers[uri].closing.Some?
    && s.managers[uri].contexts.Keys == s0.managers[uri].contexts.Keys
    && (forall ueAppId <- s0.managers[uri].contexts ::
          s.managers[uri].contexts[ueAppId].contextId == s0.managers[uri].contexts[ueAppId].contextId)
  }

  /** The contexts of its entries are no longer active, apart from those it has yet to deal with. */
  ghost predicate Cleared(s: System, uri: string)
    requires uri in s.managers && s.managers[uri].closing.Some?
  {
    forall ueAppId <- s.managers[uri].contexts | ueAppId !in s.managers[uri].closing.value ::
      s.managers[uri].contexts[ueAppId].contextId !in s.net.proxy.contexts
  }

  lemma BeginStep(s: System, event: Event, s': System)
    requires Step(s, event, s') && event.BeginClose?
    ensures event.uri in s.managers && Closing(s, s', event.uri) && Cleared(s', event.uri)
  {
    hide Net.Step;
  }

  /** What an event does to the applications whose contexts are yet to be deleted. */
  lemma ClosingStep(s: System, event: Event, s': System, uri: string)
    requires Step(s, event, s') && uri in s.managers && s.managers[uri].closing.Some? && event != EndClose(uri)
    ensures uri in s'.managers && s'.managers[uri].closing == Some(s.managers[uri].closing.value -
      if event.SendDelete? && event.uri == uri then {event.ueAppId} else {})
  {
    hide Net.Step, Extend, HandOver, AtProxy;
    assert s.managers[uri].closing.value - {} == s.managers[uri].closing.value;
    if Carried(s, event).Some? {
      CarryStep(s, event, s');
    }
  }

  /** The entries of an ending manager stay what they are. */
  lemma EntriesStay(s: System, event: Event, s': System, uri: string)
    requires RepliesAwaited(s) && Step(s, event, s') && event != EndClose(uri)
    requires uri in s.managers && s.managers[uri].closing.Some? && uri in s'.managers
    ensures s'.managers[uri].contexts.Keys == s.managers[uri].contexts.Keys
    ensures forall ueAppId <- s.managers[uri].contexts ::
      s'.managers[uri].contexts[ueAppId].contextId == s.managers[uri].contexts[ueAppId].contextId
  {
    hide Step;
    forall ueAppId
      ensures ueAppId in s'.managers[uri].contexts <==> ueAppId in s.managers[uri].contexts
      ensures ueAppId in s.managers[uri].contexts ==>
        s'.managers[uri].contexts[ueAppId].contextId == s.managers[uri].contexts[ueAppId].contextId
    {
      EntryContextStep(s, event, s', uri, ueAppId);
    }
  }

  /** A context that is no longer active does not come back. */
  lemma GoneStaysGone(s: System, event: Event, s': System, id: string)
    requires Safe(s) && Safe(s') && Step(s, event, s') && id in s.owner && id !in s.net.proxy.contexts
    ensures id !in s'.net.proxy.contexts
  {
    hide Step, Safe, Valid;
    NetOfSafe(s);
    NetInvParts(s);
    NetOfSafe(s');
    NetInvParts(s');
    RemovalStep(s, event, s');
  }

  lemma StepKeepsClosing(s0: System, s: System, event: Event, s': System, uri: string)
    requires uri in s0.managers && Closing(s0, s, uri)
    requires Tidy(s) && Step(s, event, s') && event != EndClose(uri)
    ensures Closing(s0, s', uri)
  {
    hide Step, EntriesPlaced, AllAttended;
    ClosingStep(s, event, s', uri);
    EntriesStay(s, event, s', uri);
  }

  lemma StepKeepsCleared(s: System, event: Event, s': System, uri: string)
    requires uri in s.managers && s.managers[uri].closing.Some? && Cleared(s, uri)
    requires Safe(s) && Tidy(s) && Safe(s') && Step(s, event, s') && event != EndClose(uri)
    requires event.SendDelete? && event.uri == uri ==> event.arrives
    ensures uri in s'.managers && s'.managers[uri].closing.Some? && Cleared(s', uri)
  {
    hide Step, Safe, EntriesPlaced, AllAttended;
    ClosingStep(s, event, s', uri);
    EntriesStay(s, event, s', uri);
    forall ueAppId <- s'.managers[uri].contexts | ueAppId !in s'.managers[uri].closing.value
      ensures s'.managers[uri].contexts[ueAppId].contextId !in s'.net.proxy.contexts
    {
      if ueAppId in s.managers[uri].closing.value {
        DeleteStep(s, event, s');
      } else {
        EntryIsIssued(s, uri, ueAppId);
        NetOfSafe(s);
        GoneStaysGone(s, event, s', s.managers[uri].contexts[ueAppId].contextId);
      }
    }
  }

  // ---- From the beginning to the end

  /** From event `b` to event `e`, the manager ends. */
  ghost predicate Teardown(states: seq<System>, events: seq<Event>, b: nat, e: nat, uri: string) {
    && Run(states, events) && b < e < |events|
    && events[b] == BeginClose(uri) && events[e] == EndClose(uri)
    && forall j | b < j < e :: events[j] != EndClose(uri)
  }

  /** All its deletion requests arrive. */
  ghost predicate AllArrive(events: seq<Event>, b: nat, e: nat, uri: string) {
    forall j | b < j < e && j < |events| && events[j].SendDelete? && events[j].uri == uri :: events[j].arrives
  }

  lemma {:induction false} TeardownKeepsClosing(
    states: seq<System>, events: seq<Event>, b: nat, e: nat, uri: string, k: nat)
    requires Teardown(states, events, b, e, uri) && b < k <= e
    ensures uri in states[b].managers && Closing(states[b], states[k], uri)
  {
    hide Step, Safe, Tidy, Closing;
    BeginStep(states[b], events[b], states[b + 1]);
    if k > b + 1 {
      TeardownKeepsClosing(states, events, b, e, uri, k - 1);
      RunKeepsTidy(states, events, k - 1);
      StepKeepsClosing(states[b], states[k - 1], events[k - 1], states[k], uri);
    }
  }

  lemma {:induction false} TeardownKeepsCleared(
    states: seq<System>, events: seq<Event>, b: nat, e: nat, uri: string, k: nat)
    requires Teardown(states, events, b, e, uri) && AllArrive(events, b, e, uri) && b < k <= e
    ensures uri in states[k].managers && states[k].managers[uri].closing.Some? && Cleared(states[k], uri)
  {
    hide Step, Safe, Tidy, Cleared;
    BeginStep(states[b], events[b], states[b + 1]);
    if k > b + 1 {
      TeardownKeepsCleared(states, events, b, e, uri, k - 1);
      RunKeepsTidy(states, events, k - 1);
      RunKeepsTidy(states, events, k);
      StepKeepsCleared(states[k - 1], events[k - 1], states[k], uri);
    }
  }

  lemma EndingIsOver(s: System, event: Event, s': System)
    requires Step(s, event, s') && event.EndClose?
    ensures event.uri in s.managers && s.managers[event.uri].closing == Some({})
  {
    hide Net.Step;
  }

  /**
   If all its requests arrive, none of the contexts a manager knew when it began to end is active when it has ended.
   Those about which no early answer was given have all been deleted, by the manager itself; the others at most
   purged.
   */
  lemma TeardownRemovesAll(states: seq<System>, events: seq<Event>, b: nat, e: nat, uri: string, ueAppId: string)
    requires Teardown(states, events, b, e, uri) && AllArrive(events, b, e, uri)
    requires uri in states[b].managers && ueAppId in states[b].managers[uri].contexts
    ensures var id := states[b].managers[uri].contexts[ueAppId].contextId;
      && id !in states[e].net.proxy.contexts
      && (id in states[e].net.deleted || id in states[e].net.purged)
      && (id in states[e].net.purged ==> id in AnsweredEarly(states, events, e))
  {
    hide Step, Safe, Tidy, AnsweredEarly;
    var id := states[b].managers[uri].contexts[ueAppId].contextId;
    TeardownKeepsClosing(states, events, b, e, uri, e);
    TeardownKeepsCleared(states, events, b, e, uri, e);
    EndingIsOver(states[e], events[e], states[e + 1]);
    RunKeepsTidy(states, events, e);
    EndingEntry(states[e], uri, ueAppId);
    if id in states[e].net.purged {
      PurgedOnlyIfAnsweredEarly(states, events, e, id);
    }
  }

  lemma EndingEntry(s: System, uri: string, ueAppId: string)
    requires Safe(s) && uri in s.managers && ueAppId in s.managers[uri].contexts
    ensures var id := s.managers[uri].contexts[ueAppId].contextId;
      && (id in s.net.proxy.contexts || id in s.net.deleted || id in s.net.purged)
      && !Abandoned(s, id)
  {
    hide Net.Inv, Recorded, Addressed, LateAddressed, RepliesGenuine, Genuine, Owned;
    OwnerOfEntry(s, uri, ueAppId);
    EntryIsIssued(s, uri, ueAppId);
    NetInvParts(s);
  }

  lemma {:induction false} DeletedStays(states: seq<System>, events: seq<Event>, j: nat, k: nat)
    requires Run(states, events) && j <= k < |states|
    ensures states[j].net.deleted <= states[k].net.deleted
  {
    hide Step;
    if j < k {
      DeletedStays(states, events, j, k - 1);
      RemovalStep(states[k - 1], events[k - 1], states[k]);
    }
  }

  /** The event is a request of the manager's end, and the context is removed by it. */
  ghost predicate Removes(states: seq<System>, events: seq<Event>, j: nat, uri: string, id: string)
    requires j < |events| < |states|
  {
    && events[j].SendDelete? && events[j].uri == uri
    && id in states[j].net.proxy.contexts && id !in states[j + 1].net.proxy.contexts
  }

  ghost predicate KnownAt(s: System, uri: string, id: string) {
    uri in s.managers && exists ueAppId <- s.managers[uri].contexts :: s.managers[uri].contexts[ueAppId].contextId == id
  }

  /**
   What a manager on its way to its end removes at the proxy are contexts it knew when it began to end, namely those
   that are deleted in the end.
   */
  lemma TeardownRemovesOwnOnly(states: seq<System>, events: seq<Event>, b: nat, e: nat, uri: string, id: string)
    requires Teardown(states, events, b, e, uri)
    ensures (exists j | b < j < e :: Removes(states, events, j, uri, id)) <==>
      KnownAt(states[b], uri, id) && id in states[e].net.deleted
  {
    hide Step, Closing;
    if j :| b < j < e && Removes(states, events, j, uri, id) {
      RemovedWasKnown(states, events, b, e, uri, id, j);
    }
    if KnownAt(states[b], uri, id) && id in states[e].net.deleted {
      var j := KnownIsRemoved(states, events, b, e, uri, id);
    }
  }

  lemma RemovedWasKnown(states: seq<System>, events: seq<Event>, b: nat, e: nat, uri: string, id: string, j: nat)
    requires Teardown(states, events, b, e, uri) && b < j < e && Removes(states, events, j, uri, id)
    ensures KnownAt(states[b], uri, id) && id in states[e].net.deleted
  {
    hide Step, Safe, Tidy;
    RunKeepsTidy(states, events, j);
    TeardownKeepsClosing(states, events, b, e, uri, j);
    SentAndArrived(states[j], events[j], states[j + 1]);
    DeleteStep(states[j], events[j], states[j + 1]);
    DeletedStays(states, events, j + 1, e);
  }

  /** A request that does not arrive changes nothing at the proxy; one that is sent concerns an entry of its manager. */
  lemma SentAndArrived(s: System, event: Event, s': System)
    requires Step(s, event, s') && event.SendDelete?
    ensures event.uri in s.managers && event.ueAppId in s.managers[event.uri].contexts
    ensures !event.arrives ==> s'.net == s.net
  {
    hide Net.Step;
  }

  lemma KnownIsRemoved(states: seq<System>, events: seq<Event>, b: nat, e: nat, uri: string, id: string)
    returns (j: nat)
    requires Teardown(states, events, b, e, uri) && KnownAt(states[b], uri, id) && id in states[e].net.deleted
    ensures b < j < e && Removes(states, events, j, uri, id)
  {
    hide Step, Safe, Tidy, AnsweredEarly;
    j := DeletedByOwnManager(states, events, e, id);
    RunKeepsExplained(states, events, b);
    NotYetAdrift(states[b], events[b], states[b + 1], id);
    if j < b {
      DeletedStays(states, events, j + 1, b);
    }
    OwnersStay(states, events, b, j, id);
  }

  lemma NotYetAdrift(s: System, event: Event, s': System, id: string)
    requires Safe(s) && Tidy(s) && Step(s, event, s') && event.BeginClose? && KnownAt(s, event.uri, id)
    ensures id !in s.adrift && id in s.owner && s.owner[id].uri == event.uri
  {
    hide Net.Step, AtClients, Net.Inv, Recorded, Addressed, LateAddressed, RepliesGenuine, Genuine, Owned;
    var ueAppId :| ueAppId in s.managers[event.uri].contexts && s.managers[event.uri].contexts[ueAppId].contextId == id;
    OwnerOfEntry(s, event.uri, ueAppId);
  }
}
