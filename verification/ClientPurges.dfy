/**
 Which contexts of a manager are purged, as long as the manager is there: exactly those about which it answered a
 notification before it had stored their creation reply.
 */
module ClientPurges {
  import opened Wrappers
  import opened RoutingTable
  import opened UeAppLcmProxyBase
  import opened ProxyModel
  import opened StaticProxy
  import opened ClientManager
  import opened ClosedSystem
  import opened ClientSafety
  import Net = ProxySystem

  /** A notification about the context is answered while its creation reply is still on its way. */
  predicate EarlyAnswer(s: System, event: Event, id: string) {
    event.Post? && event.fate == Answered && CanPost(s, event.worker) &&
    Head(s, event.worker).contextId == id && id in s.inFlight
  }

  // ---- Invariants

  predicate Running(s: System, uri: string) {
    uri in s.managers && s.managers[uri].closing.None?
  }

  /** The context is one of a running manager, and the manager knows. */
  predicate Attended(s: System, id: string) {
    && id in s.owner && Running(s, s.owner[id].uri) && Known(s.managers, s.owner[id])
  }

  /** Contexts whose creation reply is on its way: the manager is there and waits for it. */
  ghost predicate RepliesAwaited(s: System) {
    forall id <- s.inFlight ::
      id !in s.adrift && id in s.owner && Running(s, s.owner[id].uri) && !Known(s.managers, s.owner[id])
  }

  /** What ending managers hold is adrift, what running managers hold is not. */
  ghost predicate EntriesPlaced(s: System) {
    forall uri <- s.managers, ueAppId <- s.managers[uri].contexts ::
      s.managers[uri].contexts[ueAppId].contextId in s.adrift <==> s.managers[uri].closing.Some?
  }

  /** Every context ever created is attended to, unless its creation reply is on its way or it is adrift. */
  ghost predicate AllAttended(s: System) {
    forall id <- s.owner :: id in s.inFlight || id in s.adrift || Attended(s, id)
  }

  ghost predicate Tidy(s: System) {
    RepliesAwaited(s) && EntriesPlaced(s) && AllAttended(s) && s.adrift <= s.net.issued
  }

  // ---- What the events do to the parts the invariants speak of

  /** An entry of a manager is about the context that the manager's application owns. */
  lemma OwnerOfEntry(s: System, uri: string, ueAppId: string)
    requires Genuine(s) && uri in s.managers && ueAppId in s.managers[uri].contexts
    ensures var id := s.managers[uri].contexts[ueAppId].contextId;
      id in s.owner && id in s.history && s.owner[id] == Owner(uri, ueAppId)
  {
  }

  lemma ManagerStep(s: System, event: Event, s': System, uri: string)
    requires Step(s, event, s')
    ensures Running(s', uri) ==> Running(s, uri) || event == OpenManager(uri)
    ensures Running(s, uri) ==> Running(s', uri) || event == BeginClose(uri)
    ensures uri in s'.managers ==> uri in s.managers || event == OpenManager(uri)
    ensures event == OpenManager(uri) ==> uri !in s.managers
    ensures event == BeginClose(uri) ==> !Running(s', uri)
  {
    hide Net.Step, Extend, HandOver, AtProxy;
    if Carried(s, event).Some? {
      CarryStep(s, event, s');
    }
  }

  /** Entries are added by creation replies only, and they keep their context. */
  lemma EntryContextStep(s: System, event: Event, s': System, uri: string, ueAppId: string)
    requires Step(s, event, s')
    ensures uri in s'.managers && ueAppId in s'.managers[uri].contexts ==>
      || (uri in s.managers && ueAppId in s.managers[uri].contexts &&
          s'.managers[uri].contexts[ueAppId].contextId == s.managers[uri].contexts[ueAppId].contextId)
      || (event.StoreReply? && event.contextId in s.inFlight && event.contextId in s.owner &&
          s.owner[event.contextId] == Owner(uri, ueAppId) &&
          s'.managers[uri].contexts[ueAppId].contextId == event.contextId)
    ensures uri in s.managers && ueAppId in s.managers[uri].contexts ==>
      (uri in s'.managers && ueAppId in s'.managers[uri].contexts) || event == EndClose(uri)
    ensures event.StoreReply? && event.contextId in s.owner && s.owner[event.contextId] == Owner(uri, ueAppId) ==>
      uri in s'.managers && ueAppId in s'.managers[uri].contexts
  {
    hide Net.Step, Extend, HandOver, AtProxy;
    if Carried(s, event).Some? {
      CarryStep(s, event, s');
    }
  }

  /** What becomes adrift, and what is on its way. */
  lemma AdriftStep(s: System, event: Event, s': System)
    requires Step(s, event, s')
    ensures s'.adrift == s.adrift + match event
      case LoseReply(id) => {id}
      case BeginClose(uri) => set ueAppId <- s.managers[uri].contexts :: s.managers[uri].contexts[ueAppId].contextId
      case _ => {}
    ensures forall id <- s'.inFlight ::
      (id in s.inFlight && event != StoreReply(id) && event != LoseReply(id)) ||
      (event.CreateContext? && event.contextId == id && id in s'.net.proxy.contexts && id !in s.net.proxy.contexts)
    ensures forall id <- s.inFlight :: id in s'.inFlight || event == StoreReply(id) || event == LoseReply(id)
  {
    hide Net.Step, Extend, HandOver, AtProxy;
    if Carried(s, event).Some? {
      CarryStep(s, event, s');
    }
  }

  /** What events remove at the proxy is gone for good, and its identifier is not issued again. */
  lemma RemovalStep(s: System, event: Event, s': System)
    requires Step(s, event, s')
    ensures s.net.deleted <= s'.net.deleted && s.net.purged.Keys <= s'.net.purged.Keys && s.net.issued <= s'.net.issued
    ensures forall id <- s'.net.deleted - s.net.deleted ::
      event.SendDelete? && event.arrives && id == s.managers[event.uri].contexts[event.ueAppId].contextId
    ensures forall id <- s'.net.purged.Keys - s.net.purged.Keys ::
      event.Purge? && event.worker < |s.net.workers| && s.net.workers[event.worker].verdict == Some(id)
  {
    hide Exact, Extend, Accepts, Perform, Create, Without, AtClients;
  }

  /** A verdict is there because it was, or because a notification has just been answered badly. */
  lemma VerdictStep(s: System, event: Event, s': System, i: nat)
    requires Step(s, event, s') && i < |s'.net.workers| && s'.net.workers[i].verdict.Some?
    ensures
      || (i < |s.net.workers| && s'.net.workers[i].verdict == s.net.workers[i].verdict)
      || (event == Post(i, Answered) && CanPost(s, i) && !Received(s.managers, Head(s, i), Answered) &&
          s'.net.workers[i].verdict == Some(Head(s, i).contextId))
  {
    hide Exact, Extend, Accepts, Received;
  }

  lemma PostedVerdict(s: System, event: Event, s': System)
    requires Step(s, event, s') && event.Post? && CanPost(s, event.worker)
    ensures event.worker < |s'.net.workers|
    ensures s'.net.workers[event.worker].verdict ==
      if ReplyTo(s.managers, Head(s, event.worker), event.fate) == OtherStatus
      then Some(Head(s, event.worker).contextId)
      else None
  {
    hide AtClients, ReplyTo;
  }

  /** A verdict stays until it is acted upon. */
  lemma VerdictStays(s: System, event: Event, s': System, i: nat)
    requires Step(s, event, s') && i < |s.net.workers| && s.net.workers[i].verdict.Some?
    ensures i < |s'.net.workers|
    ensures s'.net.workers[i].verdict == s.net.workers[i].verdict ||
      (event == Purge(i) && s.net.workers[i].verdict.value !in s'.net.proxy.contexts)
  {
    hide Exact, Extend, Accepts, AtClients, ReplyTo, Perform, Create;
  }

  /** Owners are added by creations only, and their reply is then on its way. */
  lemma OwnerStep(s: System, event: Event, s': System)
    requires Step(s, event, s')
    ensures forall id <- s'.owner ::
      id in s.owner || (event.CreateContext? && event.contextId == id && id in s'.inFlight)
  {
    hide Net.Step, Extend, Addressee, AtProxy, Todo;
  }

  // ---- Each event keeps the invariants

  /** An application is known after an event only if it was, or if its creation reply has just been stored. */
  lemma KnownStep(s: System, event: Event, s': System, id: string)
    requires Owned(s) && Grows(s, s') && id in s.owner && Step(s, event, s')
    ensures id in s'.owner && s'.owner[id] == s.owner[id]
    ensures Known(s'.managers, s.owner[id]) ==> Known(s.managers, s.owner[id]) || event == StoreReply(id)
    ensures Known(s.managers, s.owner[id]) ==> Known(s'.managers, s.owner[id]) || event == EndClose(s.owner[id].uri)
    ensures event == StoreReply(id) ==> Known(s'.managers, s.owner[id])
  {
    hide Step;
    EntryContextStep(s, event, s', s.owner[id].uri, s.owner[id].ueAppId);
  }

  lemma CreatedIsUnknown(s: System, event: Event, s': System)
    requires Safe(s) && Step(s, event, s') && event.CreateContext?
    ensures event.contextId !in s.net.issued
    ensures event.contextId in s'.inFlight && event.contextId !in s.inFlight ==>
      && event.contextId in s'.owner && Running(s', s'.owner[event.contextId].uri)
      && !Known(s'.managers, s'.owner[event.contextId])
  {
    hide Net.Inv, Net.Step, Valid, Net.Accounted, Recorded, Addressed, LateAddressed, RepliesGenuine, Genuine;
    NetInvParts(s);
    var added := CreateStep(s, event, s');
    if event.ueAppId in s.managers[event.uri].contexts {
      OwnerOfEntry(s, event.uri, event.ueAppId);
    }
  }

  lemma AwaitedStaysAwaited(s: System, event: Event, s': System, id: string)
    requires Safe(s) && Step(s, event, s')
    requires id in s.inFlight && id in s'.inFlight && id in s.owner && id !in s.adrift
    ensures event != BeginClose(s.owner[id].uri)
    ensures id !in s'.adrift
  {
    hide Net.Step, Net.Inv, Recorded, Addressed, LateAddressed, RepliesGenuine, Genuine, Owned, Extend, Addressee;
    AdriftStep(s, event, s');
    if event.BeginClose? {
      forall ueAppId <- s.managers[event.uri].contexts ensures s.managers[event.uri].contexts[ueAppId].contextId != id {
        OwnerOfEntry(s, event.uri, ueAppId);
      }
    }
  }

  lemma StepKeepsRepliesAwaited(s: System, event: Event, s': System)
    requires Safe(s) && Tidy(s) && Step(s, event, s')
    ensures RepliesAwaited(s')
  {
    hide Step, Net.Inv, Recorded, Addressed, LateAddressed, RepliesGenuine, Genuine, EntriesPlaced, AllAttended;
    hide Grows, Owned, Running, Known;
    StepGrows(s, event, s');
    AdriftStep(s, event, s');
    forall id <- s'.inFlight
      ensures id !in s'.adrift && id in s'.owner && Running(s', s'.owner[id].uri) && !Known(s'.managers, s'.owner[id])
    {
      if id in s.inFlight {
        KnownStep(s, event, s', id);
        ManagerStep(s, event, s', s.owner[id].uri);
        AwaitedStaysAwaited(s, event, s', id);
      } else {
        CreatedIsUnknown(s, event, s');
      }
    }
  }

  /** A context with an entry at a manager that does not begin to end is not cast adrift. */
  lemma EntryStaysAttached(s: System, event: Event, s': System, uri: string, ueAppId: string)
    requires Safe(s) && RepliesAwaited(s) && Step(s, event, s') && event != BeginClose(uri)
    requires uri in s.managers && ueAppId in s.managers[uri].contexts
    ensures var id := s.managers[uri].contexts[ueAppId].contextId; id in s'.adrift ==> id in s.adrift
  {
    hide Net.Step, Net.Inv, Recorded, Addressed, LateAddressed, RepliesGenuine, Genuine, Owned, Extend, Addressee;
    AdriftStep(s, event, s');
    OwnerOfEntry(s, uri, ueAppId);
    if event.BeginClose? {
      forall other <- s.managers[event.uri].contexts
        ensures s.managers[event.uri].contexts[other].contextId != s.managers[uri].contexts[ueAppId].contextId
      {
        OwnerOfEntry(s, event.uri, other);
      }
    }
  }

  lemma BeginCloseCastsAdrift(s: System, event: Event, s': System, ueAppId: string)
    requires Step(s, event, s') && event.BeginClose? && ueAppId in s.managers[event.uri].contexts
    ensures s.managers[event.uri].contexts[ueAppId].contextId in s'.adrift
  {
    hide Net.Step;
  }

  lemma StepKeepsEntriesPlaced(s: System, event: Event, s': System)
    requires Safe(s) && Tidy(s) && Step(s, event, s')
    ensures EntriesPlaced(s')
  {
    hide Step, Net.Inv, Recorded, Addressed, LateAddressed, RepliesGenuine, Genuine, AllAttended, Grows, Owned, Known;
    AdriftStep(s, event, s');
    forall uri <- s'.managers, ueAppId <- s'.managers[uri].contexts
      ensures s'.managers[uri].contexts[ueAppId].contextId in s'.adrift <==> s'.managers[uri].closing.Some?
    {
      EntryContextStep(s, event, s', uri, ueAppId);
      ManagerStep(s, event, s', uri);
      if uri in s.managers && ueAppId in s.managers[uri].contexts {
        if event == BeginClose(uri) {
          BeginCloseCastsAdrift(s, event, s', ueAppId);
        } else {
          EntryStaysAttached(s, event, s', uri, ueAppId);
        }
      }
    }
  }

  lemma AdriftIsIssued(s: System, event: Event, s': System)
    requires Safe(s) && Tidy(s) && Step(s, event, s')
    ensures s.adrift <= s'.adrift <= s'.net.issued
  {
    hide Net.Step, Net.Inv, Recorded, Addressed, LateAddressed, Genuine, EntriesPlaced, AllAttended, AtClients, AtProxy;
    AdriftStep(s, event, s');
    RemovalStep(s, event, s');
    if event.BeginClose? {
      forall ueAppId <- s.managers[event.uri].contexts
        ensures s.managers[event.uri].contexts[ueAppId].contextId in s.net.issued
      {
        OwnerOfEntry(s, event.uri, ueAppId);
      }
    } else if event.LoseReply? {
      assert event.contextId in s.owner;
    }
  }

  /** A context that its manager attends to stays attended, unless the manager begins to end and casts it adrift. */
  lemma AttendedStep(s: System, event: Event, s': System, id: string)
    requires Safe(s) && Tidy(s) && Step(s, event, s') && Grows(s, s') && id in s.owner
    requires Attended(s, id) || (event == StoreReply(id) && id in s.inFlight)
    ensures Attended(s', id) || id in s'.adrift
  {
    hide Step, Net.Inv, Recorded, Addressed, LateAddressed, Genuine, RepliesGenuine, AllAttended, EntriesPlaced;
    hide Grows, Owned;
    KnownStep(s, event, s', id);
    ManagerStep(s, event, s', s.owner[id].uri);
    if event == BeginClose(s.owner[id].uri) {
      KnownHasEntry(s, id);
      BeginCloseCastsAdrift(s, event, s', s.owner[id].ueAppId);
    } else if event == EndClose(s.owner[id].uri) {
      RunningDoesNotEnd(s, event, s');
    }
  }

  lemma KnownHasEntry(s: System, id: string)
    requires Safe(s) && id in s.owner && Known(s.managers, s.owner[id])
    ensures s.managers[s.owner[id].uri].contexts[s.owner[id].ueAppId].contextId == id
  {
    hide Net.Inv, Recorded, Addressed, LateAddressed, RepliesGenuine;
  }

  lemma RunningDoesNotEnd(s: System, event: Event, s': System)
    requires Step(s, event, s') && event.EndClose?
    ensures !Running(s, event.uri)
  {
    hide Net.Step;
  }

  lemma StepKeepsAllAttended(s: System, event: Event, s': System)
    requires Safe(s) && Tidy(s) && Step(s, event, s')
    ensures AllAttended(s')
  {
    hide Step, Safe, EntriesPlaced, RepliesAwaited, Grows, Attended;
    StepGrows(s, event, s');
    AdriftStep(s, event, s');
    OwnerStep(s, event, s');
    forall id <- s'.owner ensures id in s'.inFlight || id in s'.adrift || Attended(s', id) {
      if id in s.owner && (Attended(s, id) || (event == StoreReply(id) && id in s.inFlight)) {
        AttendedStep(s, event, s', id);
      }
    }
  }

  lemma StepKeepsTidy(s: System, event: Event, s': System)
    requires Safe(s) && Tidy(s) && Step(s, event, s')
    ensures Tidy(s')
  {
    hide Step, Safe, RepliesAwaited, EntriesPlaced, AllAttended;
    StepKeepsRepliesAwaited(s, event, s');
    StepKeepsEntriesPlaced(s, event, s');
    StepKeepsAllAttended(s, event, s');
    AdriftIsIssued(s, event, s');
  }

  lemma {:induction false} RunKeepsTidy(states: seq<System>, events: seq<Event>, k: nat)
    requires Run(states, events) && k < |states|
    ensures Safe(states[k]) && Tidy(states[k])
  {
    hide Step, Safe;
    RunKeepsSafe(states, events, k);
    if k > 0 {
      hide Tidy;
      RunKeepsTidy(states, events, k - 1);
      StepKeepsTidy(states[k - 1], events[k - 1], states[k]);
    }
  }

  // ---- Answers

  /** The context is adrift, and no manager knows about it any more. */
  predicate Abandoned(s: System, id: string) {
    id in s.adrift && id in s.owner && !Known(s.managers, s.owner[id])
  }

  /** An answer about a context is a bad one exactly if no manager knows it, or not yet. */
  lemma BadAnswerIffUnknown(s: System, i: nat)
    requires Safe(s) && Tidy(s) && CanPost(s, i)
    ensures var id := Head(s, i).contextId;
      ReplyTo(s.managers, Head(s, i), Answered) == OtherStatus <==> id in s.inFlight || Abandoned(s, id)
  {
    hide Net.Inv, Owned, Recorded, Addressed, LateAddressed, Genuine, RepliesGenuine, EntriesPlaced, Addressee;
    CarriedIsAddressed(s, Post(i, Answered));
  }

  /** A context that is attended to is neither on its way nor adrift. */
  lemma AttendedIsPlaced(s: System, id: string)
    requires Safe(s) && Tidy(s) && Attended(s, id)
    ensures id !in s.inFlight && id !in s.adrift
    ensures s.managers[s.owner[id].uri].contexts[s.owner[id].ueAppId].contextId == id
  {
    hide Safe, AllAttended;
    KnownHasEntry(s, id);
  }

  /** Every answer about a context that is attended to is the one the proxy expects. */
  lemma AnswersToAttendedAreGood(states: seq<System>, events: seq<Event>, k: nat, i: nat)
    requires Run(states, events) && k < |states| && CanPost(states[k], i)
    requires Attended(states[k], Head(states[k], i).contextId)
    ensures ReplyTo(states[k].managers, Head(states[k], i), Answered) == NoContent
  {
    hide Step, Safe, Tidy;
    RunKeepsTidy(states, events, k);
    AttendedIsPlaced(states[k], Head(states[k], i).contextId);
    BadAnswerIffUnknown(states[k], i);
  }

  // ---- Purges

  /** The contexts about which an early answer was given among the first `k` events. */
  ghost function AnsweredEarly(states: seq<System>, events: seq<Event>, k: nat): set<string>
    requires k <= |events| <= |states|
  {
    set j, id | 0 <= j < k && id in states[j].inFlight && EarlyAnswer(states[j], events[j], id) :: id
  }

  /** The context has been purged, or a bad answer about it has been received and is yet to be acted upon. */
  ghost predicate Purging(s: System, id: string) {
    id in s.net.purged || exists i :: 0 <= i < |s.net.workers| && s.net.workers[i].verdict == Some(id)
  }

  /** What was deleted is adrift; what is purged was abandoned or answered early; what was answered early is removed. */
  ghost predicate Explained(s: System, early: set<string>) {
    && s.net.deleted <= s.adrift && early <= s.net.issued
    && (forall id | Purging(s, id) :: Abandoned(s, id) || id in early)
    && (forall id <- early :: id in s.net.deleted || Purging(s, id))
  }

  ghost predicate NextEarly(s: System, event: Event, early: set<string>, early': set<string>) {
    && early <= early'
    && (forall id :: EarlyAnswer(s, event, id) ==> id in early')
    && (forall id <- early' :: id in early || EarlyAnswer(s, event, id))
  }

  /** Where the removals of an event come from. */
  lemma PurgingStep(s: System, event: Event, s': System, id: string)
    requires Safe(s) && Tidy(s) && Step(s, event, s') && Purging(s', id)
    ensures Purging(s, id) || Abandoned(s, id) || EarlyAnswer(s, event, id)
  {
    hide Net.Step, AtClients, AtProxy, Enabled, Safe, Tidy, Received, Abandoned;
    RemovalStep(s, event, s');
    if id in s'.net.purged {
      assert id in s.net.purged || id in s'.net.purged.Keys - s.net.purged.Keys;
    } else {
      var i :| 0 <= i < |s'.net.workers| && s'.net.workers[i].verdict == Some(id);
      VerdictStep(s, event, s', i);
      if event == Post(i, Answered) && CanPost(s, i) && !Received(s.managers, Head(s, i), Answered) {
        BadAnswerIffUnknown(s, i);
      }
    }
  }

  lemma AbandonedStays(s: System, event: Event, s': System, id: string)
    requires Safe(s) && Tidy(s) && Step(s, event, s') && Abandoned(s, id)
    ensures Abandoned(s', id)
  {
    hide Step, Net.Inv, Recorded, Addressed, LateAddressed, Genuine, RepliesGenuine, EntriesPlaced, AllAttended, Grows;
    hide Owned, Known;
    StepGrows(s, event, s');
    KnownStep(s, event, s', id);
    AdriftStep(s, event, s');
    if event.StoreReply? {
      StoredIsInFlight(s, event, s');
    }
  }

  lemma StoredIsInFlight(s: System, event: Event, s': System)
    requires Step(s, event, s') && event.StoreReply?
    ensures event.contextId in s.inFlight
  {
    hide Net.Step, AtClients;
  }

  lemma DeletedIsAdrift(s: System, event: Event, s': System)
    requires Tidy(s) && s.net.deleted <= s.adrift && Step(s, event, s')
    ensures s'.net.deleted <= s.adrift
  {
    hide Net.Step, AtClients, AtProxy, RepliesAwaited, AllAttended;
    RemovalStep(s, event, s');
    forall id <- s'.net.deleted ensures id in s.adrift {
      assert id in s.net.deleted || id in s'.net.deleted - s.net.deleted;
    }
  }

  /** A removal that is under way is completed by nothing but itself or another one. */
  lemma PurgingStays(s: System, event: Event, s': System, id: string)
    requires Net.Accounted(s'.net) && Step(s, event, s')
    requires id in s.net.issued && (id in s.net.deleted || Purging(s, id))
    ensures id in s'.net.deleted || Purging(s', id)
  {
    hide Step;
    RemovalStep(s, event, s');
    if id !in s.net.purged && id !in s.net.deleted {
      var i :| 0 <= i < |s.net.workers| && s.net.workers[i].verdict == Some(id);
      VerdictStays(s, event, s', i);
    }
  }

  /** An early answer is a bad one. */
  lemma EarlyIsPurging(s: System, event: Event, s': System, id: string)
    requires Safe(s) && Tidy(s) && Step(s, event, s') && EarlyAnswer(s, event, id)
    ensures id in s.net.issued && Purging(s', id)
  {
    hide Step, Safe, EntriesPlaced, AllAttended, Received;
    NetOfSafe(s);
    BadAnswerIffUnknown(s, event.worker);
    PostedVerdict(s, event, s');
  }

  lemma StepKeepsExplained(s: System, event: Event, s': System, early: set<string>, early': set<string>)
    requires Safe(s) && Tidy(s) && Safe(s') && Explained(s, early) && Step(s, event, s')
    requires NextEarly(s, event, early, early')
    ensures Explained(s', early')
  {
    hide Step, Safe, Tidy, Purging, Abandoned, EarlyAnswer, Net.Accounted;
    NetOfSafe(s');
    NetInvParts(s');
    AdriftIsIssued(s, event, s');
    DeletedIsAdrift(s, event, s');
    RemovalStep(s, event, s');
    forall id | Purging(s', id) ensures Abandoned(s', id) || id in early' {
      PurgingStep(s, event, s', id);
      if Abandoned(s, id) {
        AbandonedStays(s, event, s', id);
      }
    }
    forall id <- early' ensures id in s'.net.issued && (id in s'.net.deleted || Purging(s', id)) {
      if id in early {
        PurgingStays(s, event, s', id);
      } else {
        EarlyIsPurging(s, event, s', id);
      }
    }
  }

  lemma NetOfSafe(s: System)
    requires Safe(s)
    ensures Net.Inv(s.net) && s.owner.Keys == s.history.Keys == s.net.issued
    ensures forall id <- s.inFlight :: id in s.net.issued
  {
    hide Net.Inv, Addressed, LateAddressed, Genuine;
  }

  lemma {:induction false} RunKeepsExplained(states: seq<System>, events: seq<Event>, k: nat)
    requires Run(states, events) && k < |states|
    ensures Safe(states[k]) && Tidy(states[k]) && Explained(states[k], AnsweredEarly(states, events, k))
  {
    hide Step, Safe, Tidy, EarlyAnswer;
    RunKeepsTidy(states, events, k);
    if k > 0 {
      hide Explained;
      RunKeepsExplained(states, events, k - 1);
      EarlyOneMore(states, events, k - 1);
      StepKeepsExplained(states[k - 1], events[k - 1], states[k],
        AnsweredEarly(states, events, k - 1), AnsweredEarly(states, events, k));
    }
  }

  lemma EarlyOneMore(states: seq<System>, events: seq<Event>, k: nat)
    requires k < |events| <= |states|
    ensures NextEarly(states[k], events[k], AnsweredEarly(states, events, k), AnsweredEarly(states, events, k + 1))
  {
  }

  // ---- What holds at every moment of every run

  /**
   Every context is known to its manager under the very same context ID, unless its creation reply is on its way or
   it is adrift; and what a running manager knows is active unless it has been purged.
   */
  lemma ContextsAreKnown(states: seq<System>, events: seq<Event>, k: nat)
    requires Run(states, events) && k < |states|
    ensures var s := states[k];
      && (forall id <- s.net.issued | id !in s.inFlight && id !in s.adrift ::
            Attended(s, id) && s.managers[s.owner[id].uri].contexts[s.owner[id].ueAppId].contextId == id)
      && (forall uri <- s.managers, ueAppId <- s.managers[uri].contexts | Running(s, uri) ::
            var id := s.managers[uri].contexts[ueAppId].contextId;
            id in s.net.proxy.contexts <==> id !in s.net.purged)
  {
    hide Step, Safe, RepliesAwaited, AnsweredEarly;
    RunKeepsExplained(states, events, k);
    var s := states[k];
    NetOfSafe(s);
    NetInvParts(s);
    forall id <- s.net.issued | id !in s.inFlight && id !in s.adrift
      ensures Attended(s, id) && s.managers[s.owner[id].uri].contexts[s.owner[id].ueAppId].contextId == id
    {
      KnownHasEntry(s, id);
    }
    forall uri <- s.managers, ueAppId <- s.managers[uri].contexts
      ensures s.managers[uri].contexts[ueAppId].contextId in s.net.issued
    {
      EntryIsIssued(s, uri, ueAppId);
    }
  }

  lemma EntryIsIssued(s: System, uri: string, ueAppId: string)
    requires Safe(s) && uri in s.managers && ueAppId in s.managers[uri].contexts
    ensures s.managers[uri].contexts[ueAppId].contextId in s.net.issued
  {
    hide Net.Inv, Genuine;
    OwnerOfEntry(s, uri, ueAppId);
  }

  /** A context not adrift is purged, or about to be, exactly if an early answer was given about that very context. */
  lemma PurgedIffAnsweredEarly(states: seq<System>, events: seq<Event>, k: nat, id: string)
    requires Run(states, events) && k < |states| && id !in states[k].adrift
    ensures Purging(states[k], id) <==> id in AnsweredEarly(states, events, k)
  {
    hide Step, Safe, Tidy, AnsweredEarly, Purging;
    RunKeepsExplained(states, events, k);
  }

  /** While its manager is there, a context is purged, or about to be, only if an early answer was given about it. */
  lemma PurgedOnlyIfAnsweredEarly(states: seq<System>, events: seq<Event>, k: nat, id: string)
    requires Run(states, events) && k < |states| && !Abandoned(states[k], id) && Purging(states[k], id)
    ensures id in AnsweredEarly(states, events, k)
  {
    hide Step, Safe, Tidy, AnsweredEarly, Purging;
    RunKeepsExplained(states, events, k);
  }

  /**
   A context of a running manager about which no early answer was given is active, and nobody is about to purge it.
   */
  lemma NoSpuriousPurge(states: seq<System>, events: seq<Event>, k: nat, uri: string, ueAppId: string)
    requires Run(states, events) && k < |states|
    requires Running(states[k], uri) && ueAppId in states[k].managers[uri].contexts
    requires states[k].managers[uri].contexts[ueAppId].contextId !in AnsweredEarly(states, events, k)
    ensures var s := states[k]; var id := s.managers[uri].contexts[ueAppId].contextId;
      id in s.net.proxy.contexts && !Purging(s, id)
  {
    hide Step, Safe, RepliesAwaited, AllAttended, AnsweredEarly;
    RunKeepsTidy(states, events, k);
    ContextsAreKnown(states, events, k);
    PurgedIffAnsweredEarly(states, events, k, states[k].managers[uri].contexts[ueAppId].contextId);
  }
}
