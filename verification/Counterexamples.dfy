/**
 Runs in which what the code takes for granted, or what the theorems assume about the order of messages, does
 not hold.
 */
module Counterexamples {
  import opened Wrappers
  import opened RoutingTable
  import opened UeAppLcmProxyBase
  import opened ProxyModel
  import opened StaticProxy
  import opened ClientManager
  import opened ClosedSystem
  import ClientSafety
  import opened ClientPurges
  import opened ClientAgreement
  import Net = ProxySystem

  const INFO := AppInfo("app", "provider", "1.0", AppContextRequest)

  const MANAGER := "m"
  const UE := "u"
  const ID := "c"

  function Note(router: string): Notification {
    Notification(CallbackFor(MANAGER, UE), router, ID)
  }

  // The common beginning: an application, a default route, a manager, and the proxy's half of a creation.

  function Listed(): System {
    START.(net := Net.START.(proxy := ChangeApplications(EMPTY, Add(INFO))))
  }

  function Routed(): System {
    Listed().(net := Listed().net.(
      proxy := Associate(Listed().net.proxy, WILDCARD, "app", "r"), workers := [Net.Worker([], [], None)]))
  }

  function Opened(): System {
    Routed().(managers := map[MANAGER := Manager(map[], None)])
  }

  function Created(): System {
    AtClients(Opened(), CreationEvent(), Opened().net.(
      proxy := Create(Opened().net.proxy, "client", RequestOf(MANAGER, INFO, UE), ID), issued := {ID}))
  }

  function CreationEvent(): Event {
    CreateContext(MANAGER, "client", INFO, UE, ID)
  }

  lemma Continue(states: seq<System>, events: seq<Event>, event: Event, s': System)
    returns (states': seq<System>, events': seq<Event>)
    requires Run(states, events) && Step(states[|events|], event, s')
    ensures Run(states', events') && states'[|events'|] == s'
  {
    hide Step;
    states', events' := states + [s'], events + [event];
  }

  lemma FirstSteps()
    ensures Step(START, ChangeList(Add(INFO)), Listed())
    ensures Step(Listed(), EditTable(Enter(WILDCARD, "app", "r")), Routed())
    ensures Step(Routed(), OpenManager(MANAGER), Opened())
  {
  }

  lemma CreationStep()
    ensures Step(Opened(), CreationEvent(), Created())
  {
  }

  lemma Beginning() returns (states: seq<System>, events: seq<Event>)
    ensures Run(states, events) && states[|events|] == Created() && forall event <- events :: !event.Post?
  {
    hide Step, Listed, Routed, Opened, Created;
    FirstSteps();
    CreationStep();
    states, events := [START, Listed(), Routed(), Opened(), Created()], [
      ChangeList(Add(INFO)), EditTable(Enter(WILDCARD, "app", "r")), OpenManager(MANAGER), CreationEvent()];
  }

  /** The one context is assigned to `router` by the one entry of the table. */
  ghost predicate Serves(s: System, router: string) {
    && s.net.proxy.contexts == map[ID := Desc(UE, CallbackFor(MANAGER, UE), "client", "app", router)]
    && s.net.proxy.table == map[AddressAppKey(WILDCARD, "app") := router]
    && s.history.Keys == {ID}
  }

  lemma CreatedState()
    ensures Serves(Created(), "r")
    ensures Created().inFlight == map[ID := "r"] && Created().owner == map[ID := Owner(MANAGER, UE)]
    ensures Created().managers == map[MANAGER := Manager(map[], None)] && Created().missed == {}
    ensures Created().net.purged == map[]
    ensures Created().net.workers == [Net.Worker([], [], None)] && Created().adrift == {} && Created().late == {}
  {
  }

  /** The default route changes; the notification is left to a new worker. */
  function Edited(s: System, router: string): System
    requires ID in s.history
  {
    s.(net := s.net.(
         proxy := Associate(s.net.proxy, WILDCARD, "app", router),
         workers := s.net.workers + [Net.Worker([Note(router)], [], None)]),
       history := s.history[ID := s.history[ID] + [router]])
  }

  lemma NoteIsExact(before: Contexts, after: Contexts, router: string)
    requires before.Keys == after.Keys == {ID} && before[ID].edgeRouter != after[ID].edgeRouter == router
    requires router != ""
    requires after[ID].callback == CallbackFor(MANAGER, UE)
    ensures Exact(before, after, [Note(router)])
  {
  }

  lemma EditServes(s: System, old_: string, router: string)
    requires Serves(s, old_)
    ensures Serves(Edited(s, router), router)
  {
  }

  lemma EditStep(s: System, old_: string, router: string)
    requires Serves(s, old_) && old_ != router && router != ""
    ensures Step(s, EditTable(Enter(WILDCARD, "app", router)), Edited(s, router)) && Serves(Edited(s, router), router)
  {
    hide Exact, Associate, Edited, Net.Step;
    var s' := Edited(s, router);
    EditServes(s, old_, router);
    EditedParts(s, router);
    assert s'.history == Extend(s.history, s.net.proxy.contexts, s'.net.proxy.contexts);
    NetEditStep(s, old_, router);
  }

  lemma NetEditStep(s: System, old_: string, router: string)
    requires Serves(s, old_) && Serves(Edited(s, router), router) && old_ != router && router != ""
    ensures Net.Step(s.net, Net.EditTable(Enter(WILDCARD, "app", router)), Edited(s, router).net)
  {
    hide Exact, Associate, Edited;
    EditedParts(s, router);
    NoteIsExact(s.net.proxy.contexts, Edited(s, router).net.proxy.contexts, router);
  }

  lemma EditedParts(s: System, router: string)
    requires ID in s.history
    ensures Edited(s, router) == s.(net := Edited(s, router).net, history := s.history[ID := s.history[ID] + [router]])
    ensures Edited(s, router).net == s.net.(
      proxy := Associate(s.net.proxy, WILDCARD, "app", router),
      workers := s.net.workers + [Net.Worker([Note(router)], [], None)])
  {
  }

  lemma NoteIsForManager(router: string)
    ensures Addressee(Note(router).callback) == Owner(MANAGER, UE)
  {
    AddresseeOfCallback(Owner(MANAGER, UE));
  }

  /** A worker posts its only notification and gets an answer. */
  function Answer(s: System, i: nat): System
    requires CanPost(s, i)
  {
    AtClients(s, Post(i, Answered), s.net.(workers := s.net.workers[i :=
      Net.Worker(s.net.workers[i].batch, [ReplyTo(s.managers, Head(s, i), Answered)],
                 if Received(s.managers, Head(s, i), Answered) then None else Some(Head(s, i).contextId))]))
  }

  lemma AnswerStep(s: System, i: nat)
    requires i < |s.net.workers| && |s.net.workers[i].batch| == 1 && s.net.workers[i].replies == []
    requires s.net.workers[i].verdict.None?
    ensures CanPost(s, i) && Step(s, Post(i, Answered), Answer(s, i))
  {
    hide Received;
    var worker := s.net.workers[i];
    assert Todo(worker) == worker.batch && Head(s, i) == worker.batch[0];
    assert worker.replies + [ReplyTo(s.managers, Head(s, i), Answered)] == [ReplyTo(s.managers, Head(s, i), Answered)];
  }

  /** The creation reply is handled. */
  function Stored(s: System): System
    requires Enabled(s, StoreReply(ID))
  {
    AtClients(s, StoreReply(ID), s.net)
  }

  lemma StoreStep(s: System)
    requires Enabled(s, StoreReply(ID))
    ensures Step(s, StoreReply(ID), Stored(s))
  {
  }

  function Purged(s: System, i: nat): System
    requires i < |s.net.workers| && s.net.workers[i].verdict.Some?
  {
    var id := s.net.workers[i].verdict.value;
    s.(net := s.net.(
      proxy := Without(s.net.proxy, {id}),
      workers := s.net.workers[i := s.net.workers[i].(verdict := None)],
      purged := if id in s.net.proxy.contexts then s.net.purged[id := i] else s.net.purged))
  }

  lemma PurgeStep(s: System, i: nat)
    requires i < |s.net.workers| && s.net.workers[i].verdict.Some?
    ensures Step(s, Purge(i), Purged(s, i))
  {
  }

  /**
   From the moment the creation reply is on its way: an edit, its notification, the purge, and only then the reply.
   */
  lemma EarlyEnding(s0: System) returns (s2: System, s3: System, s4: System)
    requires Serves(s0, "r") && s0.inFlight == map[ID := "r"] && s0.owner == map[ID := Owner(MANAGER, UE)]
    requires s0.managers == map[MANAGER := Manager(map[], None)] && s0.net.workers == [Net.Worker([], [], None)]
    requires s0.adrift == {}
    ensures Step(Edited(s0, "q"), Post(1, Answered), s2) && Step(s2, Purge(1), s3) && Step(s3, StoreReply(ID), s4)
    ensures Running(s4, MANAGER) && UE in s4.managers[MANAGER].contexts
    ensures s4.managers[MANAGER].contexts[UE].contextId == ID
    ensures ID !in s4.net.proxy.contexts && ID in s4.net.purged && ID !in s4.adrift
  {
    hide Step, Serves, Addressee;
    EditServes(s0, "r", "q");
    assert ID in s0.history && ID in Edited(s0, "q").net.proxy.contexts by {
      ServedIsThere(s0, "r");
      ServedIsThere(Edited(s0, "q"), "q");
    }
    NoteIsForManager("q");
    AnswerStep(Edited(s0, "q"), 1);
    s2 := Answer(Edited(s0, "q"), 1);
    PurgeStep(s2, 1);
    s3 := Purged(s2, 1);
    StoreStep(s3);
    s4 := Stored(s3);
  }

  lemma ServedIsThere(s: System, router: string)
    requires Serves(s, router)
    ensures ID in s.history && ID in s.net.proxy.contexts
  {
  }

  /**
   A notification that is answered before the creation reply has been handled gets the context purged, and the
   manager is left with an application whose context is gone.
   */
  lemma EarlyAnswerPurges() returns (states: seq<System>, events: seq<Event>)
    ensures Run(states, events)
    ensures var s := states[|events|];
      && Running(s, MANAGER) && UE in s.managers[MANAGER].contexts && s.managers[MANAGER].contexts[UE].contextId == ID
      && ID !in s.net.proxy.contexts && ID in s.net.purged && ID !in s.adrift
  {
    hide Step, Run, Serves, Created, Edited;
    states, events := Beginning();
    CreatedState();
    EditStep(Created(), "r", "q");
    var s2, s3, s4 := EarlyEnding(Created());
    states, events := Continue(states, events, EditTable(Enter(WILDCARD, "app", "q")), Edited(Created(), "q"));
    states, events := Continue(states, events, Post(1, Answered), s2);
    states, events := Continue(states, events, Purge(1), s3);
    states, events := Continue(states, events, StoreReply(ID), s4);
  }

  /** The manager holds one end-point for the context, the proxy another. */
  ghost predicate Disagree(s: System) {
    && MANAGER in s.managers && UE in s.managers[MANAGER].contexts && ID in s.net.proxy.contexts
    && s.managers[MANAGER].contexts[UE].contextId == ID
    && s.managers[MANAGER].contexts[UE].referenceUri != s.net.proxy.contexts[ID].edgeRouter
    && s.net.proxy.contexts[ID].edgeRouter != ""
  }

  /** Two notifications are yet to be posted. */
  ghost predicate TwoPending(s: System) {
    && Serves(s, "z") && s.inFlight == map[] && s.adrift == {} && s.missed == {} && s.late == {}
    && s.managers == map[MANAGER := Manager(map[UE := ClientDesc("r", ID)], None)]
    && s.net.workers == [
      Net.Worker([], [], None), Net.Worker([Note("q")], [], None), Net.Worker([Note("z")], [], None)]
  }

  /** From the moment the creation reply has been handled: two edits. */
  lemma TwoEdits(s1: System)
    requires Serves(s1, "r") && s1.inFlight == map[] && s1.adrift == {} && s1.missed == {} && s1.late == {}
    requires s1.managers == map[MANAGER := Manager(map[UE := ClientDesc("r", ID)], None)]
    requires s1.net.workers == [Net.Worker([], [], None)]
    ensures ID in s1.history && ID in Edited(s1, "q").history
    ensures TwoPending(Edited(Edited(s1, "q"), "z"))
  {
    hide Serves, Edited, Associate;
    ServedIsThere(s1, "r");
    EditedParts(s1, "q");
    EditedParts(Edited(s1, "q"), "z");
    EditServes(s1, "r", "q");
    EditServes(Edited(s1, "q"), "q", "z");
  }

  /** The manager receives the only notification of a worker. */
  lemma AnswerIsReceived(s: System, i: nat, held: string, router: string)
    requires i < |s.net.workers| && s.net.workers[i] == Net.Worker([Note(router)], [], None)
    requires s.managers == map[MANAGER := Manager(map[UE := ClientDesc(held, ID)], None)]
    ensures CanPost(s, i) && Step(s, Post(i, Answered), Answer(s, i))
    ensures Answer(s, i) == s.(
      net := s.net.(workers := s.net.workers[i := Net.Worker([Note(router)], [NoContent], None)]),
      managers := map[MANAGER := Manager(map[UE := ClientDesc(router, ID)], None)],
      missed := s.missed - {ID})
  {
    hide Step, Addressee;
    NoteIsForManager(router);
    AnswerStep(s, i);
    assert Todo(s.net.workers[i]) == [Note(router)];
    var contexts := s.managers[MANAGER].contexts;
    assert Overwrite(contexts, UE, router) == map[UE := ClientDesc(router, ID)];
    assert Deliver(s.managers, Note(router)) == s.managers[MANAGER := Manager(map[UE := ClientDesc(router, ID)], None)];
  }

  /** The notifications are posted the other way round. */
  lemma SwappedEnding(s3: System) returns (s4: System, s5: System)
    requires TwoPending(s3)
    ensures Step(s3, Post(2, Answered), s4)
    ensures Step(s4, Post(1, Answered), s5)
    ensures Settled(s5, ID) && Pending(s5.net.workers, ID) == [] && Disagree(s5)
  {
    hide Step, Serves, Answer, CanPost;
    ServedRouter(s3, "z");
    AnswerIsReceived(s3, 2, "r", "z");
    s4 := Answer(s3, 2);
    AnswerIsReceived(s4, 1, "z", "q");
    s5 := Answer(s4, 1);
    NothingTodo(s5.net.workers);
  }

  lemma ServedRouter(s: System, router: string)
    requires Serves(s, router)
    ensures ID in s.net.proxy.contexts && s.net.proxy.contexts[ID].edgeRouter == router
  {
  }

  lemma {:induction false} NothingTodo(workers: seq<Net.Worker>)
    requires forall worker <- workers :: Todo(worker) == []
    ensures Pending(workers, ID) == []
  {
    if workers != [] {
      NothingTodo(workers[..|workers| - 1]);
    }
  }

  /**
   Two edits whose notifications are posted the other way round leave the manager with the end-point of the first
   one for good: nothing is pending and nothing was missed.
   */
  lemma SwappedNotificationsDisagree() returns (states: seq<System>, events: seq<Event>)
    ensures Run(states, events)
    ensures var s := states[|events|];
      Settled(s, ID) && Pending(s.net.workers, ID) == [] && Disagree(s)
  {
    hide Step, Run, Serves, Created, Edited, Settled, Disagree, Pending, TwoPending;
    states, events := Beginning();
    CreatedState();
    StoreStep(Created());
    var s1 := Stored(Created());
    StoredServes(Created(), "r");
    EditStep(s1, "r", "q");
    EditStep(Edited(s1, "q"), "q", "z");
    TwoEdits(s1);
    var s4, s5 := SwappedEnding(Edited(Edited(s1, "q"), "z"));
    states, events := Continue(states, events, StoreReply(ID), s1);
    states, events := Continue(states, events, EditTable(Enter(WILDCARD, "app", "q")), Edited(s1, "q"));
    states, events := Continue(states, events, EditTable(Enter(WILDCARD, "app", "z")), Edited(Edited(s1, "q"), "z"));
    states, events := Continue(states, events, Post(2, Answered), s4);
    states, events := Continue(states, events, Post(1, Answered), s5);
  }

  /** A worker gives its only notification up, and it may still arrive. */
  function Delay(s: System, i: nat): System
    requires CanPost(s, i)
  {
    AtClients(s, Post(i, Delayed), s.net.(workers := s.net.workers[i :=
      Net.Worker(s.net.workers[i].batch, [Exception], None)]))
  }

  lemma DelayStep(s: System, i: nat)
    requires i < |s.net.workers| && |s.net.workers[i].batch| == 1
    requires s.net.workers[i].replies == [] && s.net.workers[i].verdict.None?
    ensures CanPost(s, i) && Step(s, Post(i, Delayed), Delay(s, i))
  {
    hide Reaches;
    var worker := s.net.workers[i];
    assert Todo(worker) == worker.batch && Head(s, i) == worker.batch[0];
    assert worker.replies + [Exception] == [Exception];
  }

  lemma ArriveStep(s: System, router: string)
    requires Note(router) in s.late && MANAGER in s.managers && UE in s.managers[MANAGER].contexts
    ensures Addressee(Note(router).callback) == Owner(MANAGER, UE)
    ensures Step(s, Arrive(Note(router)), HandOver(s, Note(router), true))
  {
    NoteIsForManager(router);
  }

  /** Two notifications have not been received: one was given up and may still arrive, one is yet to be posted. */
  ghost predicate OneLate(s: System) {
    && Serves(s, "z") && s.inFlight == map[] && s.adrift == {} && s.late == {Note("q")}
    && s.managers == map[MANAGER := Manager(map[UE := ClientDesc("r", ID)], None)]
    && s.net.workers == [
      Net.Worker([], [], None), Net.Worker([Note("q")], [Exception], None), Net.Worker([Note("z")], [], None)]
  }

  /** The first notification is given up. */
  lemma LateBeginning(s3: System) returns (s4: System)
    requires TwoPending(s3)
    ensures Step(s3, Post(1, Delayed), s4)
    ensures InOrder(s3, Post(1, Delayed), ID)
    ensures OneLate(s4)
  {
    hide Step, Serves, Addressee;
    DelayStep(s3, 1);
    s4 := Delay(s3, 1);
    NothingTodo(s3.net.workers[..1]);
    assert Serves(s4, "z") by {
      SameServes(s3, s4, "z");
    }
  }

  lemma SameServes(s: System, s': System, router: string)
    requires Serves(s, router) && s'.net.proxy == s.net.proxy && s'.history == s.history
    ensures Serves(s', router)
  {
  }

  /** The second notification is received, and then the first one arrives. */
  lemma LateEnding(s4: System) returns (s5: System, s6: System)
    requires OneLate(s4)
    ensures Step(s4, Post(2, Answered), s5)
    ensures InOrder(s4, Post(2, Answered), ID)
    ensures Step(s5, Arrive(Note("q")), s6)
    ensures Settled(s6, ID) && Pending(s6.net.workers, ID) == [] && Disagree(s6)
  {
    hide Step, Serves, Answer, Addressee;
    ServedRouter(s4, "z");
    NoteIsForManager("q");
    AnswerIsReceived(s4, 2, "r", "z");
    s5 := Answer(s4, 2);
    ArriveStep(s5, "q");
    s6 := HandOver(s5, Note("q"), true);
    NothingTodo(s4.net.workers[..2]);
    NothingTodo(s6.net.workers);
  }

  ghost predicate PostsInOrder(states: seq<System>, events: seq<Event>) {
    Run(states, events) && forall k | 0 <= k < |events| && events[k].Post? :: InOrder(states[k], events[k], ID)
  }

  lemma ContinueInOrder(states: seq<System>, events: seq<Event>, event: Event, s': System)
    returns (states': seq<System>, events': seq<Event>)
    requires PostsInOrder(states, events) && Step(states[|events|], event, s')
    requires event.Post? ==> InOrder(states[|events|], event, ID)
    ensures PostsInOrder(states', events') && states'[|events'|] == s'
  {
    hide Step, InOrder;
    states', events' := states + [s'], events + [event];
  }

  /** So does a notification that arrives after it was given up, even if all are posted in order. */
  lemma LateNotificationDisagrees() returns (states: seq<System>, events: seq<Event>)
    ensures PostsInOrder(states, events)
    ensures var s := states[|events|];
      Settled(s, ID) && Pending(s.net.workers, ID) == [] && Disagree(s)
  {
    hide Step, InOrder, Run, Serves, Created, Edited, Settled, Disagree, Pending, OneLate, TwoPending;
    states, events := Beginning();
    CreatedState();
    StoreStep(Created());
    var s1 := Stored(Created());
    StoredServes(Created(), "r");
    EditStep(s1, "r", "q");
    EditStep(Edited(s1, "q"), "q", "z");
    TwoEdits(s1);
    var s4 := LateBeginning(Edited(Edited(s1, "q"), "z"));
    var s5, s6 := LateEnding(s4);
    hide PostsInOrder;
    states, events := ContinueInOrder(states, events, StoreReply(ID), s1);
    states, events := ContinueInOrder(states, events, EditTable(Enter(WILDCARD, "app", "q")), Edited(s1, "q"));
    states, events := ContinueInOrder(states, events, EditTable(Enter(WILDCARD, "app", "z")),
      Edited(Edited(s1, "q"), "z"));
    states, events := ContinueInOrder(states, events, Post(1, Delayed), s4);
    states, events := ContinueInOrder(states, events, Post(2, Answered), s5);
    states, events := ContinueInOrder(states, events, Arrive(Note("q")), s6);
  }

  lemma StoredServes(s: System, router: string)
    requires Serves(s, router) && Enabled(s, StoreReply(ID))
    ensures Serves(Stored(s), router)
  {
  }

  /** The only entry is dropped: the context becomes an orphan and nobody is told. */
  function Dropped(s: System): System {
    s.(net := s.net.(
      proxy := Remove(s.net.proxy, WILDCARD, "app"),
      workers := s.net.workers + [Net.Worker([], [], None)]))
  }

  lemma DropStep(s: System, router: string)
    requires Serves(s, router)
    ensures Step(s, EditTable(Drop(WILDCARD, "app")), Dropped(s))
    ensures ID in Dropped(s).net.proxy.contexts && Orphan(Dropped(s).net.proxy.contexts[ID])
    ensures Dropped(s).net.proxy.contexts[ID].appName == "app"
    ensures Dropped(s).net.proxy.contexts[ID].clientAddress == "client"
  {
    hide Route;
    DroppedState(s, router);
  }

  lemma DroppedState(s: System, router: string)
    requires Serves(s, router)
    ensures var proxy := Dropped(s).net.proxy;
      && proxy.table == map[]
      && proxy.contexts == map[ID := Desc(UE, CallbackFor(MANAGER, UE), "client", "app", "")]
  {
    assert s.net.proxy.table - {AddressAppKey(WILDCARD, "app")} == map[];
  }

  /**
   The loop of an association asserts that every context of the application has a route. It need not: drop the only
   route of a context, then enter one for somebody else.
   */
  lemma AssertionCanFail() returns (states: seq<System>, events: seq<Event>)
    ensures Run(states, events)
    ensures var proxy := states[|events|].net.proxy;
      !AllRouted(proxy.table[AddressAppKey("other", "app") := "q"], proxy.contexts, "app")
  {
    hide Step, Run, Serves, Created, Dropped, AllRouted;
    states, events := Beginning();
    CreatedState();
    DropStep(Created(), "r");
    states, events := Continue(states, events, EditTable(Drop(WILDCARD, "app")), Dropped(Created()));
    ProxyStaysValid(states, events);
    var proxy := Dropped(Created()).net.proxy;
    AssertionHoldsIff(proxy, "other", "app", "q");
  }

  lemma ProxyStaysValid(states: seq<System>, events: seq<Event>)
    requires Run(states, events)
    ensures Valid(states[|events|].net.proxy)
  {
    hide Step;
    ClientSafety.RunKeepsSafe(states, events, |events|);
  }

  // ---- Requests of clients that are not managers

  function ForeignRequest(callback: string): AppContext {
    AppContext("", UE, callback, INFO)
  }

  function ForeignCreation(callback: string): Net.Event {
    Net.CreateContext("client", ForeignRequest(callback), ID)
  }

  function ForeignCreated(callback: string): Net.System {
    Routed().net.(proxy := Create(Routed().net.proxy, "client", ForeignRequest(callback), ID), issued := {ID})
  }

  lemma ForeignSteps(callback: string)
    ensures Net.Step(START.net, Net.ChangeList(Add(INFO)), Listed().net)
    ensures Net.Step(Listed().net, Net.EditTable(Enter(WILDCARD, "app", "r")), Routed().net)
    ensures Net.Step(Routed().net, ForeignCreation(callback), ForeignCreated(callback))
  {
    FirstSteps();
  }

  lemma ForeignState(callback: string)
    ensures var s := ForeignCreated(callback);
      && s.proxy.contexts == map[ID := Desc(UE, callback, "client", "app", "r")] && s.proxy.ueIndex == map[UE := ID]
      && s.proxy.table == map[AddressAppKey(WILDCARD, "app") := "r"]
      && Mangle(INFO) in s.proxy.applications && s.issued == {ID} && s.workers == [Net.Worker([], [], None)]
  {
  }

  lemma ForeignBeginning(callback: string) returns (states: seq<Net.System>, events: seq<Net.Event>)
    ensures Net.Run(states, events) && states[|events|] == ForeignCreated(callback)
  {
    hide Net.Step, Listed, Routed, ForeignCreated, ForeignCreation;
    ForeignSteps(callback);
    states := [START.net, Listed().net, Routed().net, ForeignCreated(callback)];
    events := [Net.ChangeList(Add(INFO)), Net.EditTable(Enter(WILDCARD, "app", "r")), ForeignCreation(callback)];
  }

  /** The default route changes to "q"; a context without a callback is to be notified. */
  lemma SilentEdit(s: Net.System) returns (s': Net.System)
    requires s.proxy.contexts == map[ID := Desc(UE, "", "client", "app", "r")]
    requires s.proxy.table == map[AddressAppKey(WILDCARD, "app") := "r"]
    ensures Net.Step(s, Net.EditTable(Enter(WILDCARD, "app", "q")), s')
    ensures s'.workers == s.workers + [Net.Worker([Notification("", "q", ID)], [], None)]
  {
    s' := s.(
      proxy := Associate(s.proxy, WILDCARD, "app", "q"),
      workers := s.workers + [Net.Worker([Notification("", "q", ID)], [], None)]);
  }

  /**
   Posting a notification asserts that it has a callback. It need not: create a context without one, then change the
   route.
   */
  lemma CallbackCanBeMissing() returns (states: seq<Net.System>, events: seq<Net.Event>)
    ensures Net.Run(states, events)
    ensures exists worker <- states[|events|].workers :: !AllComplete(worker.batch)
  {
    hide Net.Step, ForeignCreated;
    states, events := ForeignBeginning("");
    ForeignState("");
    var s' := SilentEdit(ForeignCreated(""));
    states, events := states + [s'], events + [Net.EditTable(Enter(WILDCARD, "app", "q"))];
    var batch := [Notification("", "q", ID)];
    assert batch[0] in batch;
    assert Net.Worker(batch, [], None) in s'.workers;
  }

  /**
   A creation asserts that the UE application ID is new. A client that uses its ID twice is accepted all the same,
   and leaves a context that the second index does not lead to.
   */
  lemma UeAppIdCanBeShared() returns (states: seq<Net.System>, events: seq<Net.Event>, contextId: string)
    ensures Net.Run(states, events)
    ensures var proxy, request := states[|events|].proxy, ForeignRequest("http://client");
      var proxy' := Create(proxy, "client", request, contextId);
      && request.Valid() && contextId !in states[|events|].issued && Accepts(proxy, "client", request, contextId)
      && !Inverse(proxy'.contexts, proxy'.ueIndex)
  {
    hide Net.Step, ForeignCreated, Net.Inv;
    states, events := ForeignBeginning("http://client");
    ForeignState("http://client");
    contextId := "d";
    var proxy := ForeignCreated("http://client").proxy;
    CreateKeepsInverseIff(proxy, "client", ForeignRequest("http://client"), contextId);
  }
}
