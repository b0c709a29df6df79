/**
 The mutexes of the two programs, what they guard, and the order in which the handlers take them. A handler that
 makes an HTTP call goes on, in the same thread, with the handler that serves the call.
 */
module Locking {
  import opened Wrappers
  import opened StaticProxy

  datatype Mutex = ProxyMutex | ListMutex | ManagerMutex(manager: nat)

  /** What threads share: the maps of the proxy, its list of applications, and what managers hold. */
  datatype Structure =
    | AddressTable
    | ContextIndices
    | ApplicationList
    | Entries(manager: nat)
    | EndPoints(manager: nat)

  function Guard(structure: Structure): Mutex {
    match structure
    case AddressTable => ProxyMutex
    case ContextIndices => ProxyMutex
    case ApplicationList => ListMutex
    case Entries(m) => ManagerMutex(m)
    case EndPoints(m) => ManagerMutex(m)
  }

  datatype Action = Acquire(mutex: Mutex) | Release(mutex: Mutex) | Use(structure: Structure, writing: bool) | HttpCall

  type Script = seq<Action>

  // ---- What the handlers do

  function Locked(mutex: Mutex, uses: Script): Script {
    [Acquire(mutex)] + (uses + [Release(mutex)])
  }

  /**
   The outcome of one notification, the manager whose handler runs because of it, if one does, and whether that
   manager knows the application.
   */
  datatype Delivery = Delivery(reached: Option<nat>, known: bool, outcome: PostResult)

  function Looking(m: nat, known: bool): Script {
    [Use(Entries(m), false)] + if known then [Use(EndPoints(m), true)] else []
  }

  function ManagerHandler(d: Delivery): Script {
    if d.reached.Some? then Locked(ManagerMutex(d.reached.value), Looking(d.reached.value, d.known)) else []
  }

  function AfterReply(outcome: PostResult): Script {
    if outcome == OtherStatus then Locked(ProxyMutex, [Use(ContextIndices, true)]) else []
  }

  /** `notifyClients`: a manager's handler runs during the call, and a bad reply is followed by a purge. */
  function Notify(deliveries: seq<Delivery>): Script {
    if deliveries == [] then []
    else
      var d := deliveries[0];
      (if d.outcome == InvalidUri then [] else [HttpCall] + (ManagerHandler(d) + AfterReply(d.outcome)))
      + Notify(deliveries[1..])
  }

  /** How far a creation gets at the proxy; one without a route, or that is no proper request, ends at the table. */
  datatype Creation = Unlisted | Refused | Accepted

  datatype Handler =
    | EditTable(deliveries: seq<Delivery>)
    | QueryTable
    | QueryContexts
    | CreateContext(creation: Creation)
    | UpdateContext
    | DeleteContext
    | ChangeList
    | ShowList
    | ManagerCreate(manager: nat, request: Option<Creation>, replied: bool)
    | ManagerQuery(manager: nat)
    | ManagerDestroy(manager: nat, arrivals: seq<bool>)

  /** A deletion request, which may not reach the proxy. The destructor takes no mutex of its own. */
  function Deletion(m: nat, arrives: bool): Script {
    [Use(Entries(m), false), HttpCall] + if arrives then Locked(ProxyMutex, [Use(ContextIndices, true)]) else []
  }

  /** One deletion request per context, until there is none left. */
  function Deletions(m: nat, arrivals: seq<bool>): Script {
    if arrivals == [] then [Use(Entries(m), false)] else Deletion(m, arrivals[0]) + Deletions(m, arrivals[1..])
  }

  function AfterListing(creation: Creation): Script {
    match creation
    case Unlisted => []
    case Refused => [Use(AddressTable, false)]
    case Accepted => [Use(AddressTable, false), Use(ContextIndices, true)]
  }

  /** Creating a context looks at the list of applications while holding the mutex of the proxy. */
  function CreationScript(creation: Creation): Script {
    Locked(ProxyMutex, Locked(ListMutex, [Use(ApplicationList, false)]) + AfterListing(creation))
  }

  function Storing(m: nat, stored: bool): Script {
    if stored then Locked(ManagerMutex(m), [Use(Entries(m), true), Use(EndPoints(m), true)]) else []
  }

  function ScriptOf(handler: Handler): Script {
    match handler
    case EditTable(deliveries) =>
      Locked(ProxyMutex, [Use(AddressTable, true), Use(ContextIndices, true)]) + Notify(deliveries)
    case QueryTable => Locked(ProxyMutex, [Use(AddressTable, false)])
    case QueryContexts => Locked(ProxyMutex, [Use(ContextIndices, false)])
    case CreateContext(creation) => CreationScript(creation)
    case UpdateContext => Locked(ProxyMutex, [Use(ContextIndices, true)])
    case DeleteContext => Locked(ProxyMutex, [Use(ContextIndices, true)])
    case ChangeList => Locked(ListMutex, [Use(ApplicationList, true)])
    case ShowList => Locked(ListMutex, [Use(ApplicationList, false)])
    case ManagerCreate(m, request, replied) =>
      [HttpCall] + ((if request.Some? then CreationScript(request.value) else [])
                    + Storing(m, request == Some(Accepted) && replied))
    case ManagerQuery(m) => Locked(ManagerMutex(m), [Use(Entries(m), false), Use(EndPoints(m), false)])
    case ManagerDestroy(m, arrivals) => Deletions(m, arrivals)
  }

  // ---- What the handlers do apart from taking mutexes

  /** The uses of structures and the calls of a script, in order. */
  function Deeds(script: Script): Script {
    if script == [] then []
    else (if script[0].Use? || script[0].HttpCall? then [script[0]] else []) + Deeds(script[1..])
  }

  lemma {:induction false} DeedsSequence(first: Script, second: Script)
    ensures Deeds(first + second) == Deeds(first) + Deeds(second)
  {
    if first == [] {
      assert first + second == second;
      assert Deeds(first) + Deeds(second) == Deeds(second);
    } else {
      var rest := first[1..];
      DeedsSequence(rest, second);
      DeedsOfFirst(first[0], rest);
      DeedsOfFirst(first[0], rest + second);
      hide Deeds;
      assert first == [first[0]] + rest && first + second == [first[0]] + (rest + second);
    }
  }

  lemma DeedsOfFirst(action: Action, rest: Script)
    ensures Deeds([action] + rest) == (if action.Use? || action.HttpCall? then [action] else []) + Deeds(rest)
  {
    assert ([action] + rest)[1..] == rest;
  }

  lemma {:induction false} DeedsAreDeeds(script: Script)
    requires forall action <- script :: action.Use? || action.HttpCall?
    ensures Deeds(script) == script
  {
    if script != [] {
      assert script[0] in script && forall action <- script[1..] :: action in script;
      DeedsAreDeeds(script[1..]);
    }
  }

  lemma DeedsOfLocked(mutex: Mutex, uses: Script)
    ensures Deeds(Locked(mutex, uses)) == Deeds(uses)
  {
    DeedsSequence(uses, [Release(mutex)]);
    assert Deeds([Release(mutex)]) == [] by {
      assert [Release(mutex)][1..] == [];
    }
  }

  /** A manager that is reached looks the application up, and overwrites its end-point if it knows it. */
  function DeedsOfDelivery(d: Delivery): Script {
    if d.outcome.InvalidUri? then []
    else
      [HttpCall]
      + (match d.reached
         case None => []
         case Some(m) => [Use(Entries(m), false)] + if d.known then [Use(EndPoints(m), true)] else [])
      + (if d.outcome.OtherStatus? then [Use(ContextIndices, true)] else [])
  }

  /** Scripts one after the other. */
  function Concatenated(scripts: seq<Script>): Script {
    if scripts == [] then [] else scripts[0] + Concatenated(scripts[1..])
  }

  lemma {:induction false} NotifyDoes(deliveries: seq<Delivery>)
    ensures Deeds(Notify(deliveries)) ==
      Concatenated(seq(|deliveries|, i requires 0 <= i < |deliveries| => DeedsOfDelivery(deliveries[i])))
  {
    if deliveries != [] {
      var d, rest := deliveries[0], deliveries[1..];
      var all := seq(|deliveries|, i requires 0 <= i < |deliveries| => DeedsOfDelivery(deliveries[i]));
      assert all[1..] == seq(|rest|, i requires 0 <= i < |rest| => DeedsOfDelivery(rest[i]));
      NotifyDoes(rest);
      if !d.outcome.InvalidUri? {
        DeliveryDoes(d);
      }
      DeedsSequence(
        if d.outcome == InvalidUri then [] else [HttpCall] + (ManagerHandler(d) + AfterReply(d.outcome)), Notify(rest));
    }
  }

  lemma DeliveryDoes(d: Delivery)
    requires !d.outcome.InvalidUri?
    ensures Deeds([HttpCall] + (ManagerHandler(d) + AfterReply(d.outcome))) == DeedsOfDelivery(d)
  {
    DeedsSequence([HttpCall], ManagerHandler(d) + AfterReply(d.outcome));
    DeedsSequence(ManagerHandler(d), AfterReply(d.outcome));
    DeedsAreDeeds([HttpCall]);
    DeedsOfLocked(ProxyMutex, [Use(ContextIndices, true)]);
    DeedsAreDeeds([Use(ContextIndices, true)]);
    if d.reached.Some? {
      DeedsOfLocked(ManagerMutex(d.reached.value), Looking(d.reached.value, d.known));
      DeedsAreDeeds(Looking(d.reached.value, d.known));
    }
  }

  function DeedsOfCreation(creation: Creation): Script {
    match creation
    case Unlisted => [Use(ApplicationList, false)]
    case Refused => [Use(ApplicationList, false), Use(AddressTable, false)]
    case Accepted => [Use(ApplicationList, false), Use(AddressTable, false), Use(ContextIndices, true)]
  }

  lemma CreationDoes(creation: Creation)
    ensures Deeds(CreationScript(creation)) == DeedsOfCreation(creation)
  {
    var listing, rest := [Use(ApplicationList, false)], AfterListing(creation);
    DeedsOfLocked(ProxyMutex, Locked(ListMutex, listing) + rest);
    DeedsSequence(Locked(ListMutex, listing), rest);
    DeedsOfLocked(ListMutex, listing);
    DeedsAreDeeds(listing);
    DeedsAreDeeds(rest);
  }

  function DeedsOfDeletion(m: nat, arrives: bool): Script {
    [Use(Entries(m), false), HttpCall] + if arrives then [Use(ContextIndices, true)] else []
  }

  lemma DeletionDoes(m: nat, arrives: bool)
    ensures Deeds(Deletion(m, arrives)) == DeedsOfDeletion(m, arrives)
  {
    hide Deeds, Locked;
    DeedsSequence([Use(Entries(m), false), HttpCall],
      if arrives then Locked(ProxyMutex, [Use(ContextIndices, true)]) else []);
    DeedsAreDeeds([Use(Entries(m), false), HttpCall]);
    DeedsAreDeeds([]);
    OneUse(ContextIndices, true);
  }

  lemma {:induction false} DeletionsDo(m: nat, arrivals: seq<bool>)
    ensures Deeds(Deletions(m, arrivals)) ==
      Concatenated(seq(|arrivals|, i requires 0 <= i < |arrivals| => DeedsOfDeletion(m, arrivals[i])))
      + [Use(Entries(m), false)]
  {
    hide Deeds, Deletion, DeedsOfDeletion;
    if arrivals == [] {
      DeedsAreDeeds([Use(Entries(m), false)]);
    } else {
      var rest := arrivals[1..];
      var all := seq(|arrivals|, i requires 0 <= i < |arrivals| => DeedsOfDeletion(m, arrivals[i]));
      assert all[1..] == seq(|rest|, i requires 0 <= i < |rest| => DeedsOfDeletion(m, rest[i]));
      DeletionsDo(m, rest);
      DeletionDoes(m, arrivals[0]);
      DeedsSequence(Deletion(m, arrivals[0]), Deletions(m, rest));
    }
  }

  lemma StoringDoes(m: nat, stored: bool)
    ensures Deeds(Storing(m, stored)) == if stored then [Use(Entries(m), true), Use(EndPoints(m), true)] else []
  {
    DeedsOfLocked(ManagerMutex(m), [Use(Entries(m), true), Use(EndPoints(m), true)]);
    DeedsAreDeeds([Use(Entries(m), true), Use(EndPoints(m), true)]);
  }

  /** What each handler uses, in which order, and on which side of its calls. */
  lemma HandlersDo(handler: Handler)
    ensures Deeds(ScriptOf(handler)) == match handler
      case EditTable(deliveries) =>
        [Use(AddressTable, true), Use(ContextIndices, true)]
        + Concatenated(seq(|deliveries|, i requires 0 <= i < |deliveries| => DeedsOfDelivery(deliveries[i])))
      case QueryTable => [Use(AddressTable, false)]
      case QueryContexts => [Use(ContextIndices, false)]
      case CreateContext(creation) => DeedsOfCreation(creation)
      case UpdateContext => [Use(ContextIndices, true)]
      case DeleteContext => [Use(ContextIndices, true)]
      case ChangeList => [Use(ApplicationList, true)]
      case ShowList => [Use(ApplicationList, false)]
      case ManagerCreate(m, request, replied) =>
        [HttpCall]
        + (if request.Some? then DeedsOfCreation(request.value) else [])
        + (if request == Some(Accepted) && replied then [Use(Entries(m), true), Use(EndPoints(m), true)] else [])
      case ManagerQuery(m) => [Use(Entries(m), false), Use(EndPoints(m), false)]
      case ManagerDestroy(m, arrivals) =>
        Concatenated(seq(|arrivals|, i requires 0 <= i < |arrivals| => DeedsOfDeletion(m, arrivals[i])))
        + [Use(Entries(m), false)]
  {
    hide Deeds, Locked;
    match handler
    case EditTable(deliveries) =>
      var uses := [Use(AddressTable, true), Use(ContextIndices, true)];
      DeedsSequence(Locked(ProxyMutex, uses), Notify(deliveries));
      DeedsOfLocked(ProxyMutex, uses);
      DeedsAreDeeds(uses);
      NotifyDoes(deliveries);
    case CreateContext(creation) => CreationDoes(creation);
    case ManagerCreate(m, request, replied) =>
      var served := if request.Some? then CreationScript(request.value) else [];
      var stored := request == Some(Accepted) && replied;
      DeedsSequence([HttpCall], served + Storing(m, stored));
      DeedsSequence(served, Storing(m, stored));
      DeedsAreDeeds([HttpCall]);
      DeedsAreDeeds([]);
      StoringDoes(m, stored);
      if request.Some? {
        CreationDoes(request.value);
      }
    case ManagerDestroy(m, arrivals) => DeletionsDo(m, arrivals);
    case ManagerQuery(m) =>
      var uses := [Use(Entries(m), false), Use(EndPoints(m), false)];
      DeedsOfLocked(ManagerMutex(m), uses);
      DeedsAreDeeds(uses);
    case QueryTable => OneUse(AddressTable, false);
    case QueryContexts => OneUse(ContextIndices, false);
    case ChangeList => OneUse(ApplicationList, true);
    case ShowList => OneUse(ApplicationList, false);
    case _ => OneUse(ContextIndices, true);
  }

  lemma OneUse(structure: Structure, writing: bool)
    ensures Deeds(Locked(Guard(structure), [Use(structure, writing)])) == [Use(structure, writing)]
  {
    DeedsOfLocked(Guard(structure), [Use(structure, writing)]);
    DeedsAreDeeds([Use(structure, writing)]);
  }

  // ---- Discipline

  function Rank(mutex: Mutex): nat {
    match mutex
    case ProxyMutex => 0
    case ListMutex => 1
    case ManagerMutex(_) => 2
  }

  const MAX_RANK := 2

  /**
   Mutexes are taken in the order of their ranks, never twice, never kept during a call, and all given back; what is
   used is guarded by a mutex held, except that some structures may be looked at without.
   */
  ghost predicate Disciplined(script: Script, held: set<Mutex>, exempt: set<Structure>) {
    if script == [] then held == {}
    else match script[0]
      case Acquire(mutex) =>
        mutex !in held && (forall other <- held :: Rank(other) < Rank(mutex)) &&
          Disciplined(script[1..], held + {mutex}, exempt)
      case Release(mutex) => mutex in held && Disciplined(script[1..], held - {mutex}, exempt)
      case Use(structure, writing) =>
        (Guard(structure) in held || (!writing && structure in exempt)) && Disciplined(script[1..], held, exempt)
      case HttpCall => held == {} && Disciplined(script[1..], held, exempt)
  }

  lemma {:induction false} DisciplinedSequence(first: Script, second: Script, held: set<Mutex>, exempt: set<Structure>)
    requires Disciplined(first, held, exempt) && Disciplined(second, {}, exempt)
    ensures Disciplined(first + second, held, exempt)
  {
    if first == [] {
      assert first + second == second;
    } else {
      assert (first + second)[1..] == first[1..] + second;
      match first[0]
      case Acquire(mutex) => DisciplinedSequence(first[1..], second, held + {mutex}, exempt);
      case Release(mutex) => DisciplinedSequence(first[1..], second, held - {mutex}, exempt);
      case _ => DisciplinedSequence(first[1..], second, held, exempt);
    }
  }

  /** Uses of what a mutex held guards do not stand in the way of what follows. */
  lemma {:induction false} GuardedUsesThen(uses: Script, rest: Script, held: set<Mutex>, exempt: set<Structure>)
    requires forall action <- uses :: action.Use? && Guard(action.structure) in held
    requires Disciplined(rest, held, exempt)
    ensures Disciplined(uses + rest, held, exempt)
  {
    if uses == [] {
      assert uses + rest == rest;
    } else {
      assert uses[0] in uses && forall action <- uses[1..] :: action in uses;
      assert (uses + rest)[1..] == uses[1..] + rest;
      GuardedUsesThen(uses[1..], rest, held, exempt);
    }
  }

  lemma LockedThen(mutex: Mutex, uses: Script, rest: Script, held: set<Mutex>, exempt: set<Structure>)
    requires mutex !in held && forall other <- held :: Rank(other) < Rank(mutex)
    requires forall action <- uses :: action.Use? && Guard(action.structure) == mutex
    requires Disciplined(rest, held, exempt)
    ensures Disciplined(Locked(mutex, uses) + rest, held, exempt)
  {
    var last := [Release(mutex)] + rest;
    assert last[1..] == rest && held + {mutex} - {mutex} == held;
    GuardedUsesThen(uses, last, held + {mutex}, exempt);
    var whole := Locked(mutex, uses) + rest;
    assert whole[1..] == uses + last;
  }

  lemma LockedIsDisciplined(mutex: Mutex, uses: Script, exempt: set<Structure>)
    requires forall action <- uses :: action.Use? && Guard(action.structure) == mutex
    ensures Disciplined(Locked(mutex, uses), {}, exempt)
  {
    LockedThen(mutex, uses, [], {}, exempt);
    assert Locked(mutex, uses) + [] == Locked(mutex, uses);
  }

  lemma CallThen(script: Script, exempt: set<Structure>)
    requires Disciplined(script, {}, exempt)
    ensures Disciplined([HttpCall] + script, {}, exempt)
  {
  }

  lemma {:induction false} NotifyIsDisciplined(deliveries: seq<Delivery>, exempt: set<Structure>)
    ensures Disciplined(Notify(deliveries), {}, exempt)
  {
    if deliveries != [] {
      var d, rest := deliveries[0], Notify(deliveries[1..]);
      var served, after := ManagerHandler(d), AfterReply(d.outcome);
      NotifyIsDisciplined(deliveries[1..], exempt);
      if d.reached.Some? {
        LockedIsDisciplined(ManagerMutex(d.reached.value), Looking(d.reached.value, d.known), exempt);
      }
      LockedIsDisciplined(ProxyMutex, [Use(ContextIndices, true)], exempt);
      DisciplinedSequence(served, after, {}, exempt);
      CallThen(served + after, exempt);
      DisciplinedSequence([HttpCall] + (served + after), rest, {}, exempt);
      assert [] + rest == rest;
    }
  }

  lemma {:induction false} DeletionsAreDisciplined(m: nat, arrivals: seq<bool>, exempt: set<Structure>)
    requires Entries(m) in exempt
    ensures Disciplined(Deletions(m, arrivals), {}, exempt)
  {
    if arrivals != [] {
      DeletionsAreDisciplined(m, arrivals[1..], exempt);
      DeletionIsDisciplined(m, arrivals[0], exempt);
      DisciplinedSequence(Deletion(m, arrivals[0]), Deletions(m, arrivals[1..]), {}, exempt);
    }
  }

  lemma DeletionIsDisciplined(m: nat, arrives: bool, exempt: set<Structure>)
    requires Entries(m) in exempt
    ensures Disciplined(Deletion(m, arrives), {}, exempt)
  {
    hide Locked;
    var served := if arrives then Locked(ProxyMutex, [Use(ContextIndices, true)]) else [];
    LockedIsDisciplined(ProxyMutex, [Use(ContextIndices, true)], exempt);
    CallThen(served, exempt);
    assert Deletion(m, arrives)[1..] == [HttpCall] + served;
  }

  /** Creating a context takes the mutex of the list of applications while holding the one of the proxy. */
  lemma CreationIsDisciplined(creation: Creation, exempt: set<Structure>)
    ensures Disciplined(CreationScript(creation), {}, exempt)
  {
    var listing, last := [Use(ApplicationList, false)], [Release(ProxyMutex)];
    assert last[1..] == [] && {ProxyMutex} - {ProxyMutex} == {};
    assert Disciplined(last, {ProxyMutex}, exempt);
    GuardedUsesThen(AfterListing(creation), last, {ProxyMutex}, exempt);
    var rest := AfterListing(creation) + last;
    LockedThen(ListMutex, listing, rest, {ProxyMutex}, exempt);
    assert {} + {ProxyMutex} == {ProxyMutex};
    var body := Locked(ListMutex, listing) + AfterListing(creation);
    assert body + last == Locked(ListMutex, listing) + rest;
    assert CreationScript(creation)[1..] == body + last;
  }

  /** What a handler looks at without the mutex: the destructor of a manager, the entries of that manager. */
  function Exempt(handler: Handler): set<Structure> {
    if handler.ManagerDestroy? then {Entries(handler.manager)} else {}
  }

  lemma HandlersAreDisciplined(handler: Handler)
    ensures Disciplined(ScriptOf(handler), {}, Exempt(handler))
  {
    hide Disciplined, CreationScript, Locked, Notify, Deletions;
    var exempt := Exempt(handler);
    match handler
    case EditTable(deliveries) =>
      var uses := [Use(AddressTable, true), Use(ContextIndices, true)];
      NotifyIsDisciplined(deliveries, exempt);
      LockedIsDisciplined(ProxyMutex, uses, exempt);
      DisciplinedSequence(Locked(ProxyMutex, uses), Notify(deliveries), {}, exempt);
    case CreateContext(creation) => CreationIsDisciplined(creation, exempt);
    case ManagerCreate(m, request, replied) =>
      var served := if request.Some? then CreationScript(request.value) else [];
      var storing := Storing(m, request == Some(Accepted) && replied);
      NothingIsDisciplined(exempt);
      if request.Some? {
        CreationIsDisciplined(request.value, exempt);
      }
      LockedIsDisciplined(ManagerMutex(m), [Use(Entries(m), true), Use(EndPoints(m), true)], exempt);
      DisciplinedSequence(served, storing, {}, exempt);
      CallThen(served + storing, exempt);
    case ManagerQuery(m) =>
      LockedIsDisciplined(ManagerMutex(m), [Use(Entries(m), false), Use(EndPoints(m), false)], exempt);
    case ManagerDestroy(m, arrivals) => DeletionsAreDisciplined(m, arrivals, exempt);
    case QueryTable => LockedIsDisciplined(ProxyMutex, [Use(AddressTable, false)], exempt);
    case QueryContexts => LockedIsDisciplined(ProxyMutex, [Use(ContextIndices, false)], exempt);
    case ChangeList => LockedIsDisciplined(ListMutex, [Use(ApplicationList, true)], exempt);
    case ShowList => LockedIsDisciplined(ListMutex, [Use(ApplicationList, false)], exempt);
    case _ => LockedIsDisciplined(ProxyMutex, [Use(ContextIndices, true)], exempt);
  }

  lemma NothingIsDisciplined(exempt: set<Structure>)
    ensures Disciplined([], {}, exempt)
  {
  }

  /** Every handler takes the mutex of all that it uses, except the destructor of a manager. */
  lemma AllGuardedIffNotDestroy(handler: Handler)
    ensures Disciplined(ScriptOf(handler), {}, {}) <==> !handler.ManagerDestroy?
  {
    hide Notify, CreationScript, Locked;
    HandlersAreDisciplined(handler);
  }

  // ---- Threads running handlers

  /** The handler a thread runs, what it still has to do of it, and what it holds. */
  datatype Thread = Thread(handler: Handler, script: Script, held: set<Mutex>)

  type Threads = map<nat, Thread>

  predicate Unfinished(threads: Threads, t: nat) {
    t in threads && threads[t].script != []
  }

  /** The next action of an unfinished thread. */
  function Next(threads: Threads, t: nat): Action
    requires Unfinished(threads, t)
  {
    threads[t].script[0]
  }

  /** A thread can go on unless it wants a mutex that somebody holds. */
  ghost predicate CanStep(threads: Threads, t: nat) {
    Unfinished(threads, t) &&
    (Next(threads, t).Acquire? ==> forall other <- threads :: Next(threads, t).mutex !in threads[other].held)
  }

  function Advanced(thread: Thread): Thread
    requires thread.script != []
  {
    thread.(
      script := thread.script[1..],
      held := match thread.script[0]
              case Acquire(mutex) => thread.held + {mutex}
              case Release(mutex) => thread.held - {mutex}
              case _ => thread.held)
  }

  /** A thread takes a step, or a new one starts running a handler. */
  datatype Move = Go(thread: nat) | Spawn(thread: nat, handler: Handler)

  ghost predicate Step(threads: Threads, move: Move, threads': Threads) {
    match move
    case Go(t) => CanStep(threads, t) && threads' == threads[t := Advanced(threads[t])]
    case Spawn(t, handler) => t !in threads && threads' == threads[t := Thread(handler, ScriptOf(handler), {})]
  }

  ghost predicate Run(states: seq<Threads>, moves: seq<Move>) {
    && |states| == |moves| + 1 && states[0] == map[]
    && forall k | 0 <= k < |moves| :: Step(states[k], moves[k], states[k + 1])
  }

  /** Every thread is disciplined, and no mutex is held by two. */
  ghost predicate Ordered(threads: Threads) {
    && (forall t <- threads :: Disciplined(threads[t].script, threads[t].held, Exempt(threads[t].handler)))
    && (forall t <- threads, other <- threads | t != other :: threads[t].held !! threads[other].held)
  }

  lemma StepKeepsOrdered(threads: Threads, move: Move, threads': Threads)
    requires Ordered(threads) && Step(threads, move, threads')
    ensures Ordered(threads')
  {
    hide ScriptOf;
    if move.Spawn? {
      HandlersAreDisciplined(move.handler);
    }
  }

  lemma {:induction false} RunKeepsOrdered(states: seq<Threads>, moves: seq<Move>, k: nat)
    requires Run(states, moves) && k < |states|
    ensures Ordered(states[k])
  {
    hide Step;
    if k > 0 {
      hide Ordered;
      RunKeepsOrdered(states, moves, k - 1);
      StepKeepsOrdered(states[k - 1], moves[k - 1], states[k]);
    }
  }

  /** Following who waits for whom leads, by ever higher ranks, to a thread that can go on. */
  lemma {:induction false} SomebodyCanStep(threads: Threads, t: nat) returns (u: nat)
    requires Ordered(threads) && Unfinished(threads, t)
    ensures CanStep(threads, u)
    decreases if threads[t].script[0].Acquire? then MAX_RANK - Rank(threads[t].script[0].mutex) else 0
  {
    if CanStep(threads, t) {
      u := t;
    } else {
      var wanted := threads[t].script[0].mutex;
      var holder :| holder in threads && wanted in threads[holder].held;
      assert Disciplined(threads[holder].script, threads[holder].held, Exempt(threads[holder].handler));
      if CanStep(threads, holder) {
        u := holder;
      } else {
        u := SomebodyCanStep(threads, holder);
      }
    }
  }

  /** In any interleaving of the handlers of both programs, as long as a thread is unfinished some thread can go on. */
  lemma NoDeadlock(states: seq<Threads>, moves: seq<Move>, k: nat)
    requires Run(states, moves) && k < |states| && exists t :: Unfinished(states[k], t)
    ensures exists u :: CanStep(states[k], u)
  {
    RunKeepsOrdered(states, moves, k);
    var t :| Unfinished(states[k], t);
    var u := SomebodyCanStep(states[k], t);
  }

  /** Nobody holds a mutex while making an HTTP call, and nobody asks for one it has. */
  lemma CallsHoldNothing(states: seq<Threads>, moves: seq<Move>, k: nat, t: nat)
    requires Run(states, moves) && k < |states| && Unfinished(states[k], t)
    ensures Next(states[k], t) == HttpCall ==> states[k][t].held == {}
    ensures Next(states[k], t).Acquire? ==> Next(states[k], t).mutex !in states[k][t].held
  {
    RunKeepsOrdered(states, moves, k);
  }

  // ---- Mutual exclusion

  /** A thread uses a structure only while it, and nobody else, holds its mutex, unless a manager's end just looks. */
  lemma UsesAreGuarded(states: seq<Threads>, moves: seq<Move>, k: nat, t: nat)
    requires Run(states, moves) && k < |states| && Unfinished(states[k], t) && Next(states[k], t).Use?
    ensures var structure := Next(states[k], t).structure; var handler := states[k][t].handler;
      || (&& Guard(structure) in states[k][t].held
          && forall other <- states[k] | other != t :: Guard(structure) !in states[k][other].held)
      || (handler.ManagerDestroy? && Next(states[k], t) == Use(Entries(handler.manager), false))
  {
    hide Step;
    RunKeepsOrdered(states, moves, k);
  }

  /** Two threads are about to use the same structure, and one of them to change it. */
  predicate Conflict(threads: Threads, t: nat, u: nat) {
    && t != u && Unfinished(threads, t) && Unfinished(threads, u)
    && Next(threads, t).Use? && Next(threads, u).Use? && Next(threads, t).structure == Next(threads, u).structure
    && (Next(threads, t).writing || Next(threads, u).writing)
  }

  /** The thread is a manager's end, and the other one is a creation of the same manager storing the reply. */
  predicate EndMeetsCreation(threads: Threads, t: nat, u: nat) {
    && Unfinished(threads, t) && Unfinished(threads, u)
    && threads[t].handler.ManagerDestroy? && threads[u].handler.ManagerCreate?
    && threads[t].handler.manager == threads[u].handler.manager
    && Next(threads, u) == Use(Entries(threads[u].handler.manager), true)
  }

  /** What threads still have to do is part of their handlers. */
  ghost predicate FromHandlers(threads: Threads) {
    forall t <- threads, action <- threads[t].script :: action in ScriptOf(threads[t].handler)
  }

  lemma {:induction false} RunKeepsFromHandlers(states: seq<Threads>, moves: seq<Move>, k: nat)
    requires Run(states, moves) && k < |states|
    ensures FromHandlers(states[k])
  {
    hide ScriptOf;
    if k > 0 {
      RunKeepsFromHandlers(states, moves, k - 1);
      assert Step(states[k - 1], moves[k - 1], states[k]);
    }
  }

  lemma {:induction false} UseIsDeed(script: Script, action: Action)
    requires action in script && action.Use?
    ensures action in Deeds(script)
  {
    if script[0] != action {
      UseIsDeed(script[1..], action);
    }
  }

  lemma {:induction false} InConcatenated(scripts: seq<Script>, action: Action) returns (i: nat)
    requires action in Concatenated(scripts)
    ensures i < |scripts| && action in scripts[i]
  {
    if action in scripts[0] {
      i := 0;
    } else {
      i := InConcatenated(scripts[1..], action);
      i := i + 1;
    }
  }

  /** The entries of a manager are changed by its creations only. */
  lemma EntriesChangedByCreation(handler: Handler, m: nat)
    requires Use(Entries(m), true) in ScriptOf(handler)
    ensures handler.ManagerCreate? && handler.manager == m
  {
    hide ScriptOf, Deeds, Concatenated;
    UseIsDeed(ScriptOf(handler), Use(Entries(m), true));
    HandlersDo(handler);
    match handler
    case EditTable(deliveries) =>
      var all := seq(|deliveries|, i requires 0 <= i < |deliveries| => DeedsOfDelivery(deliveries[i]));
      if Use(Entries(m), true) in Concatenated(all) {
        var i := InConcatenated(all, Use(Entries(m), true));
        assert false;
      }
    case ManagerDestroy(n, arrivals) =>
      var all := seq(|arrivals|, i requires 0 <= i < |arrivals| => DeedsOfDeletion(n, arrivals[i]));
      if Use(Entries(m), true) in Concatenated(all) {
        var i := InConcatenated(all, Use(Entries(m), true));
        assert false;
      }
    case _ =>
  }

  /** In any interleaving, uses conflict only where the end of a manager meets one of its own creations. */
  lemma ConflictOnlyAtEnd(states: seq<Threads>, moves: seq<Move>, k: nat, t: nat, u: nat)
    requires Run(states, moves) && k < |states| && Conflict(states[k], t, u)
    ensures EndMeetsCreation(states[k], t, u) || EndMeetsCreation(states[k], u, t)
  {
    hide Step, ScriptOf, Run;
    UsesAreGuarded(states, moves, k, t);
    UsesAreGuarded(states, moves, k, u);
    RunKeepsFromHandlers(states, moves, k);
    if Next(states[k], u).writing {
      WriterOfEntries(states[k], u);
    } else {
      WriterOfEntries(states[k], t);
    }
  }

  lemma WriterOfEntries(threads: Threads, u: nat)
    requires FromHandlers(threads) && Unfinished(threads, u)
    ensures Next(threads, u).Use? && Next(threads, u).writing && Next(threads, u).structure.Entries? ==>
      threads[u].handler.ManagerCreate? && threads[u].handler.manager == Next(threads, u).structure.manager
  {
    hide ScriptOf;
    if Next(threads, u).Use? && Next(threads, u).writing && Next(threads, u).structure.Entries? {
      assert Next(threads, u) in threads[u].script;
      EntriesChangedByCreation(threads[u].handler, Next(threads, u).structure.manager);
    }
  }

  // ---- Such a conflict

  /** A thread goes on alone, `n` actions long, while nobody else holds anything. */
  lemma {:induction false} GoOn(states: seq<Threads>, moves: seq<Move>, t: nat, n: nat)
    returns (states': seq<Threads>, moves': seq<Move>)
    requires Run(states, moves) && t in states[|moves|] && n <= |states[|moves|][t].script|
    requires forall other <- states[|moves|] | other != t :: states[|moves|][other].held == {}
    ensures Run(states', moves')
    ensures var before, after := states[|moves|], states'[|moves'|];
      && after.Keys == before.Keys && (forall other <- before | other != t :: after[other] == before[other])
      && after[t].script == before[t].script[n..] && after[t].handler == before[t].handler
    decreases n
  {
    hide ScriptOf;
    if n == 0 {
      states', moves' := states, moves;
    } else {
      var threads := states[|moves|];
      RunKeepsOrdered(states, moves, |moves|);
      assert CanStep(threads, t);
      var next := threads[t := Advanced(threads[t])];
      assert Step(threads, Go(t), next);
      states', moves' := GoOn(states + [next], moves + [Go(t)], t, n - 1);
    }
  }

  /** The destructor of a manager takes no mutex, so it can look at the entries while a creation changes them. */
  lemma EndCanMeetCreation() returns (states: seq<Threads>, moves: seq<Move>)
    ensures Run(states, moves) && Conflict(states[|moves|], 0, 1)
  {
    var end, creation := ManagerDestroy(0, []), ManagerCreate(0, Some(Accepted), true);
    var one: Threads := map[0 := Thread(end, ScriptOf(end), {})];
    var both := one[1 := Thread(creation, ScriptOf(creation), {})];
    states, moves := [map[], one, both], [Spawn(0, end), Spawn(1, creation)];
    assert |ScriptOf(creation)| > 9 && ScriptOf(creation)[9] == Use(Entries(0), true);
    assert ScriptOf(end)[0] == Use(Entries(0), false);
    states, moves := GoOn(states, moves, 1, 9);
  }
}
