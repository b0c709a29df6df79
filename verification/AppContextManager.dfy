/**
 The client side: it creates contexts at the proxy, remembers the end-point of each of its UE applications and
 overwrites it when a notification comes in.
 */
module ClientManager {
  import opened Wrappers
  import opened Texts
  import opened RoutingTable
  import opened UeAppLcmProxyBase
  import opened ProxyModel
  import opened StaticProxy

  datatype ClientDesc = ClientDesc(referenceUri: string, contextId: string)

  /** UE application ID to context. */
  type ClientContexts = map<string, ClientDesc>

  // ---- How a notification finds its application

  /** The callback announced to the proxy for one UE application. */
  function CallbackFor(notificationUri: string, ueAppId: string): string {
    notificationUri + "/" + ueAppId
  }

  /** UE application IDs are non-empty and can be told from the rest of a path. */
  predicate IsSegment(ueAppId: string) {
    ueAppId != "" && '/' !in ueAppId
  }

  /** What follows the last slash. */
  function AfterLastSlash(path: string): string {
    if path == "" || path[|path| - 1] == '/' then ""
    else AfterLastSlash(path[..|path| - 1]) + [path[|path| - 1]]
  }

  /** The last non-empty piece of a path cut at slashes, empty if there is none. */
  function LastSegment(path: string): string {
    if path != "" && path[|path| - 1] == '/' then LastSegment(path[..|path| - 1])
    else AfterLastSlash(path)
  }

  lemma {:induction false} AfterLastSlashOf(prefix: string, segment: string)
    requires '/' !in segment && (prefix == "" || prefix[|prefix| - 1] == '/')
    ensures AfterLastSlash(prefix + segment) == segment
  {
    var path := prefix + segment;
    if segment == "" {
      assert path == prefix;
    } else {
      var init := segment[..|segment| - 1];
      assert path[..|path| - 1] == prefix + init && path[|path| - 1] == segment[|segment| - 1];
      AfterLastSlashOf(prefix, init);
    }
  }

  /** A callback leads back to the UE application it was made for. */
  lemma CallbackNamesApplication(notificationUri: string, ueAppId: string)
    requires IsSegment(ueAppId)
    ensures LastSegment(CallbackFor(notificationUri, ueAppId)) == ueAppId
  {
    AfterLastSlashOf(notificationUri + "/", ueAppId);
  }

  /** A path has no piece exactly if it is made of slashes. */
  lemma {:induction false} LastSegmentEmptyIff(path: string)
    ensures LastSegment(path) == "" <==> forall c <- path :: c == '/'
  {
    if path != "" {
      var init, last := path[..|path| - 1], path[|path| - 1];
      assert last in path;
      assert forall c :: c in path <==> c in init || c == last;
      if last == '/' {
        LastSegmentEmptyIff(init);
      }
    }
  }

  /** The last piece of a path stands behind a slash or at the beginning, and is followed by slashes only. */
  lemma {:induction false} LastSegmentIsLastPiece(prefix: string, segment: string, slashes: string)
    requires IsSegment(segment) && (forall c <- slashes :: c == '/')
    requires prefix == "" || prefix[|prefix| - 1] == '/'
    ensures LastSegment(prefix + segment + slashes) == segment
    decreases |slashes|
  {
    var path := prefix + segment + slashes;
    if slashes == "" {
      assert path == prefix + segment && path[|path| - 1] == segment[|segment| - 1];
      AfterLastSlashOf(prefix, segment);
    } else {
      var init := slashes[..|slashes| - 1];
      assert path[..|path| - 1] == prefix + segment + init;
      assert slashes[|slashes| - 1] in slashes && forall c <- init :: c in slashes;
      LastSegmentIsLastPiece(prefix, segment, init);
    }
  }

  /** Callbacks of different applications, or of different managers, differ. */
  lemma CallbackForInjective(uri1: string, ueAppId1: string, uri2: string, ueAppId2: string)
    requires IsSegment(ueAppId1) && IsSegment(ueAppId2)
    requires CallbackFor(uri1, ueAppId1) == CallbackFor(uri2, ueAppId2)
    ensures uri1 == uri2 && ueAppId1 == ueAppId2
  {
    CutAtLast(uri1, ueAppId1, uri2, ueAppId2, '/');
  }

  // ---- Operations

  datatype HandlerOutcome = Malformed | UnknownApplication | Updated

  function HandlerReply(contexts: ClientContexts, path: string, referenceUri: Option<string>): HandlerOutcome {
    if referenceUri.None? || LastSegment(path) == "" then Malformed
    else if LastSegment(path) in contexts then Updated
    else UnknownApplication
  }

  function Overwrite(contexts: ClientContexts, ueAppId: string, referenceUri: string): ClientContexts {
    if ueAppId in contexts then contexts[ueAppId := contexts[ueAppId].(referenceUri := referenceUri)] else contexts
  }

  datatype ClientError = InvalidAppInfo | NotCreated | UnknownUeApp

  class AppContextManager {
    const notificationUri: string
    var contexts: ClientContexts

    constructor (notificationUri: string)
      ensures this.notificationUri == notificationUri && contexts == map[]
    {
      this.notificationUri := notificationUri;
      contexts := map[];
    }

    /**
     Creates a context at the proxy and stores what the proxy answers. The two identifiers are drawn at random
     by the client and by the proxy.
     */
    method ContextCreate(proxy: StaticUeAppLcmProxy, clientAddress: string, appInfo: AppInfo, ueAppId: string,
      uuid: string)
      returns (result: Result<(string, string), ClientError>)
      requires Valid(proxy.State()) && appInfo.Valid()
      requires ueAppId != "" && ueAppId !in proxy.ueIndex && ueAppId !in contexts
      requires uuid != "" && uuid !in proxy.contexts
      modifies this`contexts, proxy`contexts, proxy`ueIndex
      ensures Valid(proxy.State())
      ensures var request := AppContext("", ueAppId, CallbackFor(notificationUri, ueAppId), appInfo);
        && (result.Success? <==>
              && appInfo.message.AppContextRequest? && Mangle(appInfo) in proxy.base.applications
              && exists key <- proxy.table :: Matches(key, clientAddress, appInfo.appName))
        && (result.Success? ==>
              var router := Route(proxy.table, clientAddress, appInfo.appName);
              result.value == (ueAppId, router) &&
              contexts == old(contexts)[ueAppId := ClientDesc(router, uuid)] &&
              proxy.State() == Create(old(proxy.State()), clientAddress, request, uuid) &&
              proxy.contexts[uuid] ==
                Desc(ueAppId, notificationUri + "/" + ueAppId, clientAddress, appInfo.appName, router))
      ensures result.Failure? ==> contexts == old(contexts) && proxy.State() == old(proxy.State())
      ensures result.Failure? ==> result.error == if appInfo.message.AppContextRequest? then NotCreated
        else InvalidAppInfo
    {
      FindIsMostSpecific(proxy.table, clientAddress, appInfo.appName);
      if !appInfo.message.AppContextRequest? {
        return Failure(InvalidAppInfo);
      }
      var request := AppContext("", ueAppId, CallbackFor(notificationUri, ueAppId), appInfo);
      var reply, assertionsHeld := proxy.CreateContext(clientAddress, request, uuid);
      if reply.Failure? || !reply.value.IsResponse() {
        return Failure(NotCreated);
      }
      var referenceUri := reply.value.appInfo.message.referenceUri;
      contexts := contexts[ueAppId := ClientDesc(referenceUri, reply.value.contextId)];
      return Success((ueAppId, referenceUri));
    }

    method ReferenceUri(ueAppId: string) returns (uri: Result<string, ClientError>)
      ensures uri == if ueAppId in contexts then Success(contexts[ueAppId].referenceUri) else Failure(UnknownUeApp)
    {
      if ueAppId in contexts {
        return Success(contexts[ueAppId].referenceUri);
      }
      return Failure(UnknownUeApp);
    }

    /**
     `referenceUri` is the field of the body, if the body has it. A path without a piece is malformed; otherwise its
     last piece names the application.
     */
    method HandleNotification(path: string, referenceUri: Option<string>) returns (outcome: HandlerOutcome)
      modifies this`contexts
      ensures outcome.Malformed? <==> referenceUri.None? || forall c <- path :: c == '/'
      ensures outcome.Updated? <==> referenceUri.Some? && LastSegment(path) != "" && LastSegment(path) in old(contexts)
      ensures outcome.Updated? ==> contexts == old(contexts)[
        LastSegment(path) := ClientDesc(referenceUri.value, old(contexts)[LastSegment(path)].contextId)]
      ensures outcome == HandlerReply(old(contexts), path, referenceUri)
      ensures outcome.Updated? ==> contexts == Overwrite(old(contexts), LastSegment(path), referenceUri.value)
      ensures !outcome.Updated? ==> contexts == old(contexts)
    {
      LastSegmentEmptyIff(path);
      if referenceUri.None? || LastSegment(path) == "" {
        return Malformed;
      }
      var ueAppId := LastSegment(path);
      if ueAppId !in contexts {
        return UnknownApplication;
      }
      contexts := contexts[ueAppId := contexts[ueAppId].(referenceUri := referenceUri.value)];
      return Updated;
    }

    /** Asks the proxy to delete every context; `arrives` says which of the requests get there. */
    method Destroy(proxy: StaticUeAppLcmProxy, arrives: string -> bool)
      requires Valid(proxy.State())
      modifies proxy`contexts, proxy`ueIndex
      ensures Valid(proxy.State())
      ensures proxy.State() == Without(old(proxy.State()), IdsOf(contexts, arrives))
    {
      hide Valid, IdsOf, Without;
      ghost var before := proxy.State();
      WithoutNone(before);
      IdsOfNone(contexts, arrives);
      var todo := contexts.Keys;
      while todo != {}
        invariant todo <= contexts.Keys
        invariant Valid(proxy.State())
        invariant proxy.State() == Without(before, IdsOf(contexts - todo, arrives))
      {
        var ueAppId :| ueAppId in todo;
        IdsOfStep(contexts, todo, ueAppId, arrives);
        ghost var gone := IdsOf(contexts - todo, arrives);
        assert gone + {} == gone;
        WithoutTwice(before, gone, {contexts[ueAppId].contextId});
        if arrives(ueAppId) {
          var deleted := proxy.DeleteContext(contexts[ueAppId].contextId);
        }
        todo := todo - {ueAppId};
      }
      assert contexts - {} == contexts;
    }
  }

  ghost function IdsOf(contexts: ClientContexts, arrives: string -> bool): set<string> {
    set ueAppId <- contexts | arrives(ueAppId) :: contexts[ueAppId].contextId
  }

  lemma IdsOfStep(contexts: ClientContexts, todo: set<string>, ueAppId: string, arrives: string -> bool)
    requires ueAppId in todo && ueAppId in contexts
    ensures IdsOf(contexts - (todo - {ueAppId}), arrives) ==
      IdsOf(contexts - todo, arrives) + if arrives(ueAppId) then {contexts[ueAppId].contextId} else {}
  {
  }

  lemma IdsOfNone(contexts: ClientContexts, arrives: string -> bool)
    ensures IdsOf(contexts - contexts.Keys, arrives) == {}
  {
  }

  /** Active contexts and entries of the manager match: the identifiers are the same exactly if the applications are. */
  ghost predicate Tracks(s: ProxyState, contexts: ClientContexts) {
    forall ueAppId <- contexts, id <- s.contexts ::
      contexts[ueAppId].contextId == id <==> s.contexts[id].ueAppId == ueAppId
  }

  /** The applications of a manager whose context is active and whose request arrives. */
  ghost function DeletedApps(s: ProxyState, contexts: ClientContexts, arrives: string -> bool): set<string> {
    set ueAppId <- contexts | arrives(ueAppId) && contexts[ueAppId].contextId in s.contexts
  }

  /** The active contexts of applications that the manager has and whose request arrives. */
  ghost function DeletedContexts(s: ProxyState, contexts: ClientContexts, arrives: string -> bool): set<string> {
    set id <- s.contexts | s.contexts[id].ueAppId in contexts && arrives(s.contexts[id].ueAppId)
  }

  lemma OwnContextsByUeAppId(s: ProxyState, contexts: ClientContexts, arrives: string -> bool)
    requires Tracks(s, contexts)
    ensures IdsOf(contexts, arrives) * s.contexts.Keys == DeletedContexts(s, contexts, arrives)
  {
  }

  lemma AsManyIdsAsApps(s: ProxyState, contexts: ClientContexts, arrives: string -> bool)
    requires Tracks(s, contexts)
    ensures |IdsOf(contexts, arrives) * s.contexts.Keys| == |DeletedApps(s, contexts, arrives)|
  {
    hide Inverse;
    var ids, apps := IdsOf(contexts, arrives) * s.contexts.Keys, DeletedApps(s, contexts, arrives);
    var own := map id <- ids :: s.contexts[id];
    var index := map ueAppId <- apps :: contexts[ueAppId].contextId;
    assert Inverse(own, index) by {
      OwnAreInverse(s, contexts, arrives);
    }
    InverseSameSize(own, index);
    assert own.Keys == ids && index.Keys == apps;
  }

  lemma OwnAreInverse(s: ProxyState, contexts: ClientContexts, arrives: string -> bool)
    requires Tracks(s, contexts)
    ensures Inverse(map id <- IdsOf(contexts, arrives) * s.contexts.Keys :: s.contexts[id],
                    map ueAppId <- DeletedApps(s, contexts, arrives) :: contexts[ueAppId].contextId)
  {
  }

  lemma WithoutSome(contexts: Contexts, some: set<string>)
    ensures contexts - some == contexts - some * contexts.Keys
    ensures |contexts - some| == |contexts| - |some * contexts.Keys|
  {
    assert (contexts - some).Keys == contexts.Keys - some * contexts.Keys;
    assert |contexts.Keys - some * contexts.Keys| == |contexts.Keys| - |some * contexts.Keys|;
  }

  /** Exactly the contexts go whose application the manager has and whose request arrives, if they are still active. */
  lemma DestroyRemovesOwnContexts(s: ProxyState, contexts: ClientContexts, arrives: string -> bool)
    requires Tracks(s, contexts)
    ensures var s' := Without(s, IdsOf(contexts, arrives));
      && s'.contexts == s.contexts - DeletedContexts(s, contexts, arrives)
      && |s'.contexts| == |s.contexts| - |DeletedApps(s, contexts, arrives)|
  {
    hide Tracks, IdsOf, DeletedApps, DeletedContexts;
    OwnContextsByUeAppId(s, contexts, arrives);
    AsManyIdsAsApps(s, contexts, arrives);
    WithoutSome(s.contexts, IdsOf(contexts, arrives));
  }
}
