/**
 The list of applications kept by the UE application LCM proxy. An application is identified by the text
 obtained by joining its name, its provider and its version with plus signs.
 */
module UeAppLcmProxyBase {
  import opened Texts

  /** What a piece of application information is used for. */
  datatype Message =
    | ApplicationList
    | AppContextRequest
    | AppContextResponse(referenceUri: string)

  datatype AppInfo = AppInfo(appName: string, appProvider: string, appSoftVersion: string, message: Message) {
    /** The fields no application information can do without. */
    predicate Valid() {
      appName != "" && appProvider != "" && (message.AppContextResponse? ==> message.referenceUri != "")
    }
  }

  type Applications = map<string, AppInfo>

  /** What identifies an application to its users. */
  datatype AppId = AppId(name: string, provider: string, version: string)

  function Identity(info: AppInfo): AppId {
    AppId(info.appName, info.appProvider, info.appSoftVersion)
  }

  function Join(id: AppId): string {
    id.name + "+" + id.provider + "+" + id.version
  }

  function Mangle(info: AppInfo): string {
    Join(Identity(info))
  }

  class UeAppLcmProxy {
    var applications: Applications

    constructor ()
      ensures applications == map[]
    {
      applications := map[];
    }

    /** Adds an application, or replaces what is known of it if already there. */
    method AddApp(info: AppInfo) returns (added: bool)
      modifies this
      ensures applications == Apply(old(applications), Add(info))
      ensures Mangle(info) in applications && applications[Mangle(info)] == info
      ensures applications - {Mangle(info)} == old(applications) - {Mangle(info)}
      ensures added <==> Mangle(info) !in old(applications)
      ensures Exists(info)
    {
      var key := Mangle(info);
      added := key !in applications;
      applications := applications[key := info];
    }

    method DelApp(info: AppInfo) returns (removed: bool)
      modifies this
      ensures applications == Apply(old(applications), Del(info))
      ensures applications == old(applications) - {Mangle(info)}
      ensures removed <==> Mangle(info) in old(applications)
      ensures !Exists(info)
    {
      var key := Mangle(info);
      removed := key in applications;
      applications := applications - {key};
    }

    predicate Exists(info: AppInfo)
      reads this
    {
      Mangle(info) in applications
    }
  }

  // ---- Histories of the list of applications

  datatype Change = Add(info: AppInfo) | Del(info: AppInfo)

  function Apply(applications: Applications, change: Change): Applications {
    match change
    case Add(info) => applications[Mangle(info) := info]
    case Del(info) => applications - {Mangle(info)}
  }

  /** The list of applications after a sequence of changes, starting from none. */
  function After(changes: seq<Change>): Applications {
    if changes == [] then map[]
    else Apply(After(changes[..|changes| - 1]), changes[|changes| - 1])
  }

  /** What a map keyed by (name, provider, version) would answer: the last change naming `id` is an addition. */
  predicate LastAdds(changes: seq<Change>, id: AppId) {
    changes != [] &&
    var last := changes[|changes| - 1];
    if Identity(last.info) == id then last.Add? else LastAdds(changes[..|changes| - 1], id)
  }

  ghost predicate Over(changes: seq<Change>, ids: set<AppId>) {
    forall change <- changes :: Identity(change.info) in ids
  }

  /** The identifiers of a set are told apart by their joined text. */
  ghost predicate Distinguished(ids: set<AppId>) {
    forall x, y | x in ids && y in ids && Join(x) == Join(y) :: x == y
  }

  /**
   As long as joined texts tell identifiers apart, the list answers by the last change to the very application asked
   for.
   */
  lemma {:induction false} AnswersByLastChange(changes: seq<Change>, ids: set<AppId>, id: AppId)
    requires Distinguished(ids) && Over(changes, ids) && id in ids
    ensures Join(id) in After(changes) <==> LastAdds(changes, id)
  {
    if changes != [] {
      OneChangeLess(changes, ids);
      AnswersByLastChange(changes[..|changes| - 1], ids, id);
    }
  }

  /** Number `i` of the changes is the last one that names `id`. */
  ghost predicate IsLastNaming(changes: seq<Change>, i: int, id: AppId) {
    && 0 <= i < |changes| && Identity(changes[i].info) == id
    && forall j | i < j < |changes| :: Identity(changes[j].info) != id
  }

  lemma OneChangeLess(changes: seq<Change>, ids: set<AppId>)
    requires changes != [] && Over(changes, ids)
    ensures Over(changes[..|changes| - 1], ids) && Identity(changes[|changes| - 1].info) in ids
  {
    var earlier := changes[..|changes| - 1];
    assert changes[|changes| - 1] in changes;
    assert forall change <- earlier :: change in changes;
  }

  /** The last change that names an application decides whether it is there and, if so, what is known of it. */
  lemma {:induction false} LastChangeDecides(changes: seq<Change>, ids: set<AppId>, i: nat, id: AppId)
    requires Distinguished(ids) && Over(changes, ids) && id in ids && IsLastNaming(changes, i, id)
    ensures Join(id) in After(changes) <==> changes[i].Add?
    ensures changes[i].Add? ==> After(changes)[Join(id)] == changes[i].info
  {
    hide Join;
    var n := |changes| - 1;
    OneChangeLess(changes, ids);
    if i < n {
      LastChangeDecides(changes[..n], ids, i, id);
    }
  }

  /** An application that no change names is not there. */
  lemma {:induction false} NeverNamedIsAbsent(changes: seq<Change>, ids: set<AppId>, id: AppId)
    requires Distinguished(ids) && Over(changes, ids) && id in ids
    requires forall change <- changes :: Identity(change.info) != id
    ensures Join(id) !in After(changes)
  {
    hide Join;
    if changes != [] {
      var n := |changes| - 1;
      OneChangeLess(changes, ids);
      assert changes[n] in changes && forall change <- changes[..n] :: change in changes;
      NeverNamedIsAbsent(changes[..n], ids, id);
    }
  }

  /** What is known of an application is filed under its own joined text. */
  lemma {:induction false} RecordsAreFiledRight(changes: seq<Change>)
    ensures forall key <- After(changes) :: Mangle(After(changes)[key]) == key
  {
    hide Join;
    if changes != [] {
      RecordsAreFiledRight(changes[..|changes| - 1]);
    }
  }

  /**
   The list is a map keyed by (name, provider, version), over a given set of identifiers, exactly when their joined
   texts differ.
   */
  lemma RegistryIsMapIffDistinguished(ids: set<AppId>)
    ensures Distinguished(ids) <==>
      forall changes: seq<Change>, id | Over(changes, ids) && id in ids ::
        Join(id) in After(changes) <==> LastAdds(changes, id)
  {
    if Distinguished(ids) {
      forall changes: seq<Change>, id | Over(changes, ids) && id in ids
        ensures Join(id) in After(changes) <==> LastAdds(changes, id)
      {
        AnswersByLastChange(changes, ids, id);
      }
    } else {
      var x, y :| x in ids && y in ids && Join(x) == Join(y) && x != y;
      var addX := Add(AppInfo(x.name, x.provider, x.version, ApplicationList));
      assert Identity(addX.info) == x;
      assert Over([addX], ids);
      assert After([addX]) == Apply(After([]), addX) by {
        assert [addX][..0] == [];
      }
      assert Join(y) in After([addX]) && !LastAdds([addX], y);
    }
  }

  // ---- Which identifiers are told apart

  /** No name and no provider contains a plus sign; versions may. */
  ghost predicate PlusFree(ids: set<AppId>) {
    forall id <- ids :: '+' !in id.name && '+' !in id.provider
  }

  lemma PlusFreeIsDistinguished(ids: set<AppId>)
    requires PlusFree(ids)
    ensures Distinguished(ids)
  {
    forall x, y | x in ids && y in ids && Join(x) == Join(y) ensures x == y {
      var restX, restY := x.provider + "+" + x.version, y.provider + "+" + y.version;
      assert Join(x) == x.name + ['+'] + restX && Join(y) == y.name + ['+'] + restY;
      CutAtFirst(x.name, restX, y.name, restY, '+');
      CutAtFirst(x.provider, x.version, y.provider, y.version, '+');
    }
  }

  /** A text cut at one of the occurrences of a plus sign. */
  lemma CutAtPlus(text: string) returns (left: string, right: string)
    requires '+' in text
    ensures text == left + "+" + right
  {
    var i :| 0 <= i < |text| && text[i] == '+';
    left, right := text[..i], text[i + 1..];
  }

  /** The identifiers that application information can have: its name and its provider are not empty. */
  predicate Presentable(id: AppId) {
    id.name != "" && id.provider != ""
  }

  /**
   No plus sign can be taken for a separator that is none: there is none in the version, none in the name after its
   first character, and none in the provider unless the provider is just that.
   */
  predicate OneReading(id: AppId)
    requires Presentable(id)
  {
    '+' !in id.version && (id.provider == "+" || '+' !in id.provider) && '+' !in id.name[1..]
  }

  /** Any other plus sign lets the joined text be read as that of another presentable identifier. */
  lemma OtherReading(x: AppId) returns (y: AppId)
    requires Presentable(x) && !OneReading(x)
    ensures Presentable(y) && Join(y) == Join(x) && y != x
  {
    if '+' in x.version {
      var left, right := CutAtPlus(x.version);
      y := AppId(x.name, x.provider + "+" + left, right);
      assert |y.version| < |x.version|;
    } else if '+' in x.name[1..] {
      var left, right := CutAtPlus(x.name[1..]);
      y := AppId([x.name[0]] + left, right + "+" + x.provider, x.version);
      assert x.name == y.name + "+" + right;
      assert |y.name| < |x.name|;
    } else if '+' in x.provider[1..] {
      var left, right := CutAtPlus(x.provider[1..]);
      y := AppId(x.name, [x.provider[0]] + left, right + "+" + x.version);
      assert x.provider == y.provider + "+" + right;
      assert |y.provider| < |x.provider|;
    } else {
      y := AppId(x.name + "+", x.provider[1..], x.version);
      assert x.provider == "+" + y.provider;
      assert |y.provider| < |x.provider|;
    }
    assert Join(y) == Join(x);
  }

  /** Which part a character of a joined text belongs to. */
  lemma CharacterOfJoin(x: AppId, k: int)
    requires Presentable(x) && 1 <= k < |Join(x)|
    ensures k < |x.name| ==> Join(x)[k] in x.name[1..]
    ensures |x.name| < k <= |x.name| + |x.provider| ==> Join(x)[k] in x.provider
    ensures |x.name| + 1 + |x.provider| < k ==> Join(x)[k] in x.version
  {
    assert k < |x.name| ==> Join(x)[k] == x.name[1..][k - 1];
  }

  /** Where a joined text with one reading has plus signs. One at the very start is no separator. */
  lemma PlusesOfJoin(x: AppId, k: int)
    requires Presentable(x) && OneReading(x)
    requires 1 <= k < |Join(x)| && Join(x)[k] == '+'
    ensures k == |x.name| || k == |x.name| + 1 + |x.provider| || (x.provider == "+" && k == |x.name| + 1)
  {
    CharacterOfJoin(x, k);
  }

  /** A joined text and the places of its separators give back the identifier. */
  lemma PartsOfJoin(x: AppId)
    ensures var i, j := |x.name|, |x.name| + 1 + |x.provider|;
      && j < |Join(x)| && Join(x)[i] == '+' && Join(x)[j] == '+'
      && x == AppId(Join(x)[..i], Join(x)[i + 1..j], Join(x)[j + 1..])
  {
  }

  /** A presentable identifier shares its joined text with no other one exactly when that text has one reading. */
  lemma UnambiguousIffOneReading(x: AppId)
    requires Presentable(x)
    ensures (forall y :: Presentable(y) && Join(y) == Join(x) ==> y == x) <==> OneReading(x)
  {
    if OneReading(x) {
      forall y | Presentable(y) && Join(y) == Join(x) ensures y == x {
        PartsOfJoin(x);
        PartsOfJoin(y);
        PlusesOfJoin(x, |y.name|);
        PlusesOfJoin(x, |y.name| + 1 + |y.provider|);
      }
    } else {
      var y := OtherReading(x);
    }
  }

  const MAX_LENGTH := 32

  /** No part is longer than application information allows. */
  predicate WithinLimits(id: AppId) {
    |id.name| <= MAX_LENGTH && |id.provider| <= MAX_LENGTH && |id.version| <= MAX_LENGTH
  }

  /** The limits rule out no reading of an identifier whose parts stay within the limit of one of them together. */
  lemma UnambiguousWithinLimits(x: AppId)
    requires Presentable(x) && |x.name| + |x.provider| + |x.version| <= MAX_LENGTH
    ensures (forall y :: Presentable(y) && WithinLimits(y) && Join(y) == Join(x) ==> y == x) <==> OneReading(x)
  {
    UnambiguousIffOneReading(x);
    if !OneReading(x) {
      var y := OtherReading(x);
      assert |Join(y)| == |y.name| + |y.provider| + |y.version| + 2;
    }
  }
}
