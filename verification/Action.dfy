/**
 Keys of OpenWhisk actions and the comparison of two action lists by key. The comparison works on the text
 form of the keys, so it is only as good as that text form is unambiguous.
 */
module Action {

  datatype ActionKey = ActionKey(space: string, name: string) {
    function ToString(): string {
      "/" + space + "/" + name
    }
  }

  datatype Action = Action(space: string, name: string, updated: nat, version: string) {
    function Key(): ActionKey {
      ActionKey(space, name)
    }
  }

  ghost function Rendered(actions: map<ActionKey, Action>): set<string> {
    set key <- actions :: key.ToString()
  }

  /**
   The text forms of the keys of a list, one insertion at a time; the order in which the keys come does not matter.
   */
  method RenderKeys(actions: map<ActionKey, Action>) returns (texts: set<string>)
    ensures texts == Rendered(actions)
  {
    texts := {};
    var todo := actions.Keys;
    while todo != {}
      invariant todo <= actions.Keys
      invariant texts == set key <- actions.Keys - todo :: key.ToString()
    {
      var key :| key in todo;
      todo := todo - {key};
      texts := texts + {key.ToString()};
    }
  }

  /** What the comparison answers on every input: the sizes agree and the text forms agree as sets. */
  ghost predicate SameRendering(lhs: map<ActionKey, Action>, rhs: map<ActionKey, Action>) {
    |lhs| == |rhs| && Rendered(lhs) == Rendered(rhs)
  }

  method SameKeys(lhs: map<ActionKey, Action>, rhs: map<ActionKey, Action>) returns (same: bool)
    ensures same <==> SameRendering(lhs, rhs)
    ensures |lhs| != |rhs| ==> !same
    ensures SlashFree(lhs.Keys + rhs.Keys) ==> (same <==> lhs.Keys == rhs.Keys)
  {
    if SlashFree(lhs.Keys + rhs.Keys) {
      SlashFreeKeysAreCompared(lhs, rhs);
    }
    if |lhs| != |rhs| {
      return false;
    }
    var lhsTexts := RenderKeys(lhs);
    var rhsTexts := RenderKeys(rhs);
    return lhsTexts == rhsTexts;
  }

  ghost predicate SlashFree(keys: set<ActionKey>) {
    forall key <- keys :: '/' !in key.space
  }

  // ---- For which namespaces the comparison is right

  /** All the keys of a list live in the given namespaces. */
  ghost predicate Within(actions: map<ActionKey, Action>, spaces: iset<string>) {
    forall key <- actions :: key.space in spaces
  }

  /** No namespace is another one followed by a slash and more. */
  ghost predicate NoneNested(spaces: iset<string>) {
    forall outer, inner | outer in spaces && inner in spaces :: !(outer + "/" <= inner)
  }

  /** A slash in a namespace is the only way to nest it. */
  lemma SlashFreeIsNoneNested(spaces: iset<string>)
    requires forall space <- spaces :: '/' !in space
    ensures NoneNested(spaces)
  {
    forall outer, inner | outer in spaces && inner in spaces
      ensures !(outer + "/" <= inner)
    {
      assert (outer + "/")[|outer|] == '/';
    }
  }

  lemma ToStringInjective(spaces: iset<string>, x: ActionKey, y: ActionKey)
    requires NoneNested(spaces) && x.space in spaces && y.space in spaces
    requires x.ToString() == y.ToString()
    ensures x == y
  {
    var text := x.ToString();
    assert text[1..|x.space| + 1] == x.space && text[|x.space| + 1] == '/' && text[|x.space| + 2..] == x.name;
    assert text[1..|y.space| + 1] == y.space && text[|y.space| + 1] == '/' && text[|y.space| + 2..] == y.name;
    assert |x.space| < |y.space| ==> x.space + "/" <= y.space;
    assert |y.space| < |x.space| ==> y.space + "/" <= x.space;
  }

  lemma ComparesKeysIfNoneNested(spaces: iset<string>, lhs: map<ActionKey, Action>, rhs: map<ActionKey, Action>)
    requires NoneNested(spaces) && Within(lhs, spaces) && Within(rhs, spaces)
    ensures SameRendering(lhs, rhs) <==> lhs.Keys == rhs.Keys
  {
    assert |lhs| == |lhs.Keys| && |rhs| == |rhs.Keys|;
    if Rendered(lhs) == Rendered(rhs) {
      forall key ensures key in lhs <==> key in rhs {
        if key in lhs {
          assert key.ToString() in Rendered(rhs);
          var other :| other in rhs && other.ToString() == key.ToString();
          ToStringInjective(spaces, key, other);
        }
        if key in rhs {
          assert key.ToString() in Rendered(lhs);
          var other :| other in lhs && other.ToString() == key.ToString();
          ToStringInjective(spaces, key, other);
        }
      }
      assert lhs.Keys == rhs.Keys;
    }
  }

  lemma SlashFreeKeysAreCompared(lhs: map<ActionKey, Action>, rhs: map<ActionKey, Action>)
    requires SlashFree(lhs.Keys + rhs.Keys)
    ensures SameRendering(lhs, rhs) <==> lhs.Keys == rhs.Keys
  {
    var spaces := iset space: string | '/' !in space;
    SlashFreeIsNoneNested(spaces);
    assert forall key <- lhs :: key in lhs.Keys + rhs.Keys;
    assert forall key <- rhs :: key in lhs.Keys + rhs.Keys;
    ComparesKeysIfNoneNested(spaces, lhs, rhs);
  }

  /** Two lists of one action each whose keys differ but read the same. */
  lemma NestedNamespacesAreConfused(outer: string, inner: string)
    returns (lhs: map<ActionKey, Action>, rhs: map<ActionKey, Action>)
    requires outer + "/" <= inner
    ensures Within(lhs, iset{inner}) && Within(rhs, iset{outer})
    ensures SameRendering(lhs, rhs) && lhs.Keys != rhs.Keys
  {
    var suffix := inner[|outer| + 1..];
    var x, y := ActionKey(inner, "n"), ActionKey(outer, suffix + "/n");
    assert inner == outer + "/" + suffix;
    assert x.ToString() == y.ToString();
    lhs, rhs := map[x := Action(x.space, x.name, 0, "")], map[y := Action(y.space, y.name, 0, "")];
    assert Rendered(lhs) == {x.ToString()} && Rendered(rhs) == {y.ToString()};
    assert x in lhs.Keys && x !in rhs.Keys;
  }

  /** The comparison is right on all lists over a given stock of namespaces. */
  ghost predicate ComparesKeys(spaces: iset<string>) {
    forall lhs: map<ActionKey, Action>, rhs: map<ActionKey, Action> | Within(lhs, spaces) && Within(rhs, spaces) ::
      SameRendering(lhs, rhs) <==> lhs.Keys == rhs.Keys
  }

  /** The comparison is right on all lists over a stock of namespaces exactly when none of them nests another. */
  lemma ComparesKeysIffNoneNested(spaces: iset<string>)
    ensures ComparesKeys(spaces) <==> NoneNested(spaces)
  {
    if NoneNested(spaces) {
      forall lhs: map<ActionKey, Action>, rhs: map<ActionKey, Action> | Within(lhs, spaces) && Within(rhs, spaces)
        ensures SameRendering(lhs, rhs) <==> lhs.Keys == rhs.Keys
      {
        ComparesKeysIfNoneNested(spaces, lhs, rhs);
      }
    } else {
      var outer, inner :| outer in spaces && inner in spaces && outer + "/" <= inner;
      var lhs, rhs := NestedNamespacesAreConfused(outer, inner);
      assert Within(lhs, spaces) && Within(rhs, spaces);
    }
  }
}
