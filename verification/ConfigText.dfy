/**
 The text form of the address table: the configuration file that the proxy can be started from, and the
 listing that the command-line client prints. Both write the wildcard as a star.
 */
module ConfigText {
  import opened Wrappers
  import opened Texts
  import opened RoutingTable
  import opened ProxyModel
  import opened StaticProxy

  // ---- Words

  predicate IsSpace(c: char) {
    c == ' ' || c == '\t' || c == '\n' || c == '\U{0B}' || c == '\U{0C}' || c == '\r'
  }

  predicate SpaceFree(text: string) {
    forall c <- text :: !IsSpace(c)
  }

  predicate Word(text: string) {
    text != "" && SpaceFree(text)
  }

  function WordLength(text: string): (n: nat)
    ensures n <= |text| && SpaceFree(text[..n])
    ensures n < |text| ==> IsSpace(text[n])
  {
    if text == "" || IsSpace(text[0]) then 0 else 1 + WordLength(text[1..])
  }

  /** The words of a text, in order. */
  function Tokens(text: string): seq<string>
    decreases |text|
  {
    if text == "" then []
    else if IsSpace(text[0]) then Tokens(text[1..])
    else
      var n := WordLength(text);
      [text[..n]] + Tokens(text[n..])
  }

  // ---- Reading words from a stream

  class InputStream {
    const text: string
    var pos: nat
    var eof: bool
    var fail: bool

    constructor (text: string)
      ensures this.text == text && pos == 0 && !eof && !fail
    {
      this.text := text;
      pos, eof, fail := 0, false, false;
    }

    ghost function Ahead(): seq<string>
      reads this
    {
      if pos <= |text| then Tokens(text[pos..]) else []
    }

    /** Extracts the next word; running out of characters sets `eof`, finding no word sets `fail`. */
    method Extract() returns (token: string)
      requires pos <= |text| && (eof ==> pos == |text|)
      modifies this`pos, this`eof, this`fail
      ensures pos <= |text| && (eof ==> pos == |text|)
      ensures fail <==> old(fail) || old(eof) || old(Ahead()) == []
      ensures !fail ==> [token] + Ahead() == old(Ahead())
      ensures !old(eof) && !old(fail) ==> (eof <==> pos == |text|)
    {
      hide Tokens;
      token := "";
      if eof || fail {
        fail := true;
        return;
      }
      while pos < |text| && IsSpace(text[pos])
        invariant pos <= |text| && !eof && !fail
        invariant Ahead() == old(Ahead())
      {
        SkipSpace(text, pos);
        pos := pos + 1;
      }
      AtEnd(text);
      if pos == |text| {
        eof, fail := true, true;
        return;
      }
      ghost var start := pos;
      while pos < |text| && !IsSpace(text[pos])
        invariant start <= pos <= |text| && !eof && !fail
        invariant token == text[start..pos] && SpaceFree(token)
        decreases |text| - pos
      {
        token := token + [text[pos]];
        pos := pos + 1;
      }
      if pos == |text| {
        eof := true;
      }
      SplitAt(text, start, pos);
      FirstWord(token, text[pos..]);
    }
  }

  lemma SkipSpace(text: string, pos: nat)
    requires pos < |text| && IsSpace(text[pos])
    ensures Tokens(text[pos..]) == Tokens(text[pos + 1..])
  {
  }

  lemma SplitAt(text: string, start: nat, pos: nat)
    requires start <= pos <= |text|
    ensures text[start..] == text[start..pos] + text[pos..]
  {
  }

  lemma AtEnd(text: string)
    ensures Tokens(text[|text|..]) == []
  {
  }

  lemma {:induction false} WordLengthOfWord(word: string, rest: string)
    requires SpaceFree(word) && (rest == "" || IsSpace(rest[0]))
    ensures WordLength(word + rest) == |word|
  {
    if word == "" {
      assert word + rest == rest;
    } else {
      assert (word + rest)[1..] == word[1..] + rest;
      assert forall c <- word[1..] :: c in word;
      assert word[0] in word;
      WordLengthOfWord(word[1..], rest);
    }
  }

  /** A word followed by nothing or by a space is the first token. */
  lemma FirstWord(word: string, rest: string)
    requires Word(word) && (rest == "" || IsSpace(rest[0]))
    ensures Tokens(word + rest) == [word] + Tokens(rest)
  {
    var text := word + rest;
    WordLengthOfWord(word, rest);
    assert text[0] == word[0] && word[0] in word;
    assert text[..|word|] == word && text[|word|..] == rest;
  }

  // ---- Loading a configuration file

  datatype LoadError = CannotOpen | IllFormed | EmptyConfiguration

  /** A star stands for the wildcard. */
  function AddressOf(token: string): string {
    if token == "*" then WILDCARD else token
  }

  function KeyAt(tokens: seq<string>, i: nat): AddressAppKey
    requires i + 1 < |tokens|
  {
    AddressAppKey(AddressOf(tokens[i]), tokens[i + 1])
  }

  /** The table made of triples of words, entered from first to last. */
  function TableOf(tokens: seq<string>): Table {
    if |tokens| < 3 then map[]
    else
      var i := |tokens| - 3;
      TableOf(tokens[..i])[KeyAt(tokens, i) := tokens[i + 2]]
  }

  /** What loading a file comes to; no text means that the file cannot be opened. */
  function LoadResult(file: Option<string>): Result<Table, LoadError> {
    match file
    case None => Failure(CannotOpen)
    case Some(text) =>
      var tokens := Tokens(text);
      if |tokens| % 3 != 0 then Failure(IllFormed)
      else if tokens == [] then Failure(EmptyConfiguration)
      else Success(TableOf(tokens))
  }

  datatype Reading = NoMore | Broken | Triple(address: string, appName: string, edgeRouter: string)

  /** The next three words, the first one with the star turned into the wildcard. */
  method ReadTriple(input: InputStream) returns (reading: Reading)
    requires !input.fail && !input.eof && input.pos <= |input.text|
    modifies input`pos, input`eof, input`fail
    ensures input.pos <= |input.text| && (input.eof ==> input.pos == |input.text|)
    ensures var ahead := old(input.Ahead());
      match reading
      case NoMore => ahead == []
      case Broken => 0 < |ahead| < 3
      case Triple(address, appName, edgeRouter) =>
        |ahead| >= 3 && address == AddressOf(ahead[0]) && appName == ahead[1] && edgeRouter == ahead[2] &&
        !input.fail && input.Ahead() == ahead[3..]
  {
    hide Tokens;
    AtEnd(input.text);
    var address := input.Extract();
    if input.fail {
      return NoMore;
    }
    if address == "*" {
      address := WILDCARD;
    }
    var appName := input.Extract();
    if input.fail {
      return Broken;
    }
    var edgeRouter := input.Extract();
    if input.fail {
      return Broken;
    }
    return Triple(address, appName, edgeRouter);
  }

  /**
   Reads the file word by word and enters one association per triple; there are no contexts to notify yet. A file
   without a word, and one whose last triple is incomplete, are refused.
   */
  method Load(file: Option<string>) returns (result: Result<StaticUeAppLcmProxy, LoadError>)
    ensures file.None? ==> result == Failure(CannotOpen)
    ensures file.Some? ==>
      var words := Tokens(file.value);
      if words == [] then result == Failure(EmptyConfiguration)
      else if |words| % 3 != 0 then result == Failure(IllFormed)
      else
        && result.Success? && fresh(result.value) && Valid(result.value.State())
        && result.value.contexts == map[] && result.value.ueIndex == map[] && result.value.base.applications == map[]
        && HoldsLastTriples(words, result.value.table)
    ensures result.Success? <==> LoadResult(file).Success?
    ensures result.Failure? ==> result.error == LoadResult(file).error
    ensures result.Success? ==>
      && fresh(result.value) && Valid(result.value.State())
      && result.value.State() == EMPTY.(table := LoadResult(file).value)
  {
    hide Valid, Tokens, Exact, Associate, TableOf, AddressOf, ServesAllOrphans, HoldsLastTriples;
    if file.None? {
      return Failure(CannotOpen);
    }
    var proxy := new StaticUeAppLcmProxy();
    var input := new InputStream(file.value);
    var empty := true;
    ghost var tokens := Tokens(file.value);
    ghost var done := 0;
    assert file.value[0..] == file.value && tokens[0..] == tokens;
    TableOfNothing();
    while !input.eof
      invariant fresh(proxy) && fresh(input) && fresh(proxy.base) && input.text == file.value
      invariant !input.fail && input.pos <= |input.text| && (input.eof ==> input.pos == |input.text|)
      invariant 3 * done <= |tokens| && input.Ahead() == tokens[3 * done..]
      invariant empty <==> done == 0
      invariant Valid(proxy.State()) && proxy.State() == EMPTY.(table := TableOf(tokens[..3 * done]))
      decreases |tokens| - 3 * done
    {
      var reading := ReadTriple(input);
      if reading.NoMore? {
        break;
      }
      if reading.Broken? {
        return Failure(IllFormed);
      }
      NextTriple(file.value, 3 * done, reading.address, reading.appName, reading.edgeRouter);
      AssociateWithoutContexts(proxy.State(), reading.address, reading.appName, reading.edgeRouter);
      var notified, assertionsHeld := proxy.AssociateLocked(reading.address, reading.appName, reading.edgeRouter);
      empty := false;
      done := done + 1;
    }
    AtEnd(file.value);
    assert tokens[..|tokens|] == tokens;
    if empty {
      return Failure(EmptyConfiguration);
    }
    LastTriplesAreHeld(tokens);
    return Success(proxy);
  }

  lemma TableOfNothing()
    ensures forall tokens: seq<string> :: |tokens| < 3 ==> TableOf(tokens) == map[]
  {
  }

  lemma AssociateWithoutContexts(s: ProxyState, address: string, appName: string, edgeRouter: string)
    requires s.contexts == map[]
    ensures Associate(s, address, appName, edgeRouter) ==
      s.(table := s.table[AddressAppKey(address, appName) := edgeRouter])
  {
  }

  /** Three more words are one more entry of the table, and no word is empty. */
  lemma NextTriple(text: string, i: nat, address: string, appName: string, edgeRouter: string)
    requires var tokens := Tokens(text);
      i + 2 < |tokens| && address == AddressOf(tokens[i]) && appName == tokens[i + 1] && edgeRouter == tokens[i + 2]
    ensures var tokens := Tokens(text);
      TableOf(tokens[..i + 3]) == TableOf(tokens[..i])[AddressAppKey(address, appName) := edgeRouter]
    ensures EditAllowed(appName, edgeRouter)
  {
    hide Tokens;
    var tokens := Tokens(text);
    TokensAreWords(text);
    assert Word(tokens[i + 1]) && Word(tokens[i + 2]);
    assert tokens[..i + 3][..i] == tokens[..i];
  }

  lemma {:induction false} TokensAreWords(text: string)
    ensures forall token <- Tokens(text) :: Word(token)
    decreases |text|
  {
    if text == "" {
    } else if IsSpace(text[0]) {
      TokensAreWords(text[1..]);
    } else {
      TokensAreWords(text[WordLength(text)..]);
    }
  }

  lemma {:induction false} TokensIgnoreTrailingSpace(text: string, space: char)
    requires IsSpace(space)
    ensures Tokens(text + [space]) == Tokens(text)
    decreases |text|
  {
    if text == "" {
      assert (text + [space])[1..] == "";
    } else if IsSpace(text[0]) {
      assert (text + [space])[1..] == text[1..] + [space];
      TokensIgnoreTrailingSpace(text[1..], space);
    } else {
      var n := WordLength(text);
      var word, rest := text[..n], text[n..];
      assert text == word + rest && text + [space] == word + (rest + [space]);
      FirstWord(word, rest);
      FirstWord(word, rest + [space]);
      TokensIgnoreTrailingSpace(rest, space);
    }
  }

  /** A file may end in a space or a line break, or not. */
  lemma TrailingSpaceIgnored(text: string, space: char)
    requires IsSpace(space)
    ensures LoadResult(Some(text + [space])) == LoadResult(Some(text))
  {
    TokensIgnoreTrailingSpace(text, space);
  }

  // ---- The last triple wins

  /** The keys of the table are those of the triples, and each is mapped to what its last triple says. */
  ghost predicate HoldsLastTriples(words: seq<string>, table: Table) {
    && (forall key :: key in table <==> exists i :: Names(words, i, key))
    && (forall i, key | Names(words, i, key) && (forall j | j > i :: !Names(words, j, key)) ::
          key in table && table[key] == words[3 * i + 2])
  }

  lemma LastTriplesAreHeld(words: seq<string>)
    requires |words| % 3 == 0
    ensures HoldsLastTriples(words, TableOf(words))
  {
    hide TableOf;
    forall key
      ensures key in TableOf(words) <==> exists i :: Names(words, i, key)
      ensures forall i | Names(words, i, key) && (forall j | j > i :: !Names(words, j, key)) ::
        TableOf(words)[key] == words[3 * i + 2]
    {
      LastTripleWins(words, key);
    }
  }

  /** Triple number `i` of the words is about `key`. */
  predicate Names(tokens: seq<string>, i: int, key: AddressAppKey) {
    0 <= i && 3 * i + 2 < |tokens| && KeyAt(tokens, 3 * i) == key
  }

  /**
   An entry is in the loaded table exactly if some triple names it, and the last such triple says to what it is
   mapped.
   */
  lemma {:induction false} LastTripleWins(tokens: seq<string>, key: AddressAppKey)
    requires |tokens| % 3 == 0
    ensures key in TableOf(tokens) <==> exists i :: Names(tokens, i, key)
    ensures forall i | Names(tokens, i, key) && (forall j | j > i :: !Names(tokens, j, key)) ::
      TableOf(tokens)[key] == tokens[3 * i + 2]
    decreases |tokens|
  {
    if tokens != [] {
      var n := |tokens| / 3 - 1;
      var earlier := tokens[..3 * n];
      LastTripleWins(earlier, key);
      assert forall i | i < n :: Names(tokens, i, key) <==> Names(earlier, i, key);
      assert forall i | Names(tokens, i, key) :: i <= n;
      if Names(tokens, n, key) {
        assert TableOf(tokens)[key] == tokens[3 * n + 2];
      } else {
        assert TableOf(tokens) == TableOf(earlier)[KeyAt(tokens, 3 * n) := tokens[3 * n + 2]];
      }
    }
  }

  // ---- Printing the table

  type Entry = (string, string, string)

  /** An empty address is printed as a star. */
  function Starred(address: string): string {
    if address == WILDCARD then "*" else address
  }

  function Line(e: Entry): string {
    Starred(e.0) + " " + e.1 + " " + e.2 + "\n"
  }

  function Lines(entries: seq<Entry>): string {
    if entries == [] then "" else Lines(entries[..|entries| - 1]) + Line(entries[|entries| - 1])
  }

  /** No field has a blank or a line break in it. */
  predicate Printable(e: Entry) {
    ' ' !in e.0 + e.1 + e.2 && '\n' !in e.0 + e.1 + e.2
  }

  /** The text is one line for each entry: its three fields, with blanks in between, and a star for no address. */
  ghost predicate ReadsAs(text: string, entries: seq<Entry>) {
    var lines := Cut(text, '\n');
    && |lines| == |entries| + 1 && lines[|entries|] == ""
    && forall i | 0 <= i < |entries| ::
      Cut(lines[i], ' ') == [if entries[i].0 == "" then "*" else entries[i].0, entries[i].1, entries[i].2]
  }

  method PrintTable(entries: seq<Entry>) returns (output: string)
    ensures (forall e <- entries :: Printable(e)) ==> ReadsAs(output, entries)
    ensures output == Lines(entries)
  {
    output := "";
    for i := 0 to |entries|
      invariant output == Lines(entries[..i])
    {
      var e := entries[i];
      assert entries[..i + 1][..i] == entries[..i];
      var address := if e.0 == "" then "*" else e.0;
      output := output + (address + " " + e.1 + " " + e.2 + "\n");
    }
    assert entries[..|entries|] == entries;
    assert (forall e <- entries :: Printable(e)) ==> ReadsAs(output, entries) by {
      if forall e <- entries :: Printable(e) {
        LinesReadAsEntries(entries);
      }
    }
  }

  lemma LineIsOneLine(e: Entry, rest: string)
    requires Printable(e)
    ensures var lines := Cut(Line(e) + rest, '\n');
      && lines[1..] == Cut(rest, '\n')
      && Cut(lines[0], ' ') == [if e.0 == "" then "*" else e.0, e.1, e.2]
  {
    hide Cut;
    assert forall c | c in e.0 || c in e.1 || c in e.2 :: c in e.0 + e.1 + e.2;
    var address := Starred(e.0);
    var line := address + [' '] + (e.1 + [' '] + e.2);
    assert Line(e) + rest == line + ['\n'] + rest;
    CutFirstPiece(line, '\n', rest);
    CutFirstPiece(address, ' ', e.1 + [' '] + e.2);
    CutFirstPiece(e.1, ' ', e.2);
    CutOnce(e.2, ' ');
  }

  lemma {:induction false} LinesThenRest(entries: seq<Entry>, rest: string)
    requires forall e <- entries :: Printable(e)
    ensures var lines := Cut(Lines(entries) + rest, '\n');
      && |lines| == |entries| + |Cut(rest, '\n')| && lines[|entries|..] == Cut(rest, '\n')
      && forall i | 0 <= i < |entries| ::
        Cut(lines[i], ' ') == [if entries[i].0 == "" then "*" else entries[i].0, entries[i].1, entries[i].2]
  {
    hide Cut, Line, Printable;
    if entries == [] {
      assert Lines(entries) + rest == rest;
    } else {
      var init, e := entries[..|entries| - 1], entries[|entries| - 1];
      assert e in entries && forall other <- init :: other in entries;
      assert Lines(entries) + rest == Lines(init) + (Line(e) + rest);
      LinesThenRest(init, Line(e) + rest);
      LineIsOneLine(e, rest);
    }
  }

  lemma LinesReadAsEntries(entries: seq<Entry>)
    requires forall e <- entries :: Printable(e)
    ensures ReadsAs(Lines(entries), entries)
  {
    LinesThenRest(entries, "");
    assert Lines(entries) + "" == Lines(entries);
  }

  // ---- Printing and loading again

  /** What can be told from the spaces around it, and from a star. */
  predicate Clean(e: Entry) {
    SpaceFree(e.0) && e.0 != "*" && Word(e.1) && Word(e.2)
  }

  ghost predicate CleanTable(table: Table) {
    forall key <- table :: Clean((key.address, key.appName, table[key]))
  }

  /** The words of the printed entries. */
  function Flat(entries: seq<Entry>): seq<string> {
    if entries == [] then []
    else var e := entries[|entries| - 1]; Flat(entries[..|entries| - 1]) + [Starred(e.0), e.1, e.2]
  }

  lemma WordThenSpace(word: string, space: char, rest: string)
    requires Word(word) && IsSpace(space)
    ensures Tokens(word + [space] + rest) == [word] + Tokens(rest)
  {
    var follow := [space] + rest;
    assert word + [space] + rest == word + follow;
    FirstWord(word, follow);
    SkipSpace(follow, 0);
    assert follow[0..] == follow && follow[1..] == rest;
  }

  lemma TokensOfLine(e: Entry, rest: string)
    requires Clean(e)
    ensures Tokens(Line(e) + rest) == [Starred(e.0), e.1, e.2] + Tokens(rest)
  {
    hide Tokens;
    var last := e.2 + ['\n'] + rest;
    var middle := e.1 + [' '] + last;
    assert Line(e) + rest == Starred(e.0) + [' '] + middle;
    WordThenSpace(Starred(e.0), ' ', middle);
    WordThenSpace(e.1, ' ', last);
    WordThenSpace(e.2, '\n', rest);
  }

  lemma {:induction false} TokensOfLines(entries: seq<Entry>, rest: string)
    requires forall e <- entries :: Clean(e)
    ensures Tokens(Lines(entries) + rest) == Flat(entries) + Tokens(rest)
  {
    hide Tokens, Line, Clean;
    if entries == [] {
      assert Lines(entries) + rest == rest;
    } else {
      var init, e := entries[..|entries| - 1], entries[|entries| - 1];
      assert e in entries && forall other <- init :: other in entries;
      assert Lines(entries) + rest == Lines(init) + (Line(e) + rest);
      TokensOfLines(init, Line(e) + rest);
      TokensOfLine(e, rest);
    }
  }

  lemma NotAStar(e: Entry)
    requires Clean(e)
    ensures AddressOf(Starred(e.0)) == e.0
  {
  }

  lemma {:induction false} TableOfFlat(entries: seq<Entry>, table: Table)
    requires forall e <- entries :: Clean(e)
    requires forall e <- entries :: AddressAppKey(e.0, e.1) in table && table[AddressAppKey(e.0, e.1)] == e.2
    ensures |Flat(entries)| == 3 * |entries|
    ensures var built := TableOf(Flat(entries));
      && (forall key <- built :: key in table && built[key] == table[key])
      && (forall e <- entries :: AddressAppKey(e.0, e.1) in built)
  {
    hide Clean;
    if entries != [] {
      var init, e := entries[..|entries| - 1], entries[|entries| - 1];
      assert e in entries && forall other <- init :: other in entries;
      NotAStar(e);
      TableOfFlat(init, table);
      assert Flat(entries)[..|Flat(entries)| - 3] == Flat(init);
      assert forall other <- entries :: other in init || other == e;
    }
  }

  lemma EntriesAreClean(entries: seq<Entry>, table: Table)
    requires Lists(entries, table) && CleanTable(table)
    ensures forall e <- entries :: Clean(e)
  {
  }

  lemma TableOfFlatIsTable(entries: seq<Entry>, table: Table)
    requires Lists(entries, table) && forall e <- entries :: Clean(e)
    ensures TableOf(Flat(entries)) == table
  {
    hide Clean, Flat, TableOf;
    TableOfFlat(entries, table);
    forall key <- table ensures key in TableOf(Flat(entries)) {
      var e := (key.address, key.appName, table[key]);
      assert e in entries && AddressAppKey(e.0, e.1) == key;
    }
  }

  /** A table all of whose fields are clean is restored from its listing, in whatever order it is listed. */
  lemma CleanTableIsRestored(entries: seq<Entry>, table: Table)
    requires Lists(entries, table) && CleanTable(table) && table != map[]
    ensures LoadResult(Some(Lines(entries))) == Success(table)
  {
    hide Clean, Flat, TableOf, Tokens, CleanTable;
    EntriesAreClean(entries, table);
    TokensOfLines(entries, "");
    assert Lines(entries) + "" == Lines(entries);
    AtEnd("");
    assert ""[|""|..] == "";
    assert Flat(entries) + [] == Flat(entries);
    TableOfFlatIsTable(entries, table);
    TableOfFlat(entries, table);
    var key :| key in table;
    assert (key.address, key.appName, table[key]) in entries;
  }

  lemma {:induction false} FlatLength(entries: seq<Entry>)
    ensures |Flat(entries)| == 3 * |entries|
  {
    if entries != [] {
      FlatLength(entries[..|entries| - 1]);
    }
  }

  /** A listing that goes on with one or two more words is refused. */
  lemma CutOffListingIsRefused(entries: seq<Entry>, more: string)
    requires forall e <- entries :: Clean(e)
    requires |Tokens(more)| == 1 || |Tokens(more)| == 2
    ensures LoadResult(Some(Lines(entries) + more)) == Failure(IllFormed)
  {
    hide Tokens, Clean, Flat;
    TokensOfLines(entries, more);
    FlatLength(entries);
  }

  lemma {:induction false} TableOfWordsIsClean(tokens: seq<string>)
    requires forall token <- tokens :: Word(token)
    ensures CleanTable(TableOf(tokens))
  {
    if |tokens| >= 3 {
      var n := |tokens| - 3;
      assert forall token <- tokens[..n] :: token in tokens;
      TableOfWordsIsClean(tokens[..n]);
      assert tokens[n] in tokens && tokens[n + 1] in tokens && tokens[n + 2] in tokens;
    }
  }

  lemma LoadedIsCleanAndNonEmpty(text: string)
    requires LoadResult(Some(text)).Success?
    ensures CleanTable(LoadResult(Some(text)).value) && LoadResult(Some(text)).value != map[]
  {
    var tokens := Tokens(text);
    TokensAreWords(text);
    TableOfWordsIsClean(tokens);
    assert KeyAt(tokens, |tokens| - 3) in TableOf(tokens);
  }

  /**
   Printing a table, in any order, and loading the text gives back the same table exactly when the table is not
   empty, no field has a space in it or is an empty word, and no address is a literal star.
   */
  lemma RoundTripIff(entries: seq<Entry>, table: Table)
    requires Lists(entries, table)
    ensures LoadResult(Some(Lines(entries))) == Success(table) <==> table != map[] && CleanTable(table)
  {
    if table != map[] && CleanTable(table) {
      CleanTableIsRestored(entries, table);
    }
    if LoadResult(Some(Lines(entries))) == Success(table) {
      LoadedIsCleanAndNonEmpty(Lines(entries));
    }
  }
}
