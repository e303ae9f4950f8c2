/** Adding the Hub's key line to authorized_keys and taking it out again. */
module AuthorizedKeys {
  import opened Text

  const NL := '\n'

  /** A validated key: one trimmed, non-empty line. */
  ghost predicate KeyLine(key: string) {
    key != "" && Trimmed(key) && Free(key, NL)
  }

  /** Lines are compared trimmed; as a key is not empty, blank lines never match. */
  function LineIs(key: string): string -> bool {
    line => TrimSpace(line) == key
  }

  lemma KeyIsItsLine(key: string)
    requires KeyLine(key)
    ensures LineIs(key)(key) && !LineIs(key)("")
  {
    TrimSpaceFixes(key);
    EmptyTrims();
  }

  lemma EmptyTrims()
    ensures TrimSpace("") == ""
  {
  }

  // ------------------------------------------------------------------- line contents

  /** The text of an absent file reads as empty. */
  function Content(file: Option<string>): string {
    if file.Some? then file.value else ""
  }

  function Lines(content: string): (ls: seq<string>)
    ensures ls != []
  {
    Split(content, NL)
  }

  /** The lines without the empty piece that a final newline leaves. */
  function Body(content: string): seq<string> {
    if content == "" then []
    else if Last(content) == NL then Lines(Front(content))
    else Lines(content)
  }

  function Terminated(content: string): string {
    if content != "" && Last(content) != NL then content + [NL] else content
  }

  ghost predicate AnyOf(lines: seq<string>, matches: string -> bool) {
    exists i :: 0 <= i < |lines| && matches(lines[i])
  }

  /** The text has a line with this key. */
  ghost predicate Has(content: string, key: string) {
    AnyOf(Lines(content), LineIs(key))
  }

  lemma {:induction false} JoinSnoc(parts: seq<string>, x: string)
    requires parts != []
    ensures Join(parts + [x], NL) == Join(parts, NL) + [NL] + x
  {
    if |parts| == 1 {
      assert (parts + [x])[1..] == [x];
    } else {
      assert (parts + [x])[1..] == parts[1..] + [x];
      JoinSnoc(parts[1..], x);
    }
  }

  lemma BodyJoins(content: string)
    ensures AllFree(Body(content), NL)
    ensures Terminated(content) == if Body(content) == [] then "" else Join(Body(content), NL) + [NL]
  {
    if content != "" {
      JoinSplit(content, NL);
      JoinSplit(Front(content), NL);
      assert content == Front(content) + [Last(content)];
    }
  }

  lemma BodyLines(content: string)
    ensures Lines(content) == if content == "" || Last(content) == NL then Body(content) + [""] else Body(content)
  {
    if content != "" {
      assert content == Front(content) + [Last(content)];
      SplitSnoc(Front(content), Last(content), NL);
    }
  }

  /** Terminated text followed by one more line. */
  lemma BodyGrows(content: string, key: string)
    requires Free(key, NL)
    ensures Terminated(content) + key + [NL] == Join(Body(content) + [key, ""], NL)
    ensures Lines(Terminated(content) + key + [NL]) == Body(content) + [key, ""]
  {
    var body := Body(content);
    BodyJoins(content);
    assert body + [key, ""] == (body + [key]) + [""];
    JoinSnoc(body + [key], "");
    if body != [] {
      JoinSnoc(body, key);
    }
    SplitJoin(body + [key, ""], NL);
  }

  lemma SomeSnoc(lines: seq<string>, x: string, matches: string -> bool)
    ensures AnyOf(lines + [x], matches) <==> AnyOf(lines, matches) || matches(x)
  {
    if AnyOf(lines, matches) {
      var i :| 0 <= i < |lines| && matches(lines[i]);
      assert matches((lines + [x])[i]);
    }
    assert (lines + [x])[|lines|] == x;
  }

  lemma HasBody(content: string, key: string)
    requires KeyLine(key)
    ensures Has(content, key) <==> AnyOf(Body(content), LineIs(key))
  {
    BodyLines(content);
    KeyIsItsLine(key);
    SomeSnoc(Body(content), "", LineIs(key));
  }

  // -------------------------------------------------------------- install and remove

  ghost function Installed(file: Option<string>, key: string): Option<string> {
    if Has(Content(file), key) then file else Some(Terminated(Content(file)) + key + [NL])
  }

  function Kept(lines: seq<string>, matches: string -> bool): seq<string> {
    if lines == [] then []
    else if matches(Last(lines)) then Kept(Front(lines), matches)
    else Kept(Front(lines), matches) + [Last(lines)]
  }

  ghost function Removed(file: Option<string>, key: string): Option<string> {
    if file.None? || !Has(file.value, key) then file
    else Some(Join(Kept(Lines(file.value), LineIs(key)), NL))
  }

  class AuthorizedKeysFile {
    var file: Option<string>

    constructor (file: Option<string>)
      ensures this.file == file
    {
      this.file := file;
    }

    method InstallPublicKey(key: string, writeOk: bool) returns (added: bool)
      requires KeyLine(key)
      modifies this
      ensures added <==> writeOk && !Has(Content(old(file)), key)
      ensures file == if writeOk then Installed(old(file), key) else old(file)
    {
      var content := Content(file);
      var lines := Lines(content);
      var found := Find(lines, LineIs(key));
      if found || !writeOk {
        return false;
      }
      if content != "" && Last(content) != NL {
        content := content + [NL];
      }
      file := Some(content + key + [NL]);
      return true;
    }

    method RemovePublicKey(key: string, writeOk: bool) returns (removed: bool)
      requires KeyLine(key)
      modifies this
      ensures removed <==> writeOk && old(file).Some? && Has(old(file).value, key)
      ensures file == if writeOk then Removed(old(file), key) else old(file)
    {
      if file.None? {
        return false;
      }
      var lines := Lines(file.value);
      var filtered, any := FilterLines(lines, LineIs(key));
      if !any || !writeOk {
        return false;
      }
      file := Some(Join(filtered, NL));
      return true;
    }
  }

  method Find(lines: seq<string>, matches: string -> bool) returns (found: bool)
    ensures found <==> AnyOf(lines, matches)
  {
    var i := 0;
    while i < |lines|
      invariant i <= |lines| && forall j :: 0 <= j < i ==> !matches(lines[j])
    {
      if matches(lines[i]) {
        return true;
      }
      i := i + 1;
    }
    return false;
  }

  /** removeAuthorizedKeyLines' loop. */
  method FilterLines(lines: seq<string>, matches: string -> bool) returns (filtered: seq<string>, removed: bool)
    ensures filtered == Kept(lines, matches) && (removed <==> AnyOf(lines, matches))
  {
    filtered, removed := [], false;
    var i := 0;
    while i < |lines|
      invariant i <= |lines| && filtered == Kept(lines[..i], matches)
      invariant removed <==> AnyOf(lines[..i], matches)
    {
      assert lines[..i + 1] == lines[..i] + [lines[i]];
      SomeSnoc(lines[..i], lines[i], matches);
      KeptSnoc(lines[..i], lines[i], matches);
      if matches(lines[i]) {
        removed := true;
      } else {
        filtered := filtered + [lines[i]];
      }
      i := i + 1;
    }
    assert lines[..i] == lines;
  }

  // ---------------------------------------------------------------------- properties

  /** An added key follows all the lines there were, in their order. */
  lemma InstallAppends(file: Option<string>, key: string)
    requires KeyLine(key) && !Has(Content(file), key)
    ensures Installed(file, key).Some?
    ensures Lines(Installed(file, key).value) == Body(Content(file)) + [key, ""]
  {
    BodyGrows(Content(file), key);
  }

  lemma InstalledHas(file: Option<string>, key: string)
    requires KeyLine(key)
    ensures Has(Content(Installed(file, key)), key)
  {
    if !Has(Content(file), key) {
      InstallAppends(file, key);
      KeyIsItsLine(key);
      var body := Body(Content(file));
      assert (body + [key, ""])[|body|] == key;
    }
  }

  /** Installing twice is installing once. */
  lemma InstallIsIdempotent(file: Option<string>, key: string)
    requires KeyLine(key)
    ensures Installed(Installed(file, key), key) == Installed(file, key)
  {
    InstalledHas(file, key);
  }

  lemma {:induction false} KeptAll(lines: seq<string>, matches: string -> bool)
    requires !AnyOf(lines, matches)
    ensures Kept(lines, matches) == lines
  {
    if lines != [] {
      assert lines == Front(lines) + [Last(lines)];
      SomeSnoc(Front(lines), Last(lines), matches);
      KeptAll(Front(lines), matches);
    }
  }

  lemma KeptSnoc(lines: seq<string>, x: string, matches: string -> bool)
    ensures Kept(lines + [x], matches) == if matches(x) then Kept(lines, matches) else Kept(lines, matches) + [x]
  {
    assert Front(lines + [x]) == lines;
  }

  lemma KeptAdded(body: seq<string>, key: string)
    requires KeyLine(key) && !AnyOf(body, LineIs(key))
    ensures Kept(body + [key, ""], LineIs(key)) == body + [""]
  {
    KeyIsItsLine(key);
    KeptBut(body, key, LineIs(key));
  }

  lemma KeptBut(body: seq<string>, key: string, matches: string -> bool)
    requires !AnyOf(body, matches) && matches(key) && !matches("")
    ensures Kept(body + [key, ""], matches) == body + [""]
  {
    KeptAll(body, matches);
    assert body + [key, ""] == (body + [key]) + [""];
    KeptSnoc(body + [key], "", matches);
    KeptSnoc(body, key, matches);
  }

  lemma BodyEnds(content: string)
    ensures Join(Body(content) + [""], NL) == Terminated(content)
  {
    BodyJoins(content);
    if Body(content) != [] {
      JoinSnoc(Body(content), "");
    }
  }

  /** Adding a key that was absent and removing it again gives the original text back, with
      at most a final newline added where a non-empty file lacked one. */
  lemma InstallThenRemove(file: Option<string>, key: string)
    requires KeyLine(key) && !Has(Content(file), key)
    ensures Removed(Installed(file, key), key) == Some(Terminated(Content(file)))
  {
    InstallAppends(file, key);
    InstalledHas(file, key);
    HasBody(Content(file), key);
    KeptAdded(Body(Content(file)), key);
    BodyEnds(Content(file));
  }

  lemma {:induction false} KeptLines(lines: seq<string>, matches: string -> bool)
    requires AllFree(lines, NL)
    ensures !AnyOf(Kept(lines, matches), matches) && AllFree(Kept(lines, matches), NL)
  {
    if lines != [] {
      KeptLines(Front(lines), matches);
      SomeSnoc(Kept(Front(lines), matches), Last(lines), matches);
    }
  }

  /** A text has the key exactly when one of its lines is the key once trimmed. */
  lemma HasExactly(content: string, key: string)
    ensures Has(content, key) <==> exists i :: 0 <= i < |Lines(content)| && TrimSpace(Lines(content)[i]) == key
  {
    var lines := Lines(content);
    if Has(content, key) {
      var i :| 0 <= i < |lines| && LineIs(key)(lines[i]);
      assert TrimSpace(lines[i]) == key;
    }
    if exists i :: 0 <= i < |lines| && TrimSpace(lines[i]) == key {
      var i :| 0 <= i < |lines| && TrimSpace(lines[i]) == key;
      assert LineIs(key)(lines[i]);
    }
  }

  /** The lines that are not the key once trimmed, in order. */
  function Others(lines: seq<string>, key: string): seq<string> {
    if lines == [] then []
    else Others(Front(lines), key) + if TrimSpace(Last(lines)) == key then [] else [Last(lines)]
  }

  lemma {:induction false} KeptIsOthers(lines: seq<string>, key: string)
    ensures Kept(lines, LineIs(key)) == Others(lines, key)
  {
    if lines != [] {
      KeptIsOthers(Front(lines), key);
      LineIsExactly(Last(lines), key);
    }
  }

  lemma LineIsExactly(line: string, key: string)
    ensures LineIs(key)(line) <==> TrimSpace(line) == key
  {
  }

  lemma CountSnoc(lines: seq<string>, x: string, line: string)
    ensures multiset(lines + [x])[line] == multiset(lines)[line] + if x == line then 1 else 0
  {
  }

  lemma {:induction false} KeptCount(lines: seq<string>, matches: string -> bool, line: string)
    ensures multiset(Kept(lines, matches))[line] == if matches(line) then 0 else multiset(lines)[line]
  {
    if lines != [] {
      var first, x := Front(lines), Last(lines);
      assert lines == first + [x];
      KeptCount(first, matches, line);
      KeptSnoc(first, x, matches);
      CountSnoc(first, x, line);
      CountSnoc(Kept(first, matches), x, line);
    }
  }

  /** Every other line keeps its multiplicity, and no line of the key is left. */
  lemma OthersCount(lines: seq<string>, key: string, line: string)
    ensures multiset(Others(lines, key))[line] == if TrimSpace(line) == key then 0 else multiset(lines)[line]
  {
    KeptIsOthers(lines, key);
    LineIsExactly(line, key);
    KeptCount(lines, LineIs(key), line);
  }

  /** A text always has a line, if only an empty one. */
  function AtLeastOne(lines: seq<string>): seq<string> {
    if lines == [] then [""] else lines
  }

  /** Rewriting a text without its matching lines: what its lines then are. */
  lemma FilteredLines(content: string, matches: string -> bool)
    requires !matches("")
    ensures var kept := Kept(Lines(content), matches);
      var after := Lines(if AnyOf(Lines(content), matches) then Join(kept, NL) else content);
      after == AtLeastOne(kept) && !AnyOf(after, matches)
  {
    var lines := Lines(content);
    JoinSplit(content, NL);
    KeptLines(lines, matches);
    if !AnyOf(lines, matches) {
      KeptAll(lines, matches);
    } else if Kept(lines, matches) != [] {
      SplitJoin(Kept(lines, matches), NL);
    } else {
      assert Lines("") == [""];
    }
  }

  lemma RemoveFilters(file: Option<string>, key: string)
    requires KeyLine(key) && file.Some?
    ensures Removed(file, key).Some? && !Has(Removed(file, key).value, key)
    ensures Lines(Removed(file, key).value) == AtLeastOne(Kept(Lines(file.value), LineIs(key)))
  {
    KeyIsItsLine(key);
    FilteredLines(file.value, LineIs(key));
  }

  /** Removing takes out the lines that are the key once trimmed and no others: what is left
      is the other lines in their order, and the key is no longer there. */
  lemma RemoveKeepsOthers(file: Option<string>, key: string)
    requires KeyLine(key) && file.Some?
    ensures Removed(file, key).Some? && !Has(Removed(file, key).value, key)
    ensures Lines(Removed(file, key).value) == AtLeastOne(Others(Lines(file.value), key))
  {
    RemoveFilters(file, key);
    KeptIsOthers(Lines(file.value), key);
  }

  /** Removing twice is removing once. */
  lemma RemoveIsIdempotent(file: Option<string>, key: string)
    requires KeyLine(key)
    ensures Removed(Removed(file, key), key) == Removed(file, key)
  {
    if file.Some? {
      RemoveFilters(file, key);
    }
  }
}
