/** The library string operations the agent relies on: white space, splitting and
    joining, and the byte-wise order of strings. */
module Text {

  datatype Option<+T> = None | Some(value: T)

  // ---------------------------------------------------------------- white space

  /** unicode.IsSpace. */
  predicate IsSpace(c: char) {
    || '\t' <= c <= '\r' || c == ' ' || c == '\U{0085}' || c == '\U{00A0}' || c == '\U{1680}'
    || '\U{2000}' <= c <= '\U{200A}' || c == '\U{2028}' || c == '\U{2029}' || c == '\U{202F}'
    || c == '\U{205F}' || c == '\U{3000}'
  }

  function TrimLeft(s: string): (t: string)
    ensures |t| <= |s|
    ensures t == s[|s| - |t|..]
    ensures t != [] ==> !IsSpace(t[0])
    ensures forall i :: 0 <= i < |s| - |t| ==> IsSpace(s[i])
  {
    if s != [] && IsSpace(s[0]) then
      var t := TrimLeft(s[1..]);
      assert s[1..][|s| - 1 - |t|..] == s[|s| - |t|..];
      assert forall i :: 1 <= i < |s| ==> s[i] == s[1..][i - 1];
      t
    else s
  }

  function TrimRight(s: string): (t: string)
    ensures |t| <= |s|
    ensures t == s[..|t|]
    ensures t != [] ==> !IsSpace(t[|t| - 1])
    ensures forall i :: |t| <= i < |s| ==> IsSpace(s[i])
  {
    if s != [] && IsSpace(s[|s| - 1]) then
      var t := TrimRight(s[..|s| - 1]);
      assert s[..|s| - 1][..|t|] == s[..|t|];
      assert forall i :: 0 <= i < |s| - 1 ==> s[i] == s[..|s| - 1][i];
      t
    else s
  }

  function TrimSpace(s: string): string {
    TrimRight(TrimLeft(s))
  }

  /** A string without white space at its ends. */
  predicate Trimmed(s: string) {
    s != [] ==> !IsSpace(s[0]) && !IsSpace(s[|s| - 1])
  }

  lemma TrimSpaceFixes(s: string)
    requires Trimmed(s)
    ensures TrimSpace(s) == s
  {
  }

  /** strings.EqualFold on ASCII text. */
  predicate EqualFold(a: string, b: string) {
    |a| == |b| && forall i :: 0 <= i < |a| ==> LowerCase(a[i]) == LowerCase(b[i])
  }

  function LowerCase(c: char): char {
    if 'A' <= c <= 'Z' then c + ' ' else c
  }

  /** Two characters fold together exactly when they are equal or one is the capital of the
      other. */
  lemma FoldsLetters(a: char, b: char)
    ensures LowerCase(a) == LowerCase(b) <==>
      a == b || ('A' <= a <= 'Z' && b as int == a as int + 32) || ('A' <= b <= 'Z' && a as int == b as int + 32)
  {
  }

  /** The white space of ASCII. */
  lemma AsciiSpaces(c: char)
    requires c as int < 128
    ensures IsSpace(c) <==> c as int == 32 || 9 <= c as int <= 13
  {
  }

  // -------------------------------------------------------- splitting and joining

  function Prepend<T(==)>(x: T, parts: seq<seq<T>>, sep: T): (r: seq<seq<T>>)
    requires parts != []
    ensures r != []
  {
    if x == sep then [[]] + parts else [[x] + parts[0]] + parts[1..]
  }

  /** strings.Split with a one-element separator: never empty. */
  function Split<T(==)>(s: seq<T>, sep: T): (parts: seq<seq<T>>)
    ensures parts != []
  {
    if s == [] then [[]] else Prepend(s[0], Split(s[1..], sep), sep)
  }

  function Join<T>(parts: seq<seq<T>>, sep: T): seq<T> {
    if parts == [] then []
    else if |parts| == 1 then parts[0]
    else parts[0] + [sep] + Join(parts[1..], sep)
  }

  ghost predicate Free<T>(s: seq<T>, sep: T) {
    forall i :: 0 <= i < |s| ==> s[i] != sep
  }

  ghost predicate AllFree<T>(parts: seq<seq<T>>, sep: T) {
    forall i :: 0 <= i < |parts| ==> Free(parts[i], sep)
  }

  lemma PrependJoin<T>(x: T, rest: seq<seq<T>>, sep: T)
    requires rest != [] && AllFree(rest, sep)
    ensures Join(Prepend(x, rest, sep), sep) == [x] + Join(rest, sep)
    ensures AllFree(Prepend(x, rest, sep), sep)
  {
    var parts := Prepend(x, rest, sep);
    if x != sep {
      assert parts[1..] == rest[1..];
    } else {
      assert parts[1..] == rest;
    }
  }

  lemma {:induction false} JoinSplit<T>(s: seq<T>, sep: T)
    ensures Join(Split(s, sep), sep) == s
    ensures AllFree(Split(s, sep), sep)
  {
    if s != [] {
      JoinSplit(s[1..], sep);
      PrependJoin(s[0], Split(s[1..], sep), sep);
      assert s == [s[0]] + s[1..];
    }
  }

  /** Splitting separator-free text appended to the front only grows the first piece. */
  lemma {:induction false} SplitPrefix<T>(a: seq<T>, s: seq<T>, sep: T)
    requires Free(a, sep)
    ensures Split(a + s, sep) == [a + Split(s, sep)[0]] + Split(s, sep)[1..]
  {
    if a == [] {
      assert a + s == s && a + Split(s, sep)[0] == Split(s, sep)[0];
    } else {
      assert (a + s)[1..] == a[1..] + s && a[0] != sep;
      SplitPrefix(a[1..], s, sep);
      assert [a[0]] + (a[1..] + Split(s, sep)[0]) == a + Split(s, sep)[0];
    }
  }

  /** The pieces are the only separator-free sequences that join to the text. */
  lemma {:induction false} SplitJoin<T>(parts: seq<seq<T>>, sep: T)
    requires parts != [] && AllFree(parts, sep)
    ensures Split(Join(parts, sep), sep) == parts
  {
    if |parts| == 1 {
      assert parts[0] + [] == parts[0];
      SplitPrefix(parts[0], [], sep);
      assert parts == [parts[0]];
    } else {
      var rest := Join(parts[1..], sep);
      SplitJoin(parts[1..], sep);
      assert Join(parts, sep) == parts[0] + ([sep] + rest);
      assert ([sep] + rest)[1..] == rest;
      SplitPrefix(parts[0], [sep] + rest, sep);
      assert parts[0] + [] == parts[0];
    }
  }

  function Last<T>(s: seq<T>): T
    requires s != []
  {
    s[|s| - 1]
  }

  function Front<T>(s: seq<T>): seq<T>
    requires s != []
  {
    s[..|s| - 1]
  }

  lemma EmptyFront<T>(a: seq<T>)
    ensures [] + a == a
  {
  }

  /** One more element either ends the last piece or grows it. */
  function Grow<T(==)>(parts: seq<seq<T>>, x: T, sep: T): (r: seq<seq<T>>)
    requires parts != []
    ensures r != []
  {
    if x == sep then parts + [[]] else Front(parts) + [Last(parts) + [x]]
  }

  lemma PrependGrow<T>(a: T, parts: seq<seq<T>>, x: T, sep: T)
    requires parts != []
    ensures Prepend(a, Grow(parts, x, sep), sep) == Grow(Prepend(a, parts, sep), x, sep)
  {
    var l, r := Prepend(a, Grow(parts, x, sep), sep), Grow(Prepend(a, parts, sep), x, sep);
    assert |l| == |r|;
    if a != sep && x != sep && |parts| == 1 {
      assert l[0] == [a] + (parts[0] + [x]) == ([a] + parts[0]) + [x] == r[0];
    }
    forall i | 0 <= i < |l|
      ensures l[i] == r[i]
    {
    }
  }

  lemma {:induction false} SplitSnoc<T>(s: seq<T>, x: T, sep: T)
    ensures Split(s + [x], sep) == Grow(Split(s, sep), x, sep)
  {
    if s == [] {
      assert s + [x] == [x] && [x][1..] == s;
      var one: seq<seq<T>> := [[]];
      assert x != sep ==> Front(one) == [] && one[0] + [x] == [x] == [x] + one[0];
    } else {
      assert (s + [x])[1..] == s[1..] + [x];
      SplitSnoc(s[1..], x, sep);
      PrependGrow(s[0], Split(s[1..], sep), x, sep);
    }
  }

  // ---------------------------------------------------------------- string order

  /** Go's `<` on valid UTF-8, which orders strings like their code points. */
  predicate Less(a: string, b: string) {
    if b == [] then false
    else if a == [] then true
    else a[0] < b[0] || (a[0] == b[0] && Less(a[1..], b[1..]))
  }

  lemma {:induction false} LessIrreflexive(a: string)
    ensures !Less(a, a)
  {
    if a != [] {
      LessIrreflexive(a[1..]);
    }
  }

  lemma {:induction false} LessTransitive(a: string, b: string, c: string)
    requires Less(a, b) && Less(b, c)
    ensures Less(a, c)
  {
    if a != [] && a[0] == b[0] == c[0] {
      LessTransitive(a[1..], b[1..], c[1..]);
    }
  }

  lemma {:induction false} LessTotal(a: string, b: string)
    ensures Less(a, b) || a == b || Less(b, a)
  {
    if a != [] && b != [] && a[0] == b[0] {
      LessTotal(a[1..], b[1..]);
      assert a == [a[0]] + a[1..] && b == [b[0]] + b[1..];
    }
  }

  // --------------------------------------------------------------------- sorting

  ghost predicate Ascending(s: seq<string>) {
    forall i, j :: 0 <= i < j < |s| ==> Less(s[i], s[j])
  }

  /** sort.SearchStrings: the first index whose string is not below x. */
  function Search(s: seq<string>, x: string): (k: nat)
    ensures k <= |s|
  {
    if s == [] || !Less(s[0], x) then 0 else 1 + Search(s[1..], x)
  }

  lemma {:induction false} SearchFinds(s: seq<string>, x: string)
    requires Ascending(s)
    ensures forall i :: 0 <= i < Search(s, x) ==> Less(s[i], x)
    ensures forall i :: Search(s, x) <= i < |s| ==> !Less(s[i], x)
  {
    if s != [] {
      SearchFinds(s[1..], x);
      forall i | Search(s, x) <= i < |s|
        ensures !Less(s[i], x)
      {
        if Less(s[i], x) {
          if i > 0 && !Less(s[0], x) {
            LessTransitive(s[0], s[i], x);
          }
        }
      }
    }
  }

  lemma {:induction false} SearchIs(s: seq<string>, x: string, i: nat)
    requires i <= |s| && (forall j :: 0 <= j < i ==> Less(s[j], x)) && (i < |s| ==> !Less(s[i], x))
    ensures Search(s, x) == i
  {
    if i > 0 {
      assert Less(s[0], x);
      SearchIs(s[1..], x, i - 1);
    }
  }

  lemma SearchMember(s: seq<string>, i: nat)
    requires Ascending(s) && i < |s|
    ensures Search(s, s[i]) == i
  {
    LessIrreflexive(s[i]);
    SearchIs(s, s[i], i);
  }

  /** One step of building a sorted list of distinct strings. */
  function Insert(s: seq<string>, x: string): seq<string> {
    s[..Search(s, x)] + [x] + s[Search(s, x)..]
  }

  lemma InsertAscending(s: seq<string>, x: string)
    requires Ascending(s) && x !in s
    ensures Ascending(Insert(s, x))
    ensures forall y :: y in Insert(s, x) <==> y == x || y in s
  {
    var k := Search(s, x);
    SearchFinds(s, x);
    forall i | k <= i < |s|
      ensures Less(x, s[i])
    {
      LessTotal(x, s[i]);
    }
    var r := Insert(s, x);
    forall i, j | 0 <= i < j < |r|
      ensures Less(r[i], r[j])
    {
      if j == k {
        assert r[i] == s[i] && r[j] == x;
      } else if i == k {
        assert r[j] == s[j - 1];
      } else {
        assert r[i] == (if i < k then s[i] else s[i - 1]) && r[j] == (if j < k then s[j] else s[j - 1]);
      }
    }
    InsertMembers(s, x);
  }

  lemma InsertMembers(s: seq<string>, x: string)
    ensures forall y :: y in Insert(s, x) <==> y == x || y in s
  {
    var k := Search(s, x);
    assert s == s[..k] + s[k..];
  }

  /** sort.Strings on distinct strings. */
  function SortStrings(s: seq<string>): seq<string> {
    if s == [] then [] else Insert(SortStrings(s[..|s| - 1]), s[|s| - 1])
  }

  lemma SubsetSameSize<T>(a: set<T>, b: set<T>)
    requires a <= b && |a| == |b|
    ensures a == b
  {
    assert b == a + (b - a);
  }

  ghost predicate Distinct<T>(s: seq<T>) {
    forall i, j :: 0 <= i < j < |s| ==> s[i] != s[j]
  }

  lemma {:induction false} SortStringsSorts(s: seq<string>)
    requires Distinct(s)
    ensures Ascending(SortStrings(s)) && |SortStrings(s)| == |s|
    ensures forall y :: y in SortStrings(s) <==> y in s
  {
    if s != [] {
      var r := s[..|s| - 1];
      SortStringsSorts(r);
      assert s == r + [s[|s| - 1]];
      InsertAscending(SortStrings(r), s[|s| - 1]);
    }
  }
}
