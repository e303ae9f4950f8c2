/** Stable release versions: digit strings compared by length and spelling, and the numeric
    precedence they stand for (section 11 of Semantic Versioning 2.0.0). */
module ReleaseVersion {
  import opened Text

  // ------------------------------------------------------------------- digit strings

  predicate IsDigit(c: char) {
    '0' <= c <= '9'
  }

  ghost predicate IsNumber(s: string) {
    s != "" && forall i :: 0 <= i < |s| ==> IsDigit(s[i])
  }

  function Digit(c: char): nat {
    if IsDigit(c) then (c - '0') as nat else 0
  }

  function Pow10(n: nat): (p: nat)
    ensures p > 0
  {
    if n == 0 then 1 else 10 * Pow10(n - 1)
  }

  /** The number a digit string denotes. */
  function Value(s: string): nat {
    if s == "" then 0 else Digit(s[0]) * Pow10(|s| - 1) + Value(s[1..])
  }

  lemma ShiftDigit(d: nat, p: nat, v: nat, e: nat)
    ensures d * (10 * p) + (10 * v + e) == 10 * (d * p + v) + e
  {
  }

  /** Values are decimal: one more digit at the end multiplies by ten and adds it. */
  lemma {:induction false} ValueIsDecimal(s: string, c: char)
    requires IsDigit(c)
    ensures Value(s + [c]) == 10 * Value(s) + (c as int - 48)
    decreases |s|
  {
    assert [c][1..] == "";
    if s == "" {
      assert s + [c] == [c];
    } else {
      ValueIsDecimal(s[1..], c);
      assert (s + [c])[1..] == s[1..] + [c];
      ShiftDigit(Digit(s[0]), Pow10(|s| - 1), Value(s[1..]), c as int - 48);
    }
  }

  /** A larger leading digit outweighs everything after it. */
  lemma LeadingDigit(d: nat, e: nat, u: nat, v: nat, p: nat)
    requires d < e && u < p
    ensures d * p + u < e * p + v
  {
    assert (d + 1) * p == d * p + p;
    assert (d + 1) * p <= e * p;
  }

  lemma {:induction false} ValueBelow(s: string)
    ensures Value(s) < Pow10(|s|)
  {
    if s != "" {
      ValueBelow(s[1..]);
      LeadingDigit(Digit(s[0]), 10, Value(s[1..]), 0, Pow10(|s| - 1));
    }
  }

  lemma ValueAbove(s: string)
    requires s != "" && Digit(s[0]) > 0
    ensures Value(s) >= Pow10(|s| - 1)
  {
    LeadingDigit(0, Digit(s[0]), Pow10(|s| - 1) - 1, Value(s[1..]), Pow10(|s| - 1));
  }

  lemma {:induction false} Pow10Grows(m: nat, n: nat)
    requires m <= n
    ensures Pow10(m) <= Pow10(n)
  {
    if m < n {
      Pow10Grows(m, n - 1);
    }
  }

  /** Between strings of one length, spelling order is number order. */
  lemma {:induction false} LessIsBelow(a: string, b: string)
    requires |a| == |b| && forall i :: 0 <= i < |a| ==> IsDigit(a[i]) && IsDigit(b[i])
    ensures Less(a, b) <==> Value(a) < Value(b)
  {
    if a != "" {
      LessIsBelow(a[1..], b[1..]);
      ValueBelow(a[1..]);
      ValueBelow(b[1..]);
      HeadsDecide(Digit(a[0]), Digit(b[0]), Value(a[1..]), Value(b[1..]), Pow10(|a| - 1));
    }
  }

  lemma HeadsDecide(d: nat, e: nat, u: nat, v: nat, p: nat)
    requires u < p && v < p
    ensures d * p + u < e * p + v <==> d < e || (d == e && u < v)
  {
    if d < e {
      LeadingDigit(d, e, u, v, p);
    } else if e < d {
      LeadingDigit(e, d, v, u, p);
    }
  }

  // ------------------------------------------------------------------- normal forms

  function StripZeros(s: string): string {
    if s != "" && s[0] == '0' then StripZeros(s[1..]) else s
  }

  function Normalize(s: string): string {
    if StripZeros(s) == "" then "0" else StripZeros(s)
  }

  ghost predicate Normal(s: string) {
    IsNumber(s) && (s == "0" || s[0] != '0')
  }

  lemma {:induction false} StripKeepsValue(s: string)
    requires forall i :: 0 <= i < |s| ==> IsDigit(s[i])
    ensures Value(StripZeros(s)) == Value(s)
    ensures forall i :: 0 <= i < |StripZeros(s)| ==> IsDigit(StripZeros(s)[i])
    ensures StripZeros(s) != "" ==> StripZeros(s)[0] != '0'
  {
    if s != "" && s[0] == '0' {
      StripKeepsValue(s[1..]);
    }
  }

  lemma NormalizeKeepsValue(s: string)
    requires IsNumber(s)
    ensures Normal(Normalize(s)) && Value(Normalize(s)) == Value(s)
  {
    StripKeepsValue(s);
    ZeroIsNothing();
  }

  lemma ZeroIsNothing()
    ensures Value("0") == 0 && Value("") == 0
  {
    assert "0"[1..] == "";
  }

  /** Shorter first, then spelling. */
  predicate Below(a: string, b: string) {
    |a| < |b| || (|a| == |b| && Less(a, b))
  }

  lemma ShorterIsBelow(a: string, b: string)
    requires Normal(a) && Normal(b) && |a| < |b|
    ensures Value(a) < Value(b)
  {
    ValueBelow(a);
    Pow10Grows(|a|, |b| - 1);
    ValueAbove(b);
  }

  lemma BelowIsNumeric(a: string, b: string)
    requires Normal(a) && Normal(b)
    ensures Below(a, b) <==> Value(a) < Value(b)
  {
    if |a| < |b| {
      ShorterIsBelow(a, b);
    } else if |b| < |a| {
      ShorterIsBelow(b, a);
    } else {
      LessIsBelow(a, b);
    }
  }

  /** Normal forms are unique: leading zeros are all that is lost. */
  lemma NormalizeIdentifies(a: string, b: string)
    requires IsNumber(a) && IsNumber(b)
    ensures Normalize(a) == Normalize(b) <==> Value(a) == Value(b)
  {
    NormalizeKeepsValue(a);
    NormalizeKeepsValue(b);
    BelowIsNumeric(Normalize(a), Normalize(b));
    BelowIsNumeric(Normalize(b), Normalize(a));
    LessTotal(Normalize(a), Normalize(b));
  }

  // ------------------------------------------------------------------------ parsing

  function Unprefixed(s: string): string {
    if s != "" && (s[0] == 'v' || s[0] == 'V') then s[1..] else s
  }

  /** The dot-separated pieces of a version as written. */
  function Pieces(raw: string): (parts: seq<string>)
    ensures parts != []
  {
    Split(Unprefixed(TrimSpace(raw)), '.')
  }

  ghost predicate AllNumbers(parts: seq<string>) {
    forall i :: 0 <= i < |parts| ==> IsNumber(parts[i])
  }

  ghost predicate Stable(raw: string) {
    |Pieces(raw)| == 3 && AllNumbers(Pieces(raw))
  }

  function Values(parts: seq<string>): seq<nat> {
    seq(|parts|, i requires 0 <= i < |parts| => Value(parts[i]))
  }

  ghost predicate AllNormal(parts: seq<string>) {
    forall i :: 0 <= i < |parts| ==> Normal(parts[i])
  }

  /** The numbers a stable version denotes. */
  function Numbers(raw: string): seq<nat> {
    Values(Pieces(raw))
  }

  /** parseStableReleaseVersion. */
  method ParseStable(raw: string) returns (parsed: Option<seq<string>>)
    ensures parsed.Some? <==> Stable(raw)
    ensures parsed.Some? ==> |parsed.value| == 3 && AllNormal(parsed.value) && Values(parsed.value) == Numbers(raw)
  {
    parsed := ParsePieces(Pieces(raw));
  }

  method ParsePieces(parts: seq<string>) returns (parsed: Option<seq<string>>)
    ensures parsed.Some? <==> |parts| == 3 && AllNumbers(parts)
    ensures parsed.Some? ==> |parsed.value| == 3 && AllNormal(parsed.value) && Values(parsed.value) == Values(parts)
  {
    if |parts| != 3 {
      return None;
    }
    var done: seq<string> := [];
    while |done| < 3
      invariant |done| <= 3
      invariant forall i :: 0 <= i < |done| ==> IsNumber(parts[i])
      invariant forall i :: 0 <= i < |done| ==> Normal(done[i]) && Value(done[i]) == Value(parts[i])
      decreases 3 - |done|
    {
      var part := parts[|done|];
      var ok := Digits(part);
      if !ok {
        return None;
      }
      NormalizeKeepsValue(part);
      done := done + [Normalize(part)];
    }
    return Some(done);
  }

  method Digits(part: string) returns (ok: bool)
    ensures ok <==> IsNumber(part)
  {
    if part == "" {
      return false;
    }
    var i := 0;
    while i < |part|
      invariant i <= |part| && forall j :: 0 <= j < i ==> IsDigit(part[j])
    {
      if !IsDigit(part[i]) {
        return false;
      }
      i := i + 1;
    }
    return true;
  }

  ghost predicate Spells(prefix: string, parts: seq<string>, s: string) {
    (prefix == "" || prefix == "v" || prefix == "V") && |parts| == 3 && AllNumbers(parts) && s == prefix + Join(parts, '.')
  }

  lemma NumbersHaveNoDots(parts: seq<string>)
    requires AllNumbers(parts)
    ensures AllFree(parts, '.')
  {
  }

  lemma SpellingParses(prefix: string, parts: seq<string>, raw: string)
    requires Spells(prefix, parts, TrimSpace(raw))
    ensures Pieces(raw) == parts && Stable(raw)
  {
    NumbersHaveNoDots(parts);
    SplitJoin(parts, '.');
    assert Join(parts, '.') == parts[0] + ['.'] + Join(parts[1..], '.');
    assert IsNumber(parts[0]);
    assert Join(parts, '.')[0] == parts[0][0];
    assert Unprefixed(TrimSpace(raw)) == Join(parts, '.');
  }

  lemma StableIsSpelled(raw: string) returns (prefix: string)
    requires Stable(raw)
    ensures Spells(prefix, Pieces(raw), TrimSpace(raw))
  {
    prefix := PrefixOf(TrimSpace(raw));
    JoinSplit(Unprefixed(TrimSpace(raw)), '.');
  }

  lemma PrefixOf(s: string) returns (prefix: string)
    ensures (prefix == "" || prefix == "v" || prefix == "V") && s == prefix + Unprefixed(s)
  {
    prefix := s[..|s| - |Unprefixed(s)|];
  }

  /** A version is stable exactly when, trimmed, it is three numbers with dots between them
      after an optional v. */
  lemma StableExactly(raw: string)
    ensures Stable(raw) <==> exists prefix, parts :: Spells(prefix, parts, TrimSpace(raw))
  {
    if Stable(raw) {
      var prefix := StableIsSpelled(raw);
    } else if exists prefix, parts :: Spells(prefix, parts, TrimSpace(raw)) {
      var prefix, parts :| Spells(prefix, parts, TrimSpace(raw));
      SpellingParses(prefix, parts, raw);
    }
  }

  // ---------------------------------------------------------------------- precedence

  /** Numeric comparison of the first difference: -1, 0 or 1. */
  function Precedence(a: seq<nat>, b: seq<nat>): (r: int)
    requires |a| == |b|
    ensures r == 0 <==> a == b
    ensures -1 <= r <= 1
  {
    if a == [] then 0
    else if a[0] < b[0] then -1
    else if a[0] > b[0] then 1
    else assert a == [a[0]] + a[1..] && b == [b[0]] + b[1..]; Precedence(a[1..], b[1..])
  }

  /** compareStableReleaseVersions on the parts from some index on. */
  function Compared(left: seq<string>, right: seq<string>): int
    requires |left| == |right|
  {
    if left == [] then 0
    else if Below(left[0], right[0]) then -1
    else if Below(right[0], left[0]) then 1
    else Compared(left[1..], right[1..])
  }

  method Compare(left: seq<string>, right: seq<string>) returns (c: int)
    requires |left| == |right|
    ensures c == Compared(left, right)
  {
    assert left[0..] == left && right[0..] == right;
    for i := 0 to |left|
      invariant Compared(left, right) == Compared(left[i..], right[i..])
    {
      assert left[i..][1..] == left[i + 1..] && right[i..][1..] == right[i + 1..];
      if Below(left[i], right[i]) {
        return -1;
      }
      if Below(right[i], left[i]) {
        return 1;
      }
    }
    return 0;
  }

  lemma ValuesRest(parts: seq<string>)
    requires parts != []
    ensures Values(parts)[0] == Value(parts[0]) && Values(parts)[1..] == Values(parts[1..])
  {
  }

  /** Comparing normal digit strings part by part is comparing their numbers. */
  lemma {:induction false} CompareIsNumeric(left: seq<string>, right: seq<string>)
    requires |left| == |right| && AllNormal(left) && AllNormal(right)
    ensures Compared(left, right) == Precedence(Values(left), Values(right))
  {
    if left != [] {
      BelowIsNumeric(left[0], right[0]);
      BelowIsNumeric(right[0], left[0]);
      ValuesRest(left);
      ValuesRest(right);
      CompareIsNumeric(left[1..], right[1..]);
    }
  }

  datatype Verdict = Accepted | WrongTarget | NotStable | Downgrade

  ghost predicate Regresses(release: string, current: string)
    requires Stable(release)
  {
    Stable(current) && Precedence(Numbers(release), Numbers(current)) == -1
  }

  /** validateReleaseTarget, for the operating system and architecture it compares: an
      accepted release is stable and not numerically below a stable current version, and a
      release for this platform is refused for no other reason. */
  method ValidateReleaseTarget(os: string, arch: string, goos: string, goarch: string, release: string, current: string)
    returns (v: Verdict)
    ensures v.WrongTarget? <==> !(EqualFold(TrimSpace(os), goos) && EqualFold(TrimSpace(arch), goarch))
    ensures v.NotStable? ==> !Stable(release)
    ensures v.Downgrade? ==> Stable(release) && Regresses(release, current)
    ensures v.Accepted? ==> Stable(release) && !Regresses(release, current)
  {
    if !EqualFold(TrimSpace(os), goos) {
      return WrongTarget;
    }
    if !EqualFold(TrimSpace(arch), goarch) {
      return WrongTarget;
    }
    v := ValidateVersion(release, current);
  }

  method ValidateVersion(release: string, current: string) returns (v: Verdict)
    ensures !v.WrongTarget?
    ensures v.NotStable? ==> !Stable(release)
    ensures v.Downgrade? ==> Stable(release) && Regresses(release, current)
    ensures v.Accepted? ==> Stable(release) && !Regresses(release, current)
  {
    var offered := ParseStable(release);
    if offered.None? {
      return NotStable;
    }
    var running := ParseStable(current);
    if running.Some? {
      var c := Compare(offered.value, running.value);
      CompareIsNumeric(offered.value, running.value);
      if c < 0 {
        return Downgrade;
      }
    }
    return Accepted;
  }
}
