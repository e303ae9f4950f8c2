/** The command-line tokenizer, and the quoting that it undoes. */
module CommandLine {
  import opened Text

  const MaxBytes: nat := 64 * 1024

  datatype Error = TooLong | HasNul | Multiline | Operator | OpenEscape | OpenQuote | Empty
  datatype Result = Ok(args: seq<string>) | Err(error: Error)

  // ---------------------------------------------------------------------- tokenizer

  /** Between two characters: the finished arguments, the one being read, and the mode. */
  datatype Lexer = Lexer(args: seq<string>, current: string, quote: Option<char>, escaped: bool, have: bool)

  datatype Lexed = Reading(lexer: Lexer) | Rejected(error: Error)

  const Fresh := Lexer([], "", None, false, false)

  predicate IsBreak(c: char) {
    c == '\n' || c == '\r'
  }

  predicate IsOperator(c: char) {
    c == ';' || c == '|' || c == '&' || c == '<' || c == '>' || c == '`'
  }

  function Flush(l: Lexer): Lexer {
    if l.have then l.(args := l.args + [l.current], current := "", have := false) else l
  }

  function Take(l: Lexer, c: char): Lexer {
    l.(current := l.current + [c], have := true)
  }

  function Feed(l: Lexer, c: char): Lexed {
    if l.escaped then
      if IsBreak(c) then Rejected(Multiline) else Reading(Take(l, c).(escaped := false))
    else if l.quote.Some? then
      if c == l.quote.value then Reading(l.(quote := None, have := true))
      else if c == '\\' && l.quote.value == '"' then Reading(l.(escaped := true))
      else if IsBreak(c) then Rejected(Multiline)
      else Reading(Take(l, c))
    else if c == '\'' || c == '"' then Reading(l.(quote := Some(c), have := true))
    else if c == '\\' then Reading(l.(escaped := true, have := true))
    else if c == ' ' || c == '\t' then Reading(Flush(l))
    else if IsBreak(c) then Rejected(Multiline)
    else if IsOperator(c) then Rejected(Operator)
    else Reading(Take(l, c))
  }

  function FeedAll(l: Lexer, text: string): Lexed
    decreases |text|
  {
    if text == "" then Reading(l)
    else
      var next := Feed(l, text[0]);
      if next.Reading? then FeedAll(next.lexer, text[1..]) else next
  }

  function Finish(l: Lexer): Result {
    if l.escaped then Err(OpenEscape)
    else if l.quote.Some? then Err(OpenQuote)
    else
      var args := Flush(l).args;
      if args == [] || TrimSpace(args[0]) == "" then Err(Empty) else Ok(args)
  }

  function Bytes(c: char): nat {
    if c < '\U{0080}' then 1 else if c < '\U{0800}' then 2 else if c < '\U{10000}' then 3 else 4
  }

  /** The length of the text in UTF-8. */
  function ByteLength(text: string): nat {
    if text == "" then 0 else Bytes(text[0]) + ByteLength(text[1..])
  }

  /** ASCII text is as long in bytes as in characters, other text longer, up to four times. */
  lemma {:induction false} ByteLengthBounds(text: string)
    ensures |text| <= ByteLength(text) <= 4 * |text|
    ensures ByteLength(text) == |text| <==> forall i :: 0 <= i < |text| ==> text[i] as int < 128
  {
    if text != "" {
      ByteLengthBounds(text[1..]);
      assert text == [text[0]] + text[1..];
    }
  }

  ghost predicate Lacks(text: string, c: char) {
    forall i :: 0 <= i < |text| ==> text[i] != c
  }

  const Nul := '\U{0000}'

  ghost function Parse(raw: string): Result {
    if ByteLength(raw) > MaxBytes then Err(TooLong)
    else if !Lacks(raw, Nul) then Err(HasNul)
    else
      var end := FeedAll(Fresh, raw);
      if end.Rejected? then Err(end.error) else Finish(end.lexer)
  }

  method ParseCommandLine(raw: string) returns (r: Result)
    ensures r == Parse(raw)
  {
    if ByteLength(raw) > MaxBytes {
      return Err(TooLong);
    }
    var nul := HasNulByte(raw);
    if nul {
      return Err(HasNul);
    }
    var l := Fresh;
    var i := 0;
    assert raw[0..] == raw;
    while i < |raw|
      invariant i <= |raw|
      invariant FeedAll(Fresh, raw) == FeedAll(l, raw[i..])
    {
      assert raw[i..][1..] == raw[i + 1..];
      var next := Feed(l, raw[i]);
      if next.Rejected? {
        return Err(next.error);
      }
      l := next.lexer;
      i := i + 1;
    }
    return Finish(l);
  }

  method HasNulByte(raw: string) returns (nul: bool)
    ensures nul <==> !Lacks(raw, Nul)
  {
    var i := 0;
    while i < |raw|
      invariant i <= |raw| && Lacks(raw[..i], Nul)
    {
      if raw[i] == Nul {
        return true;
      }
      i := i + 1;
    }
    assert raw[..i] == raw;
    return false;
  }

  lemma {:induction false} FeedAppend(l: Lexer, a: string, b: string)
    ensures FeedAll(l, a + b) == (var m := FeedAll(l, a); if m.Reading? then FeedAll(m.lexer, b) else m)
    decreases |a|
  {
    if a == "" {
      assert a + b == b;
    } else {
      assert (a + b)[1..] == a[1..] + b;
      var next := Feed(l, a[0]);
      if next.Reading? {
        FeedAppend(next.lexer, a[1..], b);
      }
    }
  }

  // ------------------------------------------------------------------------ quoting

  /** A character inside single quotes; a quote closes, escapes itself and reopens. */
  function Quoted(c: char): string {
    if c == '\'' then "'\\''" else [c]
  }

  function QuotedBody(arg: string): string {
    if arg == "" then "" else Quoted(arg[0]) + QuotedBody(arg[1..])
  }

  function QuoteArg(arg: string): string {
    ['\''] + (QuotedBody(arg) + ['\''])
  }

  function Quote(args: seq<string>): string {
    if args == [] then ""
    else if |args| == 1 then QuoteArg(args[0])
    else QuoteArg(args[0]) + ([' '] + Quote(args[1..]))
  }

  ghost predicate OneLine(arg: string) {
    forall i :: 0 <= i < |arg| ==> !IsBreak(arg[i])
  }

  ghost predicate AllOneLine(args: seq<string>) {
    forall i :: 0 <= i < |args| ==> OneLine(args[i])
  }

  function Inside(args: seq<string>, current: string): Lexer {
    Lexer(args, current, Some('\''), false, true)
  }

  lemma FeedTwo(l: Lexer, a: char, b: char, rest: string)
    requires Feed(l, a).Reading?
    ensures FeedAll(l, [a, b] + rest) == FeedAll(Feed(l, a).lexer, [b] + rest)
  {
    assert ([a, b] + rest)[1..] == [b] + rest;
  }

  lemma FeedOne(l: Lexer, a: char, rest: string)
    ensures FeedAll(l, [a] + rest) == (var m := Feed(l, a); if m.Reading? then FeedAll(m.lexer, rest) else m)
  {
    assert ([a] + rest)[1..] == rest;
  }

  /** One quoted character, fed inside single quotes, reads as itself. */
  lemma QuotedReads(args: seq<string>, current: string, c: char)
    ensures FeedAll(Inside(args, current), Quoted(c))
      == if IsBreak(c) then Rejected(Multiline) else Reading(Inside(args, current + [c]))
  {
    if c == '\'' {
      var l := Inside(args, current);
      FeedTwo(l, '\'', '\\', ['\'', '\'']);
      assert Quoted(c) == ['\'', '\\'] + ['\'', '\''];
      FeedTwo(l.(quote := None), '\\', '\'', ['\'']);
      assert ['\\'] + ['\'', '\''] == ['\\', '\''] + ['\''];
      FeedOne(l.(quote := None, escaped := true), '\'', ['\'']);
      FeedOne(Lexer(args, current + [c], None, false, true), '\'', "");
      assert [c] + "" == [c];
    } else {
      FeedOne(Inside(args, current), c, "");
      assert [c] + "" == Quoted(c);
    }
  }

  lemma {:induction false} BodyReads(args: seq<string>, current: string, arg: string)
    ensures FeedAll(Inside(args, current), QuotedBody(arg))
      == if OneLine(arg) then Reading(Inside(args, current + arg)) else Rejected(Multiline)
    decreases |arg|
  {
    if arg == "" {
      assert current + arg == current;
    } else {
      FeedAppend(Inside(args, current), Quoted(arg[0]), QuotedBody(arg[1..]));
      QuotedReads(args, current, arg[0]);
      assert OneLine(arg) <==> !IsBreak(arg[0]) && OneLine(arg[1..]);
      BodyReads(args, current + [arg[0]], arg[1..]);
      assert current + [arg[0]] + arg[1..] == current + arg;
    }
  }

  /** Between arguments: these are finished, nothing is being read. */
  function Between(args: seq<string>): Lexer {
    Lexer(args, "", None, false, false)
  }

  function Ended(args: seq<string>, arg: string): Lexer {
    Lexer(args, arg, None, false, true)
  }

  lemma ArgReads(args: seq<string>, arg: string)
    ensures FeedAll(Between(args), QuoteArg(arg))
      == if OneLine(arg) then Reading(Ended(args, arg)) else Rejected(Multiline)
  {
    FeedOne(Between(args), '\'', QuotedBody(arg) + ['\'']);
    FeedAppend(Inside(args, ""), QuotedBody(arg), ['\'']);
    BodyReads(args, "", arg);
    assert "" + arg == arg;
    FeedOne(Inside(args, arg), '\'', "");
    assert ['\''] + "" == ['\''];
  }

  lemma ArgThenReads(done: seq<string>, arg: string, rest: string, r: Lexed)
    requires OneLine(arg) && FeedAll(Between(done + [arg]), rest) == r
    ensures FeedAll(Between(done), QuoteArg(arg) + ([' '] + rest)) == r
  {
    ArgReads(done, arg);
    FeedAppend(Between(done), QuoteArg(arg), [' '] + rest);
    FeedOne(Ended(done, arg), ' ', rest);
  }

  lemma BadArgRefused(done: seq<string>, arg: string, rest: string)
    requires !OneLine(arg)
    ensures FeedAll(Between(done), QuoteArg(arg) + rest) == Rejected(Multiline)
  {
    ArgReads(done, arg);
    FeedAppend(Between(done), QuoteArg(arg), rest);
  }

  /** What reading a quoted list comes to, after some arguments. */
  ghost function QuoteRead(done: seq<string>, args: seq<string>): Lexed
    requires args != []
  {
    if AllOneLine(args) then Reading(Ended(done + args[..|args| - 1], args[|args| - 1])) else Rejected(Multiline)
  }

  lemma QuoteReadRest(done: seq<string>, args: seq<string>)
    requires |args| > 1
    ensures OneLine(args[0]) ==> QuoteRead(done + [args[0]], args[1..]) == QuoteRead(done, args)
    ensures !OneLine(args[0]) ==> QuoteRead(done, args) == Rejected(Multiline)
  {
    assert AllOneLine(args) <==> OneLine(args[0]) && AllOneLine(args[1..]);
    assert done + [args[0]] + args[1..][..|args| - 2] == done + args[..|args| - 1];
  }

  lemma {:induction false} QuoteReads(done: seq<string>, args: seq<string>)
    requires args != []
    ensures FeedAll(Between(done), Quote(args)) == QuoteRead(done, args)
    decreases |args|
  {
    if |args| == 1 {
      ArgReads(done, args[0]);
      assert done + args[..0] == done;
    } else {
      QuoteReadRest(done, args);
      if OneLine(args[0]) {
        QuoteReads(done + [args[0]], args[1..]);
        ArgThenReads(done, args[0], Quote(args[1..]), QuoteRead(done, args));
      } else {
        BadArgRefused(done, args[0], [' '] + Quote(args[1..]));
      }
    }
  }

  // -------------------------------------------------------------------- round trip

  ghost predicate AllLack(args: seq<string>, c: char) {
    forall i :: 0 <= i < |args| ==> Lacks(args[i], c)
  }

  lemma LacksAppend(a: string, b: string, c: char)
    ensures Lacks(a + b, c) <==> Lacks(a, c) && Lacks(b, c)
  {
    if Lacks(a + b, c) {
      assert forall i :: 0 <= i < |a| ==> a[i] == (a + b)[i];
      assert forall i :: 0 <= i < |b| ==> b[i] == (a + b)[|a| + i];
    }
  }

  lemma {:induction false} BodyLacksNul(arg: string)
    ensures Lacks(QuotedBody(arg), Nul) <==> Lacks(arg, Nul)
  {
    if arg != "" {
      LacksAppend(Quoted(arg[0]), QuotedBody(arg[1..]), Nul);
      BodyLacksNul(arg[1..]);
      assert Lacks(Quoted(arg[0]), Nul) <==> arg[0] != Nul by {
        assert Quoted(arg[0])[0] == arg[0];
      }
      assert arg == [arg[0]] + arg[1..];
      LacksAppend([arg[0]], arg[1..], Nul);
      assert [arg[0]][0] == arg[0];
    }
  }

  lemma ArgLacksNul(arg: string)
    ensures Lacks(QuoteArg(arg), Nul) <==> Lacks(arg, Nul)
  {
    BodyLacksNul(arg);
    LacksAppend(['\''], QuotedBody(arg) + ['\''], Nul);
    LacksAppend(QuotedBody(arg), ['\''], Nul);
  }

  lemma {:induction false} QuoteLacksNul(args: seq<string>)
    ensures Lacks(Quote(args), Nul) <==> AllLack(args, Nul)
  {
    if args != [] {
      ArgLacksNul(args[0]);
      if |args| > 1 {
        QuoteLacksNul(args[1..]);
        LacksAppend(QuoteArg(args[0]), [' '] + Quote(args[1..]), Nul);
        LacksAppend([' '], Quote(args[1..]), Nul);
        assert AllLack(args, Nul) <==> Lacks(args[0], Nul) && AllLack(args[1..], Nul);
      }
    }
  }

  /** What an argument list needs to survive quoting: a first argument that is not blank, no
      NUL, no line break, and a quoted form within the size limit. */
  ghost predicate Expressible(args: seq<string>) {
    && args != [] && TrimSpace(args[0]) != ""
    && AllOneLine(args) && AllLack(args, Nul) && ByteLength(Quote(args)) <= MaxBytes
  }

  lemma QuoteParses(args: seq<string>)
    requires args != [] && AllOneLine(args) && AllLack(args, Nul) && ByteLength(Quote(args)) <= MaxBytes
    ensures Parse(Quote(args)) == if TrimSpace(args[0]) == "" then Err(Empty) else Ok(args)
  {
    QuoteLacksNul(args);
    QuoteReads([], args);
    assert Fresh == Between([]);
    var front, last := args[..|args| - 1], args[|args| - 1];
    assert [] + front == front && front + [last] == args;
    assert Flush(Ended(front, last)).args == args;
  }

  lemma OthersDoNotParse(args: seq<string>)
    requires args == [] || !AllOneLine(args) || !AllLack(args, Nul) || ByteLength(Quote(args)) > MaxBytes
    ensures Parse(Quote(args)).Err?
  {
    QuoteLacksNul(args);
    if args != [] {
      QuoteReads([], args);
      assert Fresh == Between([]);
    }
  }

  /** Quoting and tokenizing an argument list gives it back exactly when it is expressible. */
  lemma QuoteRoundTrip(args: seq<string>)
    ensures Parse(Quote(args)) == Ok(args) <==> Expressible(args)
    ensures Parse(Quote(args)).Ok? ==> Expressible(args)
  {
    if args == [] || !AllOneLine(args) || !AllLack(args, Nul) || ByteLength(Quote(args)) > MaxBytes {
      OthersDoNotParse(args);
    } else {
      QuoteParses(args);
    }
  }

  // ---------------------------------------------------- everything accepted is plain

  ghost predicate Plain(text: string) {
    OneLine(text) && Lacks(text, Nul)
  }

  ghost predicate AllPlain(l: Lexer) {
    Plain(l.current) && forall i :: 0 <= i < |l.args| ==> Plain(l.args[i])
  }

  lemma FeedStaysPlain(l: Lexer, c: char)
    requires AllPlain(l) && c != Nul && (l.quote.Some? ==> l.quote.value == '\'' || l.quote.value == '"')
    ensures Feed(l, c).Reading? ==> AllPlain(Feed(l, c).lexer)
    ensures var m := Feed(l, c); m.Reading? && m.lexer.quote.Some? ==>
      m.lexer.quote.value == '\'' || m.lexer.quote.value == '"'
  {
  }

  lemma {:induction false} FeedAllStaysPlain(l: Lexer, text: string)
    requires AllPlain(l) && Lacks(text, Nul) && (l.quote.Some? ==> l.quote.value == '\'' || l.quote.value == '"')
    ensures FeedAll(l, text).Reading? ==> AllPlain(FeedAll(l, text).lexer)
    decreases |text|
  {
    if text != "" {
      FeedStaysPlain(l, text[0]);
      if Feed(l, text[0]).Reading? {
        FeedAllStaysPlain(Feed(l, text[0]).lexer, text[1..]);
      }
    }
  }

  /** Whatever the tokenizer accepts can be quoted and read again, size permitting. */
  lemma AcceptedIsExpressible(raw: string)
    requires Parse(raw).Ok? && ByteLength(Quote(Parse(raw).args)) <= MaxBytes
    ensures Parse(Quote(Parse(raw).args)) == Parse(raw)
  {
    FeedAllStaysPlain(Fresh, raw);
    var l := FeedAll(Fresh, raw).lexer;
    var args := Flush(l).args;
    assert forall i :: 0 <= i < |args| ==> Plain(args[i]);
    assert AllOneLine(args) && AllLack(args, Nul);
    QuoteRoundTrip(args);
  }
}
