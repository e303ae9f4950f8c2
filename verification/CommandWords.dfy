/** Every way to write a word: bare characters, backslashes, single and double quotes in any
    mixture, with blanks between words; and what is never accepted. */
module CommandWords {
  import opened Text
  import opened CommandLine

  // ------------------------------------------------------------------------- writing

  datatype Unit = Bare(c: char) | Escaped(c: char) | Single(text: string) | Double(text: string)

  /** The characters that mean something outside quotes. */
  predicate Special(c: char) {
    c in ['\'', '"', '\\', ' ', '\t', '\n', '\r', ';', '|', '&', '<', '>', '`']
  }

  ghost predicate Valid(u: Unit) {
    match u
    case Bare(c) => !Special(c)
    case Escaped(c) => c != '\n' && c != '\r'
    case Single(text) => OneLine(text) && Lacks(text, '\'')
    case Double(text) => OneLine(text)
  }

  function Meaning(u: Unit): string {
    match u
    case Bare(c) => [c]
    case Escaped(c) => [c]
    case Single(text) => text
    case Double(text) => text
  }

  /** Inside double quotes a quote and a backslash need a backslash. */
  function DoubleBody(text: string): string {
    if text == "" then ""
    else (if text[0] == '"' || text[0] == '\\' then ['\\', text[0]] else [text[0]]) + DoubleBody(text[1..])
  }

  function Written(u: Unit): string {
    match u
    case Bare(c) => [c]
    case Escaped(c) => ['\\', c]
    case Single(text) => ['\''] + (text + ['\''])
    case Double(text) => ['"'] + (DoubleBody(text) + ['"'])
  }

  ghost predicate ValidWord(word: seq<Unit>) {
    word != [] && forall i :: 0 <= i < |word| ==> Valid(word[i])
  }

  function WordText(word: seq<Unit>): string {
    if word == [] then "" else Meaning(word[0]) + WordText(word[1..])
  }

  function WrittenWord(word: seq<Unit>): string {
    if word == [] then "" else Written(word[0]) + WrittenWord(word[1..])
  }

  ghost predicate Blank(gap: string) {
    forall i :: 0 <= i < |gap| ==> gap[i] == ' ' || gap[i] == '\t'
  }

  /** A word and the blanks after it. */
  datatype Item = Item(word: seq<Unit>, gap: string)

  ghost predicate ValidItems(items: seq<Item>) {
    forall i :: 0 <= i < |items| ==>
      ValidWord(items[i].word) && Blank(items[i].gap) && (i < |items| - 1 ==> items[i].gap != "")
  }

  function Texts(items: seq<Item>): seq<string> {
    if items == [] then [] else [WordText(items[0].word)] + Texts(items[1..])
  }

  function WrittenLine(items: seq<Item>): string {
    if items == [] then "" else WrittenWord(items[0].word) + (items[0].gap + WrittenLine(items[1..]))
  }

  // ------------------------------------------------------------------------- reading

  /** Outside quotes, with so much of a word read. */
  function Outside(args: seq<string>, current: string, have: bool): Lexer {
    Lexer(args, current, None, false, have)
  }

  function Quoting(args: seq<string>, current: string, quote: char): Lexer {
    Lexer(args, current, Some(quote), false, true)
  }

  lemma {:induction false} SingleReads(args: seq<string>, current: string, text: string)
    requires OneLine(text) && Lacks(text, '\'')
    ensures FeedAll(Quoting(args, current, '\''), text) == Reading(Quoting(args, current + text, '\''))
    decreases |text|
  {
    if text == "" {
      assert current + text == current;
    } else {
      SingleReads(args, current + [text[0]], text[1..]);
      assert current + [text[0]] + text[1..] == current + text;
    }
  }

  lemma DoubleReadsOne(args: seq<string>, current: string, c: char)
    requires !IsBreak(c)
    ensures FeedAll(Quoting(args, current, '"'), if c == '"' || c == '\\' then ['\\', c] else [c])
      == Reading(Quoting(args, current + [c], '"'))
  {
    var l := Quoting(args, current, '"');
    if c == '"' || c == '\\' {
      assert ['\\', c] == ['\\'] + [c];
      FeedOne(l, '\\', [c]);
      assert [c] == [c] + "";
      FeedOne(l.(escaped := true), c, "");
    } else {
      assert [c] == [c] + "";
      FeedOne(l, c, "");
    }
  }

  lemma {:induction false} DoubleReads(args: seq<string>, current: string, text: string)
    requires OneLine(text)
    ensures FeedAll(Quoting(args, current, '"'), DoubleBody(text)) == Reading(Quoting(args, current + text, '"'))
    decreases |text|
  {
    if text == "" {
      assert current + text == current;
    } else {
      var c := text[0];
      DoubleReadsOne(args, current, c);
      FeedAppend(Quoting(args, current, '"'), if c == '"' || c == '\\' then ['\\', c] else [c], DoubleBody(text[1..]));
      DoubleReads(args, current + [c], text[1..]);
      assert current + [c] + text[1..] == current + text;
    }
  }

  lemma QuoteCloses(args: seq<string>, current: string, have: bool, quote: char, body: string, text: string)
    requires quote == '\'' || quote == '"'
    requires FeedAll(Quoting(args, current, quote), body) == Reading(Quoting(args, current + text, quote))
    ensures FeedAll(Outside(args, current, have), [quote] + (body + [quote])) == Reading(Outside(args, current + text, true))
  {
    FeedOne(Outside(args, current, have), quote, body + [quote]);
    FeedAppend(Quoting(args, current, quote), body, [quote]);
    assert [quote] == [quote] + "";
    FeedOne(Quoting(args, current + text, quote), quote, "");
  }

  lemma CharacterReads(args: seq<string>, current: string, have: bool, u: Unit)
    requires Valid(u) && (u.Bare? || u.Escaped?)
    ensures FeedAll(Outside(args, current, have), Written(u)) == Reading(Outside(args, current + [u.c], true))
  {
    var l := Outside(args, current, have);
    if u.Bare? {
      assert [u.c] == [u.c] + "";
      FeedOne(l, u.c, "");
    } else {
      assert ['\\', u.c] == ['\\'] + [u.c] && [u.c] == [u.c] + "";
      FeedOne(l, '\\', [u.c]);
      FeedOne(l.(escaped := true, have := true), u.c, "");
    }
  }

  /** Each unit is read as what it means, after anything. */
  lemma UnitReads(args: seq<string>, current: string, have: bool, u: Unit)
    requires Valid(u)
    ensures FeedAll(Outside(args, current, have), Written(u)) == Reading(Outside(args, current + Meaning(u), true))
  {
    match u
    case Bare(c) => CharacterReads(args, current, have, u);
    case Escaped(c) => CharacterReads(args, current, have, u);
    case Single(text) =>
      SingleReads(args, current, text);
      QuoteCloses(args, current, have, '\'', text, text);
    case Double(text) =>
      DoubleReads(args, current, text);
      QuoteCloses(args, current, have, '"', DoubleBody(text), text);
  }

  lemma FeedPair(l: Lexer, a: string, m: Lexer, b: string)
    requires FeedAll(l, a) == Reading(m)
    ensures FeedAll(l, a + b) == FeedAll(m, b)
  {
    FeedAppend(l, a, b);
  }

  lemma UnitThenReads(args: seq<string>, current: string, have: bool, u: Unit, rest: string, r: Lexed)
    requires Valid(u) && FeedAll(Outside(args, current + Meaning(u), true), rest) == r
    ensures FeedAll(Outside(args, current, have), Written(u) + rest) == r
  {
    UnitReads(args, current, have, u);
    FeedPair(Outside(args, current, have), Written(u), Outside(args, current + Meaning(u), true), rest);
  }

  lemma Associative(a: string, b: string, c: string)
    ensures a + b + c == a + (b + c)
  {
  }

  lemma {:induction false} UnitsRead(args: seq<string>, current: string, units: seq<Unit>)
    requires forall i :: 0 <= i < |units| ==> Valid(units[i])
    ensures FeedAll(Outside(args, current, true), WrittenWord(units)) == Reading(Outside(args, current + WordText(units), true))
    decreases |units|
  {
    if units == [] {
      assert current + "" == current;
    } else {
      var u, rest := units[0], units[1..];
      UnitsRead(args, current + Meaning(u), rest);
      Associative(current, Meaning(u), WordText(rest));
      UnitThenReads(args, current, true, u, WrittenWord(rest), Reading(Outside(args, current + WordText(units), true)));
    }
  }

  lemma WordReads(args: seq<string>, current: string, have: bool, word: seq<Unit>)
    requires ValidWord(word)
    ensures FeedAll(Outside(args, current, have), WrittenWord(word)) == Reading(Outside(args, current + WordText(word), true))
  {
    var u, rest := word[0], word[1..];
    UnitsRead(args, current + Meaning(u), rest);
    Associative(current, Meaning(u), WordText(rest));
    UnitThenReads(args, current, have, u, WrittenWord(rest), Reading(Outside(args, current + WordText(word), true)));
  }

  lemma {:induction false} GapReads(l: Lexer, gap: string)
    requires Blank(gap) && l.quote.None? && !l.escaped && (!l.have ==> l.current == "")
    ensures FeedAll(l, gap) == Reading(if gap == "" then l else Flush(l))
    decreases |gap|
  {
    if gap != "" {
      GapReads(Flush(l), gap[1..]);
    }
  }

  lemma ItemReads(args: seq<string>, item: Item)
    requires ValidWord(item.word) && Blank(item.gap)
    ensures FeedAll(Between(args), WrittenWord(item.word) + item.gap) ==
      Reading(if item.gap == "" then Ended(args, WordText(item.word)) else Between(args + [WordText(item.word)]))
  {
    WordReads(args, "", false, item.word);
    assert "" + WordText(item.word) == WordText(item.word);
    FeedAppend(Between(args), WrittenWord(item.word), item.gap);
    GapReads(Ended(args, WordText(item.word)), item.gap);
  }

  /** Everything was read, and these are the arguments so far. */
  ghost predicate ReadsAs(r: Lexed, args: seq<string>) {
    r.Reading? && !r.lexer.escaped && r.lexer.quote.None? && Flush(r.lexer).args == args
  }

  lemma LastItemReads(args: seq<string>, item: Item)
    requires ValidWord(item.word) && Blank(item.gap)
    ensures ReadsAs(FeedAll(Between(args), WrittenWord(item.word) + item.gap), args + [WordText(item.word)])
  {
    ItemReads(args, item);
  }

  lemma ItemThenReads(args: seq<string>, item: Item, rest: string, r: Lexed)
    requires ValidWord(item.word) && Blank(item.gap) && item.gap != ""
    requires FeedAll(Between(args + [WordText(item.word)]), rest) == r
    ensures FeedAll(Between(args), WrittenWord(item.word) + (item.gap + rest)) == r
  {
    ItemReads(args, item);
    FeedPair(Between(args), WrittenWord(item.word) + item.gap, Between(args + [WordText(item.word)]), rest);
    Associative(WrittenWord(item.word), item.gap, rest);
  }

  lemma ItemStep(args: seq<string>, item: Item, rest: string, texts: seq<string>, r: Lexed)
    requires ValidWord(item.word) && Blank(item.gap) && item.gap != ""
    requires FeedAll(Between(args + [WordText(item.word)]), rest) == r && ReadsAs(r, args + [WordText(item.word)] + texts)
    ensures ReadsAs(FeedAll(Between(args), WrittenWord(item.word) + (item.gap + rest)), args + ([WordText(item.word)] + texts))
  {
    ItemThenReads(args, item, rest, r);
    assert args + [WordText(item.word)] + texts == args + ([WordText(item.word)] + texts);
  }

  lemma OneItemReads(args: seq<string>, items: seq<Item>)
    requires ValidItems(items) && |items| == 1
    ensures ReadsAs(FeedAll(Between(args), WrittenLine(items)), args + Texts(items))
  {
    LastItemReads(args, items[0]);
    assert items[1..] == [] && items[0].gap + "" == items[0].gap;
    assert WrittenLine(items) == WrittenWord(items[0].word) + items[0].gap;
    assert Texts(items) == [WordText(items[0].word)];
  }

  lemma {:induction false} LineReads(args: seq<string>, items: seq<Item>)
    requires ValidItems(items)
    ensures ReadsAs(FeedAll(Between(args), WrittenLine(items)), args + Texts(items))
    decreases |items|
  {
    if items == [] {
      assert args + [] == args;
    } else if |items| == 1 {
      OneItemReads(args, items);
    } else {
      var rest := items[1..];
      LineReads(args + [WordText(items[0].word)], rest);
      ItemStep(args, items[0], WrittenLine(rest), Texts(rest), FeedAll(Between(args + [WordText(items[0].word)]), WrittenLine(rest)));
    }
  }

  /** Words written in any mixture of styles, with blanks around them, are read as what they
      mean: whenever the line fits and has no NUL, and the first word is not blank. */
  lemma WordsRoundTrip(lead: string, items: seq<Item>)
    requires Blank(lead) && ValidItems(items)
    ensures var raw := lead + WrittenLine(items);
      ByteLength(raw) <= MaxBytes && Lacks(raw, Nul) ==>
        Parse(raw) == if items == [] || TrimSpace(Texts(items)[0]) == "" then Err(Empty) else Ok(Texts(items))
  {
    var raw := lead + WrittenLine(items);
    FeedAppend(Fresh, lead, WrittenLine(items));
    GapReads(Fresh, lead);
    assert Fresh == Between([]) && Flush(Fresh) == Fresh;
    LineReads([], items);
    assert [] + Texts(items) == Texts(items);
  }

  // ------------------------------------------------------------------------ refusals

  /** After this text the tokenizer is outside quotes and escapes. */
  ghost predicate LeavesPlain(text: string) {
    var r := FeedAll(Fresh, text);
    r.Reading? && !r.lexer.escaped && r.lexer.quote.None?
  }

  /** The text written so far is such a one. */
  lemma WrittenLeavesPlain(lead: string, items: seq<Item>)
    requires Blank(lead) && ValidItems(items)
    ensures LeavesPlain(lead + WrittenLine(items))
  {
    FeedAppend(Fresh, lead, WrittenLine(items));
    GapReads(Fresh, lead);
    assert Fresh == Between([]) && Flush(Fresh) == Fresh;
    LineReads([], items);
  }

  lemma FeedThree(before: string, c: char, after: string)
    requires FeedAll(Fresh, before).Reading?
    ensures var l := FeedAll(Fresh, before).lexer;
      FeedAll(Fresh, before + ([c] + after)) ==
      if Feed(l, c).Reading? then FeedAll(Feed(l, c).lexer, after) else Feed(l, c)
  {
    FeedAppend(Fresh, before, [c] + after);
    FeedOne(FeedAll(Fresh, before).lexer, c, after);
  }

  /** An operator outside quotes is refused, whatever surrounds it. */
  lemma OperatorRefused(before: string, c: char, after: string)
    requires LeavesPlain(before)
    requires c == ';' || c == '|' || c == '&' || c == '<' || c == '>' || c == '`'
    ensures Parse(before + ([c] + after)).Err?
  {
    FeedThree(before, c, after);
    assert Feed(FeedAll(Fresh, before).lexer, c) == Rejected(Operator);
  }

  /** So is a final backslash. */
  lemma FinalBackslashRefused(before: string)
    requires LeavesPlain(before)
    ensures Parse(before + (['\\'] + "")).Err?
  {
    FeedThree(before, '\\', "");
  }

  lemma {:induction false} StaysOpen(l: Lexer, text: string)
    requires l.quote.Some? && Lacks(text, l.quote.value)
    ensures var r := FeedAll(l, text); r.Reading? ==> r.lexer.quote == l.quote
    decreases |text|
  {
    if text != "" && Feed(l, text[0]).Reading? {
      assert text[0] != l.quote.value;
      StaysOpen(Feed(l, text[0]).lexer, text[1..]);
    }
  }

  /** And a quote that is not closed. */
  lemma OpenQuoteRefused(before: string, quote: char, text: string)
    requires LeavesPlain(before) && (quote == '\'' || quote == '"') && Lacks(text, quote)
    ensures Parse(before + ([quote] + text)).Err?
  {
    FeedThree(before, quote, text);
    var l := FeedAll(Fresh, before).lexer;
    assert Feed(l, quote) == Reading(l.(quote := Some(quote), have := true));
    StaysOpen(l.(quote := Some(quote), have := true), text);
  }

  /** A line break is refused everywhere: in words, quotes and escapes. */
  lemma {:induction false} ReadingIsOneLine(l: Lexer, text: string)
    requires FeedAll(l, text).Reading? && (l.quote.Some? ==> l.quote.value == '\'' || l.quote.value == '"')
    ensures OneLine(text)
    decreases |text|
  {
    if text != "" {
      ReadingIsOneLine(Feed(l, text[0]).lexer, text[1..]);
      assert text == [text[0]] + text[1..];
    }
  }

  lemma BreakRefused(raw: string)
    requires !OneLine(raw)
    ensures Parse(raw).Err?
  {
    if Parse(raw).Ok? {
      ReadingIsOneLine(Fresh, raw);
    }
  }
}
