/** What the demultiplexer's output means: the newline split of each stream's bytes,
    whatever the frame and read boundaries, and exactly when decoding succeeds. */
module DockerLogLines {
  import opened Text
  import opened DockerLogs

  // ------------------------------------------- what the lines are, frames unseen

  /** A payload byte and the stream it belongs to. */
  datatype Tag = Tag(stream: Stream, byte: Byte)

  function Only(bs: seq<Tag>, s: Stream): seq<Byte> {
    if bs == [] then [] else Only(Front(bs), s) + if Last(bs).stream == s then [Last(bs).byte] else []
  }

  function Pieces(bs: seq<Tag>, s: Stream): seq<seq<Byte>> {
    Split(Only(bs, s), NL)
  }

  /** The lines that a newline has ended, in the order of those newlines. */
  function Completed(bs: seq<Tag>): seq<Line> {
    if bs == [] then []
    else Completed(Front(bs)) +
         if Last(bs).byte == NL then [Line(Last(bs).stream, TrimCR(Last(Pieces(Front(bs), Last(bs).stream))))] else []
  }

  /** Where the unfinished line of a stream begins, if it has one. */
  function Began(bs: seq<Tag>, s: Stream): Option<nat> {
    if bs == [] then None
    else if Last(bs).stream != s then Began(Front(bs), s)
    else if Last(bs).byte == NL then None
    else if Began(Front(bs), s).None? then Some(|bs| - 1)
    else Began(Front(bs), s)
  }

  /** The unfinished lines, the one that began first going first. */
  function Unfinished(bs: seq<Tag>): seq<Line> {
    var o := Line(Stdout, TrimCR(Last(Pieces(bs, Stdout))));
    var e := Line(Stderr, TrimCR(Last(Pieces(bs, Stderr))));
    match (Began(bs, Stdout), Began(bs, Stderr))
    case (None, None) => []
    case (Some(_), None) => [o]
    case (None, Some(_)) => [e]
    case (Some(i), Some(j)) => if j < i then [e] + [o] else [o] + [e]
  }

  ghost predicate Short(pieces: seq<seq<Byte>>) {
    forall i :: 0 <= i < |pieces| ==> |pieces[i]| <= MAX_LINE
  }

  ghost predicate NoLongLine(bs: seq<Tag>) {
    Short(Pieces(bs, Stdout)) && Short(Pieces(bs, Stderr))
  }

  ghost predicate Holds(st: State, bs: seq<Tag>, s: Stream) {
    st.Of(s).data == Last(Pieces(bs, s)) && st.Of(s).sequence <= st.sequence
  }

  ghost predicate OrderKept(st: State, bs: seq<Tag>) {
    Began(bs, Stdout).Some? && Began(bs, Stderr).Some? ==>
      (st.stderr.sequence < st.stdout.sequence <==> Began(bs, Stderr).value < Began(bs, Stdout).value)
  }

  /** The decoder's buffers after the bytes `bs`, all of whose lines were taken. */
  ghost predicate Tracks(st: State, bs: seq<Tag>) {
    st.sent == Completed(bs) && Holds(st, bs, Stdout) && Holds(st, bs, Stderr) && OrderKept(st, bs)
  }

  lemma OnlySnoc(bs: seq<Tag>, t: Tag, s: Stream)
    ensures Only(bs + [t], s) == Only(bs, s) + if t.stream == s then [t.byte] else []
    ensures Pieces(bs + [t], s) == if t.stream == s then Grow(Pieces(bs, s), t.byte, NL) else Pieces(bs, s)
  {
    assert Front(bs + [t]) == bs;
    if t.stream == s {
      SplitSnoc(Only(bs, s), t.byte, NL);
    } else {
      assert Only(bs, s) + [] == Only(bs, s);
    }
  }

  lemma {:induction false} BeganBefore(bs: seq<Tag>, s: Stream)
    ensures Began(bs, s).Some? ==> Began(bs, s).value < |bs|
    ensures Began(bs, s).None? <==> Last(Pieces(bs, s)) == []
  {
    if bs != [] {
      BeganBefore(Front(bs), s);
      OnlySnoc(Front(bs), Last(bs), s);
      assert bs == Front(bs) + [Last(bs)];
    }
  }

  /** The sink takes every line of the list in turn. */
  ghost predicate Takes(sink: Sink, lines: seq<Line>) {
    forall k :: 0 <= k < |lines| ==> sink(lines[..k], lines[k])
  }

  lemma TakesSnoc(sink: Sink, lines: seq<Line>, line: Line)
    ensures Takes(sink, lines + [line]) <==> Takes(sink, lines) && sink(lines, line)
  {
    var all := lines + [line];
    assert forall k :: 0 <= k < |lines| ==> all[..k] == lines[..k];
    assert all[..|lines|] == lines;
    if Takes(sink, all) {
      assert sink(all[..|lines|], all[|lines|]);
      forall k | 0 <= k < |lines|
        ensures sink(lines[..k], lines[k])
      {
        assert sink(all[..k], all[k]);
      }
    }
  }

  ghost predicate Good(bs: seq<Tag>, sink: Sink) {
    NoLongLine(bs) && Takes(sink, Completed(bs))
  }

  lemma GrowShort(pieces: seq<seq<Byte>>, b: Byte)
    requires pieces != []
    ensures Short(Grow(pieces, b, NL)) <==> Short(pieces) && (b == NL || |Last(pieces)| + 1 <= MAX_LINE)
  {
    var grown := Grow(pieces, b, NL);
    if Short(grown) {
      forall i | 0 <= i < |pieces|
        ensures |pieces[i]| <= MAX_LINE
      {
        assert |pieces[i]| <= |grown[i]|;
      }
      assert b != NL ==> |grown[|pieces| - 1]| == |Last(pieces)| + 1;
    }
  }

  lemma NoLongLineSnoc(bs: seq<Tag>, t: Tag)
    ensures NoLongLine(bs + [t]) <==>
            NoLongLine(bs) && (t.byte == NL || |Last(Pieces(bs, t.stream))| + 1 <= MAX_LINE)
  {
    OnlySnoc(bs, t, Stdout);
    OnlySnoc(bs, t, Stderr);
    GrowShort(Pieces(bs, t.stream), t.byte);
  }

  lemma CompletedSnoc(bs: seq<Tag>, t: Tag)
    ensures Completed(bs + [t]) == Completed(bs) +
            if t.byte == NL then [Line(t.stream, TrimCR(Last(Pieces(bs, t.stream))))] else []
  {
    assert Front(bs + [t]) == bs;
  }

  lemma GoodSnoc(bs: seq<Tag>, t: Tag, sink: Sink)
    ensures Good(bs + [t], sink) <==>
      && Good(bs, sink)
      && (t.byte != NL ==> |Last(Pieces(bs, t.stream))| + 1 <= MAX_LINE)
      && (t.byte == NL ==> sink(Completed(bs), Line(t.stream, TrimCR(Last(Pieces(bs, t.stream))))))
  {
    NoLongLineSnoc(bs, t);
    CompletedSnoc(bs, t);
    if t.byte == NL {
      TakesSnoc(sink, Completed(bs), Line(t.stream, TrimCR(Last(Pieces(bs, t.stream)))));
    } else {
      assert Completed(bs) + [] == Completed(bs);
    }
  }

  lemma {:induction false} GoodPrefix(a: seq<Tag>, b: seq<Tag>, sink: Sink)
    requires Good(a + b, sink)
    ensures Good(a, sink)
    decreases |b|
  {
    if b == [] {
      assert a + b == a;
    } else {
      assert a + b == (a + Front(b)) + [Last(b)];
      GoodSnoc(a + Front(b), Last(b), sink);
      GoodPrefix(a, Front(b), sink);
    }
  }

  // --------------------------------------------------------- the buffers track it

  lemma TrackText(st: State, bs: seq<Tag>, t: Tag)
    requires Tracks(st, bs) && t.byte != NL
    ensures Tracks(Append(st, t.stream, [t.byte]), bs + [t])
  {
    CompletedSnoc(bs, t);
    OnlySnoc(bs, t, Stdout);
    OnlySnoc(bs, t, Stderr);
    TrackOrder(st, bs, t);
  }

  lemma TrackOrder(st: State, bs: seq<Tag>, t: Tag)
    requires Tracks(st, bs) && t.byte != NL
    ensures OrderKept(Append(st, t.stream, [t.byte]), bs + [t])
  {
    assert Front(bs + [t]) == bs;
    BeganBefore(bs, Stdout);
    BeganBefore(bs, Stderr);
  }

  lemma TrackNewline(st: State, bs: seq<Tag>, s: Stream, sink: Sink)
    requires Tracks(st, bs)
    ensures var r := Terminate(Begin(st, s), s, sink);
      && (r.Going? <==> sink(Completed(bs), Line(s, TrimCR(Last(Pieces(bs, s))))))
      && (r.Going? ==> Tracks(r.state, bs + [Tag(s, NL)]))
  {
    OnlySnoc(bs, Tag(s, NL), Stdout);
    OnlySnoc(bs, Tag(s, NL), Stderr);
    CompletedSnoc(bs, Tag(s, NL));
    assert Front(bs + [Tag(s, NL)]) == bs;
  }

  lemma TrackByte(st: State, bs: seq<Tag>, t: Tag, sink: Sink)
    requires Tracks(st, bs) && Good(bs, sink)
    ensures var r := FeedByte(st, t.stream, t.byte, sink);
      && (r.Going? <==> Good(bs + [t], sink))
      && (r.Going? ==> Tracks(r.state, bs + [t]))
  {
    GoodSnoc(bs, t, sink);
    if t.byte == NL {
      TrackNewline(st, bs, t.stream, sink);
    } else {
      TrackText(st, bs, t);
    }
  }

  function Tags(s: Stream, data: seq<Byte>): seq<Tag> {
    seq(|data|, i requires 0 <= i < |data| => Tag(s, data[i]))
  }

  lemma TagsCons(bs: seq<Tag>, s: Stream, data: seq<Byte>)
    requires data != []
    ensures bs + Tags(s, data) == (bs + [Tag(s, data[0])]) + Tags(s, data[1..])
  {
  }

  lemma NotGoodStays(a: seq<Tag>, b: seq<Tag>, sink: Sink)
    requires !Good(a, sink)
    ensures !Good(a + b, sink)
  {
    if Good(a + b, sink) {
      GoodPrefix(a, b, sink);
    }
  }

  lemma {:induction false} TrackFeed(st: State, bs: seq<Tag>, s: Stream, data: seq<Byte>, sink: Sink)
    requires Tracks(st, bs) && Good(bs, sink)
    ensures var r := Feed(st, s, data, sink);
      && (r.Going? <==> Good(bs + Tags(s, data), sink))
      && (r.Going? ==> Tracks(r.state, bs + Tags(s, data)))
    decreases |data|
  {
    if data == [] {
      assert bs + Tags(s, data) == bs;
    } else {
      var t := Tag(s, data[0]);
      TrackByte(st, bs, t, sink);
      TagsCons(bs, s, data);
      var r := FeedByte(st, s, data[0], sink);
      if r.Going? {
        TrackFeed(r.state, bs + [t], s, data[1..], sink);
      } else {
        NotGoodStays(bs + [t], Tags(s, data[1..]), sink);
      }
    }
  }

  // ---------------------------------------------------------------- end of input

  lemma PendingsAreUnfinished(st: State, bs: seq<Tag>)
    requires Tracks(st, bs)
    ensures Pendings(st) == Unfinished(bs)
  {
    BeganBefore(bs, Stdout);
    BeganBefore(bs, Stderr);
    var o, e := st.stdout, st.stderr;
    assert PendingOf(o, e, []) == [];
    assert [Stdout, Stderr][1..] == [Stderr] && [Stderr, Stdout][1..] == [Stdout];
    assert [Stderr][1..] == [] && [Stdout][1..] == [];
    assert PendingOf(o, e, [Stderr]) == if e.data == [] then [] else [Line(Stderr, TrimCR(e.data))];
    assert PendingOf(o, e, [Stdout]) == if o.data == [] then [] else [Line(Stdout, TrimCR(o.data))];
  }

  lemma {:induction false} SendAllTakes(sent: seq<Line>, lines: seq<Line>, sink: Sink)
    requires Takes(sink, sent)
    ensures var r := SendAll(sent, lines, sink);
      (r.ok <==> Takes(sink, sent + lines)) && (r.ok ==> r.sent == sent + lines)
    decreases |lines|
  {
    if lines == [] {
      assert sent + lines == sent;
    } else {
      TakesSnoc(sink, sent, lines[0]);
      assert sent + lines == (sent + [lines[0]]) + lines[1..];
      if sink(sent, lines[0]) {
        SendAllTakes(sent + [lines[0]], lines[1..], sink);
      } else {
        assert (sent + lines)[..|sent|] == sent && (sent + lines)[|sent|] == lines[0];
      }
    }
  }

  /** All lines of the byte stream, as they are sent. */
  function Expected(bs: seq<Tag>): seq<Line> {
    Completed(bs) + Unfinished(bs)
  }

  lemma TakesPrefix(sink: Sink, a: seq<Line>, b: seq<Line>)
    requires Takes(sink, a + b)
    ensures Takes(sink, a)
  {
    forall k | 0 <= k < |a|
      ensures sink(a[..k], a[k])
    {
      assert (a + b)[..k] == a[..k] && sink((a + b)[..k], (a + b)[k]);
    }
  }

  // ---------------------------------------------------------------- whole frames

  datatype Frame = Frame(kind: Byte, payload: seq<Byte>) {
    ghost predicate Valid() {
      kind <= 2 && |payload| < 0x1_0000_0000
    }
    function Stream(): (s: Stream)
      ensures s.Stderr? <==> kind == 2
    {
      if kind == 2 then Stderr else Stdout
    }
    function Wire(): (w: seq<Byte>)
      requires Valid()
      ensures |w| == 8 + |payload| && HeaderOk(w) && HeaderStream(w) == Stream()
      ensures w[4..8] == ToBigEndian(|payload|) && w[8..] == payload
    {
      [kind, 0, 0, 0] + ToBigEndian(|payload|) + payload
    }
  }

  ghost predicate AllValid(frames: seq<Frame>) {
    forall i :: 0 <= i < |frames| ==> frames[i].Valid()
  }

  function Encode(frames: seq<Frame>): seq<Byte>
    requires AllValid(frames)
  {
    if frames == [] then [] else frames[0].Wire() + Encode(frames[1..])
  }

  function Bytes(frames: seq<Frame>): seq<Tag> {
    if frames == [] then [] else Tags(frames[0].Stream(), frames[0].payload) + Bytes(frames[1..])
  }

  lemma DecodeFrame(st: State, f: Frame, rest: seq<Byte>, sink: Sink)
    requires f.Valid()
    ensures var r := Feed(st, f.Stream(), f.payload, sink);
      DecodeFrom(st, f.Wire() + rest, sink) ==
      if r.Stopped? then Outcome(false, r.sent) else DecodeFrom(r.state, rest, sink)
  {
    var w := f.Wire();
    var input := w + rest;
    var n := |f.payload|;
    assert input[4..8] == w[4..8] && input[8..] == f.payload + rest && input[8 + n..] == rest;
    assert (f.payload + rest)[..n] == f.payload;
    ChunksDoNotMatter(st, f.Stream(), input[8..], n, sink);
  }

  /** The decoder's verdict and output on whole frames, from any point on. */
  ghost predicate DecodesTo(r: Outcome, bs: seq<Tag>, sink: Sink) {
    && (r.ok <==> NoLongLine(bs) && Takes(sink, Expected(bs)))
    && (r.ok ==> r.sent == Expected(bs))
  }

  lemma {:induction false} DecodeFrames(st: State, bs: seq<Tag>, frames: seq<Frame>, sink: Sink)
    requires Tracks(st, bs) && Good(bs, sink) && AllValid(frames)
    ensures DecodesTo(DecodeFrom(st, Encode(frames), sink), bs + Bytes(frames), sink)
    decreases |frames|
  {
    if frames == [] {
      assert bs + Bytes(frames) == bs;
      PendingsAreUnfinished(st, bs);
      SendAllTakes(st.sent, Pendings(st), sink);
    } else {
      var f, rest := frames[0], frames[1..];
      DecodeFrame(st, f, Encode(rest), sink);
      TrackFeed(st, bs, f.Stream(), f.payload, sink);
      var now := bs + Tags(f.Stream(), f.payload);
      assert bs + Bytes(frames) == now + Bytes(rest);
      match Feed(st, f.Stream(), f.payload, sink) {
        case Going(st') => DecodeFrames(st', now, rest, sink);
        case Stopped(_) => BadStaysBad(now, Bytes(rest), sink);
      }
    }
  }

  lemma BadStaysBad(a: seq<Tag>, b: seq<Tag>, sink: Sink)
    requires !Good(a, sink)
    ensures !(NoLongLine(a + b) && Takes(sink, Expected(a + b)))
  {
    if NoLongLine(a + b) && Takes(sink, Expected(a + b)) {
      TakesPrefix(sink, Completed(a + b), Unfinished(a + b));
      NotGoodStays(a, b, sink);
    }
  }

  lemma EmptyTracks(sink: Sink)
    ensures Tracks(Empty, []) && Good([], sink)
  {
    assert Pieces([], Stdout) == [[]] && Pieces([], Stderr) == [[]];
  }

  lemma OkStep(st: State, input: seq<Byte>, sink: Sink) returns (st': State, f: Frame, n: nat)
    requires DecodeFrom(st, input, sink).ok && input != []
    ensures f.Valid() && 0 < n <= |input| && f.Wire() == input[..n] && DecodeFrom(st', input[n..], sink).ok
  {
    DecodeUnfolds(st, input, sink);
    n := 8 + BigEndian(input[4..8]);
    f := FrameOf(input, n - 8);
    st' := FeedPayload(st, HeaderStream(input), input[8..], n - 8, sink).state;
  }

  lemma EncodeCons(f: Frame, rest: seq<Frame>)
    requires f.Valid() && AllValid(rest)
    ensures AllValid([f] + rest) && Encode([f] + rest) == f.Wire() + Encode(rest)
  {
    assert ([f] + rest)[1..] == rest;
  }

  /** Success leaves no byte outside a whole frame. */
  lemma {:induction false} OkIsFramed(st: State, input: seq<Byte>, sink: Sink) returns (frames: seq<Frame>)
    requires DecodeFrom(st, input, sink).ok
    ensures AllValid(frames) && Encode(frames) == input
    decreases |input|
  {
    if input == [] {
      frames := [];
    } else {
      var st', f, n := OkStep(st, input, sink);
      var rest := OkIsFramed(st', input[n..], sink);
      frames := [f] + rest;
      EncodeCons(f, rest);
      assert input == input[..n] + input[n..];
    }
  }

  lemma FrameOf(input: seq<Byte>, size: nat) returns (f: Frame)
    requires HeaderOk(input) && size == BigEndian(input[4..8]) && 8 + size <= |input|
    ensures f.Valid() && f.Wire() == input[..8 + size]
  {
    BigEndianInjective(input[4..8]);
    f := Frame(input[0], input[8..8 + size]);
    assert input[..8 + size] == input[..4] + input[4..8] + input[8..8 + size];
    assert input[..4] == [input[0], 0, 0, 0];
  }

  // --------------------------------------------------------------- main results

  /** For every sequence of whole frames and every sink: decoding succeeds exactly when
      no line is over 64 KiB and the sink takes every line, and then it has sent the
      completed lines in the order of their newlines and then the unfinished lines in
      the order they began. Frame and 16 KiB read boundaries leave no trace. */
  lemma DecodingFrames(frames: seq<Frame>, sink: Sink)
    requires AllValid(frames)
    ensures DecodesTo(Decode(Encode(frames), sink), Bytes(frames), sink)
  {
    EmptyTracks(sink);
    DecodeFrames(Empty, [], frames, sink);
    assert [] + Bytes(frames) == Bytes(frames);
  }

  /** For every input: decoding succeeds exactly on whole valid frames whose lines are
      short enough and taken by the sink. */
  lemma DecodeSucceedsExactly(input: seq<Byte>, sink: Sink)
    ensures Decode(input, sink).ok <==>
      exists frames :: AllValid(frames) && Encode(frames) == input
                       && NoLongLine(Bytes(frames)) && Takes(sink, Expected(Bytes(frames)))
  {
    if Decode(input, sink).ok {
      var frames := OkIsFramed(Empty, input, sink);
      DecodingFrames(frames, sink);
    }
    forall frames | AllValid(frames) && Encode(frames) == input
                    && NoLongLine(Bytes(frames)) && Takes(sink, Expected(Bytes(frames)))
      ensures Decode(input, sink).ok
    {
      DecodingFrames(frames, sink);
    }
  }

  lemma EncodeFront(frames: seq<Frame>, n: nat)
    requires AllValid(frames) && n <= |frames|
    ensures Encode(frames[..n]) <= Encode(frames)
    decreases n
  {
    if n > 0 {
      EncodeFront(frames[1..], n - 1);
      assert frames[..n][1..] == frames[1..][..n - 1];
    }
  }

  /** A prefix of an encoding that is itself an encoding ends between frames. */
  lemma {:induction false} PrefixIsFrames(a: seq<Frame>, b: seq<Frame>) returns (n: nat)
    requires AllValid(a) && AllValid(b) && Encode(a) <= Encode(b)
    ensures n <= |b| && Encode(a) == Encode(b[..n])
    decreases |a|
  {
    if a == [] {
      return 0;
    }
    var wa, wb := a[0].Wire(), b[0].Wire();
    var ea, eb := Encode(a), Encode(b);
    assert ea[..8] == eb[..8] && ea[4..8] == wa[4..8] && eb[4..8] == wb[4..8];
    assert |a[0].payload| == |b[0].payload|;
    assert wa == ea[..|wa|] == eb[..|wb|] == wb;
    assert Encode(a[1..]) == ea[|wa|..] && Encode(b[1..]) == eb[|wb|..];
    n := PrefixIsFrames(a[1..], b[1..]);
    n := n + 1;
    assert b[..n][1..] == b[1..][..n - 1];
  }

  /** A stream cut inside a header or a payload always fails, whatever the sink: a cut
      at k bytes decodes only if some number of whole frames takes exactly k bytes. */
  lemma CutDecodesOnlyBetweenFrames(frames: seq<Frame>, k: nat, sink: Sink)
    requires AllValid(frames) && k <= |Encode(frames)|
    ensures Decode(Encode(frames)[..k], sink).ok ==>
      exists n :: 0 <= n <= |frames| && |Encode(frames[..n])| == k
  {
    if Decode(Encode(frames)[..k], sink).ok {
      var a := OkIsFramed(Empty, Encode(frames)[..k], sink);
      var n := PrefixIsFrames(a, frames);
    }
  }

  // ------------------------------------------------------------- stream by stream

  function Texts(lines: seq<Line>, s: Stream): seq<seq<Byte>> {
    if lines == [] then []
    else Texts(Front(lines), s) + if Last(lines).stream == s then [Last(lines).text] else []
  }

  function TrimAll(pieces: seq<seq<Byte>>): seq<seq<Byte>> {
    seq(|pieces|, i requires 0 <= i < |pieces| => TrimCR(pieces[i]))
  }

  /** The lines of a text: its newline split, without an empty last piece. */
  function LinesOf(text: seq<Byte>): seq<seq<Byte>> {
    var pieces := Split(text, NL);
    TrimAll(if Last(pieces) == [] then Front(pieces) else pieces)
  }

  function Joined(frames: seq<Frame>, s: Stream): seq<Byte> {
    if frames == [] then []
    else (if frames[0].Stream() == s then frames[0].payload else []) + Joined(frames[1..], s)
  }

  lemma TextsSnoc(lines: seq<Line>, line: Line, s: Stream)
    ensures Texts(lines + [line], s) == Texts(lines, s) + if line.stream == s then [line.text] else []
  {
    assert Front(lines + [line]) == lines;
  }

  lemma {:induction false} CompletedTexts(bs: seq<Tag>, s: Stream)
    ensures Texts(Completed(bs), s) == TrimAll(Front(Pieces(bs, s)))
  {
    if bs == [] {
      assert Pieces(bs, s) == [[]];
    } else {
      var a, t := Front(bs), Last(bs);
      assert bs == a + [t];
      CompletedTexts(a, s);
      OnlySnoc(a, t, s);
      CompletedSnoc(a, t);
      if t.byte == NL {
        TextsSnoc(Completed(a), Line(t.stream, TrimCR(Last(Pieces(a, t.stream)))), s);
        if t.stream == s {
          assert Front(Pieces(bs, s)) == Pieces(a, s) == Front(Pieces(a, s)) + [Last(Pieces(a, s))];
        }
      } else {
        assert Completed(bs) == Completed(a);
        assert Front(Pieces(bs, s)) == Front(Pieces(a, s));
      }
    }
  }

  lemma {:induction false} OnlyTags(bs: seq<Tag>, u: Stream, data: seq<Byte>, s: Stream)
    ensures Only(bs + Tags(u, data), s) == Only(bs, s) + if u == s then data else []
    decreases |data|
  {
    if data == [] {
      assert bs + Tags(u, data) == bs;
    } else {
      var d, x := Front(data), Last(data);
      assert data == d + [x];
      assert bs + Tags(u, data) == (bs + Tags(u, d)) + [Tag(u, x)];
      calc {
        Only(bs + Tags(u, data), s);
        { OnlySnoc(bs + Tags(u, d), Tag(u, x), s); }
        Only(bs + Tags(u, d), s) + if u == s then [x] else [];
        { OnlyTags(bs, u, d, s); }
        (Only(bs, s) + if u == s then d else []) + if u == s then [x] else [];
        Only(bs, s) + if u == s then data else [];
      }
    }
  }

  lemma {:induction false} OnlyBytes(bs: seq<Tag>, frames: seq<Frame>, s: Stream)
    ensures Only(bs + Bytes(frames), s) == Only(bs, s) + Joined(frames, s)
    decreases |frames|
  {
    if frames == [] {
      assert bs + Bytes(frames) == bs;
    } else {
      var f, rest := frames[0], frames[1..];
      var tags := Tags(f.Stream(), f.payload);
      OnlyTags(bs, f.Stream(), f.payload, s);
      OnlyBytes(bs + tags, rest, s);
      Associative(bs, tags, Bytes(rest));
      Associative(Only(bs, s), if f.Stream() == s then f.payload else [], Joined(rest, s));
    }
  }

  lemma StreamBytes(frames: seq<Frame>, s: Stream)
    ensures Only(Bytes(frames), s) == Joined(frames, s)
  {
    OnlyBytes([], frames, s);
    EmptyFront(Bytes(frames));
    EmptyFront(Joined(frames, s));
  }

  lemma Associative<T>(a: seq<T>, b: seq<T>, c: seq<T>)
    ensures (a + b) + c == a + (b + c)
  {
  }

  lemma {:induction false} TextsAppend(a: seq<Line>, b: seq<Line>, s: Stream)
    ensures Texts(a + b, s) == Texts(a, s) + Texts(b, s)
    decreases |b|
  {
    if b == [] {
      assert a + b == a;
    } else {
      assert a + b == (a + Front(b)) + [Last(b)];
      TextsSnoc(a + Front(b), Last(b), s);
      TextsAppend(a, Front(b), s);
    }
  }

  function TailText(bs: seq<Tag>, s: Stream): seq<seq<Byte>> {
    if Last(Pieces(bs, s)) == [] then [] else [TrimCR(Last(Pieces(bs, s)))]
  }

  lemma TextsOne(line: Line, s: Stream)
    ensures Texts([line], s) == if line.stream == s then [line.text] else []
  {
    assert Front([line]) == [];
  }

  lemma TextsTwo(a: Line, b: Line, s: Stream)
    ensures Texts([a] + [b], s) == (if a.stream == s then [a.text] else []) + if b.stream == s then [b.text] else []
  {
    TextsAppend([a], [b], s);
    TextsOne(a, s);
    TextsOne(b, s);
  }

  lemma UnfinishedTexts(bs: seq<Tag>, s: Stream)
    ensures Texts(Unfinished(bs), s) == TailText(bs, s)
  {
    BeganBefore(bs, Stdout);
    BeganBefore(bs, Stderr);
    var o := Line(Stdout, TrimCR(Last(Pieces(bs, Stdout))));
    var e := Line(Stderr, TrimCR(Last(Pieces(bs, Stderr))));
    match (Began(bs, Stdout), Began(bs, Stderr))
    case (None, None) =>
    case (Some(_), None) => TextsOne(o, s);
    case (None, Some(_)) => TextsOne(e, s);
    case (Some(i), Some(j)) =>
      if j < i {
        TextsTwo(e, o, s);
      } else {
        TextsTwo(o, e, s);
      }
  }

  lemma TrimAllSnoc(pieces: seq<seq<Byte>>)
    requires pieces != []
    ensures TrimAll(pieces) == TrimAll(Front(pieces)) + [TrimCR(Last(pieces))]
  {
  }

  lemma ExpectedTexts(bs: seq<Tag>, s: Stream)
    ensures Texts(Expected(bs), s) == LinesOf(Only(bs, s))
  {
    TextsAppend(Completed(bs), Unfinished(bs), s);
    CompletedTexts(bs, s);
    UnfinishedTexts(bs, s);
    TrimAllSnoc(Pieces(bs, s));
    assert TrimAll(Front(Pieces(bs, s))) + [] == TrimAll(Front(Pieces(bs, s)));
  }

  /** strings.TrimSuffix(s, "\r"): one final CR goes, nothing else does. */
  lemma TrimCRExactly(s: seq<Byte>)
    ensures if s != [] && s[|s| - 1] == CR then TrimCR(s) + [CR] == s else TrimCR(s) == s
  {
  }

  /** The newline-separated pieces of a text, without an empty last one. */
  function LinePieces(text: seq<Byte>): seq<seq<Byte>> {
    var pieces := Split(text, NL);
    if Last(pieces) == [] then Front(pieces) else pieces
  }

  /** The lines sent for each stream are the newline split of that stream's joined payloads,
      without an empty last piece: each line is its piece, or its piece without a final CR
      exactly when the piece has one. */
  lemma LinesPerStream(frames: seq<Frame>, s: Stream)
    ensures var lines, pieces := Texts(Expected(Bytes(frames)), s), LinePieces(Joined(frames, s));
      && |lines| == |pieces|
      && forall i :: 0 <= i < |pieces| ==>
           if pieces[i] != [] && pieces[i][|pieces[i]| - 1] == CR then lines[i] + [CR] == pieces[i]
           else lines[i] == pieces[i]
  {
    StreamBytes(frames, s);
    ExpectedTexts(Bytes(frames), s);
    var pieces := LinePieces(Joined(frames, s));
    forall i | 0 <= i < |pieces|
      ensures if pieces[i] != [] && pieces[i][|pieces[i]| - 1] == CR then TrimCR(pieces[i]) + [CR] == pieces[i]
        else TrimCR(pieces[i]) == pieces[i]
    {
      TrimCRExactly(pieces[i]);
    }
  }

  // -------------------------------------------------- the bounded log action

  const MAX_ACTION: nat := 2 * 1024 * 1024

  function Output(lines: seq<Line>): seq<Byte> {
    if lines == [] then [] else Output(Front(lines)) + Last(lines).text + [NL]
  }

  function AllTexts(lines: seq<Line>): seq<seq<Byte>> {
    seq(|lines|, i requires 0 <= i < |lines| => lines[i].text)
  }

  /** The text collected is every line in order, each ended by a newline. */
  lemma {:induction false} OutputSplits(lines: seq<Line>)
    requires forall i :: 0 <= i < |lines| ==> Free(lines[i].text, NL)
    ensures Split(Output(lines), NL) == AllTexts(lines) + [[]]
    decreases |lines|
  {
    if lines == [] {
      assert AllTexts(lines) + [[]] == [[]];
    } else {
      OutputSplits(Front(lines));
      SplitGrows(Output(Front(lines)), AllTexts(Front(lines)), Last(lines).text);
      assert AllTexts(lines) == AllTexts(Front(lines)) + [Last(lines).text];
    }
  }

  lemma SplitGrows(text: seq<Byte>, pieces: seq<seq<Byte>>, line: seq<Byte>)
    requires Split(text, NL) == pieces + [[]] && Free(line, NL)
    ensures Split(text + line + [NL], NL) == pieces + [line] + [[]]
  {
    SplitTail(text, pieces, line);
    SplitSnoc(text + line, NL, NL);
  }

  lemma {:induction false} SplitTail(text: seq<Byte>, pieces: seq<seq<Byte>>, line: seq<Byte>)
    requires Split(text, NL) == pieces + [[]] && Free(line, NL)
    ensures Split(text + line, NL) == pieces + [line]
    decreases |line|
  {
    if line == [] {
      assert text + line == text;
    } else {
      SplitTail(text, pieces, Front(line));
      assert text + line == (text + Front(line)) + [Last(line)];
      SplitSnoc(text + Front(line), Last(line), NL);
      assert Front(pieces + [Front(line)]) == pieces && Front(line) + [Last(line)] == line;
    }
  }

  /** The builder's callback: refuse a line that would pass 2 MiB. */
  function Builder(sent: seq<Line>, line: Line): bool {
    |line.text| + 1 <= MAX_ACTION - |Output(sent)|
  }

  lemma {:induction false} BuilderTakes(lines: seq<Line>)
    ensures Takes(Builder, lines) <==> |Output(lines)| <= MAX_ACTION
    decreases |lines|
  {
    if lines != [] {
      BuilderTakes(Front(lines));
      TakesSnoc(Builder, Front(lines), Last(lines));
      assert lines == Front(lines) + [Last(lines)];
    }
  }

  /** collectContainerLogs after the two Docker calls; `trim` is strings.TrimSpace. */
  method CollectContainerLogs(input: seq<Byte>, trim: seq<Byte> -> seq<Byte>) returns (r: Option<seq<Byte>>)
    ensures r.Some? <==>
      exists frames :: AllValid(frames) && Encode(frames) == input && NoLongLine(Bytes(frames))
                       && |Output(Expected(Bytes(frames)))| <= MAX_ACTION
    ensures forall frames :: AllValid(frames) && Encode(frames) == input && r.Some? ==>
      r.value == trim(Output(Expected(Bytes(frames))))
  {
    var decoder := new Decoder(Builder);
    var ok := decoder.Run(input);
    DecodeSucceedsExactly(input, Builder);
    forall frames | AllValid(frames) && Encode(frames) == input
      ensures Takes(Builder, Expected(Bytes(frames))) <==> |Output(Expected(Bytes(frames)))| <= MAX_ACTION
      ensures ok ==> decoder.sent == Expected(Bytes(frames))
    {
      BuilderTakes(Expected(Bytes(frames)));
      DecodingFrames(frames, Builder);
    }
    r := if ok then Some(trim(Output(decoder.sent))) else None;
  }
}
