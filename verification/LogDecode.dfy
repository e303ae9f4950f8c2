/** The Docker log demultiplexer: framed bytes in, text lines per stream out.

    Each frame is the 8-byte header of ContainerAttach's stream format in the Docker
    Engine API (stream number, three zero bytes, big-endian payload length) and its
    payload. Lines are byte sequences; the decoder never interprets their encoding. */
module DockerLogs {
  import opened Text

  type Byte = b: nat | b < 256

  const NL: Byte := 10
  const CR: Byte := 13
  const MAX_LINE: nat := 64 * 1024
  const CHUNK: nat := 16 * 1024

  datatype Stream = Stdout | Stderr
  datatype Line = Line(stream: Stream, text: seq<Byte>)

  /** The callback's verdict on a line, given the lines it has taken before. */
  type Sink = (seq<Line>, Line) -> bool

  function TrimCR(s: seq<Byte>): seq<Byte> {
    if s != [] && Last(s) == CR then Front(s) else s
  }

  /** bytes.IndexByte(s, '\n'), or the length when there is none. */
  function FirstNewline(s: seq<Byte>): (k: nat)
    ensures k <= |s| && Free(s[..k], NL) && (k < |s| ==> s[k] == NL)
  {
    if s == [] || s[0] == NL then 0
    else
      var k := 1 + FirstNewline(s[1..]);
      assert s[..k] == [s[0]] + s[1..][..k - 1];
      k
  }

  // ------------------------------------------------------------- line assembly

  datatype Buffer = Buffer(data: seq<Byte>, sequence: nat)
  datatype State = State(stdout: Buffer, stderr: Buffer, sequence: nat, sent: seq<Line>) {
    function Of(s: Stream): Buffer {
      if s.Stdout? then stdout else stderr
    }
    function With(s: Stream, b: Buffer): State {
      if s.Stdout? then this.(stdout := b) else this.(stderr := b)
    }
  }

  const Empty := State(Buffer([], 0), Buffer([], 0), 0, [])

  /** Decoding goes on in a state, or has stopped after sending some lines. */
  datatype Progress = Going(state: State) | Stopped(sent: seq<Line>)

  /** Number a line when its first byte (or its bare newline) arrives. */
  function Begin(st: State, s: Stream): State {
    if st.Of(s).data != [] then st
    else st.(sequence := st.sequence + 1).With(s, Buffer([], st.sequence + 1))
  }

  function Append(st: State, s: Stream, piece: seq<Byte>): State {
    var b := Begin(st, s).Of(s);
    Begin(st, s).With(s, b.(data := b.data + piece))
  }

  /** Send the line that `Begin` has numbered. */
  function Terminate(st: State, s: Stream, sink: Sink): Progress {
    var line := Line(s, TrimCR(st.Of(s).data));
    if sink(st.sent, line) then Going(st.(sent := st.sent + [line]).With(s, st.Of(s).(data := [])))
    else Stopped(st.sent)
  }

  function FeedByte(st: State, s: Stream, b: Byte, sink: Sink): Progress {
    if b == NL then Terminate(Begin(st, s), s, sink)
    else if |st.Of(s).data| + 1 > MAX_LINE then Stopped(st.sent)
    else Going(Append(st, s, [b]))
  }

  function Feed(st: State, s: Stream, data: seq<Byte>, sink: Sink): Progress
    decreases |data|
  {
    if data == [] then Going(st)
    else
      match FeedByte(st, s, data[0], sink)
      case Stopped(sent) => Stopped(sent)
      case Going(st') => Feed(st', s, data[1..], sink)
  }

  lemma {:induction false} FeedAppend(st: State, s: Stream, a: seq<Byte>, b: seq<Byte>, sink: Sink)
    ensures var r := Feed(st, s, a, sink);
      Feed(st, s, a + b, sink) == if r.Stopped? then r else Feed(r.state, s, b, sink)
    decreases |a|
  {
    if a == [] {
      assert a + b == b;
    } else {
      assert (a + b)[1..] == a[1..] + b;
      match FeedByte(st, s, a[0], sink) {
        case Stopped(_) =>
        case Going(st') => FeedAppend(st', s, a[1..], b, sink);
      }
    }
  }

  /** Newline-free bytes only grow the pending line. */
  lemma {:induction false} FeedPiece(st: State, s: Stream, piece: seq<Byte>, sink: Sink)
    requires piece != [] && Free(piece, NL) && |st.Of(s).data| <= MAX_LINE
    ensures Feed(st, s, piece, sink) ==
      if |st.Of(s).data| + |piece| > MAX_LINE then Stopped(st.sent) else Going(Append(st, s, piece))
    decreases |piece|
  {
    if |st.Of(s).data| + 1 <= MAX_LINE {
      var st' := Append(st, s, piece[..1]);
      assert FeedByte(st, s, piece[0], sink) == Going(st');
      if |piece| > 1 {
        FeedPiece(st', s, piece[1..], sink);
        assert piece == piece[..1] + piece[1..];
        assert st'.Of(s).data + piece[1..] == st.Of(s).data + piece;
      } else {
        assert piece == piece[..1];
      }
    }
  }

  /** A chunk up to its first newline: what one turn of the emit loop does. */
  lemma FeedSegment(st: State, s: Stream, data: seq<Byte>, count: nat, sink: Sink)
    requires data != [] && count <= |data| && Free(data[..count], NL) && (count < |data| ==> data[count] == NL)
    requires |st.Of(s).data| <= MAX_LINE
    ensures Feed(st, s, data, sink) ==
      if |st.Of(s).data| + count > MAX_LINE then Stopped(st.sent)
      else if count == |data| then Going(Append(st, s, data))
      else
        var r := Terminate(Append(st, s, data[..count]), s, sink);
        if r.Stopped? then r else Feed(r.state, s, data[count + 1..], sink)
  {
    assert data == data[..count] + data[count..];
    FeedAppend(st, s, data[..count], data[count..], sink);
    if count > 0 {
      FeedPiece(st, s, data[..count], sink);
    }
    if count == |data| {
      assert data[..count] == data;
    } else {
      assert data[count..][1..] == data[count + 1..];
      var st' := if count > 0 then Append(st, s, data[..count]) else st;
      assert Begin(st', s) == Append(st, s, data[..count]);
    }
  }

  /** What is still pending is sent last, the line that began first going first. */
  function Order(o: Buffer, e: Buffer): seq<Stream> {
    if e.sequence < o.sequence then [Stderr, Stdout] else [Stdout, Stderr]
  }

  function PendingOf(o: Buffer, e: Buffer, order: seq<Stream>): seq<Line> {
    if order == [] then []
    else
      var data := if order[0].Stdout? then o.data else e.data;
      (if data == [] then [] else [Line(order[0], TrimCR(data))]) + PendingOf(o, e, order[1..])
  }

  function Pendings(st: State): seq<Line> {
    PendingOf(st.stdout, st.stderr, Order(st.stdout, st.stderr))
  }

  datatype Outcome = Outcome(ok: bool, sent: seq<Line>)

  function SendAll(sent: seq<Line>, lines: seq<Line>, sink: Sink): Outcome
    decreases |lines|
  {
    if lines == [] then Outcome(true, sent)
    else if !sink(sent, lines[0]) then Outcome(false, sent)
    else SendAll(sent + [lines[0]], lines[1..], sink)
  }

  // -------------------------------------------------------------------- framing

  function BigEndian(b: seq<Byte>): nat
    requires |b| == 4
  {
    (b[0] as int) * 0x100_0000 + (b[1] as int) * 0x1_0000 + (b[2] as int) * 0x100 + b[3] as int
  }

  function ToBigEndian(n: nat): (b: seq<Byte>)
    requires n < 0x1_0000_0000
    ensures |b| == 4 && BigEndian(b) == n
  {
    var high, low := n / 0x1_0000, n % 0x1_0000;
    [high / 0x100, high % 0x100, low / 0x100, low % 0x100]
  }

  lemma BigEndianInjective(b: seq<Byte>)
    requires |b| == 4
    ensures BigEndian(b) < 0x1_0000_0000 && ToBigEndian(BigEndian(b)) == b
  {
    var n := BigEndian(b);
    var b0, b1, b2, b3 := b[0] as int, b[1] as int, b[2] as int, b[3] as int;
    assert n / 0x1_0000 == b0 * 0x100 + b1;
    assert n % 0x1_0000 == b2 * 0x100 + b3;
  }

  /** A payload arrives in reads of at most 16 KiB, each decoded before the next. */
  function FeedPayload(st: State, s: Stream, input: seq<Byte>, size: nat, sink: Sink): Progress
    decreases size
  {
    if size == 0 then Going(st)
    else
      var count := if size < CHUNK then size else CHUNK;
      if |input| < count then Stopped(st.sent)
      else
        match Feed(st, s, input[..count], sink)
        case Stopped(sent) => Stopped(sent)
        case Going(st') => FeedPayload(st', s, input[count..], size - count, sink)
  }

  predicate HeaderOk(input: seq<Byte>) {
    |input| >= 8 && input[0] <= 2 && input[1] == input[2] == input[3] == 0
  }

  function HeaderStream(input: seq<Byte>): Stream
    requires HeaderOk(input)
  {
    if input[0] == 2 then Stderr else Stdout
  }

  /** One frame: refused, or read with the bytes after it. */
  datatype Framed = Refused(sent: seq<Line>) | Parsed(state: State, rest: seq<Byte>)

  function ReadOne(st: State, input: seq<Byte>, sink: Sink): (r: Framed)
    requires input != []
    ensures r.Parsed? ==> |r.rest| < |input|
  {
    if !HeaderOk(input) then Refused(st.sent)
    else
      var size := BigEndian(input[4..8]);
      match FeedPayload(st, HeaderStream(input), input[8..], size, sink)
      case Stopped(sent) => Refused(sent)
      case Going(st') =>
        PayloadWasThere(st, HeaderStream(input), input[8..], size, sink);
        Parsed(st', input[8 + size..])
  }

  function DecodeFrom(st: State, input: seq<Byte>, sink: Sink): Outcome
    decreases |input|
  {
    if input == [] then SendAll(st.sent, Pendings(st), sink)
    else
      match ReadOne(st, input, sink)
      case Refused(sent) => Outcome(false, sent)
      case Parsed(st', rest) => DecodeFrom(st', rest, sink)
  }

  lemma DecodeUnfolds(st: State, input: seq<Byte>, sink: Sink)
    requires HeaderOk(input)
    ensures var size := BigEndian(input[4..8]);
      var r := FeedPayload(st, HeaderStream(input), input[8..], size, sink);
      if r.Stopped? then DecodeFrom(st, input, sink) == Outcome(false, r.sent)
      else 8 + size <= |input| && DecodeFrom(st, input, sink) == DecodeFrom(r.state, input[8 + size..], sink)
  {
    var size := BigEndian(input[4..8]);
    if FeedPayload(st, HeaderStream(input), input[8..], size, sink).Going? {
      PayloadWasThere(st, HeaderStream(input), input[8..], size, sink);
    }
  }

  predicate HeaderSays(input: seq<Byte>, s: Stream, size: nat) {
    HeaderOk(input) && s == HeaderStream(input) && size == BigEndian(input[4..8])
  }

  lemma FrameGoes(st: State, input: seq<Byte>, start: nat, s: Stream, size: nat, st': State, sink: Sink)
    requires start + 8 + size <= |input| && HeaderSays(input[start..], s, size)
    requires FeedPayload(st, s, input[start + 8..], size, sink) == Going(st')
    ensures ReadOne(st, input[start..], sink) == Parsed(st', input[start + 8 + size..])
  {
    assert input[start..][8..] == input[start + 8..] && input[start..][8 + size..] == input[start + 8 + size..];
  }

  lemma FrameStops(st: State, input: seq<Byte>, start: nat, s: Stream, size: nat, sent: seq<Line>, sink: Sink)
    requires start + 8 <= |input| && HeaderSays(input[start..], s, size)
    requires FeedPayload(st, s, input[start + 8..], size, sink) == Stopped(sent)
    ensures ReadOne(st, input[start..], sink) == Refused(sent)
  {
    assert input[start..][8..] == input[start + 8..];
  }

  function Decode(input: seq<Byte>, sink: Sink): Outcome {
    DecodeFrom(Empty, input, sink)
  }

  lemma {:induction false} PayloadWasThere(st: State, s: Stream, input: seq<Byte>, size: nat, sink: Sink)
    requires FeedPayload(st, s, input, size, sink).Going?
    ensures size <= |input|
    decreases size
  {
    if size > 0 {
      var count := if size < CHUNK then size else CHUNK;
      PayloadWasThere(Feed(st, s, input[..count], sink).state, s, input[count..], size - count, sink);
    }
  }

  /** The 16 KiB reads do not show in the result. */
  lemma {:induction false} ChunksDoNotMatter(st: State, s: Stream, input: seq<Byte>, size: nat, sink: Sink)
    requires size <= |input|
    ensures FeedPayload(st, s, input, size, sink) == Feed(st, s, input[..size], sink)
    decreases size
  {
    if size > 0 {
      var count := if size < CHUNK then size else CHUNK;
      FeedAppend(st, s, input[..count], input[count..size], sink);
      assert input[..size] == input[..count] + input[count..size];
      var first := Feed(st, s, input[..count], sink);
      if first.Going? {
        ChunksDoNotMatter(first.state, s, input[count..], size - count, sink);
        assert input[count..][..size - count] == input[count..size];
      }
    }
  }

  // ------------------------------------------------------- the decoder as written

  class Decoder {
    var stdout: Buffer
    var stderr: Buffer
    var sequence: nat
    var sent: seq<Line>
    const sink: Sink

    ghost function Abs(): State
      reads this
    {
      State(stdout, stderr, sequence, sent)
    }

    constructor (sink: Sink)
      ensures Abs() == Empty && this.sink == sink
    {
      stdout, stderr, sequence, sent := Buffer([], 0), Buffer([], 0), 0, [];
      this.sink := sink;
    }

    method Store(s: Stream, b: Buffer)
      modifies this
      ensures Abs() == old(Abs()).With(s, b)
    {
      if s == Stdout {
        stdout := b;
      } else {
        stderr := b;
      }
    }

    method Emit(s: Stream, chunk: seq<Byte>) returns (ok: bool)
      requires |Abs().Of(s).data| <= MAX_LINE
      modifies this
      ensures ok ==> Feed(old(Abs()), s, chunk, sink) == Going(Abs()) && |Abs().Of(s).data| <= MAX_LINE
      ensures !ok ==> Feed(old(Abs()), s, chunk, sink) == Stopped(sent)
    {
      var data := chunk;
      while data != []
        invariant |Abs().Of(s).data| <= MAX_LINE
        invariant Feed(Abs(), s, data, sink) == Feed(old(Abs()), s, chunk, sink)
        decreases |data|
      {
        var count := FirstNewline(data);
        var pending := if s == Stdout then stdout else stderr;
        FeedSegment(Abs(), s, data, count, sink);
        if |pending.data| + count > MAX_LINE {
          return false;
        }
        ghost var st := Abs();
        if pending.data == [] {
          sequence := sequence + 1;
          pending := pending.(sequence := sequence);
        }
        pending := pending.(data := pending.data + data[..count]);
        Store(s, pending);
        assert Abs() == Append(st, s, data[..count]);
        if count == |data| {
          assert data[..count] == data;
          return true;
        }
        var line := Line(s, TrimCR(pending.data));
        if !sink(sent, line) {
          return false;
        }
        sent := sent + [line];
        Store(s, pending.(data := []));
        data := data[count + 1..];
      }
      return true;
    }

    /** streamDockerLogLines on a container without a TTY. */
    method Run(input: seq<Byte>) returns (ok: bool)
      requires Abs() == Empty
      modifies this
      ensures Outcome(ok, sent) == Decode(input, sink)
    {
      var pos := 0;
      assert input[0..] == input;
      while pos < |input|
        invariant 0 <= pos <= |input|
        invariant |stdout.data| <= MAX_LINE && |stderr.data| <= MAX_LINE
        invariant DecodeFrom(Abs(), input[pos..], sink) == Decode(input, sink)
      {
        ok, pos := ReadFrame(input, pos);
        if !ok {
          return;
        }
      }
      assert input[pos..] == [];
      ok := Finish();
    }

    method ReadFrame(input: seq<Byte>, start: nat) returns (ok: bool, pos: nat)
      requires start < |input| && |stdout.data| <= MAX_LINE && |stderr.data| <= MAX_LINE
      modifies this
      ensures ok ==> start < pos <= |input| && |stdout.data| <= MAX_LINE && |stderr.data| <= MAX_LINE
      ensures ReadOne(old(Abs()), input[start..], sink) == if ok then Parsed(Abs(), input[pos..]) else Refused(sent)
    {
      pos := start;
      var s, size;
      ok, s, size := ReadHeader(input, start);
      if !ok {
        return;
      }
      ghost var st := Abs();
      ok, pos := ReadPayload(input, start + 8, s, size);
      if ok {
        FrameGoes(st, input, start, s, size, Abs(), sink);
      } else {
        FrameStops(st, input, start, s, size, sent, sink);
      }
    }

    method ReadHeader(input: seq<Byte>, start: nat) returns (ok: bool, s: Stream, size: nat)
      requires start < |input|
      ensures ok <==> HeaderOk(input[start..])
      ensures ok ==> HeaderSays(input[start..], s, size)
    {
      s, size := Stdout, 0;
      if |input| - start < 8 {
        return false, s, size;
      }
      var header := input[start..start + 8];
      if header[0] > 3 || header[1] != 0 || header[2] != 0 || header[3] != 0 {
        return false, s, size;
      }
      if header[0] == 3 {
        return false, s, size;
      }
      if header[0] == 2 {
        s := Stderr;
      }
      assert header[4..] == input[start..][4..8];
      return true, s, BigEndian(header[4..]);
    }

    method ReadPayload(input: seq<Byte>, start: nat, s: Stream, size: nat) returns (ok: bool, pos: nat)
      requires start <= |input| && |stdout.data| <= MAX_LINE && |stderr.data| <= MAX_LINE
      modifies this
      ensures ok ==> pos == start + size <= |input| && |stdout.data| <= MAX_LINE && |stderr.data| <= MAX_LINE
      ensures FeedPayload(old(Abs()), s, input[start..], size, sink) == if ok then Going(Abs()) else Stopped(sent)
    {
      var left: nat := size;
      pos := start;
      while left > 0
        invariant left <= size && pos == start + (size - left) <= |input|
        invariant |stdout.data| <= MAX_LINE && |stderr.data| <= MAX_LINE
        invariant FeedPayload(Abs(), s, input[pos..], left, sink) ==
                  FeedPayload(old(Abs()), s, input[start..], size, sink)
      {
        var count := if left < CHUNK then left else CHUNK;
        if |input| - pos < count {
          return false, pos;
        }
        assert input[pos..][..count] == input[pos..pos + count] && input[pos..][count..] == input[pos + count..];
        ghost var other := if s == Stdout then stderr else stdout;
        ghost var st := Abs();
        ok := Emit(s, input[pos..pos + count]);
        if !ok {
          return;
        }
        FeedKeepsOther(st, s, input[pos..pos + count], sink);
        pos := pos + count;
        left := left - count;
      }
      ok := true;
    }

    method Finish() returns (ok: bool)
      modifies this
      ensures Outcome(ok, sent) == SendAll(old(sent), Pendings(old(Abs())), sink)
    {
      var order := if stderr.sequence < stdout.sequence then [Stderr, Stdout] else [Stdout, Stderr];
      var i := 0;
      assert order[0..] == order;
      while i < 2
        invariant 0 <= i <= 2 && stdout == old(stdout) && stderr == old(stderr)
        invariant SendAll(sent, PendingOf(stdout, stderr, order[i..]), sink) ==
                  SendAll(old(sent), Pendings(old(Abs())), sink)
      {
        var data := if order[i] == Stdout then stdout.data else stderr.data;
        assert order[i..][1..] == order[i + 1..];
        if data != [] {
          var line := Line(order[i], TrimCR(data));
          assert PendingOf(stdout, stderr, order[i..])[1..] == PendingOf(stdout, stderr, order[i + 1..]);
          if !sink(sent, line) {
            return false;
          }
          sent := sent + [line];
        }
        i := i + 1;
      }
      return true;
    }
  }

  lemma {:induction false} FeedKeepsOther(st: State, s: Stream, data: seq<Byte>, sink: Sink)
    ensures var r := Feed(st, s, data, sink);
      r.Going? ==> if s.Stdout? then r.state.stderr == st.stderr else r.state.stdout == st.stdout
    decreases |data|
  {
    if data != [] && FeedByte(st, s, data[0], sink).Going? {
      FeedKeepsOther(FeedByte(st, s, data[0], sink).state, s, data[1..], sink);
    }
  }
}
