/** The control channel's framing: a twelve-byte header and a payload, and the reader that cuts
    messages off the front of whatever bytes have arrived. */
module ControlMessage {
  import opened Status
  import opened Bytes

  const HEADER_BYTES := 12
  const MAX_PAYLOAD := 0x1_0000
  const MAJOR := 1
  const MINOR := 1

  datatype Header = Header(major: nat, minor: nat, kind: nat, flags: nat, length: nat)

  datatype Message = Message(kind: nat, payload: seq<Byte>)

  predicate Fits(h: Header) {
    h.major < 0x1_0000 && h.minor < 0x1_0000 && h.kind < 0x1_0000 && h.flags < 0x1_0000 && h.length < 0x1_0000_0000
  }

  function HeaderBytes(h: Header): (bs: seq<Byte>)
    ensures |bs| == HEADER_BYTES
  {
    Le(h.major, 2) + Le(h.minor, 2) + Le(h.kind, 2) + Le(h.flags, 2) + Le(h.length, 4)
  }

  function HeaderAt(bs: seq<Byte>): Header
    requires |bs| >= HEADER_BYTES
  {
    Header(UnLe(bs[0..2]), UnLe(bs[2..4]), UnLe(bs[4..6]), UnLe(bs[6..8]), UnLe(bs[8..12]))
  }

  function HeaderStatus(h: Header): Status {
    if h.major != MAJOR then Unsupported else if h.length > MAX_PAYLOAD then InvalidArgument else Ok
  }

  method EncodeHeader(h: Header, out: array<Byte>)
    requires out.Length >= HEADER_BYTES
    modifies out
    ensures out[..] == HeaderBytes(h) + old(out[HEADER_BYTES..])
  {
    hide Le;
    ghost var s0 := out[..];
    Put(out, 0, h.major, 2);
    ghost var s1 := out[..];
    PutNext(s0, [], Le(h.major, 2), s1);
    Put(out, 2, h.minor, 2);
    ghost var s2 := out[..];
    PutNext(s1, Le(h.major, 2), Le(h.minor, 2), s2);
    Put(out, 4, h.kind, 2);
    ghost var s3 := out[..];
    PutNext(s2, Le(h.major, 2) + Le(h.minor, 2), Le(h.kind, 2), s3);
    Put(out, 6, h.flags, 2);
    ghost var s4 := out[..];
    PutNext(s3, Le(h.major, 2) + Le(h.minor, 2) + Le(h.kind, 2), Le(h.flags, 2), s4);
    Put(out, 8, h.length, 4);
    PutNext(s4, Le(h.major, 2) + Le(h.minor, 2) + Le(h.kind, 2) + Le(h.flags, 2), Le(h.length, 4), out[..]);
    assert out[..] == out[..][..HEADER_BYTES] + out[..][HEADER_BYTES..];
  }

  /** A field written after what was written so far leaves that, and what is past the header, as it was. */
  lemma PutNext(s: seq<Byte>, done: seq<Byte>, x: seq<Byte>, s': seq<Byte>)
    requires |done| + |x| <= HEADER_BYTES <= |s| && s[..|done|] == done
    requires s' == s[..|done|] + x + s[|done| + |x|..]
    ensures |s'| == |s| && s'[..|done| + |x|] == done + x && s'[HEADER_BYTES..] == s[HEADER_BYTES..]
  {
  }

  method DecodeHeader(bs: seq<Byte>) returns (status: Status, h: Header)
    requires |bs| >= HEADER_BYTES
    ensures h == HeaderAt(bs) && status == HeaderStatus(h)
  {
    var major := Get(bs, 0, 2);
    var minor := Get(bs, 2, 2);
    var kind := Get(bs, 4, 2);
    var flags := Get(bs, 6, 2);
    var length := Get(bs, 8, 4);
    h := Header(major, minor, kind, flags, length);
    if major != MAJOR { return Unsupported, h; }
    if length > MAX_PAYLOAD { return InvalidArgument, h; }
    status := Ok;
  }

  lemma Powers()
    ensures Pow256(2) == 0x1_0000 && Pow256(4) == 0x1_0000_0000
  {
    assert Pow256(1) == 256 && Pow256(3) == 0x100_0000;
  }

  /** A header comes back from whatever buffer it starts exactly when its fields fit. */
  lemma HeaderRoundTrip(h: Header, rest: seq<Byte>)
    ensures HeaderAt(HeaderBytes(h) + rest) == h <==> Fits(h)
  {
    Powers();
    var bs := HeaderBytes(h) + rest;
    assert bs[0..2] == Le(h.major, 2);
    assert bs[2..4] == Le(h.minor, 2);
    assert bs[4..6] == Le(h.kind, 2);
    assert bs[6..8] == Le(h.flags, 2);
    assert bs[8..12] == Le(h.length, 4);
    UnLeOfLe(h.major, 2);
    UnLeOfLe(h.minor, 2);
    UnLeOfLe(h.kind, 2);
    UnLeOfLe(h.flags, 2);
    UnLeOfLe(h.length, 4);
  }

  /** What send_control lets through. */
  predicate Sendable(m: Message) {
    m.kind < 0x1_0000 && |m.payload| <= MAX_PAYLOAD
  }

  function HeaderOf(m: Message): Header {
    Header(MAJOR, MINOR, m.kind, 0, |m.payload|)
  }

  function Frame(m: Message): (bs: seq<Byte>)
    ensures |bs| == HEADER_BYTES + |m.payload|
  {
    HeaderBytes(HeaderOf(m)) + m.payload
  }

  function Frames(ms: seq<Message>): seq<Byte> {
    if ms == [] then [] else Frame(ms[0]) + Frames(ms[1..])
  }

  /** The messages cut off the front of rx, at most max of them, and what is left. A header that
      cannot be right loses everything after it. */
  function Parse(rx: seq<Byte>, max: nat): (seq<Message>, seq<Byte>)
    decreases max
  {
    if max == 0 || |rx| < HEADER_BYTES then ([], rx)
    else
      var h := HeaderAt(rx);
      var total := HEADER_BYTES + h.length;
      if HeaderStatus(h) != Ok then ([], [])
      else if |rx| < total then ([], rx)
      else
        var (ms, rest) := Parse(rx[total..], max - 1);
        ([Message(h.kind, rx[HEADER_BYTES..total])] + ms, rest)
  }

  /** The header of a stream that starts like a frame is that frame's, and accepted. */
  lemma StartsLikeAFrame(rx: seq<Byte>, m: Message, rest: seq<Byte>)
    requires Sendable(m) && |rx| >= HEADER_BYTES && rx <= Frame(m) + rest
    ensures HeaderAt(rx) == HeaderOf(m) && HeaderStatus(HeaderAt(rx)) == Ok
  {
    HeaderRoundTrip(HeaderOf(m), rx[HEADER_BYTES..]);
    assert rx[..HEADER_BYTES] == HeaderBytes(HeaderOf(m)) by {
      assert (Frame(m) + rest)[..HEADER_BYTES] == HeaderBytes(HeaderOf(m));
    }
    assert rx == HeaderBytes(HeaderOf(m)) + rx[HEADER_BYTES..];
  }

  /** What send_control lets through is exactly what a reader accepts the header of. */
  lemma SendableIff(m: Message)
    requires m.kind < 0x1_0000 && |m.payload| < 0x1_0000_0000
    ensures |Frame(m)| >= HEADER_BYTES
    ensures Sendable(m) <==> HeaderStatus(HeaderAt(Frame(m))) == Ok
    ensures Sendable(m) <==> |m.payload| <= 0x1_0000
  {
    HeaderRoundTrip(HeaderOf(m), m.payload);
  }

  lemma WholeFrame(rx: seq<Byte>, m: Message, rest: seq<Byte>)
    requires |rx| >= |Frame(m)| && rx <= Frame(m) + rest
    ensures rx[HEADER_BYTES..|Frame(m)|] == m.payload
    ensures rx == Frame(m) + rx[|Frame(m)|..] && rx[|Frame(m)|..] <= rest
  {
    assert rx[..|Frame(m)|] == (Frame(m) + rest)[..|Frame(m)|] == Frame(m);
    assert rx[HEADER_BYTES..|Frame(m)|] == rx[..|Frame(m)|][HEADER_BYTES..] == m.payload;
    assert rest == (Frame(m) + rest)[|Frame(m)|..];
  }

  /** What may follow the whole messages on the wire: the start of one more, never all of it. */
  ghost predicate CutShort(stray: seq<Byte>) {
    stray == [] || exists m :: Sendable(m) && stray < Frame(m)
  }

  /** ms are the first of todo, in order and whole, with no byte of rx lost; and all of them if
      they were all there and the reader had room. */
  ghost predicate ParsedFrom(rx: seq<Byte>, max: nat, todo: seq<Message>, stray: seq<Byte>, ms: seq<Message>,
                             rest: seq<Byte>) {
    && ms <= todo && |ms| <= max
    && Frames(ms) + rest == rx
    && rest <= Frames(todo[|ms|..]) + stray
    && (|ms| < max && rx == Frames(todo) + stray ==> ms == todo)
  }

  lemma ParsedOne(rx: seq<Byte>, max: nat, todo: seq<Message>, stray: seq<Byte>, ms: seq<Message>, rest: seq<Byte>)
    requires todo != [] && max > 0 && |Frame(todo[0])| <= |rx| && rx == Frame(todo[0]) + rx[|Frame(todo[0])|..]
    requires ParsedFrom(rx[|Frame(todo[0])|..], max - 1, todo[1..], stray, ms, rest)
    ensures ParsedFrom(rx, max, todo, stray, [todo[0]] + ms, rest)
  {
    hide Frame;
    var f, ms' := Frame(todo[0]), [todo[0]] + ms;
    assert ms'[1..] == ms && todo == [todo[0]] + todo[1..];
    assert Frames(ms') + rest == f + (Frames(ms) + rest);
    assert todo[|ms'|..] == todo[1..][|ms|..];
    if rx == Frames(todo) + stray {
      assert Frames(todo) + stray == f + (Frames(todo[1..]) + stray);
      assert rx[|f|..] == Frames(todo[1..]) + stray;
    }
  }

  /** Bytes that are a prefix of whole messages and perhaps the start of one more parse into the
      first of those messages. */
  lemma {:induction false} ParsePrefix(rx: seq<Byte>, max: nat, todo: seq<Message>, stray: seq<Byte>)
    requires (forall i :: 0 <= i < |todo| ==> Sendable(todo[i])) && CutShort(stray)
    requires rx <= Frames(todo) + stray
    ensures ParsedFrom(rx, max, todo, stray, Parse(rx, max).0, Parse(rx, max).1)
    decreases max
  {
    hide Frame, HeaderAt, HeaderStatus, Sendable, ParsedFrom;
    if todo == [] {
      if max > 0 && |rx| >= HEADER_BYTES {
        assert Frames(todo) + stray == stray;
        var m :| Sendable(m) && stray < Frame(m);
        assert Frame(m) + [] == Frame(m);
        StartsLikeAFrame(rx, m, []);
      }
      NothingParsed(rx, max, todo, stray);
    } else {
      var m, after := todo[0], Frames(todo[1..]) + stray;
      assert Frames(todo) + stray == Frame(m) + after;
      if max > 0 && |rx| >= HEADER_BYTES {
        StartsLikeAFrame(rx, m, after);
      }
      if max > 0 && |rx| >= |Frame(m)| {
        WholeFrame(rx, m, after);
        ParsePrefix(rx[|Frame(m)|..], max - 1, todo[1..], stray);
        var (ms, rest) := Parse(rx[|Frame(m)|..], max - 1);
        ParsedOne(rx, max, todo, stray, ms, rest);
      } else {
        NothingParsed(rx, max, todo, stray);
      }
    }
  }

  lemma NothingParsed(rx: seq<Byte>, max: nat, todo: seq<Message>, stray: seq<Byte>)
    requires rx <= Frames(todo) + stray
    requires max > 0 && rx == Frames(todo) + stray ==> todo == []
    ensures ParsedFrom(rx, max, todo, stray, [], rx)
  {
    hide Frame;
    assert todo[0..] == todo && Frames([]) + rx == rx;
  }

  lemma {:induction false} FramesConcat(a: seq<Message>, b: seq<Message>)
    ensures Frames(a + b) == Frames(a) + Frames(b)
    decreases |a|
  {
    hide Frame;
    if a == [] {
      assert a + b == b;
    } else {
      FramesConcat(a[1..], b);
      assert (a + b)[1..] == a[1..] + b;
      assert Frame(a[0]) + (Frames(a[1..]) + Frames(b)) == (Frame(a[0]) + Frames(a[1..])) + Frames(b);
    }
  }
}
