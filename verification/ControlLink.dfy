/** A control channel end to end: the outbox of one side, whatever bytes the network has passed
    on, and the reader of the other. */
module ControlLink {
  import opened Status
  import opened Bytes
  import opened ControlMessage
  import opened ControlOutbox

  const READ_BYTES := 4096

  /** What one recv() call answers. */
  datatype Recv = Got(bytes: Buffer) | EndOfFile | AgainNow | NothingYet | Failed

  /** What the receive loop takes in: it stops at a short read. */
  function Arrived(recvs: seq<Recv>): Buffer {
    if recvs == [] then []
    else match recvs[0]
      case Got(bs) => if |bs| < READ_BYTES then bs else bs + Arrived(recvs[1..])
      case AgainNow => Arrived(recvs[1..])
      case _ => []
  }

  /** Whether the loop reached the end of the connection. */
  predicate Closes(recvs: seq<Recv>) {
    recvs != [] &&
    match recvs[0]
    case Got(bs) => |bs| >= READ_BYTES && Closes(recvs[1..])
    case AgainNow => Closes(recvs[1..])
    case NothingYet => false
    case _ => true
  }

  function BytesOf(recvs: seq<Recv>): Buffer {
    if recvs == [] then [] else (if recvs[0].Got? then recvs[0].bytes else []) + BytesOf(recvs[1..])
  }

  /** The loop goes on after a full read and after an interrupted one. Up to and with the first answer
      of another kind, it takes in every byte; it finds the connection over exactly if that answer
      says so. */
  lemma {:induction false} ReadsUntil(recvs: seq<Recv>) returns (k: nat)
    ensures k <= |recvs|
    ensures forall i :: 0 <= i < k ==> recvs[i].AgainNow? || (recvs[i].Got? && |recvs[i].bytes| >= 4096)
    ensures k < |recvs| ==> !(recvs[k].AgainNow? || (recvs[k].Got? && |recvs[k].bytes| >= 4096))
    ensures Arrived(recvs) == BytesOf(recvs[..if k < |recvs| then k + 1 else k])
    ensures Closes(recvs) <==> k < |recvs| && (recvs[k].EndOfFile? || recvs[k].Failed?)
  {
    if recvs == [] {
      k := 0;
    } else if recvs[0].AgainNow? || (recvs[0].Got? && |recvs[0].bytes| >= READ_BYTES) {
      k := ReadsUntil(recvs[1..]);
      var n := if k < |recvs[1..]| then k + 1 else k;
      assert recvs[..n + 1][1..] == recvs[1..][..n];
      assert [] + BytesOf(recvs[1..][..n]) == BytesOf(recvs[1..][..n]);
      k := k + 1;
    } else {
      k := 0;
      assert recvs[..1][1..] == [] && BytesOf([]) == [];
      assert recvs[0].Got? ==> recvs[0].bytes + [] == recvs[0].bytes;
    }
  }

  class Reader {
    var rx: Buffer
    var peerClosed: bool

    constructor ()
      ensures rx == [] && !peerClosed
    {
      rx, peerClosed := [], false;
    }

    method Receive(recvs: seq<Recv>)
      modifies this
      ensures rx == old(rx) + Arrived(recvs)
      ensures peerClosed == (old(peerClosed) || Closes(recvs))
    {
      var i := 0;
      assert recvs[0..] == recvs;
      while i < |recvs|
        invariant i <= |recvs| && rx + Arrived(recvs[i..]) == old(rx) + Arrived(recvs)
        invariant (peerClosed || Closes(recvs[i..])) == (old(peerClosed) || Closes(recvs))
      {
        assert recvs[i..][1..] == recvs[i + 1..];
        match recvs[i] {
          case Got(bs) =>
            rx := rx + bs;
            if |bs| < READ_BYTES { return; }
          case EndOfFile =>
            peerClosed := true;
            return;
          case AgainNow =>
          case NothingYet => return;
          case Failed =>
            peerClosed := true;
            return;
        }
        i := i + 1;
      }
    }

    /** Cuts whole messages off the front while there is room for them. */
    method TakeMessages(room: nat) returns (out: seq<Message>)
      modifies `rx
      ensures (out, rx) == Parse(old(rx), room)
    {
      out := [];
      assert out + Parse(rx, room).0 == Parse(rx, room).0;
      while |rx| >= HEADER_BYTES && |out| < room
        invariant |out| <= room
        invariant var (ms, rest) := Parse(rx, room - |out|); (out + ms, rest) == Parse(old(rx), room)
        decreases room - |out|
      {
        var status, h := DecodeHeader(rx);
        if status != Ok {
          rx := [];
          assert out + [] == out;
          return;
        }
        var total := HEADER_BYTES + h.length;
        if |rx| < total { break; }
        ghost var (ms, rest) := Parse(rx[total..], room - |out| - 1);
        var m := Message(h.kind, rx[HEADER_BYTES..total]);
        assert out + ([m] + ms) == (out + [m]) + ms;
        out := out + [m];
        rx := rx[total..];
      }
      assert out + [] == out;
    }
  }

  /** The frames of a run of messages, as the outbox keeps them. */
  ghost function Framed(ms: seq<Message>): (fs: seq<Buffer>)
    ensures |fs| == |ms| && forall i :: 0 <= i < |ms| ==> fs[i] == Frame(ms[i])
  {
    seq(|ms|, i requires 0 <= i < |ms| => Frame(ms[i]))
  }

  lemma {:induction false} FlatFramed(ms: seq<Message>)
    ensures Flat(Framed(ms)) == Frames(ms)
    decreases |ms|
  {
    hide Frame;
    if ms != [] {
      FlatFramed(ms[1..]);
      assert Framed(ms)[1..] == Framed(ms[1..]);
    }
  }

  /** Once the reader's bytes are a prefix of the stream, what it cuts off them carries on from
      what it had delivered. */
  lemma ReaderFollows(posted: seq<Message>, stray: Buffer, delivered: seq<Message>, rx: Buffer, room: nat)
    requires (forall i :: 0 <= i < |posted| ==> Sendable(posted[i])) && CutShort(stray)
    requires delivered <= posted && Frames(delivered) + rx <= Frames(posted) + stray
    ensures var (out, rest) := Parse(rx, room);
            && delivered + out <= posted && Frames(delivered + out) + rest == Frames(delivered) + rx
            && (|out| < room && Frames(delivered) + rx == Frames(posted) + stray ==> delivered + out == posted)
  {
    hide Parse, Frame, Frames, CutShort, Sendable, ParsedFrom;
    var todo := posted[|delivered|..];
    assert posted == delivered + todo;
    FramesConcat(delivered, todo);
    AfterCommon(Frames(delivered), rx, Frames(todo), stray);
    ParsePrefix(rx, room, todo, stray);
    CarriesOn(delivered, todo, stray, rx, room, Parse(rx, room).0, Parse(rx, room).1);
  }

  lemma CarriesOn(delivered: seq<Message>, todo: seq<Message>, stray: Buffer, rx: Buffer, room: nat,
                  out: seq<Message>, rest: Buffer)
    requires ParsedFrom(rx, room, todo, stray, out, rest)
    ensures delivered + out <= delivered + todo && Frames(delivered + out) + rest == Frames(delivered) + rx
    ensures |out| < room && rx == Frames(todo) + stray ==> out == todo
  {
    hide Frames, ParsedFrom;
    FramesConcat(delivered, out);
    Together(Frames(delivered), Frames(out), rest);
    ParsedFacts(delivered, out, todo, rx, room, stray, rest);
  }

  lemma Together(a: Buffer, b: Buffer, c: Buffer)
    ensures a + (b + c) == (a + b) + c
  {
  }

  lemma ParsedFacts(a: seq<Message>, out: seq<Message>, todo: seq<Message>, rx: Buffer, room: nat, stray: Buffer,
                    rest: Buffer)
    requires ParsedFrom(rx, room, todo, stray, out, rest)
    ensures a + out <= a + todo && Frames(out) + rest == rx
    ensures |out| < room && rx == Frames(todo) + stray ==> out == todo
  {
    hide Frames;
  }

  lemma AfterCommon(a: Buffer, x: Buffer, y: Buffer, z: Buffer)
    requires a + x <= (a + y) + z
    ensures x <= y + z && (a + x == (a + y) + z ==> x == y + z)
  {
    assert (a + y) + z == a + (y + z);
    assert x == (a + x)[|a|..] && y + z == (a + (y + z))[|a|..];
  }

  class Link {
    const outbox: Outbox
    const reader: Reader
    ghost var posted: seq<Message>     // what send_control took
    ghost var received: Buffer         // what the reader was given
    ghost var delivered: seq<Message>  // what the reader handed out

    constructor (fd: int, limit: nat)
      ensures Valid() && fresh(outbox) && fresh(reader) && posted == [] && delivered == []
    {
      outbox := new Outbox();
      reader := new Reader();
      posted, received, delivered := [], [], [];
      new;
      outbox.Reset(fd, limit);
      FlatFramed([]);
    }

    /** Whatever was taken is on its way in order and whole; what was handed out is the first part
        of it; and the reader holds the bytes in between. */
    ghost predicate Valid()
      reads this, outbox, reader
    {
      && outbox.Valid() && outbox.accepted == Framed(posted)
      && (forall i :: 0 <= i < |posted| ==> Sendable(posted[i])) && CutShort(outbox.stray)
      && received <= outbox.wire
      && delivered <= posted
      && Frames(delivered) + reader.rx == received
    }

    method SendControl(kind: nat, payload: seq<Byte>, io: seq<Sent>) returns (status: Status)
      requires Valid() && kind < 0x1_0000
      modifies this, outbox
      ensures Valid() && delivered == old(delivered) && received == old(received)
      ensures posted == if status == Ok then old(posted) + [Message(kind, payload)] else old(posted)
      ensures |payload| > MAX_PAYLOAD ==> status == InvalidArgument
    {
      hide Frame, Frames, Flat, Rest, Stream;
      if |payload| > MAX_PAYLOAD { return InvalidArgument; }
      if outbox.fd < 0 { return PeerDisconnected; }
      var m := Message(kind, payload);
      var frame := BuildFrame(m);
      status := outbox.Post(frame, io);
      if status == Ok {
        posted := posted + [m];
        assert Framed(posted) == Framed(old(posted)) + [frame];
      }
    }

    /** One round of the reader: recvs is what its recv() calls answer, the next bytes of the
        wire. If nothing is owed any more and all of it has arrived, everything is delivered. */
    method PollControl(recvs: seq<Recv>, room: nat) returns (out: seq<Message>)
      requires Valid() && received + Arrived(recvs) <= outbox.wire
      modifies this, reader
      ensures Valid() && posted == old(posted)
      ensures received == old(received) + Arrived(recvs)
      ensures delivered == old(delivered) + out && |out| <= room
      ensures received == outbox.wire && outbox.q == [] && |out| < room ==> delivered == posted
    {
      hide Frame, Frames, Flat, Rest, Parse, CutShort, Arrived;
      reader.Receive(recvs);
      received := received + Arrived(recvs);
      FlatFramed(posted);
      NothingLeft();
      ghost var bytes := reader.rx;
      assert Frames(delivered) + bytes == received;
      WireIsPrefix();
      ReaderFollows(posted, outbox.stray, delivered, bytes, room);
      ParseRoom(bytes, room);
      out := reader.TakeMessages(room);
      delivered := delivered + out;
    }

    lemma WireIsPrefix()
      requires outbox.Valid()
      ensures outbox.wire <= Flat(outbox.accepted) + outbox.stray
      ensures outbox.q == [] ==> outbox.wire == Flat(outbox.accepted) + outbox.stray
    {
      hide Flat;
      NothingLeft();
    }
  }

  lemma {:induction false} ParseRoom(rx: Buffer, room: nat)
    ensures |Parse(rx, room).0| <= room
    decreases room
  {
    if room > 0 && |rx| >= HEADER_BYTES && HEADER_BYTES + HeaderAt(rx).length <= |rx| {
      ParseRoom(rx[HEADER_BYTES + HeaderAt(rx).length..], room - 1);
    }
  }

  /** Header and payload in one buffer. */
  method BuildFrame(m: Message) returns (frame: Buffer)
    ensures frame == Frame(m)
  {
    hide HeaderBytes;
    var buf := new Byte[HEADER_BYTES + |m.payload|](_ => 0);
    EncodeHeader(HeaderOf(m), buf);
    ghost var head := buf[..HEADER_BYTES];
    assert head == HeaderBytes(HeaderOf(m));
    forall i | 0 <= i < |m.payload| {
      buf[HEADER_BYTES + i] := m.payload[i];
    }
    assert buf[..HEADER_BYTES] == head;
    assert buf[HEADER_BYTES..] == m.payload;
    frame := buf[..];
    assert frame == buf[..HEADER_BYTES] + buf[HEADER_BYTES..];
  }
}
