/** What sends on a control channel: it never waits on the socket, keeps what the socket
    would not take, and bounds what it keeps. */
module ControlOutbox {
  import opened Status
  import opened Bytes

  /** What one send() call answers. */
  datatype Sent = Took(n: nat) | Interrupted | Full | Ended

  type Buffer = seq<Byte>

  function Flat(q: seq<Buffer>): Buffer {
    if q == [] then [] else q[0] + Flat(q[1..])
  }

  lemma {:induction false} FlatAppend(q: seq<Buffer>, m: Buffer)
    ensures Flat(q + [m]) == Flat(q) + m
    decreases |q|
  {
    if q == [] {
      assert q + [m] == [m] && Flat([m]) == m + Flat([]);
    } else {
      FlatAppend(q[1..], m);
      assert (q + [m])[1..] == q[1..] + [m];
      assert q[0] + (Flat(q[1..]) + m) == (q[0] + Flat(q[1..])) + m;
    }
  }

  /** The queue less the first off bytes. */
  function Rest(q: seq<Buffer>, off: nat): Buffer {
    if off <= |Flat(q)| then Flat(q)[off..] else []
  }

  lemma RestStep(q: seq<Buffer>, off: nat, n: nat)
    requires q != [] && off + n <= |q[0]|
    ensures Rest(q, off) == q[0][off..off + n] + Rest(q, off + n)
    ensures off + n == |q[0]| ==> Rest(q, off + n) == Rest(q[1..], 0)
  {
  }

  lemma RestAppend(q: seq<Buffer>, off: nat, msg: Buffer)
    requires if q == [] then off <= |msg| else off <= |q[0]|
    ensures Rest(q + [msg], off) == if q == [] then msg[off..] else Rest(q, off) + msg
  {
    FlatAppend(q, msg);
  }

  lemma NothingLeft()
    ensures Flat([]) == [] && Rest([], 0) == [] && Stream([], [], [], [])
  {
  }

  /** What the wire has and what is owed make up exactly the messages taken, and only a broken
      channel ends inside one that was not. */
  ghost predicate Stream(wire: Buffer, owed: Buffer, accepted: seq<Buffer>, stray: Buffer) {
    wire + owed == Flat(accepted) + stray
  }

  lemma StreamWrote(wire: Buffer, sent: Buffer, owed: Buffer, accepted: seq<Buffer>, stray: Buffer)
    requires Stream(wire, sent + owed, accepted, stray)
    ensures Stream(wire + sent, owed, accepted, stray)
  {
    assert wire + (sent + owed) == (wire + sent) + owed;
  }

  lemma StreamTook(wire: Buffer, owed: Buffer, accepted: seq<Buffer>, msg: Buffer)
    requires Stream(wire, owed, accepted, [])
    ensures Stream(wire, owed + msg, accepted + [msg], [])
  {
    FlatAppend(accepted, msg);
    assert wire + (owed + msg) == (wire + owed) + msg;
  }

  lemma StreamBroke(wire: Buffer, accepted: seq<Buffer>, msg: Buffer, off: nat)
    requires off <= |msg| && Stream(wire, msg[off..], accepted + [msg], [])
    ensures Stream(wire, [], accepted, msg[..off])
  {
    FlatAppend(accepted, msg);
    assert msg == msg[..off] + msg[off..];
    assert Flat(accepted) + msg == (Flat(accepted) + msg[..off]) + msg[off..];
    assert wire == (wire + msg[off..])[..|wire|];
    assert Flat(accepted) + msg[..off] == ((Flat(accepted) + msg[..off]) + msg[off..])[..|wire|];
  }

  class Outbox {
    var fd: int
    var limit: nat
    var q: seq<Buffer>
    var frontOff: nat
    var bytes: nat
    var broken: bool
    ghost var wire: Buffer             // what the socket took
    ghost var accepted: seq<Buffer>    // what post() took
    ghost var stray: Buffer            // the start of a message that broke off inside post()

    /** The wire carries the accepted messages in order; the backlog keeps its bound unless it is
        one message. */
    ghost predicate Valid()
      reads this
    {
      && (if q == [] then frontOff == 0 else frontOff < |q[0]|)
      && (forall i :: 0 <= i < |q| ==> q[i] != [])
      && bytes == |Rest(q, frontOff)|
      && |q| <= |accepted| && q == accepted[|accepted| - |q|..]
      && Stream(wire, Rest(q, frontOff), accepted, stray)
      && (stray != [] ==> broken && q == [])
      && (bytes <= limit || |q| == 1)
    }

    constructor ()
      ensures Valid() && fd == -1 && wire == [] && accepted == [] && stray == []
    {
      fd, limit := -1, 0x10_0000;
      q, frontOff, bytes, broken := [], 0, 0, false;
      wire, accepted, stray := [], [], [];
      new;
      NothingLeft();
      hide Flat, Rest, Stream;
    }

    /** A new socket starts a new stream. */
    method Reset(fd: int, limit: nat)
      modifies this
      ensures Valid() && this.fd == fd && this.limit == limit && !broken
      ensures wire == [] && accepted == [] && stray == []
    {
      hide Flat, Rest, Stream;
      NothingLeft();
      this.fd, this.limit := fd, limit;
      q, frontOff, bytes, broken := [], 0, 0, false;
      wire, accepted, stray := [], [], [];
    }

    /** send() of what is left of the front took n bytes. */
    method FrontTook(n: nat)
      requires Valid() && q != [] && 0 < n <= |q[0]| - frontOff
      modifies `q, `frontOff, `bytes, `wire
      ensures Valid() && old(wire) < wire && bytes == old(bytes) - n
      ensures |q| <= old(|q|)
    {
      hide Flat, Rest, Stream;
      RestStep(q, frontOff, n);
      NothingLeft();
      ghost var sent := q[0][frontOff..frontOff + n];
      StreamWrote(wire, sent, Rest(q, frontOff + n), accepted, stray);
      wire := wire + sent;
      frontOff := frontOff + n;
      bytes := bytes - n;
      if frontOff == |q[0]| {
        q := q[1..];
        frontOff := 0;
      }
    }

    /** Writes what the socket will take; io is what its send() calls answer, and once they are
        used up it is full. */
    method FlushLocked(io: seq<Sent>) returns (status: Status, used: nat)
      requires Valid()
      modifies `q, `frontOff, `bytes, `wire, `broken
      ensures Valid() && old(wire) <= wire && |q| <= old(|q|) && bytes <= old(bytes) && used <= |io|
      ensures status == PeerDisconnected <==> broken || fd < 0
      ensures status == Ok ==> q == []
      ensures status == WouldBlock ==> q != []
      ensures status == Ok || status == WouldBlock || status == PeerDisconnected
      ensures status == WouldBlock ==> used == |io| || (used > 0 && io[used - 1] == Full)
      ensures broken && !old(broken) ==> used > 0 && (io[used - 1] == Ended || io[used - 1] == Took(0))
      ensures old(broken) ==> broken && wire == old(wire)
    {
      hide Flat, Rest, Stream;
      used := 0;
      if broken { return PeerDisconnected, 0; }
      if fd < 0 { return PeerDisconnected, 0; }
      while q != []
        invariant Valid() && !broken && old(wire) <= wire && |q| <= old(|q|) && bytes <= old(bytes) && used <= |io|
        decreases |io| - used
      {
        var left := |q[0]| - frontOff;
        if used == |io| { return WouldBlock, used; }
        var answer := io[used];
        used := used + 1;
        match answer
        case Took(n) =>
          if n > 0 {
            FrontTook(if n < left then n else left);
          } else {
            broken := true;
            return PeerDisconnected, used;
          }
        case Interrupted =>
        case Full => return WouldBlock, used;
        case Ended =>
          broken := true;
          return PeerDisconnected, used;
      }
      status := Ok;
    }

    method Flush(io: seq<Sent>) returns (status: Status)
      requires Valid()
      modifies `q, `frontOff, `bytes, `wire, `broken
      ensures Valid() && old(wire) <= wire && (old(broken) ==> broken && wire == old(wire))
      ensures status == PeerDisconnected <==> broken || fd < 0
      ensures status == Ok ==> q == []
    {
      var used;
      status, used := FlushLocked(io);
    }

    /** Takes a message if it can: kOk means it is owed to the peer in full, anything else that it
        was not taken. A message that breaks off part-way is left as the stray end of the wire. */
    method Post(msg: Buffer, io: seq<Sent>) returns (status: Status)
      requires Valid()
      modifies `q, `frontOff, `bytes, `wire, `broken, `accepted, `stray
      ensures Valid() && old(wire) <= wire
      ensures status == InvalidArgument <==> msg == []
      ensures status == Ok || status == WouldBlock || status == PeerDisconnected || status == InvalidArgument
      ensures accepted == if status == Ok then old(accepted) + [msg] else old(accepted)
      ensures stray == old(stray) || (status == PeerDisconnected && broken && stray < msg)
      ensures old(broken) ==> wire == old(wire) && stray == old(stray) && broken && status != Ok
      ensures status == WouldBlock ==> q != [] && bytes + |msg| > limit
    {
      hide Flat, Rest, Stream;
      if msg == [] { return InvalidArgument; }
      if broken || fd < 0 { return PeerDisconnected; }
      var flushed, used := FlushLocked(io);
      if flushed == PeerDisconnected { return PeerDisconnected; }
      if q == [] {
        status := PostDirect(msg, io[used..]);
        return;
      }
      if bytes + |msg| > limit { return WouldBlock; }
      RestAppend(q, frontOff, msg);
      StreamTook(wire, Rest(q, frontOff), accepted, msg);
      bytes := bytes + |msg|;
      q := q + [msg];
      accepted := accepted + [msg];
      status := Ok;
    }

    /** With nothing queued the message goes straight to the socket, and its rest into the queue,
        whatever the bound says. */
    method PostDirect(msg: Buffer, io: seq<Sent>) returns (status: Status)
      requires Valid() && !broken && q == [] && msg != []
      modifies `q, `frontOff, `bytes, `wire, `broken, `accepted, `stray
      ensures Valid() && old(wire) <= wire
      ensures status == Ok || status == PeerDisconnected
      ensures accepted == if status == Ok then old(accepted) + [msg] else old(accepted)
      ensures if status == Ok then !broken && stray == [] else broken && stray < msg
    {
      hide Flat, Rest, Stream;
      NothingLeft();
      assert [] + msg == msg && msg[0..] == msg;
      StreamTook(wire, [], accepted, msg);
      var off, i := 0, 0;
      while off < |msg|
        invariant 0 <= off <= |msg| && i <= |io| && !broken && q == [] && frontOff == 0 && bytes == 0 && stray == []
        invariant accepted == old(accepted) && old(wire) <= wire
        invariant Stream(wire, msg[off..], accepted + [msg], [])
        decreases |io| - i
      {
        if i == |io| { break; }
        var answer := io[i];
        i := i + 1;
        match answer
        case Took(n) =>
          if n > 0 {
            var k := if n < |msg| - off then n else |msg| - off;
            assert msg[off..] == msg[off..off + k] + msg[off + k..];
            StreamWrote(wire, msg[off..off + k], msg[off + k..], accepted + [msg], []);
            wire := wire + msg[off..off + k];
            off := off + k;
          } else {
            StreamBroke(wire, accepted, msg, off);
            broken, stray := true, msg[..off];
            return PeerDisconnected;
          }
        case Interrupted =>
        case Full => break;
        case Ended =>
          StreamBroke(wire, accepted, msg, off);
          broken, stray := true, msg[..off];
          return PeerDisconnected;
      }
      accepted := accepted + [msg];
      if off == |msg| {
        assert msg[off..] == [];
        return Ok;
      }
      RestAppend(q, off, msg);
      assert q + [msg] == [msg] == accepted[|accepted| - 1..];
      bytes := bytes + (|msg| - off);
      q := q + [msg];
      frontOff := off;
      status := Ok;
    }
  }
}
