/** Engine metadata: who the engine is and how to dial each of its transports. Bytes without the
    magic are taken as one transport's own dialling information instead. */
module Metadata {
  import opened Status
  import opened Bytes
  import opened Codec

  const MAGIC_LOW := 0x4821
  const MAGIC_HIGH := 0x5855
  const MAJOR := 1
  const MINOR := 0
  const FIXED := 32
  const WIDTHS: seq<nat> := [8, 8, 8, 2, 2, 2, 2]

  /** offers are transports by name, each with its dialling information. */
  datatype Envelope = Envelope(from: Identity, offers: seq<Item>)

  datatype Parse = ProviderBlob | Refused(status: Status) | Got(e: Envelope)

  function Fields(id: Identity): (vs: seq<nat>)
    ensures |vs| == |WIDTHS|
  {
    [id.host, id.process, id.engine, MAGIC_LOW, MAGIC_HIGH, MAJOR, MINOR]
  }

  predicate Typed(id: Identity) {
    id.host < Pow256(8) && id.process < Pow256(8) && id.engine < Pow256(8)
  }

  function Encode(e: Envelope): Blob {
    Pack(Fields(e.from), WIDTHS) + TailBytes(e.offers, true)
  }

  lemma FixedWidth()
    ensures Width(WIDTHS) == FIXED
  {
    var w := WIDTHS;
    assert w[1..] == [8, 8, 2, 2, 2, 2] && w[1..][1..] == [8, 2, 2, 2, 2] && w[1..][1..][1..] == [2, 2, 2, 2];
    var v := w[1..][1..][1..];
    assert Width(v) == 8 by {
      assert v[1..] == [2, 2, 2] && v[1..][1..] == [2, 2] && v[1..][1..][1..] == [2] && v[1..][1..][1..][1..] == [];
    }
  }

  function Decode(bs: Blob): Parse {
    FixedWidth();
    if |bs| < FIXED then ProviderBlob
    else
      var vs := Unpack(bs, WIDTHS);
      if vs[3] != MAGIC_LOW || vs[4] != MAGIC_HIGH then ProviderBlob
      else if vs[5] != MAJOR then Refused(Unsupported)
      else match ParseTail(bs[FIXED..], true)
        case Malformed => Refused(InvalidArgument)
        case Done(its, _) => Got(Envelope(Identity(vs[0], vs[1], vs[2]), its))
  }

  /** What is read from the fixed part of an envelope and whatever follows it. */
  lemma DecodeOf(id: Identity, rest: Blob)
    requires Typed(id)
    ensures |Pack(Fields(id), WIDTHS)| == FIXED
    ensures Decode(Pack(Fields(id), WIDTHS) + rest) ==
            match ParseTail(rest, true)
            case Malformed => Refused(InvalidArgument)
            case Done(its, _) => Got(Envelope(id, its))
  {
    hide Pack, Unpack, ParseTail, Pow256, Width;
    FixedWidth();
    FieldsFit(id);
    UnpackOfPack(Fields(id), WIDTHS, rest);
    assert (Pack(Fields(id), WIDTHS) + rest)[FIXED..] == rest;
  }

  lemma FieldsFit(id: Identity)
    requires Typed(id)
    ensures AllFit(Fields(id), WIDTHS)
  {
    Powers();
  }

  /** An envelope comes back exactly when its counts and lengths fit 16 bits. */
  lemma EnvelopeRoundTrip(e: Envelope)
    requires Typed(e.from)
    ensures Decode(Encode(e)) == Got(e) <==> TailFits(e.offers, true)
  {
    hide Pack, Decode, ParseTail, TailBytes, TailFits, Typed;
    DecodeOf(e.from, TailBytes(e.offers, true));
    TailRoundTrip(e.offers, true);
    TailRest(TailBytes(e.offers, true));
  }

  lemma TailRest(bs: Blob)
    ensures ParseTail(bs, true).Done? ==> ParseTail(bs, true).rest == []
  {
  }

  /** Bytes after an envelope are refused. A cut before the version ends is taken for a transport's
      own bytes; any later cut is refused. */
  lemma EnvelopeIsExact(e: Envelope, bs: Blob)
    requires Typed(e.from) && TailFits(e.offers, true)
    ensures Encode(e) < bs ==> Decode(bs) == Refused(InvalidArgument)
    ensures bs < Encode(e) ==> Decode(bs) == if |bs| < FIXED then ProviderBlob else Refused(InvalidArgument)
  {
    hide Pack, Unpack, ParseTail, TailBytes, TailFits, Typed, Width;
    FixedWidth();
    var fixed, tail := Pack(Fields(e.from), WIDTHS), TailBytes(e.offers, true);
    DecodeOf(e.from, tail);
    if Encode(e) < bs {
      var more := bs[|Encode(e)|..];
      assert bs == fixed + (tail + more) by {
        assert bs == (fixed + tail) + more;
      }
      TailParses(e.offers, true, more);
      DecodeOf(e.from, tail + more);
    } else if bs < Encode(e) && |bs| >= FIXED {
      var cut := bs[FIXED..];
      assert (fixed + tail)[..FIXED] == fixed && (fixed + tail)[FIXED..] == tail;
      assert bs == fixed + cut && cut < tail by {
        assert bs[..FIXED] == fixed;
      }
      TailIsExact(e.offers, true, cut);
      DecodeOf(e.from, cut);
    }
  }

  lemma TwoBytes(bs: Blob, a: Byte, b: Byte)
    requires |bs| == 2
    ensures UnLe(bs) == a as int + 256 * b as int <==> bs == [a, b]
  {
    assert bs[1..][1..] == [] && bs[1..][0] == bs[1];
    assert UnLe(bs) == bs[0] as int + 256 * bs[1] as int;
  }

  lemma Later(bs: Blob, ws: seq<nat>, k: nat)
    requires |bs| >= Width(ws) && 0 < k < |ws|
    ensures ws[0] <= |bs| && |bs[ws[0]..]| >= Width(ws[1..])
    ensures Unpack(bs, ws)[k] == Unpack(bs[ws[0]..], ws[1..])[k - 1]
  {
  }

  /** The fields after the identity, where they lie. */
  lemma MagicAndVersion(bs: Blob, k: nat)
    requires |bs| >= Width(WIDTHS) && |bs| >= FIXED && 3 <= k < 6
    ensures Unpack(bs, WIDTHS)[k] == UnLe(bs[24 + 2 * (k - 3)..24 + 2 * (k - 2)])
  {
    hide UnLe, Width, Unpack;
    var w1, w2, w3 := WIDTHS[1..], WIDTHS[2..], WIDTHS[3..];
    assert w1[1..] == w2 && w2[1..] == w3 && WIDTHS[0] == w1[0] == w2[0] == 8;
    assert bs[8..][8..] == bs[16..] && bs[16..][8..] == bs[24..];
    Later(bs, WIDTHS, k);
    Later(bs[8..], w1, k - 1);
    Later(bs[16..], w2, k - 2);
    ShortField(bs[24..], k - 3);
    assert bs[24..][2 * (k - 3)..2 * (k - 2)] == bs[24 + 2 * (k - 3)..24 + 2 * (k - 2)];
  }

  lemma ShortField(bs: Blob, k: nat)
    requires k < 3 && |bs| >= 8 && |bs| >= Width(WIDTHS[3..])
    ensures Unpack(bs, WIDTHS[3..])[k] == UnLe(bs[2 * k..2 * (k + 1)])
  {
    hide UnLe;
    var w := WIDTHS[3..];
    assert w == [2, 2, 2, 2] && w[1..] == [2, 2, 2] && w[1..][1..] == [2, 2];
    assert bs[2..][..2] == bs[2..4] && bs[2..][2..] == bs[4..] && bs[4..][..2] == bs[4..6];
    if k > 0 {
      Later(bs, w, k);
      if k > 1 {
        Later(bs[2..], w[1..], k - 1);
      }
    }
  }

  /** On the wire: bytes are a transport's own exactly if they are short or lack the magic, and an
      envelope is of another version exactly if it says so. */
  lemma MagicMeans(bs: Blob)
    ensures Decode(bs).ProviderBlob? <==> |bs| < 32 || bs[24..28] != [0x21, 0x48, 0x55, 0x58]
    ensures Decode(bs) == Refused(Unsupported) <==>
              |bs| >= 32 && bs[24..28] == [0x21, 0x48, 0x55, 0x58] && bs[28..30] != [1, 0]
  {
    FixedWidth();
    if |bs| >= FIXED {
      MagicAndVersion(bs, 3);
      MagicAndVersion(bs, 4);
      MagicAndVersion(bs, 5);
      TwoBytes(bs[24..26], 0x21, 0x48);
      TwoBytes(bs[26..28], 0x55, 0x58);
      TwoBytes(bs[28..30], 1, 0);
      hide UnLe, Unpack, ParseTail;
      assert bs[24..28] == bs[24..26] + bs[26..28];
      assert [0x21, 0x48, 0x55, 0x58] == [0x21, 0x48] + [0x55, 0x58];
      assert bs[24..28] == [0x21, 0x48, 0x55, 0x58] ==> bs[24..26] == bs[24..28][..2] && bs[26..28] == bs[24..28][2..];
    }
  }

  /** local_metadata: nothing to offer is an error. */
  method LocalMetadata(id: Identity, offers: seq<Item>) returns (status: Status, out: Blob)
    ensures status == Ok <==> offers != []
    ensures status == Ok ==> out == Encode(Envelope(id, offers))
    ensures status != Ok ==> status == Internal
  {
    if offers == [] { return Internal, []; }
    var fixed := Pack(Fields(id), WIDTHS);
    out := WriteTail(fixed, offers, true);
    status := Ok;
  }

  /** The reading half of add_peer. */
  method ReadMetadata(bs: Blob) returns (r: Parse)
    ensures r == Decode(bs)
  {
    hide Unpack, UnLe, ParseItems, ParseItem, Width;
    FixedWidth();
    if |bs| < FIXED { return ProviderBlob; }
    var vs := ReadFields(bs, WIDTHS);
    if vs[3] != MAGIC_LOW || vs[4] != MAGIC_HIGH { return ProviderBlob; }
    if vs[5] != MAJOR { return Refused(Unsupported); }
    if |bs| < FIXED + 2 { return Refused(InvalidArgument); }
    var count := Get(bs, FIXED, 2);
    ghost var tail := bs[FIXED..];
    assert tail[..2] == bs[FIXED..FIXED + 2] && tail[2..] == bs[FIXED + 2..];
    var at := FIXED + 2;
    var its: seq<Item> := [];
    ghost var all := ParseItems(tail[2..], count, true);
    PrependNothing(all);
    for i := 0 to count
      invariant FIXED + 2 <= at <= |bs|
      invariant all == Prepended(its, ParseItems(bs[at..], count - i, true))
    {
      var one, next := ReadItem(bs, at, true);
      MoreItems(its, bs[at..], count - i, true);
      if one == Malformed { return Refused(InvalidArgument); }
      its := its + [one.value];
      at := next;
    }
    AllItems(bs[at..], true);
    assert its + [] == its;
    if at != |bs| { return Refused(InvalidArgument); }
    r := Got(Envelope(Identity(vs[0], vs[1], vs[2]), its));
  }
}
