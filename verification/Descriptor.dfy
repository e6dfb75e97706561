/** Region descriptors, as one engine exports them and another imports them. */
module Descriptor {
  import opened Status
  import opened Bytes
  import opened Codec

  const MAJOR := 2
  const MINOR := 0
  const FIXED := 73
  const WIDTHS: seq<nat> := [2, 2, 8, 8, 8, 8, 4, 8, 8, 8, 1, 4, 4]

  datatype ProviderKey = ProviderKey(provider: Blob, remoteKey: nat)

  /** index is the device index as its 32-bit pattern. */
  datatype Descriptor = Descriptor(
    major: nat, minor: nat, origin: Identity, region: nat, generation: nat, base: nat, length: nat,
    remoteKey: nat, kind: nat, index: nat, access: nat, keys: seq<ProviderKey>)

  datatype Decoded = Refused(status: Status) | Got(d: Descriptor)

  function Fields(d: Descriptor): (vs: seq<nat>)
    ensures |vs| == |WIDTHS|
  {
    [d.major, d.minor, d.origin.host, d.origin.process, d.origin.engine, d.region, d.generation, d.base, d.length,
     d.remoteKey, d.kind, d.index, d.access]
  }

  function FromFields(vs: seq<nat>, keys: seq<ProviderKey>): Descriptor
    requires |vs| == |WIDTHS|
  {
    Descriptor(vs[0], vs[1], Identity(vs[2], vs[3], vs[4]), vs[5], vs[6], vs[7], vs[8], vs[9], vs[10], vs[11], vs[12],
               keys)
  }

  function Items(keys: seq<ProviderKey>): (its: seq<Item>)
    ensures |its| == |keys| && forall i :: 0 <= i < |keys| ==>
            its[i] == Item(keys[i].provider, Le(keys[i].remoteKey, 8))
  {
    seq(|keys|, i requires 0 <= i < |keys| => Item(keys[i].provider, Le(keys[i].remoteKey, 8)))
  }

  function Keys(its: seq<Item>): (keys: seq<ProviderKey>)
    ensures |keys| == |its| && forall i :: 0 <= i < |its| ==> keys[i] == ProviderKey(its[i].name, UnLe(its[i].body))
  {
    seq(|its|, i requires 0 <= i < |its| => ProviderKey(its[i].name, UnLe(its[i].body)))
  }

  /** The field's own types: what any descriptor in the program satisfies. */
  ghost predicate Typed(d: Descriptor) {
    AllFit(Fields(d), WIDTHS) && forall i :: 0 <= i < |d.keys| ==> d.keys[i].remoteKey < Pow256(8)
  }

  /** Encoding always writes the current version. */
  function Current(d: Descriptor): Descriptor {
    d.(major := MAJOR, minor := MINOR)
  }

  function EncodeAs(d: Descriptor): Blob {
    Pack(Fields(d), WIDTHS) + TailBytes(Items(d.keys), false)
  }

  function Encode(d: Descriptor): Blob {
    EncodeAs(Current(d))
  }

  lemma FixedWidth()
    ensures Width(WIDTHS) == FIXED
  {
    SmallWidth();
    WidthCons(8, [4, 8, 8, 8, 1, 4, 4]);
    WidthCons(8, [8, 4, 8, 8, 8, 1, 4, 4]);
    WidthCons(8, [8, 8, 4, 8, 8, 8, 1, 4, 4]);
    WidthCons(8, [8, 8, 8, 4, 8, 8, 8, 1, 4, 4]);
    WidthCons(2, [8, 8, 8, 8, 4, 8, 8, 8, 1, 4, 4]);
    WidthCons(2, [2, 8, 8, 8, 8, 4, 8, 8, 8, 1, 4, 4]);
    hide Width;
  }

  lemma SmallWidth()
    ensures Width([4, 8, 8, 8, 1, 4, 4]) == 37
  {
    WidthCons(4, []);
    WidthCons(4, [4]);
    WidthCons(1, [4, 4]);
    WidthCons(8, [1, 4, 4]);
    WidthCons(8, [8, 1, 4, 4]);
    WidthCons(8, [8, 8, 1, 4, 4]);
    WidthCons(4, [8, 8, 8, 1, 4, 4]);
  }

  lemma WidthCons(n: nat, rest: seq<nat>)
    ensures Width([n] + rest) == n + Width(rest)
  {
    assert ([n] + rest)[1..] == rest;
  }

  function Decode(buf: Blob): Decoded {
    FixedWidth();
    if |buf| < FIXED then Refused(InvalidArgument)
    else
      var vs := Unpack(buf, WIDTHS);
      if vs[0] != MAJOR then Refused(Unsupported)
      else if |buf| == FIXED then Got(FromFields(vs, []))
      else match ParseTail(buf[FIXED..], false)
        case Malformed => Refused(InvalidArgument)
        case Done(its, _) => Got(FromFields(vs, Keys(its)))
  }

  lemma KeysOfItems(keys: seq<ProviderKey>)
    requires forall i :: 0 <= i < |keys| ==> keys[i].remoteKey < Pow256(8)
    ensures Keys(Items(keys)) == keys
  {
    forall i | 0 <= i < |keys| ensures Keys(Items(keys))[i] == keys[i] {
      UnLeOfLe(keys[i].remoteKey, 8);
    }
  }

  lemma ItemsOfKeys(its: seq<Item>)
    requires forall i :: 0 <= i < |its| ==> |its[i].body| == 8
    ensures Items(Keys(its)) == its
  {
    forall i | 0 <= i < |its| ensures Items(Keys(its))[i] == its[i] {
      LeOfUnLe(its[i].body);
    }
  }

  lemma CurrentTyped(d: Descriptor)
    requires Typed(d)
    ensures Typed(Current(d))
  {
    Powers();
  }

  /** The fixed part of an encoding, whatever follows it. */
  lemma FixedPart(d: Descriptor, rest: Blob)
    requires AllFit(Fields(d), WIDTHS)
    ensures var buf := Pack(Fields(d), WIDTHS) + rest;
            |buf| == FIXED + |rest| && buf[FIXED..] == rest && Unpack(buf, WIDTHS) == Fields(d)
            && forall keys :: FromFields(Fields(d), keys) == d.(keys := keys)
  {
    hide Pack, Unpack;
    FixedWidth();
    UnpackOfPack(Fields(d), WIDTHS, rest);
  }

  /** Decoding the encoding gives the descriptor back, at the current version, exactly when the
      number of its keys and the lengths of their names fit 16 bits. */
  lemma DescriptorRoundTrip(d: Descriptor)
    requires Typed(d)
    ensures Decode(Encode(d)) == Got(d.(major := 2, minor := 0)) <==> TailFits(Items(d.keys), false)
  {
    hide Pack, Unpack, Fields, FromFields, ParseTail, TailBytes, TailFits, Pow256, Le, UnLe;
    CurrentTyped(d);
    var c, its := Current(d), Items(d.keys);
    FixedPart(c, TailBytes(its, false));
    TwoAtLeast(its);
    TailRoundTrip(its, false);
    VersionOf(c);
    KeysOfItems(d.keys);
    if ParseTail(TailBytes(its, false), false).Done? {
      var got := ParseTail(TailBytes(its, false), false).value;
      ParsedTail(TailBytes(its, false), false);
      BodiesOf(got);
      ItemsOfKeys(got);
      if Keys(got) == d.keys {
        assert got == its;
      }
      assert ParseTail(TailBytes(its, false), false) == Done(got, []) by { TailRest(TailBytes(its, false)); }
    }
  }

  lemma TailRest(bs: Blob)
    requires ParseTail(bs, false).Done?
    ensures ParseTail(bs, false).rest == []
  {
  }

  lemma BodiesOf(its: seq<Item>)
    requires TailFits(its, false)
    ensures forall i :: 0 <= i < |its| ==> |its[i].body| == 8
  {
  }

  lemma TwoAtLeast(its: seq<Item>)
    ensures |TailBytes(its, false)| >= 2
  {
  }

  lemma VersionOf(d: Descriptor)
    ensures Fields(d)[0] == d.major
  {
  }

  /** What is decoded from a fixed part and whatever follows it. */
  lemma DecodeOf(c: Descriptor, rest: Blob)
    requires AllFit(Fields(c), WIDTHS) && c.major == MAJOR
    ensures Decode(Pack(Fields(c), WIDTHS) + rest) ==
            if rest == [] then Got(c.(keys := []))
            else match ParseTail(rest, false)
              case Malformed => Refused(InvalidArgument)
              case Done(its, _) => Got(c.(keys := Keys(its)))
  {
    hide Pack, Unpack, Fields, FromFields, ParseTail, Pow256, Le, UnLe, Width;
    FixedPart(c, rest);
    VersionOf(c);
  }

  /** Bytes after a descriptor are refused, and so is every cut through one but the bare fixed
      part, which reads as a descriptor without keys. */
  lemma DescriptorIsExact(d: Descriptor, bs: Blob)
    requires Typed(d) && TailFits(Items(d.keys), false)
    ensures Encode(d) < bs ==> Decode(bs) == Refused(InvalidArgument)
    ensures bs < Encode(d) ==> Decode(bs) == if |bs| == FIXED then Got(Current(d).(keys := []))
            else Refused(InvalidArgument)
  {
    hide *;
    if Encode(d) < bs {
      Trailing(d, bs);
    } else if bs < Encode(d) {
      Cut(d, bs);
    }
  }

  lemma Trailing(d: Descriptor, bs: Blob)
    requires Typed(d) && TailFits(Items(d.keys), false) && Encode(d) < bs
    ensures Decode(bs) == Refused(InvalidArgument)
  {
    hide Pack, Fields, Decode, ParseTail, TailBytes, TailFits, Pow256, Le, UnLe, AllFit;
    CurrentTyped(d);
    var c, its := Current(d), Items(d.keys);
    var more := bs[|Encode(d)|..];
    Regroup(Pack(Fields(c), WIDTHS), TailBytes(its, false), bs);
    TwoAtLeast(its);
    TailParses(its, false, more);
    DecodeOf(c, TailBytes(its, false) + more);
  }

  lemma Cut(d: Descriptor, bs: Blob)
    requires Typed(d) && TailFits(Items(d.keys), false) && bs < Encode(d)
    ensures Decode(bs) == if |bs| == FIXED then Got(Current(d).(keys := [])) else Refused(InvalidArgument)
  {
    hide Pack, Unpack, Fields, FromFields, ParseTail, TailBytes, TailFits, Pow256, Le, UnLe, AllFit;
    CurrentTyped(d);
    FixedWidth();
    var c, its := Current(d), Items(d.keys);
    var fixed, tail := Pack(Fields(c), WIDTHS), TailBytes(its, false);
    if |bs| >= FIXED {
      var cut := bs[FIXED..];
      CutAt(fixed, tail, bs);
      TailIsExact(its, false, cut);
      DecodeOf(c, cut);
    }
  }

  lemma Regroup(a: Blob, b: Blob, bs: Blob)
    requires a + b < bs
    ensures bs == a + (b + bs[|a + b|..]) && bs[|a + b|..] != []
  {
    assert bs == (a + b) + bs[|a + b|..];
  }

  lemma CutAt(fixed: Blob, tail: Blob, bs: Blob)
    requires bs < fixed + tail && |fixed| <= |bs|
    ensures bs == fixed + bs[|fixed|..] && bs[|fixed|..] < tail
  {
    assert (fixed + tail)[..|fixed|] == fixed && (fixed + tail)[|fixed|..] == tail;
    assert bs[..|fixed|] == fixed;
  }

  /** Whatever decodes with a list is the encoding of what it decodes to. */
  lemma DecodedIsEncoded(buf: Blob)
    requires Decode(buf).Got?
    ensures Typed(Decode(buf).d)
    ensures if |buf| == FIXED then Decode(buf).d.keys == [] && buf == EncodeAs(Decode(buf).d)[..FIXED]
            else EncodeAs(Decode(buf).d) == buf
  {
    hide Pack, Unpack, ParseTail, TailBytes, TailFits, Pow256, Le, UnLe, Width;
    FixedWidth();
    var d, vs := Decode(buf).d, Unpack(buf, WIDTHS);
    PackOfUnpack(buf, WIDTHS);
    assert Fields(d) == vs;
    assert buf == buf[..FIXED] + buf[FIXED..];
    if |buf| == FIXED {
      assert buf == buf[..FIXED];
    } else {
      ParsedTail(buf[FIXED..], false);
      var its := ParseTail(buf[FIXED..], false).value;
      BodiesOf(its);
      ItemsOfKeys(its);
      KeyBounds(its);
    }
  }

  lemma KeyBounds(its: seq<Item>)
    requires forall i :: 0 <= i < |its| ==> |its[i].body| == 8
    ensures forall i :: 0 <= i < |its| ==> Keys(its)[i].remoteKey < Pow256(8)
  {
  }

  // ---------------- the code ----------------

  lemma {:induction false} PackAppend(vs: seq<nat>, ws: seq<nat>, v: nat, w: nat)
    requires |vs| == |ws|
    ensures Pack(vs + [v], ws + [w]) == Pack(vs, ws) + Le(v, w)
    decreases |ws|
  {
    hide Le;
    if ws == [] {
      assert vs + [v] == [v] && ws + [w] == [w] && [v][1..] == [] && [w][1..] == [];
      assert Pack([], []) == [];
      assert Pack([v], [w]) == Le(v, w) + [];
    } else {
      PackAppend(vs[1..], ws[1..], v, w);
      assert (vs + [v])[1..] == vs[1..] + [v] && (ws + [w])[1..] == ws[1..] + [w];
      assert Le(vs[0], ws[0]) + (Pack(vs[1..], ws[1..]) + Le(v, w)) ==
             (Le(vs[0], ws[0]) + Pack(vs[1..], ws[1..])) + Le(v, w);
    }
  }

  /** put_u16, put_u32, put_u64 or a single byte, as field k of vs. */
  method PushField(before: Blob, v: nat, w: nat, ghost vs: seq<nat>, ghost k: nat) returns (out: Blob)
    requires |vs| == |WIDTHS| && k < |vs| && vs[k] == v && WIDTHS[k] == w
    requires before == Pack(vs[..k], WIDTHS[..k])
    ensures out == Pack(vs[..k + 1], WIDTHS[..k + 1])
  {
    assert vs[..k + 1] == vs[..k] + [v] && WIDTHS[..k + 1] == WIDTHS[..k] + [w];
    PackAppend(vs[..k], WIDTHS[..k], v, w);
    out := before + Le(v, w);
  }

  method EncodeFixed(d: Descriptor) returns (out: Blob)
    ensures out == Pack(Fields(Current(d)), WIDTHS)
  {
    hide Pack, Le;
    ghost var vs := Fields(Current(d));
    PackNothing();
    out := [];
    out := PushField(out, MAJOR, 2, vs, 0);
    out := PushField(out, MINOR, 2, vs, 1);
    out := PushField(out, d.origin.host, 8, vs, 2);
    out := PushField(out, d.origin.process, 8, vs, 3);
    out := PushField(out, d.origin.engine, 8, vs, 4);
    out := PushField(out, d.region, 8, vs, 5);
    out := PushField(out, d.generation, 4, vs, 6);
    out := PushField(out, d.base, 8, vs, 7);
    out := PushField(out, d.length, 8, vs, 8);
    out := PushField(out, d.remoteKey, 8, vs, 9);
    out := PushField(out, d.kind, 1, vs, 10);
    out := PushField(out, d.index, 4, vs, 11);
    out := PushField(out, d.access, 4, vs, 12);
    assert vs[..13] == vs && WIDTHS[..13] == WIDTHS;
  }

  lemma PackNothing()
    ensures Pack([], []) == []
  {
  }

  /** encode_descriptor: everything is pushed on the end of out. */
  method EncodeDescriptor(d: Descriptor) returns (out: Blob)
    ensures out == Encode(d)
  {
    var fixed := EncodeFixed(d);
    out := WriteTail(fixed, Items(d.keys), false);
  }

  /** decode_descriptor: a position that moves over the buffer, refusing whatever does not fit. */
  method DecodeDescriptor(buf: Blob) returns (r: Decoded)
    ensures r == Decode(buf)
  {
    hide Unpack, UnLe, ParseItems, ParseItem, Width;
    FixedWidth();
    if |buf| < FIXED { return Refused(InvalidArgument); }
    var vs := ReadFixed(buf);
    if vs[0] != MAJOR { return Refused(Unsupported); }
    var remaining := |buf| - FIXED;
    if remaining < 2 { return if remaining == 0 then Got(FromFields(vs, [])) else Refused(InvalidArgument); }
    var count := Get(buf, FIXED, 2);
    ghost var tail := buf[FIXED..];
    assert tail[..2] == buf[FIXED..FIXED + 2] && tail[2..] == buf[FIXED + 2..];
    var at := FIXED + 2;
    var its: seq<Item> := [];
    ghost var all := ParseItems(tail[2..], count, false);
    PrependNothing(all);
    for i := 0 to count
      invariant FIXED + 2 <= at <= |buf|
      invariant all == Prepended(its, ParseItems(buf[at..], count - i, false))
    {
      var one, next := ReadItem(buf, at, false);
      MoreItems(its, buf[at..], count - i, false);
      if one == Malformed { return Refused(InvalidArgument); }
      its := its + [one.value];
      at := next;
    }
    AllItems(buf[at..], false);
    assert its + [] == its;
    if at != |buf| { return Refused(InvalidArgument); }
    r := Got(FromFields(vs, Keys(its)));
  }

  /** The fixed fields, read one after another. */
  method ReadFixed(buf: Blob) returns (vs: seq<nat>)
    requires |buf| >= FIXED
    ensures Width(WIDTHS) == FIXED && vs == Unpack(buf, WIDTHS)
  {
    FixedWidth();
    vs := ReadFields(buf, WIDTHS);
  }
}
