/** The two blobs engines hand each other outside the transport: region descriptors and engine
    metadata. Both are fixed fields followed by a counted list of named entries. */
module Codec {
  import opened Status
  import opened Bytes

  type Blob = seq<Byte>

  /** Which engine, in which process, on which host. */
  datatype Identity = Identity(host: nat, process: nat, engine: nat)

  // ---------------- fixed fields ----------------

  function Width(ws: seq<nat>): nat {
    if ws == [] then 0 else ws[0] + Width(ws[1..])
  }

  function Pack(vs: seq<nat>, ws: seq<nat>): (bs: Blob)
    requires |vs| == |ws|
    ensures |bs| == Width(ws)
    decreases |ws|
  {
    if ws == [] then [] else Le(vs[0], ws[0]) + Pack(vs[1..], ws[1..])
  }

  function Unpack(bs: Blob, ws: seq<nat>): (vs: seq<nat>)
    requires |bs| >= Width(ws)
    ensures |vs| == |ws|
    decreases |ws|
  {
    if ws == [] then [] else [UnLe(bs[..ws[0]])] + Unpack(bs[ws[0]..], ws[1..])
  }

  predicate AllFit(vs: seq<nat>, ws: seq<nat>) {
    |vs| == |ws| && forall i :: 0 <= i < |vs| ==> vs[i] < Pow256(ws[i])
  }

  lemma {:induction false} UnpackOfPack(vs: seq<nat>, ws: seq<nat>, rest: Blob)
    requires AllFit(vs, ws)
    ensures Unpack(Pack(vs, ws) + rest, ws) == vs
    decreases |ws|
  {
    if ws != [] {
      var bs := Pack(vs, ws) + rest;
      UnLeOfLe(vs[0], ws[0]);
      assert bs[..ws[0]] == Le(vs[0], ws[0]);
      assert bs[ws[0]..] == Pack(vs[1..], ws[1..]) + rest;
      UnpackOfPack(vs[1..], ws[1..], rest);
    }
  }

  lemma {:induction false} PackOfUnpack(bs: Blob, ws: seq<nat>)
    requires |bs| >= Width(ws)
    ensures Pack(Unpack(bs, ws), ws) == bs[..Width(ws)] && AllFit(Unpack(bs, ws), ws)
    decreases |ws|
  {
    if ws != [] {
      LeOfUnLe(bs[..ws[0]]);
      PackOfUnpack(bs[ws[0]..], ws[1..]);
      assert bs[..Width(ws)] == bs[..ws[0]] + bs[ws[0]..][..Width(ws[1..])];
      assert Unpack(bs, ws)[1..] == Unpack(bs[ws[0]..], ws[1..]);
    }
  }

  // ---------------- counted lists ----------------

  /** A named entry. Its body carries its own length in metadata; in a descriptor it is always
      eight bytes. */
  datatype Item = Item(name: Blob, body: Blob)

  const KEY_BYTES := 8

  predicate ItemFits(it: Item, prefixed: bool) {
    |it.name| < 0x1_0000 && if prefixed then |it.body| < 0x1_0000 else |it.body| == KEY_BYTES
  }

  /** Lengths are written as 16 bits, whatever they are. */
  function ItemBytes(it: Item, prefixed: bool): Blob {
    Le(|it.name|, 2) + it.name + (if prefixed then Le(|it.body|, 2) else []) + it.body
  }

  function ItemsBytes(its: seq<Item>, prefixed: bool): Blob {
    if its == [] then [] else ItemBytes(its[0], prefixed) + ItemsBytes(its[1..], prefixed)
  }

  datatype Parsed<T> = Malformed | Done(value: T, rest: Blob)

  function ParseItem(bs: Blob, prefixed: bool): Parsed<Item> {
    if |bs| < 2 then Malformed
    else
      var n := UnLe(bs[..2]);
      var more := if prefixed then 2 else KEY_BYTES;
      if |bs| - 2 < n + more then Malformed
      else
        var name, after := bs[2..2 + n], bs[2 + n..];
        if !prefixed then Done(Item(name, after[..KEY_BYTES]), after[KEY_BYTES..])
        else
          var m := UnLe(after[..2]);
          if |after| - 2 < m then Malformed else Done(Item(name, after[2..2 + m]), after[2 + m..])
  }

  function ParseItems(bs: Blob, count: nat, prefixed: bool): Parsed<seq<Item>>
    decreases count
  {
    if count == 0 then Done([], bs)
    else match ParseItem(bs, prefixed)
      case Malformed => Malformed
      case Done(it, rest) =>
        match ParseItems(rest, count - 1, prefixed)
        case Malformed => Malformed
        case Done(its, end) => Done([it] + its, end)
  }

  lemma Powers()
    ensures Pow256(1) == 0x100 && Pow256(2) == 0x1_0000 && Pow256(4) == 0x1_0000_0000
    ensures Pow256(8) == 0x1_0000_0000_0000_0000
  {
    assert Pow256(3) == 0x100_0000;
    assert Pow256(5) == 0x100_0000_0000 && Pow256(6) == 0x1_0000_0000_0000 && Pow256(7) == 0x100_0000_0000_0000;
  }

  /** Sixteen bits, there and back. */
  lemma Two(bs: Blob, n: nat)
    ensures |bs| == 2 ==> UnLe(bs) < 0x1_0000 && Le(UnLe(bs), 2) == bs
    ensures n < 0x1_0000 ==> UnLe(Le(n, 2)) == n
  {
    Powers();
    UnLeOfLe(n, 2);
    if |bs| == 2 {
      LeOfUnLe(bs);
    }
  }

  /** What an entry parsed from is its encoding. */
  lemma ParsedItem(bs: Blob, prefixed: bool)
    requires ParseItem(bs, prefixed).Done?
    ensures var p := ParseItem(bs, prefixed); bs == ItemBytes(p.value, prefixed) + p.rest && ItemFits(p.value, prefixed)
  {
    hide Le, UnLe, Pow256;
    var n := UnLe(bs[..2]);
    Two(bs[..2], 0);
    var after := bs[2 + n..];
    assert bs == (bs[..2] + bs[2..2 + n]) + after;
    if prefixed {
      var m := UnLe(after[..2]);
      Two(after[..2], 0);
      assert after == (after[..2] + after[2..2 + m]) + after[2 + m..];
    } else {
      assert after == after[..KEY_BYTES] + after[KEY_BYTES..];
    }
  }

  /** And an entry's encoding parses back, whatever follows it. */
  lemma ItemParses(it: Item, prefixed: bool, rest: Blob)
    requires ItemFits(it, prefixed)
    ensures ParseItem(ItemBytes(it, prefixed) + rest, prefixed) == Done(it, rest)
  {
    hide Le, UnLe, Pow256;
    var n, bs := |it.name|, ItemBytes(it, prefixed) + rest;
    Two([], n);
    assert bs[..2] == Le(n, 2);
    assert bs[2..2 + n] == it.name;
    var after := bs[2 + n..];
    if prefixed {
      Two([], |it.body|);
      assert after == Le(|it.body|, 2) + it.body + rest;
      assert after[..2] == Le(|it.body|, 2);
      assert after[2..2 + |it.body|] == it.body && after[2 + |it.body|..] == rest;
    } else {
      assert after == it.body + rest;
    }
  }

  lemma {:induction false} ParsedItems(bs: Blob, count: nat, prefixed: bool)
    requires ParseItems(bs, count, prefixed).Done?
    ensures var p := ParseItems(bs, count, prefixed);
            && |p.value| == count && bs == ItemsBytes(p.value, prefixed) + p.rest
            && forall i :: 0 <= i < count ==> ItemFits(p.value[i], prefixed)
    decreases count
  {
    hide ItemBytes, ParseItem, ItemFits;
    if count > 0 {
      ParsedItem(bs, prefixed);
      var one := ParseItem(bs, prefixed);
      ParsedItems(one.rest, count - 1, prefixed);
      var its := ParseItems(one.rest, count - 1, prefixed);
      assert ([one.value] + its.value)[1..] == its.value;
      assert ItemBytes(one.value, prefixed) + (ItemsBytes(its.value, prefixed) + its.rest) ==
             (ItemBytes(one.value, prefixed) + ItemsBytes(its.value, prefixed)) + its.rest;
    }
  }

  lemma {:induction false} ItemsParse(its: seq<Item>, prefixed: bool, rest: Blob)
    requires forall i :: 0 <= i < |its| ==> ItemFits(its[i], prefixed)
    ensures ParseItems(ItemsBytes(its, prefixed) + rest, |its|, prefixed) == Done(its, rest)
    decreases |its|
  {
    hide ItemBytes, ParseItem, ItemFits;
    if its == [] {
      assert [] + rest == rest;
    } else {
      var after := ItemsBytes(its[1..], prefixed) + rest;
      ItemParses(its[0], prefixed, after);
      assert ItemsBytes(its, prefixed) + rest == ItemBytes(its[0], prefixed) + after;
      ItemsParse(its[1..], prefixed, rest);
      assert [its[0]] + its[1..] == its;
    }
  }

  // ---------------- a header, a count and a list that must end where the bytes do ----------------

  /** What follows the fixed fields: the count, then exactly so many entries. */
  function ParseTail(bs: Blob, prefixed: bool): Parsed<seq<Item>> {
    if |bs| < 2 then Malformed
    else match ParseItems(bs[2..], UnLe(bs[..2]), prefixed)
      case Malformed => Malformed
      case Done(its, rest) => if rest == [] then Done(its, []) else Malformed
  }

  function TailBytes(its: seq<Item>, prefixed: bool): Blob {
    Le(|its|, 2) + ItemsBytes(its, prefixed)
  }

  predicate TailFits(its: seq<Item>, prefixed: bool) {
    |its| < 0x1_0000 && forall i :: 0 <= i < |its| ==> ItemFits(its[i], prefixed)
  }

  lemma ParsedTail(bs: Blob, prefixed: bool)
    requires ParseTail(bs, prefixed).Done?
    ensures bs == TailBytes(ParseTail(bs, prefixed).value, prefixed)
            && TailFits(ParseTail(bs, prefixed).value, prefixed)
  {
    hide ItemFits, ItemsBytes, ParseItems, Le, UnLe, Pow256;
    ParsedItems(bs[2..], UnLe(bs[..2]), prefixed);
    Two(bs[..2], 0);
    assert bs == bs[..2] + bs[2..];
    var its := ParseTail(bs, prefixed).value;
    assert ItemsBytes(its, prefixed) + [] == ItemsBytes(its, prefixed);
  }

  /** A list comes back exactly when its count and lengths fit 16 bits. */
  lemma TailRoundTrip(its: seq<Item>, prefixed: bool)
    ensures ParseTail(TailBytes(its, prefixed), prefixed) == Done(its, []) <==> TailFits(its, prefixed)
  {
    hide ItemFits, ItemsBytes, ParseItems;
    var bs := TailBytes(its, prefixed);
    if TailFits(its, prefixed) {
      TailParses(its, prefixed, []);
      assert bs + [] == bs;
    } else if ParseTail(bs, prefixed) == Done(its, []) {
      ParsedTail(bs, prefixed);
    }
  }

  lemma TailParses(its: seq<Item>, prefixed: bool, rest: Blob)
    requires TailFits(its, prefixed)
    ensures ParseTail(TailBytes(its, prefixed) + rest, prefixed) == if rest == [] then Done(its, []) else Malformed
  {
    hide ItemFits, ItemsBytes, ParseItems, Le, UnLe, Pow256;
    var bs := TailBytes(its, prefixed) + rest;
    Two([], |its|);
    assert bs == Le(|its|, 2) + (ItemsBytes(its, prefixed) + rest);
    assert bs[..2] == Le(|its|, 2);
    assert bs[2..] == ItemsBytes(its, prefixed) + rest;
    ItemsParse(its, prefixed, rest);
  }

  /** Bytes after a list that ends, and any cut through one, are refused. */
  lemma TailIsExact(its: seq<Item>, prefixed: bool, bs: Blob)
    requires TailFits(its, prefixed) && bs < TailBytes(its, prefixed)
    ensures ParseTail(bs, prefixed) == Malformed
  {
    hide TailFits, TailBytes, ParseTail;
    var whole := TailBytes(its, prefixed);
    TailRoundTrip(its, prefixed);
    if ParseTail(bs, prefixed).Done? {
      ParsedTail(bs, prefixed);
      var more := whole[|bs|..];
      assert whole == bs + more && more != [];
      TailParses(ParseTail(bs, prefixed).value, prefixed, more);
    }
  }

  // ---------------- reading as the code does ----------------

  /** Fields of the given widths off the front of a buffer. */
  method ReadFields(buf: Blob, ws: seq<nat>) returns (vs: seq<nat>)
    requires |buf| >= Width(ws)
    ensures vs == Unpack(buf, ws)
  {
    hide UnLe;
    vs := [];
    var at: nat := 0;
    assert ws[0..] == ws && buf[0..] == buf;
    for i := 0 to |ws|
      invariant at + Width(ws[i..]) <= |buf|
      invariant vs + Unpack(buf[at..], ws[i..]) == Unpack(buf, ws)
    {
      assert ws[i..][1..] == ws[i + 1..] && ws[i..][0] == ws[i];
      var v := Get(buf, at, ws[i]);
      assert buf[at..][..ws[i]] == buf[at..at + ws[i]] && buf[at..][ws[i]..] == buf[at + ws[i]..];
      assert vs + ([v] + Unpack(buf[at + ws[i]..], ws[i + 1..])) == (vs + [v]) + Unpack(buf[at + ws[i]..], ws[i + 1..]);
      vs := vs + [v];
      at := at + ws[i];
    }
    assert vs + [] == vs;
  }

  /** One entry at a position, and the position after it. */
  method ReadItem(buf: Blob, at: nat, prefixed: bool) returns (one: Parsed<Item>, next: nat)
    requires at <= |buf|
    ensures one == ParseItem(buf[at..], prefixed)
    ensures one.Done? ==> at <= next <= |buf| && one.rest == buf[next..]
  {
    hide UnLe;
    next := at;
    var bs := buf[at..];
    if |buf| < at + 2 { return Malformed, at; }
    var n := Get(buf, at, 2);
    assert bs[..2] == buf[at..at + 2];
    next := at + 2;
    if |buf| < next + n + (if prefixed then 2 else KEY_BYTES) { return Malformed, next; }
    var name := buf[next..next + n];
    assert name == bs[2..2 + n];
    next := next + n;
    assert bs[2 + n..] == buf[next..];
    if !prefixed {
      var body := buf[next..next + KEY_BYTES];
      assert buf[next..][..KEY_BYTES] == body && buf[next..][KEY_BYTES..] == buf[next + KEY_BYTES..];
      next := next + KEY_BYTES;
      return Done(Item(name, body), buf[next..]), next;
    }
    var m := Get(buf, next, 2);
    assert buf[next..][..2] == buf[next..next + 2];
    next := next + 2;
    if |buf| < next + m { return Malformed, next; }
    assert buf[next - 2..][2..2 + m] == buf[next..next + m] && buf[next - 2..][2 + m..] == buf[next + m..];
    one := Done(Item(name, buf[next..next + m]), buf[next + m..]);
    next := next + m;
  }

  function Prepended(its: seq<Item>, p: Parsed<seq<Item>>): Parsed<seq<Item>> {
    match p
    case Malformed => Malformed
    case Done(more, rest) => Done(its + more, rest)
  }

  lemma PrependNothing(p: Parsed<seq<Item>>)
    ensures Prepended([], p) == p
  {
    if p.Done? {
      assert [] + p.value == p.value;
    }
  }

  lemma MoreItems(its: seq<Item>, bs: Blob, count: nat, prefixed: bool)
    requires count > 0
    ensures Prepended(its, ParseItems(bs, count, prefixed)) ==
            match ParseItem(bs, prefixed)
            case Malformed => Malformed
            case Done(it, rest) => Prepended(its + [it], ParseItems(rest, count - 1, prefixed))
  {
    hide ParseItem;
    match ParseItem(bs, prefixed)
    case Malformed =>
    case Done(it, rest) =>
      match ParseItems(rest, count - 1, prefixed)
      case Malformed =>
      case Done(more, _) => assert its + ([it] + more) == (its + [it]) + more;
  }

  lemma AllItems(bs: Blob, prefixed: bool)
    ensures ParseItems(bs, 0, prefixed) == Done([], bs)
  {
  }

  // ---------------- writing as the code does ----------------

  lemma {:induction false} ItemsAppend(its: seq<Item>, it: Item, prefixed: bool)
    ensures ItemsBytes(its + [it], prefixed) == ItemsBytes(its, prefixed) + ItemBytes(it, prefixed)
    decreases |its|
  {
    hide ItemBytes;
    if its == [] {
      assert its + [it] == [it] && [it][1..] == [];
    } else {
      ItemsAppend(its[1..], it, prefixed);
      assert (its + [it])[1..] == its[1..] + [it];
      assert ItemBytes(its[0], prefixed) + (ItemsBytes(its[1..], prefixed) + ItemBytes(it, prefixed)) ==
             (ItemBytes(its[0], prefixed) + ItemsBytes(its[1..], prefixed)) + ItemBytes(it, prefixed);
    }
  }

  /** The count and the entries, pushed on the end of what is there. */
  method WriteTail(before: Blob, its: seq<Item>, prefixed: bool) returns (out: Blob)
    ensures out == before + TailBytes(its, prefixed)
  {
    hide Le, ItemsBytes, ItemBytes;
    NoItems(prefixed);
    out := before + Le(|its|, 2);
    ghost var head := out;
    assert head + [] == head;
    for i := 0 to |its|
      invariant out == head + ItemsBytes(its[..i], prefixed)
    {
      assert its[..i + 1] == its[..i] + [its[i]];
      ItemsAppend(its[..i], its[i], prefixed);
      assert head + (ItemsBytes(its[..i], prefixed) + ItemBytes(its[i], prefixed)) ==
             (head + ItemsBytes(its[..i], prefixed)) + ItemBytes(its[i], prefixed);
      out := WriteItem(out, its[i], prefixed);
    }
    assert its[..|its|] == its;
    assert (before + Le(|its|, 2)) + ItemsBytes(its, prefixed) == before + (Le(|its|, 2) + ItemsBytes(its, prefixed));
  }

  method WriteItem(before: Blob, it: Item, prefixed: bool) returns (out: Blob)
    ensures out == before + ItemBytes(it, prefixed)
  {
    hide Le;
    out := before + Le(|it.name|, 2);
    out := out + it.name;
    if prefixed { out := out + Le(|it.body|, 2); }
    out := out + it.body;
  }

  lemma NoItems(prefixed: bool)
    ensures ItemsBytes([], prefixed) == []
  {
  }
}
