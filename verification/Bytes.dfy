/** Little-endian numbers in byte strings, as every encoder of the repository writes them. */
module Bytes {
  type Byte = x: int | 0 <= x < 256

  function Pow256(n: nat): (p: nat)
    ensures p > 0
  {
    if n == 0 then 1 else 256 * Pow256(n - 1)
  }

  /** The low n bytes of v, lowest first. */
  function Le(v: nat, n: nat): (bs: seq<Byte>)
    ensures |bs| == n
    decreases n
  {
    if n == 0 then [] else [v % 256] + Le(v / 256, n - 1)
  }

  function UnLe(bs: seq<Byte>): (v: nat)
    ensures v < Pow256(|bs|)
  {
    if bs == [] then 0 else bs[0] + 256 * UnLe(bs[1..])
  }

  lemma {:induction false} UnLeOfLe(v: nat, n: nat)
    ensures UnLe(Le(v, n)) == v <==> v < Pow256(n)
    decreases n
  {
    if n > 0 {
      UnLeOfLe(v / 256, n - 1);
      assert Le(v, n)[1..] == Le(v / 256, n - 1);
      assert v == v % 256 + 256 * (v / 256);
    }
  }

  lemma {:induction false} LeOfUnLe(bs: seq<Byte>)
    ensures Le(UnLe(bs), |bs|) == bs
    decreases |bs|
  {
    if bs != [] {
      LeOfUnLe(bs[1..]);
      assert UnLe(bs) % 256 == bs[0] && UnLe(bs) / 256 == UnLe(bs[1..]);
    }
  }

  lemma {:induction false} UnLeAppend(bs: seq<Byte>, b: Byte)
    ensures UnLe(bs + [b]) == UnLe(bs) + Pow256(|bs|) * b
    decreases |bs|
  {
    if bs != [] {
      UnLeAppend(bs[1..], b);
      assert (bs + [b])[1..] == bs[1..] + [b];
      assert 256 * (Pow256(|bs| - 1) * b) == Pow256(|bs|) * b;
    }
  }

  lemma {:induction false} LeAppend(v: nat, n: nat)
    ensures Le(v, n + 1) == Le(v, n) + [(v / Pow256(n)) % 256]
    decreases n
  {
    if n > 0 {
      LeAppend(v / 256, n - 1);
      DivTwice(v, Pow256(n - 1));
    }
  }

  lemma DivTwice(v: nat, p: nat)
    requires p > 0
    ensures (v / 256) / p == v / (256 * p)
  {
    var q, r := (v / 256) / p, (v / 256) % p;
    assert v / 256 == q * p + r;
    assert v == q * (256 * p) + (256 * r + v % 256);
    assert 0 <= 256 * r + v % 256 < 256 * p;
    UniqueQuotient(v, 256 * p, q, 256 * r + v % 256);
  }

  lemma UniqueQuotient(v: nat, d: nat, q: nat, r: nat)
    requires v == q * d + r && 0 <= r < d
    ensures v / d == q
  {
    var k := v / d - q;
    Distribute(v / d, q, d);
    AtLeastOne(k, d);
  }

  lemma Distribute(a: nat, b: nat, d: nat)
    ensures (a - b) * d == a * d - b * d
  {
  }

  lemma AtLeastOne(k: int, d: nat)
    ensures k > 0 ==> k * d >= d
    ensures k < 0 ==> k * d <= -(d as int)
  {
  }

  /** put_u16, put_u32 and put_u64: byte i is v >> 8*i. */
  method Put(a: array<Byte>, at: nat, v: nat, n: nat)
    requires at + n <= a.Length
    modifies a
    ensures a[..] == old(a[..at]) + Le(v, n) + old(a[at + n..])
  {
    var p: nat := 1;
    for i := 0 to n
      invariant p == Pow256(i)
      invariant a[..] == old(a[..at]) + Le(v, i) + old(a[at + i..])
    {
      LeAppend(v, i);
      a[at + i] := (v / p) % 256;
      p := p * 256;
    }
  }

  /** get_u16, get_u32 and get_u64: the bytes do not overlap, so oring them in adds them. */
  method Get(bs: seq<Byte>, at: nat, n: nat) returns (v: nat)
    requires at + n <= |bs|
    ensures v == UnLe(bs[at..at + n])
  {
    v := 0;
    var p: nat := 1;
    for i := 0 to n
      invariant p == Pow256(i) && v == UnLe(bs[at..at + i])
    {
      assert bs[at..at + i + 1] == bs[at..at + i] + [bs[at + i]];
      UnLeAppend(bs[at..at + i], bs[at + i]);
      v := v + p * bs[at + i];
      p := p * 256;
    }
  }
}
