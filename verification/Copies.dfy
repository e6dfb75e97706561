/** What a transfer does to memory: segments cut into chunks, carried out in any order by any
    number of lanes, against the whole segments copied one after another. */
module Copies {
  datatype Copy = Copy(dst: nat, src: nat, n: nat)

  type Memory = nat -> int

  function Apply(c: Copy, m: Memory): Memory {
    (a: nat) => if c.dst <= a < c.dst + c.n then m(c.src + (a - c.dst)) else m(a)
  }

  function ApplyAll(cs: seq<Copy>, m: Memory): Memory {
    if cs == [] then m else Apply(cs[|cs| - 1], ApplyAll(cs[..|cs| - 1], m))
  }

  predicate Covers(c: Copy, a: nat) {
    c.dst <= a < c.dst + c.n
  }

  /** The pieces one segment is cut into, each at most chunk long. */
  function Split(c: Copy, chunk: nat): seq<Copy>
    requires chunk > 0
    decreases c.n
  {
    if c.n == 0 then []
    else
      var k := if c.n > chunk then chunk else c.n;
      [Copy(c.dst, c.src, k)] + Split(Copy(c.dst + k, c.src + k, c.n - k), chunk)
  }

  function SplitAll(cs: seq<Copy>, chunk: nat): seq<Copy>
    requires chunk > 0
  {
    if cs == [] then [] else SplitAll(cs[..|cs| - 1], chunk) + Split(cs[|cs| - 1], chunk)
  }

  function Bytes(cs: seq<Copy>): nat {
    if cs == [] then 0 else Bytes(cs[..|cs| - 1]) + cs[|cs| - 1].n
  }

  /** p is a stretch of c. */
  predicate PartOf(p: Copy, c: Copy) {
    c.dst <= p.dst && p.dst + p.n <= c.dst + c.n && p.dst - c.dst == p.src - c.src
  }

  // ---------------- cutting loses and adds nothing ----------------

  lemma {:induction false} SplitParts(c: Copy, chunk: nat, i: nat)
    requires chunk > 0 && i < |Split(c, chunk)|
    ensures PartOf(Split(c, chunk)[i], c) && 0 < Split(c, chunk)[i].n <= chunk
    decreases c.n
  {
    var k := if c.n > chunk then chunk else c.n;
    if i > 0 {
      SplitParts(Copy(c.dst + k, c.src + k, c.n - k), chunk, i - 1);
    }
  }

  /** Every byte of a segment is in exactly one of its pieces, at the right distance. */
  lemma {:induction false} SplitCovers(c: Copy, chunk: nat, a: nat) returns (i: nat)
    requires chunk > 0 && Covers(c, a)
    ensures i < |Split(c, chunk)| && Covers(Split(c, chunk)[i], a)
    ensures forall j :: 0 <= j < |Split(c, chunk)| && Covers(Split(c, chunk)[j], a) ==> j == i
    decreases c.n
  {
    var k := if c.n > chunk then chunk else c.n;
    var rest := Copy(c.dst + k, c.src + k, c.n - k);
    assert Split(c, chunk) == [Copy(c.dst, c.src, k)] + Split(rest, chunk);
    if a < c.dst + k {
      i := 0;
      forall j | 0 < j < |Split(c, chunk)| ensures !Covers(Split(c, chunk)[j], a) {
        SplitParts(rest, chunk, j - 1);
      }
    } else {
      var r := SplitCovers(rest, chunk, a);
      i := r + 1;
      forall j | 0 <= j < |Split(c, chunk)| && Covers(Split(c, chunk)[j], a) ensures j == i {
        assert j > 0 ==> Split(c, chunk)[j] == Split(rest, chunk)[j - 1];
      }
    }
  }

  lemma {:induction false} SplitBytes(c: Copy, chunk: nat)
    requires chunk > 0
    ensures Bytes(Split(c, chunk)) == c.n
    decreases c.n
  {
    if c.n > 0 {
      var k := if c.n > chunk then chunk else c.n;
      var rest := Copy(c.dst + k, c.src + k, c.n - k);
      SplitBytes(rest, chunk);
      BytesConcat([Copy(c.dst, c.src, k)], Split(rest, chunk));
    }
  }

  lemma {:induction false} BytesConcat(a: seq<Copy>, b: seq<Copy>)
    ensures Bytes(a + b) == Bytes(a) + Bytes(b)
    decreases |b|
  {
    if b == [] {
      assert a + b == a;
    } else {
      BytesConcat(a, b[..|b| - 1]);
      assert (a + b)[..|a + b| - 1] == a + b[..|b| - 1];
    }
  }

  lemma {:induction false} SplitAllBytes(cs: seq<Copy>, chunk: nat)
    requires chunk > 0
    ensures Bytes(SplitAll(cs, chunk)) == Bytes(cs)
    decreases |cs|
  {
    if cs != [] {
      SplitAllBytes(cs[..|cs| - 1], chunk);
      SplitBytes(cs[|cs| - 1], chunk);
      BytesConcat(SplitAll(cs[..|cs| - 1], chunk), Split(cs[|cs| - 1], chunk));
    }
  }

  /** Where a piece comes from. */
  lemma {:induction false} PieceOf(cs: seq<Copy>, chunk: nat, i: nat) returns (j: nat)
    requires chunk > 0 && i < |SplitAll(cs, chunk)|
    ensures j < |cs| && PartOf(SplitAll(cs, chunk)[i], cs[j]) && 0 < SplitAll(cs, chunk)[i].n <= chunk
    decreases |cs|
  {
    var n := |cs| - 1;
    var before := |SplitAll(cs[..n], chunk)|;
    if i < before {
      j := PieceOf(cs[..n], chunk, i);
    } else {
      j := n;
      SplitParts(cs[n], chunk, i - before);
    }
  }

  /** And which piece holds a byte of a segment. */
  lemma {:induction false} PieceAt(cs: seq<Copy>, chunk: nat, j: nat, a: nat) returns (i: nat)
    requires chunk > 0 && j < |cs| && Covers(cs[j], a)
    ensures i < |SplitAll(cs, chunk)| && Covers(SplitAll(cs, chunk)[i], a)
    ensures PartOf(SplitAll(cs, chunk)[i], cs[j])
    decreases |cs|
  {
    var n := |cs| - 1;
    var before := |SplitAll(cs[..n], chunk)|;
    if j < n {
      i := PieceAt(cs[..n], chunk, j, a);
    } else {
      var k := SplitCovers(cs[n], chunk, a);
      SplitParts(cs[n], chunk, k);
      i := before + k;
    }
  }

  // ---------------- order does not matter ----------------

  /** No target overlaps a source, and targets that overlap are shifted alike. */
  ghost predicate Peaceful(cs: seq<Copy>) {
    forall i, j :: 0 <= i < |cs| && 0 <= j < |cs| ==> Agree(cs[i], cs[j])
  }

  predicate Agree(c: Copy, d: Copy) {
    && (c.dst < d.dst + d.n && d.dst < c.dst + c.n ==> c.dst - c.src == d.dst - d.src)
    && (c.src < d.dst + d.n && d.dst < c.src + c.n ==> c.n == 0 || d.n == 0)
  }

  /** The byte at a after all of cs: the source byte of a copy that covers it, or untouched. */
  lemma {:induction false} Effect(cs: seq<Copy>, m: Memory, a: nat)
    requires Peaceful(cs)
    ensures forall i :: 0 <= i < |cs| && Covers(cs[i], a) ==> ApplyAll(cs, m)(a) == m(cs[i].src + (a - cs[i].dst))
    ensures (forall i :: 0 <= i < |cs| ==> !Covers(cs[i], a)) ==> ApplyAll(cs, m)(a) == m(a)
    decreases |cs|
  {
    if cs != [] {
      var n := |cs| - 1;
      var c, before := cs[n], cs[..n];
      assert Peaceful(before);
      if Covers(c, a) {
        var from := c.src + (a - c.dst);
        forall i | 0 <= i < n ensures !Covers(before[i], from) {
          assert Agree(cs[n], cs[i]);
        }
        Effect(before, m, from);
        forall i | 0 <= i < |cs| && Covers(cs[i], a)
          ensures ApplyAll(cs, m)(a) == m(cs[i].src + (a - cs[i].dst))
        {
          assert Agree(cs[n], cs[i]);
        }
      } else {
        Effect(before, m, a);
        forall i | 0 <= i < |cs| && Covers(cs[i], a)
          ensures ApplyAll(cs, m)(a) == m(cs[i].src + (a - cs[i].dst))
        {
          assert before[i] == cs[i];
        }
      }
    }
  }

  /** Targets disjoint from each other and from every source. */
  ghost predicate Disjoint(segs: seq<Copy>) {
    && (forall i, j :: 0 <= i < j < |segs| ==>
          segs[i].dst + segs[i].n <= segs[j].dst || segs[j].dst + segs[j].n <= segs[i].dst)
    && (forall i, j :: 0 <= i < |segs| && 0 <= j < |segs| ==>
          segs[i].src + segs[i].n <= segs[j].dst || segs[j].dst + segs[j].n <= segs[i].src)
  }

  lemma DisjointPeaceful(segs: seq<Copy>)
    requires Disjoint(segs)
    ensures Peaceful(segs)
  {
    forall i, j | 0 <= i < |segs| && 0 <= j < |segs| ensures Agree(segs[i], segs[j]) {
    }
  }

  lemma PiecesPeaceful(segs: seq<Copy>, chunk: nat, order: seq<Copy>)
    requires chunk > 0 && Disjoint(segs)
    requires forall x :: x in order <==> x in SplitAll(segs, chunk)
    ensures Peaceful(order)
  {
    var all := SplitAll(segs, chunk);
    forall i, j | 0 <= i < |order| && 0 <= j < |order| ensures Agree(order[i], order[j]) {
      assert order[i] in all && order[j] in all;
      var p :| 0 <= p < |all| && all[p] == order[i];
      var q :| 0 <= q < |all| && all[q] == order[j];
      var s := PieceOf(segs, chunk, p);
      var t := PieceOf(segs, chunk, q);
      PartsAgree(segs, s, t, order[i], order[j]);
    }
  }

  lemma PartsAgree(segs: seq<Copy>, s: nat, t: nat, x: Copy, y: Copy)
    requires Disjoint(segs) && s < |segs| && t < |segs| && PartOf(x, segs[s]) && PartOf(y, segs[t])
    ensures Agree(x, y)
  {
    assert s < t || t < s || s == t;
  }

  /** A byte is written by some piece exactly when it is written by some segment, and alike. */
  lemma PiecesLikeSegments(segs: seq<Copy>, chunk: nat, order: seq<Copy>, a: nat)
    requires chunk > 0 && forall x :: x in order <==> x in SplitAll(segs, chunk)
    ensures forall j :: 0 <= j < |segs| && Covers(segs[j], a) ==>
              exists k :: 0 <= k < |order| && Covers(order[k], a)
                && order[k].src - order[k].dst == segs[j].src - segs[j].dst
    ensures (forall j :: 0 <= j < |segs| ==> !Covers(segs[j], a)) ==>
              forall k :: 0 <= k < |order| ==> !Covers(order[k], a)
  {
    hide SplitAll;
    var all := SplitAll(segs, chunk);
    forall j | 0 <= j < |segs| && Covers(segs[j], a)
      ensures exists k ::
                0 <= k < |order| && Covers(order[k], a) && order[k].src - order[k].dst == segs[j].src - segs[j].dst
    {
      var i := PieceAt(segs, chunk, j, a);
      assert all[i] in order;
      var k :| 0 <= k < |order| && order[k] == all[i];
    }
    forall k | 0 <= k < |order| && Covers(order[k], a) ensures exists j :: 0 <= j < |segs| && Covers(segs[j], a) {
      assert order[k] in all;
      var i :| 0 <= i < |all| && all[i] == order[k];
      var j := PieceOf(segs, chunk, i);
    }
  }

  /** The pieces of a transfer, carried out in whatever order, leave every byte of memory as the
      segments copied whole one after another would. */
  lemma AnyOrderIsOneCopy(segs: seq<Copy>, chunk: nat, order: seq<Copy>, m: Memory, a: nat)
    requires chunk > 0 && Disjoint(segs)
    requires forall x :: x in order <==> x in SplitAll(segs, chunk)
    ensures ApplyAll(order, m)(a) == ApplyAll(segs, m)(a)
  {
    hide SplitAll, ApplyAll, Disjoint, Peaceful;
    DisjointPeaceful(segs);
    PiecesPeaceful(segs, chunk, order);
    Effect(segs, m, a);
    Effect(order, m, a);
    PiecesLikeSegments(segs, chunk, order, a);
    if j :| 0 <= j < |segs| && Covers(segs[j], a) {
      var k :| 0 <= k < |order| && Covers(order[k], a) && order[k].src - order[k].dst == segs[j].src - segs[j].dst;
    }
  }
}
