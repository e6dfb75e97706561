/** Turning a vector of segments into sub-operations: checked, cut into chunks no lane is too
    small for, and dealt to the lanes by weight. */
module Planning {
  import opened Status
  import opened Copies
  import opened Lanes

  /** base places a region among all the bytes there are, so that memory reachable under two names
      overlaps here as well. */
  datatype Local = Local(base: nat, length: nat, retired: bool, keys: map<string, nat>)

  datatype Remote = Remote(
    base: nat, length: nat, valid: bool, readable: bool, writable: bool, keys: map<string, nat>, generation: nat)

  datatype View = View(region: nat, offset: nat, length: nat)

  datatype Tables = Tables(locals: map<nat, Local>, remotes: map<nat, Remote>)

  datatype SubOp = SubOp(id: nat, near: nat, far: nat, length: nat, localKey: nat, remoteKey: nat)

  predicate Within(v: View, total: nat) {
    v.offset <= total && v.length <= total - v.offset
  }

  /** Both regions are known and current. */
  predicate Current(t: Tables, lv: View, rv: View) {
    && lv.region in t.locals && !t.locals[lv.region].retired
    && rv.region in t.remotes && t.remotes[rv.region].valid
  }

  /** The remote region was exported for what is to be done with it. */
  predicate Granted(r: Remote, isWrite: bool) {
    (isWrite ==> r.writable) && (!isWrite ==> r.readable)
  }

  predicate Permitted(t: Tables, lv: View, rv: View, isWrite: bool) {
    && Current(t, lv, rv) && Granted(t.remotes[rv.region], isWrite) && lv.length == rv.length
    && lv.offset + lv.length <= t.locals[lv.region].length && rv.offset + rv.length <= t.remotes[rv.region].length
  }

  /** Why a pair of segments is refused: each reason only once the earlier ones are ruled out. */
  predicate RefusedFor(t: Tables, lv: View, rv: View, isWrite: bool, status: Status) {
    match status
    case NotFound =>
      lv.region in t.locals ==> !t.locals[lv.region].retired && rv.region !in t.remotes
    case StaleGeneration =>
      && lv.region in t.locals
      && (!t.locals[lv.region].retired ==> rv.region in t.remotes && !t.remotes[rv.region].valid)
    case InvalidArgument =>
      Current(t, lv, rv) && (Granted(t.remotes[rv.region], isWrite) ==> lv.length != rv.length)
    case OutOfRange =>
      && Current(t, lv, rv) && Granted(t.remotes[rv.region], isWrite) && lv.length == rv.length
      && (lv.offset + lv.length > t.locals[lv.region].length || rv.offset + rv.length > t.remotes[rv.region].length)
    case _ => false
  }

  /** There is a reason exactly if the pair is not permitted, and then only one. */
  lemma OneReason(t: Tables, lv: View, rv: View, isWrite: bool, a: Status, b: Status)
    ensures RefusedFor(t, lv, rv, isWrite, a) && RefusedFor(t, lv, rv, isWrite, b) ==> a == b
    ensures RefusedFor(t, lv, rv, isWrite, a) ==> !Permitted(t, lv, rv, isWrite)
    ensures !Permitted(t, lv, rv, isWrite) ==>
              exists s ::
                s in {NotFound, StaleGeneration, InvalidArgument, OutOfRange} && RefusedFor(t, lv, rv, isWrite, s)
  {
    if !Permitted(t, lv, rv, isWrite) {
      var s := if lv.region !in t.locals then NotFound
               else if t.locals[lv.region].retired then StaleGeneration
               else if rv.region !in t.remotes then NotFound
               else if !t.remotes[rv.region].valid then StaleGeneration
               else if !Granted(t.remotes[rv.region], isWrite) || lv.length != rv.length then InvalidArgument
               else OutOfRange;
      assert RefusedFor(t, lv, rv, isWrite, s);
    }
  }

  /** A write copies outwards, a read inwards. */
  function Oriented(near: nat, far: nat, n: nat, isWrite: bool): Copy {
    if isWrite then Copy(far, near, n) else Copy(near, far, n)
  }

  function SegmentCopy(t: Tables, lv: View, rv: View, isWrite: bool): Copy
    requires lv.region in t.locals && rv.region in t.remotes
  {
    Oriented(t.locals[lv.region].base + lv.offset, t.remotes[rv.region].base + rv.offset, lv.length, isWrite)
  }

  ghost predicate AllChecked(t: Tables, local: seq<View>, remote: seq<View>, isWrite: bool) {
    |local| == |remote| && forall i :: 0 <= i < |local| ==> Permitted(t, local[i], remote[i], isWrite)
  }

  ghost function Segments(t: Tables, local: seq<View>, remote: seq<View>, isWrite: bool): (cs: seq<Copy>)
    requires AllChecked(t, local, remote, isWrite)
    ensures |cs| == |local| && forall i :: 0 <= i < |cs| ==> cs[i] == SegmentCopy(t, local[i], remote[i], isWrite)
  {
    seq(|local|, i requires 0 <= i < |local| => SegmentCopy(t, local[i], remote[i], isWrite))
  }

  function Pieces(ops: seq<SubOp>, isWrite: bool): (cs: seq<Copy>)
    ensures |cs| == |ops| && forall i :: 0 <= i < |cs| ==>
            cs[i] == Oriented(ops[i].near, ops[i].far, ops[i].length, isWrite)
  {
    seq(|ops|, i requires 0 <= i < |ops| => Oriented(ops[i].near, ops[i].far, ops[i].length, isWrite))
  }

  lemma PiecesAppend(ops: seq<SubOp>, op: SubOp, isWrite: bool)
    ensures Pieces(ops + [op], isWrite) == Pieces(ops, isWrite) + [Oriented(op.near, op.far, op.length, isWrite)]
  {
  }

  /** What lane k got, in the order it was dealt. */
  ghost function Given(all: seq<SubOp>, where: seq<nat>, k: nat): seq<SubOp>
    requires |where| == |all|
    decreases |all|
  {
    if all == [] then []
    else
      var n := |all| - 1;
      if where[n] == k then Given(all[..n], where[..n], k) + [all[n]] else Given(all[..n], where[..n], k)
  }

  function OpBytes(ops: seq<SubOp>): nat {
    if ops == [] then 0 else OpBytes(ops[..|ops| - 1]) + ops[|ops| - 1].length
  }

  /** The greatest chunk that is configured and that every lane with a limit can carry. */
  method LimitChunk(lanes: seq<Lane>, chunkBytes: nat) returns (chunk: nat)
    requires chunkBytes > 0
    ensures 0 < chunk <= chunkBytes
    ensures forall k :: 0 <= k < |lanes| && lanes[k].maxSegment > 0 ==> chunk <= lanes[k].maxSegment
    ensures chunk == chunkBytes || exists k :: 0 <= k < |lanes| && lanes[k].maxSegment == chunk
  {
    chunk := chunkBytes;
    for i := 0 to |lanes|
      invariant 0 < chunk <= chunkBytes
      invariant forall k :: 0 <= k < i && lanes[k].maxSegment > 0 ==> chunk <= lanes[k].maxSegment
      invariant chunk == chunkBytes || exists k :: 0 <= k < |lanes| && lanes[k].maxSegment == chunk
    {
      var most := lanes[i].maxSegment;
      if most > 0 && most < chunk { chunk := most; }
    }
  }

  /** The bytes dealt to each of n lanes. */
  ghost function GivenBytes(all: seq<SubOp>, where: seq<nat>, n: nat): (given: seq<nat>)
    requires |where| == |all|
    ensures |given| == n && forall k :: 0 <= k < n ==> given[k] == OpBytes(Given(all, where, k))
  {
    seq(n, k requires 0 <= k < n => OpBytes(Given(all, where, k)))
  }

  /** Each went to the lane that was cheapest for it then. */
  ghost predicate ByCost(all: seq<SubOp>, where: seq<nat>, lanes: seq<Lane>) {
    && |where| == |all|
    && forall i :: 0 <= i < |all| ==>
         Cheapest(lanes, GivenBytes(all[..i], where[..i], |lanes|), all[i].length, where[i])
  }

  /** The lanes hold exactly what was dealt, numbered in order, each where it cost least, and so
      evenly by weight. */
  ghost predicate Dealt(out: seq<seq<SubOp>>, given: seq<nat>, all: seq<SubOp>, where: seq<nat>, lanes: seq<Lane>,
                        chunk: nat) {
    && |out| == |lanes| && |given| == |lanes| && |where| == |all|
    && (forall i :: 0 <= i < |all| ==> where[i] < |lanes| && all[i].id == i)
    && (forall k :: 0 <= k < |lanes| ==> out[k] == Given(all, where, k) && given[k] == OpBytes(out[k]))
    && Total(given) == OpBytes(all) && Balanced(lanes, given, chunk) && ByCost(all, where, lanes)
  }

  lemma DealtBytes(out: seq<seq<SubOp>>, given: seq<nat>, all: seq<SubOp>, where: seq<nat>, lanes: seq<Lane>,
                   chunk: nat)
    requires Dealt(out, given, all, where, lanes, chunk)
    ensures given == GivenBytes(all, where, |lanes|)
  {
    hide Balanced, ByCost, Given, OpBytes, Total;
  }

  lemma ByCostNext(all: seq<SubOp>, where: seq<nat>, lanes: seq<Lane>, op: SubOp, lane: nat)
    requires ByCost(all, where, lanes) && Cheapest(lanes, GivenBytes(all, where, |lanes|), op.length, lane)
    ensures ByCost(all + [op], where + [lane], lanes)
  {
    hide Cheapest, GivenBytes;
    var all', where' := all + [op], where + [lane];
    forall i | 0 <= i < |all'|
      ensures Cheapest(lanes, GivenBytes(all'[..i], where'[..i], |lanes|), all'[i].length, where'[i])
    {
      assert all'[..i] == all[..i] && where'[..i] == where[..i];
      assert all[..|all|] == all && where[..|all|] == where;
    }
  }

  lemma CostsLeast(out: seq<seq<SubOp>>, given: seq<nat>, all: seq<SubOp>, where: seq<nat>, lanes: seq<Lane>,
                   chunk: nat, op: SubOp, lane: nat)
    requires Dealt(out, given, all, where, lanes, chunk) && Cheapest(lanes, given, op.length, lane)
    ensures lane < |lanes| && ByCost(all + [op], where + [lane], lanes)
  {
    DealtBytes(out, given, all, where, lanes, chunk);
    hide ByCost, Balanced, Given, OpBytes, Total, GivenBytes, Load, Weight;
    ByCostNext(all, where, lanes, op, lane);
  }

  lemma DealOne(out: seq<seq<SubOp>>, given: seq<nat>, all: seq<SubOp>, where: seq<nat>, lanes: seq<Lane>, chunk: nat,
                op: SubOp, lane: nat)
    requires Dealt(out, given, all, where, lanes, chunk) && op.id == |all| && op.length <= chunk
    requires Cheapest(lanes, given, op.length, lane)
    ensures |out| == |lanes| > lane
    ensures Dealt(out[lane := out[lane] + [op]], given[lane := given[lane] + op.length], all + [op], where + [lane],
                  lanes, chunk)
  {
    hide Cheapest, Balanced, ByCost, Given, OpBytes, Total, Load, Weight;
    CostsLeast(out, given, all, where, lanes, chunk, op, lane);
    BalanceSize(lanes, given, chunk);
    PickKeepsBalance(lanes, given, chunk, op.length, lane);
    TotalAdd(given, lane, op.length);
    OpBytesNext(all, op);
    OpBytesNext(out[lane], op);
    forall k | 0 <= k < |lanes|
      ensures Given(all + [op], where + [lane], k) == if k == lane then out[k] + [op] else out[k]
    {
      GivenNext(all, where, op, lane, k);
    }
  }

  lemma GivenNext(all: seq<SubOp>, where: seq<nat>, op: SubOp, lane: nat, k: nat)
    requires |where| == |all|
    ensures Given(all + [op], where + [lane], k) ==
            if k == lane then Given(all, where, k) + [op] else Given(all, where, k)
  {
    assert (all + [op])[..|all|] == all && (where + [lane])[..|all|] == where;
  }

  lemma OpBytesNext(ops: seq<SubOp>, op: SubOp)
    ensures OpBytes(ops + [op]) == OpBytes(ops) + op.length
  {
    assert (ops + [op])[..|ops|] == ops;
  }

  lemma {:induction false} TotalAdd(given: seq<nat>, k: nat, n: nat)
    requires k < |given|
    ensures Total(given[k := given[k] + n]) == Total(given) + n
    decreases |given|
  {
    var last := |given| - 1;
    if k == last {
      assert given[k := given[k] + n][..last] == given[..last];
    } else {
      TotalAdd(given[..last], k, n);
      assert given[k := given[k] + n][..last] == given[..last][k := given[k] + n];
    }
  }

  lemma {:induction false} TotalNone(given: seq<nat>)
    requires forall k :: 0 <= k < |given| ==> given[k] == 0
    ensures Total(given) == 0
    decreases |given|
  {
    if given != [] {
      TotalNone(given[..|given| - 1]);
    }
  }

  lemma BalanceSize(lanes: seq<Lane>, given: seq<nat>, chunk: nat)
    requires Balanced(lanes, given, chunk)
    ensures |given| == |lanes|
  {
  }

  /** Each sub-operation carries the keys of the lane it is for. */
  ghost predicate Keyed(ops: seq<SubOp>, where: seq<nat>, lanes: seq<Lane>, localKeys: map<string, nat>,
                        remoteKeys: map<string, nat>, from: nat) {
    && |where| == |ops|
    && forall i :: from <= i < |ops| ==>
         && where[i] < |lanes| && lanes[where[i]].name in localKeys && lanes[where[i]].name in remoteKeys
         && ops[i].localKey == localKeys[lanes[where[i]].name] && ops[i].remoteKey == remoteKeys[lanes[where[i]].name]
  }

  function Min(a: nat, b: nat): nat {
    if a < b then a else b
  }

  /** Cuts one checked segment and deals its chunks, up to one whose cheapest lane has no key for it. */
  method AddSegment(lr: Local, rr: Remote, near: nat, far: nat, length: nat, isWrite: bool, lanes: seq<Lane>,
                    chunk: nat, out0: seq<seq<SubOp>>, given0: seq<nat>, ghost all0: seq<SubOp>,
                    ghost where0: seq<nat>, nextId: nat)
    returns (status: Status, out: seq<seq<SubOp>>, given: seq<nat>, next: nat, ghost all: seq<SubOp>,
             ghost where: seq<nat>, ghost at: nat, ghost stuck: nat)
    requires chunk > 0 && lanes != [] && nextId == |all0| && Dealt(out0, given0, all0, where0, lanes, chunk)
    ensures status == Ok || status == Unsupported
    ensures status == Unsupported ==>
              && Dealt(out, given, all, where, lanes, chunk) && at < length
              && Pieces(all, isWrite) + Split(Oriented(near + at, far + at, length - at, isWrite), chunk) ==
                 Pieces(all0, isWrite) + Split(Oriented(near, far, length, isWrite), chunk)
              && Cheapest(lanes, given, Min(chunk, length - at), stuck)
              && !(lanes[stuck].name in lr.keys && lanes[stuck].name in rr.keys)
    ensures status == Ok ==>
              && Dealt(out, given, all, where, lanes, chunk) && next == |all| && all0 <= all && where0 <= where
              && Pieces(all, isWrite) == Pieces(all0, isWrite) + Split(Oriented(near, far, length, isWrite), chunk)
              && Keyed(all, where, lanes, lr.keys, rr.keys, |all0|)
  {
    hide Dealt, Load, Weight, Split, Pieces;
    status, out, given, next, all, where, at, stuck := Ok, out0, given0, nextId, all0, where0, 0, 0;
    var off := 0;
    DealtSizes(out, given, all, where, lanes, chunk);
    while off < length
      invariant 0 <= off <= length && next == |all| && all0 <= all && where0 <= where && status == Ok
      invariant Dealt(out, given, all, where, lanes, chunk) && |out| == |given| == |lanes| && |where| == |all|
      invariant Pieces(all, isWrite) + Split(Oriented(near + off, far + off, length - off, isWrite), chunk) ==
                Pieces(all0, isWrite) + Split(Oriented(near, far, length, isWrite), chunk)
      invariant Keyed(all, where, lanes, lr.keys, rr.keys, |all0|)
    {
      var n := length - off;
      if n > chunk { n := chunk; }
      var lane := PickLane(lanes, given, n);
      at, stuck := off, lane;
      if lanes[lane].name !in lr.keys { status := Unsupported; return; }
      if lanes[lane].name !in rr.keys { status := Unsupported; return; }
      var op := SubOp(next, near + off, far + off, n, lr.keys[lanes[lane].name], rr.keys[lanes[lane].name]);
      DealOne(out, given, all, where, lanes, chunk, op, lane);
      PiecesAppend(all, op, isWrite);
      SplitNext(near + off, far + off, length - off, isWrite, chunk);
      ghost var p := Pieces(all, isWrite);
      ghost var rest := Split(Oriented(near + off + n, far + off + n, length - off - n, isWrite), chunk);
      assert p + ([Oriented(near + off, far + off, n, isWrite)] + rest) ==
             (p + [Oriented(near + off, far + off, n, isWrite)]) + rest;
      out := out[lane := out[lane] + [op]];
      given := given[lane := given[lane] + n];
      all, where := all + [op], where + [lane];
      next := next + 1;
      off := off + n;
    }
    SplitNothing(near + off, far + off, isWrite, chunk);
    assert Pieces(all, isWrite) + [] == Pieces(all, isWrite);
  }

  lemma DealtSizes(out: seq<seq<SubOp>>, given: seq<nat>, all: seq<SubOp>, where: seq<nat>, lanes: seq<Lane>,
                   chunk: nat)
    requires Dealt(out, given, all, where, lanes, chunk)
    ensures |out| == |given| == |lanes| && |where| == |all|
  {
  }

  lemma SplitNext(near: nat, far: nat, length: nat, isWrite: bool, chunk: nat)
    requires chunk > 0 && length > 0
    ensures var n := if length > chunk then chunk else length;
            Split(Oriented(near, far, length, isWrite), chunk) ==
            [Oriented(near, far, n, isWrite)] + Split(Oriented(near + n, far + n, length - n, isWrite), chunk)
  {
  }

  lemma SplitNothing(near: nat, far: nat, isWrite: bool, chunk: nat)
    requires chunk > 0
    ensures Split(Oriented(near, far, 0, isWrite), chunk) == []
  {
  }

  /** A finished plan for these segments. */
  ghost predicate Planned(t: Tables, local: seq<View>, remote: seq<View>, isWrite: bool, lanes: seq<Lane>, chunk: nat,
                          out: seq<seq<SubOp>>, given: seq<nat>, all: seq<SubOp>, where: seq<nat>) {
    && chunk > 0 && AllChecked(t, local, remote, isWrite) && Dealt(out, given, all, where, lanes, chunk)
    && Pieces(all, isWrite) == SplitAll(Segments(t, local, remote, isWrite), chunk)
  }

  /** Each sub-operation was cut from segment seg of its own and carries the keys its lane's transport
      has for that segment's two regions. */
  ghost predicate AllKeyed(t: Tables, local: seq<View>, remote: seq<View>, isWrite: bool, lanes: seq<Lane>,
                           all: seq<SubOp>, where: seq<nat>, seg: seq<nat>) {
    && |seg| == |where| == |all| && |local| == |remote|
    && forall i :: 0 <= i < |all| ==>
         && seg[i] < |local| && where[i] < |lanes|
         && OpKeyed(t, local[seg[i]], remote[seg[i]], isWrite, lanes[where[i]].name, all[i])
  }

  predicate OpKeyed(t: Tables, lv: View, rv: View, isWrite: bool, lane: string, op: SubOp) {
    && lv.region in t.locals && rv.region in t.remotes
    && lane in t.locals[lv.region].keys && lane in t.remotes[rv.region].keys
    && op.localKey == t.locals[lv.region].keys[lane] && op.remoteKey == t.remotes[rv.region].keys[lane]
    && PartOf(Oriented(op.near, op.far, op.length, isWrite), SegmentCopy(t, lv, rv, isWrite))
  }

  /** The transport of that lane has keys for both of a segment's regions. */
  predicate HasKeys(t: Tables, lv: View, rv: View, lane: Lane) {
    && lv.region in t.locals && rv.region in t.remotes
    && lane.name in t.locals[lv.region].keys && lane.name in t.remotes[rv.region].keys
  }

  /** Everything before byte at of segment i was dealt, and the next chunk costs least on a lane whose
      transport has no key for that segment. */
  ghost predicate Stuck(t: Tables, local: seq<View>, remote: seq<View>, isWrite: bool, lanes: seq<Lane>, chunk: nat,
                        given: seq<nat>, all: seq<SubOp>, i: nat, at: nat, lane: nat) {
    && chunk > 0 && i < |local| == |remote| && AllChecked(t, local[..i + 1], remote[..i + 1], isWrite)
    && Current(t, local[i], remote[i]) && at < local[i].length
    && (var lr, rr := t.locals[local[i].region], t.remotes[remote[i].region];
        Pieces(all, isWrite) + Split(Oriented(lr.base + local[i].offset + at, rr.base + remote[i].offset + at,
                                              local[i].length - at, isWrite), chunk) ==
        SplitAll(Segments(t, local[..i + 1], remote[..i + 1], isWrite), chunk))
    && Cheapest(lanes, given, Min(chunk, local[i].length - at), lane)
    && !HasKeys(t, local[i], remote[i], lanes[lane])
  }

  lemma SegmentKeyed(t: Tables, local: seq<View>, remote: seq<View>, isWrite: bool, lanes: seq<Lane>, chunk: nat,
                     i: nat, all0: seq<SubOp>, where0: seq<nat>, seg0: seq<nat>,
                     all: seq<SubOp>, where: seq<nat>, seg: seq<nat>)
    requires chunk > 0 && i < |local| == |remote| && Permitted(t, local[i], remote[i], isWrite)
    requires AllKeyed(t, local, remote, isWrite, lanes, all0, where0, seg0)
    requires all0 <= all && where0 <= where && |where| == |all| && seg == seg0 + seq(|all| - |all0|, _ => i)
    requires var lr, rr := t.locals[local[i].region], t.remotes[remote[i].region];
             Keyed(all, where, lanes, lr.keys, rr.keys, |all0|)
    requires Pieces(all, isWrite) == Pieces(all0, isWrite) + Split(SegmentCopy(t, local[i], remote[i], isWrite), chunk)
    ensures AllKeyed(t, local, remote, isWrite, lanes, all, where, seg)
  {
    hide Split;
    var c := SegmentCopy(t, local[i], remote[i], isWrite);
    forall n | 0 <= n < |all|
      ensures seg[n] < |local| && where[n] < |lanes|
              && OpKeyed(t, local[seg[n]], remote[seg[n]], isWrite, lanes[where[n]].name, all[n])
    {
      if n < |all0| {
        assert all[n] == all0[n] && where[n] == where0[n] && seg[n] == seg0[n];
      } else {
        SplitParts(c, chunk, n - |all0|);
        assert Pieces(all, isWrite)[n] == Split(c, chunk)[n - |all0|];
      }
    }
  }

  /** Nothing is wrong with these segments, and every lane's transport has keys for them. */
  ghost predicate KeyedAndChecked(t: Tables, local: seq<View>, remote: seq<View>, isWrite: bool, lanes: seq<Lane>) {
    && AllChecked(t, local, remote, isWrite)
    && forall i, k :: 0 <= i < |local| && 0 <= k < |lanes| ==> HasKeys(t, local[i], remote[i], lanes[k])
  }

  /** The whole of build_subops. Refused with the first thing wrong, it plans nothing; otherwise
      the chunks dealt out are exactly the segments cut up. */
  method BuildSubops(t: Tables, local: seq<View>, remote: seq<View>, isWrite: bool, lanes: seq<Lane>, chunkBytes: nat)
    returns (status: Status, out: seq<seq<SubOp>>, total: nat, chunk: nat,
             ghost given: seq<nat>, ghost all: seq<SubOp>, ghost where: seq<nat>, ghost seg: seq<nat>)
    requires chunkBytes > 0 && |local| == |remote|
    ensures lanes == [] ==> status == NotFound
    ensures 0 < chunk <= chunkBytes
    ensures forall k :: 0 <= k < |lanes| && lanes[k].maxSegment > 0 ==> chunk <= lanes[k].maxSegment
    ensures status == Ok ==> Planned(t, local, remote, isWrite, lanes, chunk, out, given, all, where)
    ensures status == Ok ==> total == Bytes(Segments(t, local, remote, isWrite))
    ensures status == Ok ==> AllKeyed(t, local, remote, isWrite, lanes, all, where, seg)
    ensures status == Ok ==> forall i :: 0 <= i < |local| ==>
              && local[i].region in t.locals && !t.locals[local[i].region].retired
              && remote[i].region in t.remotes && t.remotes[remote[i].region].valid
              && (if isWrite then t.remotes[remote[i].region].writable else t.remotes[remote[i].region].readable)
              && local[i].length == remote[i].length
              && local[i].offset + local[i].length <= t.locals[local[i].region].length
              && remote[i].offset + remote[i].length <= t.remotes[remote[i].region].length
    ensures status != Ok && lanes != [] ==>
              exists i :: 0 <= i < |local| && AllChecked(t, local[..i], remote[..i], isWrite)
                && (RefusedFor(t, local[i], remote[i], isWrite, status)
                    || (status == Unsupported && Dealt(out, given, all, where, lanes, chunk)
                        && exists at, lane :: Stuck(t, local, remote, isWrite, lanes, chunk, given, all, i, at, lane)))
    ensures lanes != [] && KeyedAndChecked(t, local, remote, isWrite, lanes) ==> status == Ok
    ensures forall i ::
              (0 <= i < |local| && lanes != [] && KeyedAndChecked(t, local[..i], remote[..i], isWrite, lanes) &&
               !Permitted(t, local[i], remote[i], isWrite)) ==>
                RefusedFor(t, local[i], remote[i], isWrite, status)
  {
    hide Dealt, Load, Weight, Split, Pieces, SplitAll, Balanced, OpKeyed, Keyed, AllKeyed, Bytes, Permitted, RefusedFor,
         Stuck, Cheapest, KeyedAndChecked, AllChecked, HasKeys, Segments;
    total, all, where, seg := 0, [], [], [];
    NothingKeyed(t, local, remote, isWrite, lanes, all, where, seg);
    chunk := LimitChunk(lanes, chunkBytes);
    if lanes == [] {
      given := [];
      return NotFound, [], 0, chunk, given, all, where, seg;
    }
    out := seq(|lanes|, _ => []);
    var assignedTo: seq<nat> := seq(|lanes|, _ => 0);
    given := assignedTo;
    NothingDealt(out, assignedTo, lanes, chunk);
    NothingCut(t, local, remote, isWrite, chunk);
    var next := 0;
    for i := 0 to |local|
      invariant AllChecked(t, local[..i], remote[..i], isWrite)
      invariant Dealt(out, assignedTo, all, where, lanes, chunk) && next == |all| && given == assignedTo
      invariant Pieces(all, isWrite) == SplitAll(Segments(t, local[..i], remote[..i], isWrite), chunk)
      invariant total == Bytes(Segments(t, local[..i], remote[..i], isWrite))
      invariant AllKeyed(t, local, remote, isWrite, lanes, all, where, seg)
    {
      status := CheckSegment(t, local[i], remote[i], isWrite);
      if status != Ok {
        RefusedHere(t, local, remote, isWrite, lanes, i, status);
        return;
      }
      Checked(t, local[i], remote[i], isWrite);
      var lr, rr := t.locals[local[i].region], t.remotes[remote[i].region];
      total := total + local[i].length;
      ghost var all0, where0, seg0 := all, where, seg;
      ghost var at, stuck;
      status, out, assignedTo, next, all, where, at, stuck :=
        AddSegment(lr, rr, lr.base + local[i].offset, rr.base + remote[i].offset, local[i].length, isWrite,
                   lanes, chunk, out, assignedTo, all, where, next);
      given := assignedTo;
      OneSegmentMore(t, local, remote, isWrite, i, chunk);
      if status != Ok {
        StuckHere(t, local, remote, isWrite, lanes, chunk, given, all, i, at, stuck);
        return;
      }
      DealtSizes(out, assignedTo, all, where, lanes, chunk);
      seg := seg0 + seq(|all| - |all0|, _ => i);
      SegmentKeyed(t, local, remote, isWrite, lanes, chunk, i, all0, where0, seg0, all, where, seg);
    }
    assert local[..|local|] == local && remote[..|remote|] == remote;
    CheckedMeans(t, local, remote, isWrite);
    status := Ok;
  }

  /** With nothing wrong before it, a segment that is not permitted decides the answer. */
  lemma RefusedHere(t: Tables, local: seq<View>, remote: seq<View>, isWrite: bool, lanes: seq<Lane>, i: nat,
                    status: Status)
    requires i < |local| == |remote| && AllChecked(t, local[..i], remote[..i], isWrite)
    requires RefusedFor(t, local[i], remote[i], isWrite, status) && !Permitted(t, local[i], remote[i], isWrite)
    ensures !KeyedAndChecked(t, local, remote, isWrite, lanes)
    ensures forall j ::
              (0 <= j < |local| && KeyedAndChecked(t, local[..j], remote[..j], isWrite, lanes) &&
               !Permitted(t, local[j], remote[j], isWrite)) ==>
                RefusedFor(t, local[j], remote[j], isWrite, status)
  {
    hide Permitted, RefusedFor, HasKeys;
    forall j | 0 <= j < |local| && KeyedAndChecked(t, local[..j], remote[..j], isWrite, lanes) &&
               !Permitted(t, local[j], remote[j], isWrite)
      ensures j == i
    {
      FirstIsFirst(t, local, remote, isWrite, i, j);
      FirstIsFirst(t, local, remote, isWrite, j, i);
    }
  }

  lemma FirstIsFirst(t: Tables, local: seq<View>, remote: seq<View>, isWrite: bool, i: nat, j: nat)
    requires i < |local| == |remote| && AllChecked(t, local[..i], remote[..i], isWrite)
    requires j < |local| && !Permitted(t, local[j], remote[j], isWrite)
    ensures i <= j
  {
    hide Permitted;
    assert forall n :: 0 <= n < i ==> local[..i][n] == local[n] && remote[..i][n] == remote[n];
  }

  lemma StuckHere(t: Tables, local: seq<View>, remote: seq<View>, isWrite: bool, lanes: seq<Lane>, chunk: nat,
                  given: seq<nat>, all: seq<SubOp>, i: nat, at: nat, lane: nat)
    requires chunk > 0 && i < |local| == |remote| && AllChecked(t, local[..i + 1], remote[..i + 1], isWrite)
    requires Permitted(t, local[i], remote[i], isWrite) && at < local[i].length
    requires var lr, rr := t.locals[local[i].region], t.remotes[remote[i].region];
             && Pieces(all, isWrite) + Split(Oriented(lr.base + local[i].offset + at, rr.base + remote[i].offset + at,
                                                      local[i].length - at, isWrite), chunk) ==
                SplitAll(Segments(t, local[..i + 1], remote[..i + 1], isWrite), chunk)
             && Cheapest(lanes, given, Min(chunk, local[i].length - at), lane)
             && !(lanes[lane].name in lr.keys && lanes[lane].name in rr.keys)
    ensures Stuck(t, local, remote, isWrite, lanes, chunk, given, all, i, at, lane)
    ensures !KeyedAndChecked(t, local, remote, isWrite, lanes)
    ensures forall j ::
              (0 <= j < |local| && KeyedAndChecked(t, local[..j], remote[..j], isWrite, lanes)) ==>
                Permitted(t, local[j], remote[j], isWrite)
  {
    hide Split, SplitAll, Pieces, Load, Weight;
    forall j | 0 <= j < |local| && KeyedAndChecked(t, local[..j], remote[..j], isWrite, lanes)
      ensures Permitted(t, local[j], remote[j], isWrite)
    {
      if i < j {
        KeysBefore(t, local, remote, isWrite, lanes, j, i, lane);
      } else {
        assert local[..i + 1][j] == local[j] && remote[..i + 1][j] == remote[j];
      }
    }
  }

  lemma KeysBefore(t: Tables, local: seq<View>, remote: seq<View>, isWrite: bool, lanes: seq<Lane>, n: nat, i: nat,
                   lane: nat)
    requires i < n <= |local| == |remote| && lane < |lanes|
    requires KeyedAndChecked(t, local[..n], remote[..n], isWrite, lanes)
    ensures HasKeys(t, local[i], remote[i], lanes[lane])
  {
    assert local[..n][i] == local[i] && remote[..n][i] == remote[i];
  }

  lemma CheckedMeans(t: Tables, local: seq<View>, remote: seq<View>, isWrite: bool)
    requires AllChecked(t, local, remote, isWrite)
    ensures forall i :: 0 <= i < |local| ==>
              && Permitted(t, local[i], remote[i], isWrite)
              && local[i].region in t.locals && !t.locals[local[i].region].retired
              && remote[i].region in t.remotes && t.remotes[remote[i].region].valid
              && (if isWrite then t.remotes[remote[i].region].writable else t.remotes[remote[i].region].readable)
              && local[i].length == remote[i].length
              && local[i].offset + local[i].length <= t.locals[local[i].region].length
              && remote[i].offset + remote[i].length <= t.remotes[remote[i].region].length
  {
  }

  /** The checks as they are made. */
  method CheckSegment(t: Tables, lv: View, rv: View, isWrite: bool) returns (status: Status)
    ensures status == Ok <==> Permitted(t, lv, rv, isWrite)
    ensures status != Ok ==> RefusedFor(t, lv, rv, isWrite, status)
    ensures status == NotFound <==>
              lv.region !in t.locals || (!t.locals[lv.region].retired && rv.region !in t.remotes)
    ensures status == StaleGeneration <==>
              && lv.region in t.locals
              && (t.locals[lv.region].retired || (rv.region in t.remotes && !t.remotes[rv.region].valid))
    ensures status != NotFound && status != StaleGeneration ==>
              var lr, rr := t.locals[lv.region], t.remotes[rv.region];
              && (status == InvalidArgument <==>
                    !(if isWrite then rr.writable else rr.readable) || lv.length != rv.length)
              && (status == Ok <==>
                    && (if isWrite then rr.writable else rr.readable) && lv.length == rv.length
                    && lv.offset + lv.length <= lr.length && rv.offset + rv.length <= rr.length)
              && (status == Ok || status == InvalidArgument || status == OutOfRange)
  {
    if lv.region !in t.locals { return NotFound; }
    var lr := t.locals[lv.region];
    if lr.retired { return StaleGeneration; }
    if rv.region !in t.remotes { return NotFound; }
    var rr := t.remotes[rv.region];
    if !rr.valid { return StaleGeneration; }
    var granted := if isWrite then rr.writable else rr.readable;
    if !granted { return InvalidArgument; }
    if lv.length != rv.length { return InvalidArgument; }
    if !Within(lv, lr.length) { return OutOfRange; }
    if !Within(rv, rr.length) { return OutOfRange; }
    status := Ok;
  }

  lemma NothingKeyed(t: Tables, local: seq<View>, remote: seq<View>, isWrite: bool, lanes: seq<Lane>,
                     all: seq<SubOp>, where: seq<nat>, seg: seq<nat>)
    requires all == [] && where == [] && seg == [] && |local| == |remote|
    ensures AllKeyed(t, local, remote, isWrite, lanes, all, where, seg)
  {
  }

  lemma NothingDealt(out: seq<seq<SubOp>>, given: seq<nat>, lanes: seq<Lane>, chunk: nat)
    requires |out| == |given| == |lanes| && forall k :: 0 <= k < |lanes| ==> out[k] == [] && given[k] == 0
    ensures Dealt(out, given, [], [], lanes, chunk)
  {
    StartsBalanced(lanes, given, chunk);
    TotalNone(given);
  }

  lemma NothingCut(t: Tables, local: seq<View>, remote: seq<View>, isWrite: bool, chunk: nat)
    requires chunk > 0 && |local| == |remote|
    ensures AllChecked(t, local[..0], remote[..0], isWrite)
    ensures var none := Segments(t, local[..0], remote[..0], isWrite);
            Pieces([], isWrite) == SplitAll(none, chunk) && Bytes(none) == 0
  {
  }

  lemma OneSegmentMore(t: Tables, local: seq<View>, remote: seq<View>, isWrite: bool, i: nat, chunk: nat)
    requires chunk > 0 && i < |local| == |remote|
    requires AllChecked(t, local[..i], remote[..i], isWrite) && Permitted(t, local[i], remote[i], isWrite)
    ensures AllChecked(t, local[..i + 1], remote[..i + 1], isWrite)
    ensures var before := Segments(t, local[..i], remote[..i], isWrite);
            var after := Segments(t, local[..i + 1], remote[..i + 1], isWrite);
            && SplitAll(after, chunk) ==
               SplitAll(before, chunk) + Split(SegmentCopy(t, local[i], remote[i], isWrite), chunk)
            && Bytes(after) == Bytes(before) + local[i].length
  {
    hide Split, Permitted;
    assert forall j :: 0 <= j < i ==> local[..i + 1][j] == local[..i][j] && remote[..i + 1][j] == remote[..i][j];
    Checked(t, local[i], remote[i], isWrite);
    var before := Segments(t, local[..i], remote[..i], isWrite);
    var after := Segments(t, local[..i + 1], remote[..i + 1], isWrite);
    assert after[..i] == before;
  }

  lemma Checked(t: Tables, lv: View, rv: View, isWrite: bool)
    requires Permitted(t, lv, rv, isWrite)
    ensures lv.region in t.locals && rv.region in t.remotes && lv.length == rv.length
    ensures Within(lv, t.locals[lv.region].length) && Within(rv, t.remotes[rv.region].length)
  {
  }

  // ---------------- what a plan does ----------------

  /** Every sub-operation stays inside the local and the remote view it was cut from, and so inside
      their regions, and is no longer than a chunk. */
  lemma OpsStayInBounds(t: Tables, local: seq<View>, remote: seq<View>, isWrite: bool, lanes: seq<Lane>, chunk: nat,
                        out: seq<seq<SubOp>>, given: seq<nat>, all: seq<SubOp>, where: seq<nat>, i: nat)
    returns (j: nat)
    requires Planned(t, local, remote, isWrite, lanes, chunk, out, given, all, where) && i < |all|
    ensures j < |local| && local[j].region in t.locals && remote[j].region in t.remotes && 0 < all[i].length <= chunk
    ensures var lr := t.locals[local[j].region];
            lr.base + local[j].offset <= all[i].near
              && all[i].near + all[i].length <= lr.base + local[j].offset + local[j].length
            && all[i].near + all[i].length <= lr.base + lr.length
    ensures var rr := t.remotes[remote[j].region];
            rr.base + remote[j].offset <= all[i].far
              && all[i].far + all[i].length <= rr.base + remote[j].offset + remote[j].length
            && all[i].far + all[i].length <= rr.base + rr.length
  {
    hide Dealt, SplitAll, Permitted;
    j := PieceOf(Segments(t, local, remote, isWrite), chunk, i);
    Checked(t, local[j], remote[j], isWrite);
  }

  lemma {:induction false} PieceBytes(ops: seq<SubOp>, isWrite: bool)
    ensures Bytes(Pieces(ops, isWrite)) == OpBytes(ops)
    decreases |ops|
  {
    if ops != [] {
      PieceBytes(ops[..|ops| - 1], isWrite);
      assert Pieces(ops, isWrite)[..|ops| - 1] == Pieces(ops[..|ops| - 1], isWrite);
    }
  }

  /** No lane is ahead of another by more than one chunk, by weight; none is given more than its share
      of the transfer and one chunk for each other lane; and one without a positive weight gets as
      much as one of 1e-9 would. */
  lemma LaneShare(t: Tables, local: seq<View>, remote: seq<View>, isWrite: bool, lanes: seq<Lane>, chunk: nat,
                  out: seq<seq<SubOp>>, given: seq<nat>, all: seq<SubOp>, where: seq<nat>, k: nat, most: nat)
    requires Planned(t, local, remote, isWrite, lanes, chunk, out, given, all, where) && k < |lanes| == |out|
    requires most == Bytes(Segments(t, local, remote, isWrite)) + (|lanes| - 1) * chunk
    ensures |given| == |lanes| && forall j :: 0 <= j < |lanes| ==> given[j] == OpBytes(out[j])
    ensures forall j :: 0 <= j < |lanes| && lanes[j].weight > 0.0 ==>
              given[k] as real * lanes[j].weight <=
              (given[j] + chunk) as real * (if lanes[k].weight > 0.0 then lanes[k].weight else 0.000000001)
    ensures (forall j :: 0 <= j < |lanes| ==> lanes[j].weight > 0.0) ==>
              given[k] as real * WeightSum(lanes) <= lanes[k].weight * most as real
  {
    hide Weight, WeightSum, Balanced, Total, Bytes, Segments, AllChecked, Planned;
    DealtTotal(t, local, remote, isWrite, lanes, chunk, out, given, all, where);
    AheadByOne(lanes, given, chunk, k);
    if forall j :: 0 <= j < |lanes| ==> lanes[j].weight > 0.0 {
      ShareBound(lanes, given, chunk, k, most);
    }
  }

  lemma DealtTotal(t: Tables, local: seq<View>, remote: seq<View>, isWrite: bool, lanes: seq<Lane>, chunk: nat,
                   out: seq<seq<SubOp>>, given: seq<nat>, all: seq<SubOp>, where: seq<nat>)
    requires Planned(t, local, remote, isWrite, lanes, chunk, out, given, all, where)
    ensures AllChecked(t, local, remote, isWrite) && Total(given) == Bytes(Segments(t, local, remote, isWrite))
    ensures Balanced(lanes, given, chunk) && |given| == |lanes| == |out|
    ensures forall j :: 0 <= j < |lanes| ==> given[j] == OpBytes(out[j])
  {
    hide Balanced, SplitAll, Total, Bytes, OpBytes, Given, Segments, ByCost, AllChecked;
    PieceBytes(all, isWrite);
    SplitAllBytes(Segments(t, local, remote, isWrite), chunk);
  }

  function Flat(out: seq<seq<SubOp>>): seq<SubOp> {
    if out == [] then [] else Flat(out[..|out| - 1]) + out[|out| - 1]
  }

  lemma {:induction false} InFlat(out: seq<seq<SubOp>>, k: nat, op: SubOp)
    requires k < |out| && op in out[k]
    ensures op in Flat(out)
    decreases |out|
  {
    if k < |out| - 1 {
      InFlat(out[..|out| - 1], k, op);
    }
  }

  lemma {:induction false} FromFlat(out: seq<seq<SubOp>>, op: SubOp) returns (k: nat)
    requires op in Flat(out)
    ensures k < |out| && op in out[k]
    decreases |out|
  {
    if op in out[|out| - 1] {
      k := |out| - 1;
    } else {
      k := FromFlat(out[..|out| - 1], op);
    }
  }

  lemma {:induction false} InGiven(all: seq<SubOp>, where: seq<nat>, k: nat, op: SubOp)
    requires |where| == |all|
    ensures op in Given(all, where, k) <==> exists i :: 0 <= i < |all| && all[i] == op && where[i] == k
    decreases |all|
  {
    if all != [] {
      var n := |all| - 1;
      InGiven(all[..n], where[..n], k, op);
      if op in Given(all[..n], where[..n], k) {
        var i :| 0 <= i < n && all[..n][i] == op && where[..n][i] == k;
        assert all[i] == op && where[i] == k;
      }
      if i :| 0 <= i < |all| && all[i] == op && where[i] == k {
        assert i < n ==> all[..n][i] == op && where[..n][i] == k;
      }
    }
  }

  lemma LanesHoldAll(out: seq<seq<SubOp>>, given: seq<nat>, all: seq<SubOp>, where: seq<nat>, lanes: seq<Lane>,
                     chunk: nat, op: SubOp)
    requires Dealt(out, given, all, where, lanes, chunk)
    ensures op in Flat(out) <==> op in all
  {
    hide Flat, Given, Balanced;
    if op in all {
      var i :| 0 <= i < |all| && all[i] == op;
      InGiven(all, where, where[i], op);
      InFlat(out, where[i], op);
    }
    if op in Flat(out) {
      var k := FromFlat(out, op);
      InGiven(all, where, k, op);
    }
  }

  /** However the lanes' work is interleaved, memory ends up as if every segment had been copied
      whole, provided the targets are disjoint from each other and from the sources. */
  lemma AnyScheduleMovesTheSegments(t: Tables, local: seq<View>, remote: seq<View>, isWrite: bool, lanes: seq<Lane>,
                                    chunk: nat, out: seq<seq<SubOp>>, given: seq<nat>, all: seq<SubOp>, where: seq<nat>,
                                    order: seq<SubOp>, m: Memory, a: nat)
    requires Planned(t, local, remote, isWrite, lanes, chunk, out, given, all, where)
    requires Disjoint(Segments(t, local, remote, isWrite))
    requires multiset(order) == multiset(Flat(out))
    ensures ApplyAll(Pieces(order, isWrite), m)(a) == ApplyAll(Segments(t, local, remote, isWrite), m)(a)
  {
    hide Dealt, SplitAll, ApplyAll, Disjoint, Flat, AllChecked, Segments;
    forall op ensures op in order <==> op in all {
      assert op in multiset(order) <==> op in multiset(Flat(out));
      LanesHoldAll(out, given, all, where, lanes, chunk, op);
    }
    SamePieces(order, all, isWrite);
    AnyOrderIsOneCopy(Segments(t, local, remote, isWrite), chunk, Pieces(order, isWrite), m, a);
  }

  lemma SamePieces(a: seq<SubOp>, b: seq<SubOp>, isWrite: bool)
    requires forall op :: op in a <==> op in b
    ensures forall x :: x in Pieces(a, isWrite) <==> x in Pieces(b, isWrite)
  {
    forall x ensures x in Pieces(a, isWrite) <==> x in Pieces(b, isWrite) {
      if x in Pieces(a, isWrite) {
        OnePiece(a, b, isWrite, x);
      }
      if x in Pieces(b, isWrite) {
        OnePiece(b, a, isWrite, x);
      }
    }
  }

  lemma OnePiece(a: seq<SubOp>, b: seq<SubOp>, isWrite: bool, x: Copy)
    requires (forall op :: op in a ==> op in b) && x in Pieces(a, isWrite)
    ensures x in Pieces(b, isWrite)
  {
    var i :| 0 <= i < |a| && Pieces(a, isWrite)[i] == x;
    assert a[i] in b;
    var j :| 0 <= j < |b| && b[j] == a[i];
    assert Pieces(b, isWrite)[j] == x;
  }

  // ---------------- the ranges a handoff names ----------------

  datatype Target = Target(region: nat, generation: nat, offset: nat, length: nat)

  /** One byte of one incarnation of a region. */
  datatype Place = Place(region: nat, generation: nat, byte: nat)

  function Named(t: Target): (ps: seq<Place>)
    ensures |ps| == t.length && forall i :: 0 <= i < |ps| ==> ps[i] == Place(t.region, t.generation, t.offset + i)
  {
    seq(t.length, i requires 0 <= i => Place(t.region, t.generation, t.offset + i))
  }

  function NamedAll(ts: seq<Target>): seq<Place> {
    if ts == [] then [] else NamedAll(ts[..|ts| - 1]) + Named(ts[|ts| - 1])
  }

  predicate Follows(a: Target, b: Target) {
    a.region == b.region && a.generation == b.generation && a.offset + a.length == b.offset
  }

  lemma NamedAppend(ts: seq<Target>, t: Target)
    ensures NamedAll(ts + [t]) == NamedAll(ts) + Named(t)
  {
    assert (ts + [t])[..|ts|] == ts;
  }

  lemma NamedExtend(ts: seq<Target>, t: Target)
    requires ts != [] && Follows(ts[|ts| - 1], t)
    ensures var n := |ts| - 1;
            NamedAll(ts[n := ts[n].(length := ts[n].length + t.length)]) == NamedAll(ts) + Named(t)
  {
    var n := |ts| - 1;
    var joined := ts[n].(length := ts[n].length + t.length);
    assert ts[n := joined][..n] == ts[..n];
    assert Named(joined) == Named(ts[n]) + Named(t);
    assert NamedAll(ts[..n]) + (Named(ts[n]) + Named(t)) == (NamedAll(ts[..n]) + Named(ts[n])) + Named(t);
  }

  /** The targets a request keeps for its handoff. */
  class TargetList {
    var targets: seq<Target>

    constructor ()
      ensures targets == []
    {
      targets := [];
    }

    /** Joined to the last range where it carries on from it, and nothing else is named. */
    method AddRemoteTarget(t: Target)
      modifies this
      ensures NamedAll(targets) == old(NamedAll(targets)) + Named(t)
      ensures old(Joined(targets)) ==> Joined(targets)
      ensures t.length > 0 && old(NoEmpty(targets)) ==> NoEmpty(targets)
    {
      if targets != [] {
        var n := |targets| - 1;
        var last := targets[n];
        if last.region == t.region && last.generation == t.generation && last.offset + last.length == t.offset {
          NamedExtend(targets, t);
          targets := targets[n := last.(length := last.length + t.length)];
          return;
        }
      }
      NamedAppend(targets, t);
      targets := targets + [t];
    }

    /** submit_vector: every segment that moves bytes. */
    method AddAll(segs: seq<Target>)
      modifies this
      ensures NamedAll(targets) == old(NamedAll(targets)) + NamedAll(segs)
      ensures old(Joined(targets)) ==> Joined(targets)
      ensures old(NoEmpty(targets)) ==> NoEmpty(targets)
    {
      assert segs[..0] == [];
      for i := 0 to |segs|
        invariant NamedAll(targets) == old(NamedAll(targets)) + NamedAll(segs[..i])
        invariant old(Joined(targets)) ==> Joined(targets)
        invariant old(NoEmpty(targets)) ==> NoEmpty(targets)
      {
        assert segs[..i + 1] == segs[..i] + [segs[i]];
        NamedAppend(segs[..i], segs[i]);
        if segs[i].length == 0 {
          assert Named(segs[i]) == [];
          continue;
        }
        AddRemoteTarget(segs[i]);
      }
      assert segs[..|segs|] == segs;
    }
  }

  ghost predicate NoEmpty(ts: seq<Target>) {
    forall i :: 0 <= i < |ts| ==> ts[i].length > 0
  }

  /** No two neighbours could have been joined. */
  ghost predicate Joined(ts: seq<Target>) {
    forall i :: 0 < i < |ts| ==> !Follows(ts[i - 1], ts[i])
  }

  // ---------------- and the bytes a write changes ----------------

  /** The targets submit_vector adds for a write. */
  ghost function TargetsOf(t: Tables, remote: seq<View>): (ts: seq<Target>)
    requires forall i :: 0 <= i < |remote| ==> remote[i].region in t.remotes
    ensures |ts| == |remote|
    ensures forall i :: 0 <= i < |ts| ==>
              ts[i] == Target(remote[i].region, t.remotes[remote[i].region].generation, remote[i].offset,
                              remote[i].length)
  {
    seq(|remote|, i requires 0 <= i < |remote| =>
      Target(remote[i].region, t.remotes[remote[i].region].generation, remote[i].offset, remote[i].length))
  }

  lemma {:induction false} InNamedAll(ts: seq<Target>, j: nat, k: nat)
    requires j < |ts| && k < ts[j].length
    ensures Place(ts[j].region, ts[j].generation, ts[j].offset + k) in NamedAll(ts)
    decreases |ts|
  {
    var n := |ts| - 1;
    if j == n {
      assert Named(ts[n])[k] in Named(ts[n]);
    } else {
      InNamedAll(ts[..n], j, k);
    }
  }

  lemma {:induction false} FromNamedAll(ts: seq<Target>, x: Place) returns (j: nat)
    requires x in NamedAll(ts)
    ensures j < |ts| && x.region == ts[j].region && x.generation == ts[j].generation
    ensures ts[j].offset <= x.byte < ts[j].offset + ts[j].length
    decreases |ts|
  {
    var n := |ts| - 1;
    if x in Named(ts[n]) {
      j := n;
    } else {
      j := FromNamedAll(ts[..n], x);
    }
  }

  /** Some sub-operation writes the byte at a. */
  ghost predicate Writes(all: seq<SubOp>, a: nat) {
    exists i :: 0 <= i < |all| && all[i].far <= a < all[i].far + all[i].length
  }

  /** Some place the targets name is the byte at a. */
  ghost predicate Names(t: Tables, ts: seq<Target>, a: nat) {
    exists x :: x in NamedAll(ts) && x.region in t.remotes && t.remotes[x.region].base + x.byte == a
  }

  /** The bytes the handoff of a write names are exactly the bytes its sub-operations write. */
  lemma HandoffNamesWhatIsWritten(t: Tables, local: seq<View>, remote: seq<View>, lanes: seq<Lane>, chunk: nat,
                                  out: seq<seq<SubOp>>, given: seq<nat>, all: seq<SubOp>, where: seq<nat>, a: nat)
    requires Planned(t, local, remote, true, lanes, chunk, out, given, all, where)
    ensures forall i :: 0 <= i < |remote| ==> remote[i].region in t.remotes
    ensures Writes(all, a) <==> Names(t, TargetsOf(t, remote), a)
  {
    hide Dealt, SplitAll, Permitted, NamedAll;
    forall i | 0 <= i < |remote|
      ensures remote[i].region in t.remotes && local[i].region in t.locals && local[i].length == remote[i].length
    {
      Checked(t, local[i], remote[i], true);
    }
    var segs, ts := Segments(t, local, remote, true), TargetsOf(t, remote);
    if Writes(all, a) {
      var i :| 0 <= i < |all| && all[i].far <= a < all[i].far + all[i].length;
      var j := PieceOf(segs, chunk, i);
      var k := a - t.remotes[remote[j].region].base - ts[j].offset;
      InNamedAll(ts, j, k);
    }
    if Names(t, ts, a) {
      var x :| x in NamedAll(ts) && x.region in t.remotes && t.remotes[x.region].base + x.byte == a;
      var j := FromNamedAll(ts, x);
      var i := PieceAt(segs, chunk, j, a);
      assert Pieces(all, true)[i] == Oriented(all[i].near, all[i].far, all[i].length, true);
    }
  }
}
