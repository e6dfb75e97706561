/** The plan of one submit(): which queue pair each operation goes to, which of them ask for a
    completion, and what it claims from the controller. */
module RdmaPlan {
  import opened RdmaLine
  import opened Controllers
  import C = Congestion
  import T = Timely

  datatype SubOp = SubOp(key: Key, registered: bool) // whether the local key names a region

  datatype Planned = Planned(qp: nat, signal: bool)

  function Dir(k: Key): C.Direction {
    if k.isWrite then C.WriteDir else C.ReadDir
  }

  // ---------------- what a plan puts where ----------------

  /** What a plan puts on queue pair q. */
  function On(plan: seq<Planned>, ops: seq<SubOp>, q: nat): seq<Wr>
    requires |plan| <= |ops|
    decreases |plan|
  {
    if plan == [] then []
    else
      var n := |plan| - 1;
      var before := On(plan[..n], ops, q);
      if plan[n].qp == q then before + [Wr(ops[n].key, plan[n].signal)] else before
  }

  lemma OnAppend(plan: seq<Planned>, p: Planned, ops: seq<SubOp>, q: nat)
    requires |plan| < |ops|
    ensures On(plan + [p], ops, q) ==
            if p.qp == q then On(plan, ops, q) + [Wr(ops[|plan|].key, p.signal)] else On(plan, ops, q)
  {
    assert (plan + [p])[..|plan|] == plan;
  }

  lemma OnNext(plan: seq<Planned>, ops: seq<SubOp>, q: nat, k: nat)
    requires k < |plan| <= |ops|
    ensures On(plan[..k + 1], ops, q) ==
            if plan[k].qp == q then On(plan[..k], ops, q) + [Wr(ops[k].key, plan[k].signal)] else On(plan[..k], ops, q)
  {
    assert plan[..k + 1] == plan[..k] + [plan[k]];
    OnAppend(plan[..k], plan[k], ops, q);
  }

  lemma {:induction false} OnPrefix(plan: seq<Planned>, ops: seq<SubOp>, q: nat, k: nat, n: nat)
    requires k <= n <= |plan| <= |ops|
    ensures On(plan[..k], ops, q) <= On(plan[..n], ops, q)
    decreases n - k
  {
    if k < n {
      OnPrefix(plan, ops, q, k, n - 1);
      OnNext(plan, ops, q, n - 1);
    }
  }

  /** Where the i-th request on queue pair q comes from. */
  lemma {:induction false} OnAt(plan: seq<Planned>, ops: seq<SubOp>, q: nat, n: nat, i: nat) returns (k: nat)
    requires n <= |plan| <= |ops| && i < |On(plan[..n], ops, q)|
    ensures k < n && plan[k].qp == q && |On(plan[..k], ops, q)| == i
    ensures On(plan[..n], ops, q)[i] == Wr(ops[k].key, plan[k].signal)
  {
    OnNext(plan, ops, q, n - 1);
    if i < |On(plan[..n - 1], ops, q)| {
      k := OnAt(plan, ops, q, n - 1, i);
    } else {
      k := n - 1;
    }
  }

  predicate SameQueues(plan: seq<Planned>, anchored: seq<Planned>) {
    |anchored| == |plan| && forall k :: 0 <= k < |plan| ==> anchored[k].qp == plan[k].qp
  }

  lemma {:induction false} SameSizes(plan: seq<Planned>, anchored: seq<Planned>, ops: seq<SubOp>, q: nat, n: nat)
    requires SameQueues(plan, anchored) && n <= |plan| <= |ops|
    ensures |On(anchored[..n], ops, q)| == |On(plan[..n], ops, q)|
  {
    if n > 0 {
      SameSizes(plan, anchored, ops, q, n - 1);
      OnNext(plan, ops, q, n - 1);
      OnNext(anchored, ops, q, n - 1);
    }
  }

  // ---------------- signalling ----------------

  /** Requests since the last signalled one, after posting ws on top of s. */
  function SinceAfter(s: nat, ws: seq<Wr>): nat {
    if ws == [] then s else if ws[|ws| - 1].signalled then 0 else SinceAfter(s, ws[..|ws| - 1]) + 1
  }

  /** Whether the next request on q after ws has to ask for its completion: the period is up, or it
      leaves the queue three quarters full or more. */
  predicate Owed(q: QueuePair, ws: seq<Wr>, depth: nat, period: nat) {
    SinceAfter(q.sinceSignal, ws) + 1 >= period || q.posted + |ws| - q.reclaimed + 1 >= depth - depth / 4
  }

  /** Each request of ws asks for its completion exactly if it has to. */
  ghost predicate SignalsExactly(q: QueuePair, ws: seq<Wr>, depth: nat, period: nat) {
    forall i :: 0 <= i < |ws| ==> (ws[i].signalled <==> Owed(q, ws[..i], depth, period))
  }

  lemma SignalsAppend(q: QueuePair, ws: seq<Wr>, w: Wr, depth: nat, period: nat)
    requires SignalsExactly(q, ws, depth, period) && (w.signalled <==> Owed(q, ws, depth, period))
    ensures SignalsExactly(q, ws + [w], depth, period)
  {
    forall i | 0 <= i < |ws + [w]| ensures (ws + [w])[i].signalled <==> Owed(q, (ws + [w])[..i], depth, period) {
      assert (ws + [w])[..i] == ws[..i];
      assert ws[..|ws|] == ws;
    }
  }

  /** Besides those that have to, the last request of ws asks for its completion, and no other. */
  ghost predicate Anchors(q: QueuePair, ws: seq<Wr>, depth: nat, period: nat) {
    forall i :: 0 <= i < |ws| ==> (ws[i].signalled <==> i == |ws| - 1 || Owed(q, ws[..i], depth, period))
  }

  predicate EndsSignalled(ws: seq<Wr>) {
    ws != [] ==> ws[|ws| - 1].signalled
  }

  /** The last entry of the plan for its queue pair. */
  predicate LastOn(plan: seq<Planned>, k: nat)
    requires k < |plan|
  {
    forall j :: k < j < |plan| ==> plan[j].qp != plan[k].qp
  }

  /** The plan with the last operation on every queue pair it touches marked. */
  ghost function AnchorOf(plan: seq<Planned>): (anchored: seq<Planned>)
    ensures SameQueues(plan, anchored)
    ensures forall k :: 0 <= k < |plan| ==> anchored[k].signal == (plan[k].signal || LastOn(plan, k))
  {
    seq(|plan|, k requires 0 <= k < |plan| => Planned(plan[k].qp, plan[k].signal || LastOn(plan, k)))
  }

  /** An entry is the last on its queue pair exactly if it is the last of what the plan puts there. */
  lemma LastOnIs(plan: seq<Planned>, ops: seq<SubOp>, k: nat)
    requires k < |plan| <= |ops|
    ensures LastOn(plan, k) <==> |On(plan[..k], ops, plan[k].qp)| == |On(plan, ops, plan[k].qp)| - 1
  {
    var q := plan[k].qp;
    OnNext(plan, ops, q, k);
    NothingAfter(plan, ops, q, k + 1);
    assert plan[..|plan|] == plan;
    OnPrefix(plan, ops, q, k + 1, |plan|);
  }

  lemma {:induction false} NothingAfter(plan: seq<Planned>, ops: seq<SubOp>, q: nat, k: nat)
    requires k <= |plan| <= |ops|
    ensures (forall j :: k <= j < |plan| ==> plan[j].qp != q) <==> |On(plan[..k], ops, q)| == |On(plan, ops, q)|
    decreases |plan| - k
  {
    assert plan[..|plan|] == plan;
    if k < |plan| {
      NothingAfter(plan, ops, q, k + 1);
      OnNext(plan, ops, q, k);
      OnPrefix(plan, ops, q, k + 1, |plan|);
    }
  }

  /** Two entries for the same queue pair with as many before them are one. */
  lemma SameEntry(plan: seq<Planned>, ops: seq<SubOp>, q: nat, a: nat, b: nat)
    requires a < |plan| <= |ops| && b < |plan| && plan[a].qp == plan[b].qp == q
    requires |On(plan[..a], ops, q)| == |On(plan[..b], ops, q)|
    ensures a == b
  {
    OnNext(plan, ops, q, a);
    OnNext(plan, ops, q, b);
    if a < b {
      OnPrefix(plan, ops, q, a + 1, b);
    } else if b < a {
      OnPrefix(plan, ops, q, b + 1, a);
    }
  }

  /** What anchoring does to one queue pair's share. */
  lemma AnchoredShare(plan: seq<Planned>, ops: seq<SubOp>, q: nat, i: nat)
    requires |plan| <= |ops|
    ensures |On(AnchorOf(plan), ops, q)| == |On(plan, ops, q)|
    ensures i < |On(plan, ops, q)| ==>
              On(AnchorOf(plan), ops, q)[i] ==
              Wr(On(plan, ops, q)[i].key, On(plan, ops, q)[i].signalled || i == |On(plan, ops, q)| - 1)
  {
    hide On, LastOn;
    var anchored := AnchorOf(plan);
    SameSizes(plan, anchored, ops, q, |plan|);
    assert plan[..|plan|] == plan && anchored[..|plan|] == anchored;
    if i < |On(plan, ops, q)| {
      var k := OnAt(plan, ops, q, |plan|, i);
      var k' := OnAt(anchored, ops, q, |plan|, i);
      SameSizes(plan, anchored, ops, q, k');
      SameEntry(plan, ops, q, k, k');
      LastOnIs(plan, ops, k);
    }
  }

  lemma AnchoringAnchors(q: QueuePair, plan: seq<Planned>, ops: seq<SubOp>, qi: nat, depth: nat, period: nat)
    requires |plan| <= |ops| && SignalsExactly(q, On(plan, ops, qi), depth, period)
    ensures Anchors(q, On(AnchorOf(plan), ops, qi), depth, period)
  {
    hide On, AnchorOf, Owed;
    var ws, anchored := On(plan, ops, qi), On(AnchorOf(plan), ops, qi);
    AnchoredShare(plan, ops, qi, 0);
    forall i | 0 <= i < |anchored|
      ensures anchored[i].signalled <==> i == |anchored| - 1 || Owed(q, anchored[..i], depth, period)
    {
      forall j | 0 <= j <= i ensures anchored[j] == Wr(ws[j].key, ws[j].signalled || j == |ws| - 1) {
        AnchoredShare(plan, ops, qi, j);
      }
      assert anchored[..i] == ws[..i];
    }
  }

  /** After a batch of which the first accepted operations were posted, what queue pair q got ends
      signalled exactly if it got all the plan had for it, or its last one had to be signalled anyway. */
  lemma TailSignalledIff(q: QueuePair, plan: seq<Planned>, ops: seq<SubOp>, qi: nat, accepted: nat, depth: nat,
                         period: nat)
    requires accepted <= |plan| <= |ops| && Anchors(q, On(plan, ops, qi), depth, period)
    ensures var posted := On(plan[..accepted], ops, qi);
            EndsSignalled(posted) <==>
              posted == [] || posted == On(plan, ops, qi) || Owed(q, posted[..|posted| - 1], depth, period)
  {
    hide On, Owed;
    assert plan[..|plan|] == plan;
    OnPrefix(plan, ops, qi, accepted, |plan|);
    var posted, all := On(plan[..accepted], ops, qi), On(plan, ops, qi);
    if posted != [] {
      var n := |posted| - 1;
      assert posted[n] == all[n] && posted[..n] == all[..n];
      assert n == |all| - 1 ==> posted == all;
    }
  }

  /** Signals come often: a run without one never reaches the period, if it had not before. */
  lemma {:induction false} SignalsOften(q: QueuePair, ws: seq<Wr>, depth: nat, period: nat)
    requires q.sinceSignal < period
    requires forall i :: 0 <= i < |ws| && Owed(q, ws[..i], depth, period) ==> ws[i].signalled
    ensures SinceAfter(q.sinceSignal, ws) < period
    decreases |ws|
  {
    if ws != [] {
      var n := |ws| - 1;
      forall i | 0 <= i < n && Owed(q, ws[..n][..i], depth, period) ensures ws[..n][i].signalled {
        assert ws[..n][..i] == ws[..i];
      }
      SignalsOften(q, ws[..n], depth, period);
    }
  }

  /** However many of a plan's operations are posted, no queue pair goes a whole period unsignalled. */
  lemma KeepsSignalling(q: QueuePair, plan: seq<Planned>, ops: seq<SubOp>, qi: nat, accepted: nat, depth: nat,
                        period: nat)
    requires accepted <= |plan| <= |ops| && Anchors(q, On(plan, ops, qi), depth, period) && q.sinceSignal < period
    ensures PostAll(q, On(plan[..accepted], ops, qi)).sinceSignal < period
  {
    hide On, Owed;
    assert plan[..|plan|] == plan;
    OnPrefix(plan, ops, qi, accepted, |plan|);
    var posted, all := On(plan[..accepted], ops, qi), On(plan, ops, qi);
    forall i | 0 <= i < |posted| && Owed(q, posted[..i], depth, period) ensures posted[i].signalled {
      assert posted[i] == all[i] && posted[..i] == all[..i];
    }
    SignalsOften(q, posted, depth, period);
    PostAllSince(q, posted);
  }

  lemma {:induction false} PostAllSince(q: QueuePair, ws: seq<Wr>)
    ensures PostAll(q, ws).sinceSignal == SinceAfter(q.sinceSignal, ws)
    decreases |ws|
  {
    if ws != [] {
      PostAllSince(q, ws[..|ws| - 1]);
    }
  }

  lemma PostAllAppend(q: QueuePair, ws: seq<Wr>, w: Wr)
    ensures PostAll(q, ws + [w]) == PostOne(PostAll(q, ws), w)
  {
    assert (ws + [w])[..|ws|] == ws;
  }

  // ---------------- planning ----------------

  /** The controller after the first k operations were claimed, each at its own time. */
  ghost function ClaimAll(c: Ctl, ops: seq<SubOp>, nows: seq<int>, k: nat): (r: Ctl)
    requires Running(c) && k <= |ops| == |nows|
    ensures Running(r) && SameKind(c, r)
  {
    if k == 0 then c
    else
      var before := ClaimAll(c, ops, nows, k - 1);
      ClaimCounts(before, Dir(ops[k - 1].key), ops[k - 1].key.bytes, nows[k - 1]);
      Claim(before, Dir(ops[k - 1].key), ops[k - 1].key.bytes, nows[k - 1])
  }

  /** And after those from..until were given back. */
  ghost function ReleaseFrom(c: Ctl, ops: seq<SubOp>, from: nat, until: nat): (r: Ctl)
    requires Running(c) && from <= until <= |ops|
    ensures Running(r) && SameKind(c, r)
    decreases until
  {
    if from == until then c
    else
      var before := ReleaseFrom(c, ops, from, until - 1);
      ReleaseCounts(before, Dir(ops[until - 1].key), ops[until - 1].key.bytes);
      Release(before, Dir(ops[until - 1].key), ops[until - 1].key.bytes)
  }

  /** The next operation may be planned as p: its key names a region, its queue pair has room on top
      of the plan, the controller lets it through now, and it asks for its completion if it has to. */
  ghost predicate CanPlan(qs: seq<QueuePair>, c: Ctl, ops: seq<SubOp>, plan: seq<Planned>, p: Planned, now: int,
                          depth: nat, period: nat)
  {
    && |plan| < |ops| && ops[|plan|].registered && p.qp < |qs|
    && qs[p.qp].posted + |On(plan, ops, p.qp)| - qs[p.qp].reclaimed < depth
    && Allows(c, Dir(ops[|plan|].key), ops[|plan|].key.bytes, now)
    && p.signal == Owed(qs[p.qp], On(plan, ops, p.qp), depth, period)
  }

  /** A plan made one operation after another, each claimed before the next was looked at. */
  ghost predicate Plans(qs: seq<QueuePair>, c: Ctl, ops: seq<SubOp>, nows: seq<int>, plan: seq<Planned>, depth: nat,
                        period: nat)
    requires Running(c) && |plan| <= |ops| == |nows|
    decreases |plan|
  {
    plan == [] ||
    (var n := |plan| - 1;
     Plans(qs, c, ops, nows, plan[..n], depth, period) &&
     CanPlan(qs, ClaimAll(c, ops, nows, n), ops, plan[..n], plan[n], nows[n], depth, period))
  }

  /** What a plan leaves a queue pair with: within its depth, signalling exactly as it has to. */
  ghost predicate Fits(q: QueuePair, ws: seq<Wr>, depth: nat, period: nat) {
    && (ws != [] ==> q.posted + |ws| - q.reclaimed <= depth)
    && SignalsExactly(q, ws, depth, period)
  }

  lemma FitsNext(qs: seq<QueuePair>, c: Ctl, ops: seq<SubOp>, plan: seq<Planned>, p: Planned, now: int, depth: nat,
                 period: nat, q: nat)
    requires CanPlan(qs, c, ops, plan, p, now, depth, period) && q < |qs|
             && Fits(qs[q], On(plan, ops, q), depth, period)
    ensures Fits(qs[q], On(plan + [p], ops, q), depth, period)
  {
    hide On, Owed, SignalsExactly;
    OnAppend(plan, p, ops, q);
    if p.qp == q {
      SignalsAppend(qs[q], On(plan, ops, q), Wr(ops[|plan|].key, p.signal), depth, period);
    }
  }

  lemma {:induction false} PlansFit(qs: seq<QueuePair>, c: Ctl, ops: seq<SubOp>, nows: seq<int>, plan: seq<Planned>,
                                    depth: nat, period: nat, q: nat)
    requires Running(c) && |plan| <= |ops| == |nows| && Plans(qs, c, ops, nows, plan, depth, period) && q < |qs|
    ensures Fits(qs[q], On(plan, ops, q), depth, period)
    ensures forall k :: 0 <= k < |plan| ==> plan[k].qp < |qs| && ops[k].registered
    decreases |plan|
  {
    if plan != [] {
      var n := |plan| - 1;
      PlansFit(qs, c, ops, nows, plan[..n], depth, period, q);
      assert plan == plan[..n] + [plan[n]];
      FitsNext(qs, ClaimAll(c, ops, nows, n), ops, plan[..n], plan[n], nows[n], depth, period, q);
    }
  }

  // ---------------- retiring ----------------

  /** The controller after one retired request was reported to it. */
  function GiveBack(c: Ctl, key: Key, ok: bool, rtt: int, now: int): Ctl {
    if ok then Feedback(c, Dir(key), key.bytes, rtt, now) else Release(c, Dir(key), key.bytes)
  }

  lemma GiveBackCounts(c: Ctl, key: Key, ok: bool, rtt: int, now: int)
    requires Running(c)
    ensures var c', d := GiveBack(c, key, ok, rtt, now), Dir(key);
            && Running(c') && SameKind(c, c')
            && Used(c', d) == Used(c, d) - (if key.bytes < Used(c, d) then key.bytes else Used(c, d))
            && forall o :: o != d ==> Used(c', o) == Used(c, o)
  {
    if ok {
      FeedbackCounts(c, Dir(key), key.bytes, rtt, now);
    } else {
      ReleaseCounts(c, Dir(key), key.bytes);
    }
  }

  /** Only a success teaches TIMELY anything: it is a sample, of its own direction. */
  lemma GiveBackTeaches(c: Ctl, key: Key, ok: bool, rtt: int, now: int)
    requires c.Adaptive?
    ensures var c', d := GiveBack(c, key, ok, rtt, now), Dir(key);
            && c'.Adaptive? && c'.p == c.p && (forall o :: o != d ==> DirOf(c', o) == DirOf(c, o))
            && (!ok ==> DirOf(c', d) == DirOf(c, d).(inflight := DirOf(c', d).inflight))
            && (ok ==> DirOf(c', d) == T.Updated(c.p, T.Released(DirOf(c, d), key.bytes), rtt, now))
  {
    hide T.Updated;
  }

  function GiveBackAll(c: Ctl, keys: seq<Key>, ok: bool, rtts: seq<int>, now: int): Ctl
    requires |rtts| >= |keys|
    decreases |keys|
  {
    if keys == [] then c
    else
      var n := |keys| - 1;
      GiveBack(GiveBackAll(c, keys[..n], ok, rtts, now), keys[n], ok, rtts[n], now)
  }

  // ---------------- bytes ----------------

  function Bytes(ops: seq<SubOp>, d: C.Direction): nat {
    if ops == [] then 0
    else
      var n := |ops| - 1;
      Bytes(ops[..n], d) + (if Dir(ops[n].key) == d then ops[n].key.bytes else 0)
  }

  lemma BytesNext(ops: seq<SubOp>, n: nat, d: C.Direction)
    requires n < |ops|
    ensures Bytes(ops[..n + 1], d) == Bytes(ops[..n], d) + (if Dir(ops[n].key) == d then ops[n].key.bytes else 0)
  {
    assert ops[..n + 1][..n] == ops[..n];
  }

  lemma {:induction false} BytesGrow(ops: seq<SubOp>, i: nat, j: nat, d: C.Direction)
    requires i <= j <= |ops|
    ensures Bytes(ops[..i], d) <= Bytes(ops[..j], d)
    decreases j - i
  {
    if i < j {
      BytesNext(ops, j - 1, d);
      BytesGrow(ops, i, j - 1, d);
    }
  }

  lemma {:induction false} ClaimAllUses(c: Ctl, ops: seq<SubOp>, nows: seq<int>, k: nat, d: C.Direction)
    requires Running(c) && k <= |ops| == |nows|
    ensures Used(ClaimAll(c, ops, nows, k), d) == Used(c, d) + Bytes(ops[..k], d)
  {
    if k > 0 {
      ClaimAllUses(c, ops, nows, k - 1, d);
      BytesNext(ops, k - 1, d);
      ClaimCounts(ClaimAll(c, ops, nows, k - 1), Dir(ops[k - 1].key), ops[k - 1].key.bytes, nows[k - 1]);
    }
  }

  lemma {:induction false} ReleaseFromUses(c: Ctl, ops: seq<SubOp>, from: nat, until: nat, d: C.Direction)
    requires Running(c) && from <= until <= |ops| && Bytes(ops[..until], d) <= Used(c, d) + Bytes(ops[..from], d)
    ensures Used(ReleaseFrom(c, ops, from, until), d) + Bytes(ops[..until], d) == Used(c, d) + Bytes(ops[..from], d)
    decreases until
  {
    if from != until {
      BytesNext(ops, until - 1, d);
      ReleaseFromUses(c, ops, from, until - 1, d);
      ReleaseCounts(ReleaseFrom(c, ops, from, until - 1), Dir(ops[until - 1].key), ops[until - 1].key.bytes);
    }
  }

  function QueueBytes(ps: seq<Posted>, d: C.Direction): nat {
    if ps == [] then 0
    else
      var n := |ps| - 1;
      QueueBytes(ps[..n], d) + (if Dir(ps[n].key) == d then ps[n].key.bytes else 0)
  }

  lemma QueueBytesAppend(ps: seq<Posted>, p: Posted, d: C.Direction)
    ensures QueueBytes(ps + [p], d) == QueueBytes(ps, d) + (if Dir(p.key) == d then p.key.bytes else 0)
  {
    assert (ps + [p])[..|ps|] == ps;
  }

  lemma {:induction false} QueueBytesFront(ps: seq<Posted>, d: C.Direction)
    requires ps != []
    ensures QueueBytes(ps, d) == (if Dir(ps[0].key) == d then ps[0].key.bytes else 0) + QueueBytes(ps[1..], d)
    decreases |ps|
  {
    var n := |ps| - 1;
    if n > 0 {
      QueueBytesFront(ps[..n], d);
      assert ps[..n][1..] == ps[1..][..n - 1];
    }
  }

  /** The bytes posted and not yet retired over all queue pairs. */
  function Total(qs: seq<QueuePair>, d: C.Direction): nat {
    if qs == [] then 0 else Total(qs[..|qs| - 1], d) + QueueBytes(qs[|qs| - 1].unsignalled, d)
  }

  lemma {:induction false} TotalUpdate(qs: seq<QueuePair>, i: nat, q: QueuePair, d: C.Direction)
    requires i < |qs|
    ensures Total(qs[i := q], d) + QueueBytes(qs[i].unsignalled, d) == Total(qs, d) + QueueBytes(q.unsignalled, d)
    decreases |qs|
  {
    var n := |qs| - 1;
    if i == n {
      assert qs[i := q][..n] == qs[..n];
    } else {
      TotalUpdate(qs[..n], i, q, d);
      assert qs[i := q][..n] == qs[..n][i := q];
    }
  }

  lemma {:induction false} TotalOfIdle(qs: seq<QueuePair>, d: C.Direction)
    requires forall q :: 0 <= q < |qs| ==> qs[q].unsignalled == []
    ensures Total(qs, d) == 0
    decreases |qs|
  {
    if qs != [] {
      TotalOfIdle(qs[..|qs| - 1], d);
    }
  }
}
