/** RdmaProvider::submit and the retirement loop of poll() on one connection: planning a batch
    over the queue pairs, claiming budget for it, leaving every queue pair it touches with a
    signalled request, posting it, and giving back the budget of what was not posted. */
module RdmaSubmit {
  import opened Status
  import opened RdmaLine
  import opened Controllers
  import opened RdmaPlan
  import C = Congestion

  function Room(depth: nat, q: QueuePair): nat {
    var used := q.posted - q.reclaimed;
    if used >= depth || used < 0 then 0 else depth - used
  }

  function Rooms(depth: nat, qs: seq<QueuePair>): nat {
    if qs == [] then 0 else Rooms(depth, qs[..|qs| - 1]) + Room(depth, qs[|qs| - 1])
  }

  /** The k-th queue pair of a rotation. */
  function Rotated(start: nat, k: nat, n: nat): (q: nat)
    requires start < n && k < n
    ensures q == (if start + k < n then start + k else start + k - n) < n
  {
    (start + k) % n
  }

  /** Whoever comes before best in the rotation has less room. */
  ghost predicate FirstFrom(qs: seq<QueuePair>, depth: nat, start: nat, best: nat)
    requires start < |qs| && best < |qs|
  {
    exists k :: && 0 <= k < |qs|
                && best == Rotated(start, k, |qs|)
                && forall j :: 0 <= j < k ==> Room(depth, qs[Rotated(start, j, |qs|)]) < Room(depth, qs[best])
  }

  /** The queue pair with the most room has none left for one more on top of the plan. */
  ghost predicate NoneFits(qs: seq<QueuePair>, depth: nat, plan: seq<Planned>, ops: seq<SubOp>)
    requires |plan| <= |ops|
  {
    exists q :: && 0 <= q < |qs|
                && (forall r :: 0 <= r < |qs| ==> Room(depth, qs[r]) <= Room(depth, qs[q]))
                && (Room(depth, qs[q]) == 0 || qs[q].posted + |On(plan, ops, q)| - qs[q].reclaimed >= depth)
  }

  lemma NoneFitsOn(qs: seq<QueuePair>, depth: nat, plan: seq<Planned>, ops: seq<SubOp>, q: nat)
    requires |plan| <= |ops| && q < |qs| && forall r :: 0 <= r < |qs| ==> Room(depth, qs[r]) <= Room(depth, qs[q])
    requires Room(depth, qs[q]) == 0 || qs[q].posted + |On(plan, ops, q)| - qs[q].reclaimed >= depth
    ensures NoneFits(qs, depth, plan, ops)
  {
  }

  /** Why a plan ends before the operations do: no region, no budget at that time, or no room. */
  ghost predicate StopsFor(qs: seq<QueuePair>, c: Ctl, ops: seq<SubOp>, nows: seq<int>, plan: seq<Planned>, depth: nat,
                           status: Status)
    requires |plan| <= |ops| == |nows|
  {
    |plan| < |ops| &&
    (var op := ops[|plan|];
     if !op.registered then status == NotFound
     else status == WouldBlock && (!Allows(c, Dir(op.key), op.key.bytes, nows[|plan|])
                                   || NoneFits(qs, depth, plan, ops)))
  }

  class RdmaConnection {
    const depth: nat
    const period: nat
    const cc: Controller
    var qps: seq<QueuePair>
    var nextQp: nat
    var failed: bool

    constructor (depth: nat, period: nat, cc: Controller, n: nat)
      requires n > 0 && cc.Valid()
      ensures Valid() && |qps| == n && this.cc == cc && this.depth == depth && this.period == period && !failed
      ensures forall q :: 0 <= q < n ==> qps[q] == IDLE.q
    {
      this.depth, this.period, this.cc := depth, period, cc;
      qps := seq(n, _ => QueuePair(0, 0, 0, []));
      nextQp, failed := 0, false;
      new;
      forall d ensures Total(qps, d) == 0 {
        TotalOfIdle(qps, d);
      }
    }

    ghost predicate Valid()
      reads this, cc.Repr()
    {
      && nextQp < |qps|
      && (forall q :: 0 <= q < |qps| ==> qps[q].reclaimed <= qps[q].posted)
      && cc.Valid()
      && (forall d :: Total(qps, d) <= Used(cc.View(), d))
    }

    /** Room left over all queue pairs. */
    method Capacity() returns (room: nat)
      ensures room == Rooms(depth, qps)
    {
      room := 0;
      for i := 0 to |qps|
        invariant room == Rooms(depth, qps[..i])
      {
        assert qps[..i + 1][..i] == qps[..i];
        room := room + Room(depth, qps[i]);
      }
      assert qps[..|qps|] == qps;
    }

    /** Nobody has more room than the one picked, the first such from a rotating start. */
    method PickQueuePair() returns (found: bool, best: nat)
      requires nextQp < |qps|
      modifies `nextQp
      ensures nextQp == (if |qps| == 1 then 0 else Rotated(old(nextQp), 1, |qps|))
      ensures found ==> best < |qps| && Room(depth, qps[best]) > 0
      ensures found ==> FirstFrom(qps, depth, old(nextQp), best)
      ensures forall q :: 0 <= q < |qps| ==> Room(depth, qps[q]) <= if found then Room(depth, qps[best]) else 0
    {
      var n := |qps|;
      found, best := false, 0;
      ghost var at := 0;
      var bestRoom := 0;
      for i := 0 to n
        invariant found ==> best < n && Room(depth, qps[best]) == bestRoom > 0
        invariant found ==> 0 <= at < i && best == Rotated(nextQp, at, n)
        invariant found ==> forall j :: 0 <= j < at ==> Room(depth, qps[Rotated(nextQp, j, n)]) < bestRoom
        invariant !found ==> bestRoom == 0
        invariant forall k :: 0 <= k < i ==> Room(depth, qps[Rotated(nextQp, k, n)]) <= bestRoom
      {
        var q := Rotated(nextQp, i, n);
        var used := qps[q].posted - qps[q].reclaimed;
        var room := if used >= depth || used < 0 then 0 else depth - used;
        if room > bestRoom {
          bestRoom, best, found := room, q, true;
          at := i;
        }
      }
      forall q | 0 <= q < n ensures Room(depth, qps[q]) <= bestRoom {
        var k := if nextQp <= q then q - nextQp else q + n - nextQp;
        assert Rotated(nextQp, k, n) == q;
      }
      nextQp := if n == 1 then 0 else Rotated(nextQp, 1, n);
    }

    /** Assigns as many operations as budget and room allow, in order, claiming budget for each;
        nows are the times the clock is read at. */
    method PlanBatch(ops: seq<SubOp>, nows: seq<int>) returns (plan: seq<Planned>, status: Status)
      requires nextQp < |qps| && |nows| == |ops| && cc.Valid()
      modifies `nextQp, cc.Repr()
      ensures nextQp < |qps| && cc.Valid()
      ensures |plan| <= |ops| && Plans(qps, old(cc.View()), ops, nows, plan, depth, period)
      ensures cc.View() == ClaimAll(old(cc.View()), ops, nows, |plan|)
      ensures status != Ok ==> |plan| < |ops| && status == if ops[|plan|].registered then WouldBlock else NotFound
      ensures if status == Ok then |plan| == |ops|
              else |plan| < |ops| && StopsFor(qps, cc.View(), ops, nows, plan, depth, status)
    {
      hide On, ClaimAll, Allows, Room, NoneFits, FirstFrom, SinceAfter, Running, Used, Plans, Tracked, Owed, CanPlan;
      plan, status := [], Ok;
      NothingPlanned(qps, cc.View(), ops, nows, plan, depth, period);
      var qs := qps;
      var nextSeq: seq<nat> := seq(|qs|, q requires 0 <= q < |qs| => qs[q].posted);
      var since: seq<nat> := seq(|qs|, q requires 0 <= q < |qs| => qs[q].sinceSignal);
      TrackedStart(qps, ops, plan, nextSeq, since);
      for i := 0 to |ops|
        invariant nextQp < |qps| && cc.Valid()
        invariant status == Ok && |plan| == i && |nextSeq| == |since| == |qps|
        invariant Plans(qps, old(cc.View()), ops, nows, plan, depth, period)
        invariant cc.View() == ClaimAll(old(cc.View()), ops, nows, i)
        invariant Tracked(qps, ops, plan, nextSeq, since)
      {
        if !ops[i].registered { status := NotFound; break; }
        var found, qi := PickQueuePair();
        if !found {
          status := WouldBlock;
          NoneFitsOn(qps, depth, plan, ops, 0);
          break;
        }
        TrackedAt(qps, ops, plan, nextSeq, since, qi);
        var used := nextSeq[qi] - qps[qi].reclaimed;
        if used >= depth {
          status := WouldBlock;
          NoneFitsOn(qps, depth, plan, ops, qi);
          break;
        }
        var d := Dir(ops[i].key);
        var allowed := cc.Allow(d, ops[i].key.bytes, nows[i]);
        if !allowed { status := WouldBlock; break; }
        var signal := since[qi] + 1 >= period || used + 1 >= depth - depth / 4;
        PlanTracked(qps, cc.View(), ops, nows, plan, nextSeq, since, Planned(qi, signal), depth, period);
        PlanNext(qps, old(cc.View()), ops, nows, plan, Planned(qi, signal), depth, period);
        TrackedStep(qps, ops, plan, nextSeq, since, Planned(qi, signal));
        cc.OnPost(d, ops[i].key.bytes, nows[i]);
        since := since[qi := if signal then 0 else since[qi] + 1];
        nextSeq := nextSeq[qi := nextSeq[qi] + 1];
        plan := plan + [Planned(qi, signal)];
      }
    }

    /** Hands the plan to the adapter until it refuses one, at refuseAt. */
    method PostPlan(plan: seq<Planned>, ops: seq<SubOp>, refuseAt: nat, outOfMemory: bool)
      returns (accepted: nat, status: Status)
      requires |plan| <= |ops| && forall k :: 0 <= k < |plan| ==> plan[k].qp < |qps|
      modifies `qps
      ensures accepted == (if refuseAt < |plan| then refuseAt else |plan|)
      ensures status == (if accepted == |plan| then Ok else if outOfMemory then WouldBlock else TransportError)
      ensures |qps| == old(|qps|)
      ensures forall q :: 0 <= q < |qps| ==> qps[q] == PostAll(old(qps[q]), On(plan[..accepted], ops, q))
      ensures forall d :: Total(qps, d) == old(Total(qps, d)) + Bytes(ops[..accepted], d)
    {
      accepted, status := 0, Ok;
      assert plan[..0] == [] && ops[..0] == [];
      while accepted < |plan|
        invariant accepted <= |plan| && accepted <= refuseAt
        invariant |qps| == old(|qps|)
        invariant forall q :: 0 <= q < |qps| ==> qps[q] == PostAll(old(qps[q]), On(plan[..accepted], ops, q))
        invariant forall d :: Total(qps, d) == old(Total(qps, d)) + Bytes(ops[..accepted], d)
      {
        if accepted == refuseAt {
          status := if outOfMemory then WouldBlock else TransportError;
          return;
        }
        var p := plan[accepted];
        var w := Wr(ops[accepted].key, p.signal);
        var q' := PostOne(qps[p.qp], w);
        forall d
          ensures Total(qps[p.qp := q'], d) == Total(qps, d) + (if Dir(w.key) == d then w.key.bytes else 0)
          ensures Bytes(ops[..accepted + 1], d) ==
                  Bytes(ops[..accepted], d) + (if Dir(w.key) == d then w.key.bytes else 0)
        {
          TotalUpdate(qps, p.qp, q', d);
          QueueBytesAppend(qps[p.qp].unsignalled, Posted(qps[p.qp].posted, w.key), d);
          BytesNext(ops, accepted, d);
        }
        forall q | 0 <= q < |qps|
          ensures PostAll(old(qps[q]), On(plan[..accepted + 1], ops, q)) ==
                  if p.qp == q then PostOne(qps[q], w) else qps[q]
        {
          OnNext(plan, ops, q, accepted);
          PostAllAppend(old(qps[q]), On(plan[..accepted], ops, q), w);
        }
        qps := qps[p.qp := q'];
        accepted := accepted + 1;
      }
    }

    /** Gives back what was claimed for the operations from..until. */
    method ReleaseUnposted(ops: seq<SubOp>, from: nat, until: nat)
      requires from <= until <= |ops| && cc.Valid()
      modifies cc.Repr()
      ensures cc.Valid() && cc.View() == ReleaseFrom(old(cc.View()), ops, from, until)
    {
      for i := from to until
        invariant cc.Valid() && cc.View() == ReleaseFrom(old(cc.View()), ops, from, i)
      {
        cc.OnError(Dir(ops[i].key), ops[i].key.bytes);
      }
    }

    /** One submit() call. The adapter refuses the post at index refuseAt of the plan, if it gets
        that far. What it took is a prefix of ops, dealt to the queue pairs by the plan as made
        (first) with the last operation on each queue pair marked (plan); budget is held exactly for
        what was posted. */
    method Submit(ops: seq<SubOp>, nows: seq<int>, refuseAt: nat, outOfMemory: bool)
      returns (accepted: nat, status: Status, ghost first: seq<Planned>, ghost plan: seq<Planned>)
      requires Valid() && |nows| == |ops|
      modifies this, cc.Repr()
      ensures Valid() && |qps| == old(|qps|) && failed == old(failed)
      ensures |first| <= |ops| && Plans(old(qps), old(cc.View()), ops, nows, first, depth, period)
              && plan == AnchorOf(first)
      ensures accepted == if refuseAt < |plan| then refuseAt else |plan|
      ensures forall q :: 0 <= q < |qps| ==> qps[q] == PostAll(old(qps[q]), On(plan[..accepted], ops, q))
      ensures cc.View() == ReleaseFrom(ClaimAll(old(cc.View()), ops, nows, |first|), ops, accepted, |first|)
      ensures status == Ok <==> !failed && accepted == |ops|
      ensures failed ==> status == PeerDisconnected && first == []
      ensures accepted < |plan| ==> status == if outOfMemory then WouldBlock else TransportError
      ensures !failed && ops != [] && accepted == |plan| < |ops| ==>
                (Rooms(depth, old(qps)) == 0 && first == [] && status == WouldBlock)
                || StopsFor(old(qps), ClaimAll(old(cc.View()), ops, nows, |first|), ops, nows, first, depth, status)
      ensures forall d :: Used(cc.View(), d) + old(Total(qps, d)) == old(Used(cc.View(), d)) + Total(qps, d)
    {
      hide On, ClaimAll, ReleaseFrom, Plans, AnchorOf, Rooms, PostAll, Total, Bytes, StopsFor, Running, Used;
      accepted, status, first, plan := 0, Ok, [], [];
      ghost var was := cc.View();
      NothingPlanned(qps, was, ops, nows, first, depth, period);
      assert plan[..0] == plan;
      if failed { return 0, PeerDisconnected, [], []; }
      if ops == [] { return; }
      var room := Capacity();
      if room == 0 { return 0, WouldBlock, [], []; }
      ghost var before := qps;
      var made, planStatus := PlanBatch(ops, nows);
      PlannedInside(before, was, ops, nows, made, depth, period);
      var anchored := AnchorPlan(made, |qps|);
      first, plan := made, anchored;
      accepted, status := PostPlan(anchored, ops, refuseAt, outOfMemory);
      if status == Ok { status := planStatus; }
      ReleaseUnposted(ops, accepted, |anchored|);
      forall d
        ensures Used(cc.View(), d) == Used(was, d) + Bytes(ops[..accepted], d)
      {
        ClaimAllUses(was, ops, nows, |made|, d);
        BytesGrow(ops, accepted, |made|, d);
        ReleaseFromUses(ClaimAll(was, ops, nows, |made|), ops, accepted, |made|, d);
      }
      forall q | 0 <= q < |qps| ensures qps[q].reclaimed <= qps[q].posted {
        PostAllIs(before[q], On(plan[..accepted], ops, q));
      }
    }

    /** Drops the oldest request of a queue pair and gives back its budget: with feedback if it
        succeeded. */
    method PopFront(qi: nat, ok: bool, rtt: int, now: int) returns (key: Key)
      requires qi < |qps| && qps[qi].unsignalled != [] && cc.Valid()
      requires forall d :: Total(qps, d) <= Used(cc.View(), d)
      modifies `qps, cc.Repr()
      ensures key == old(qps[qi].unsignalled[0].key) && cc.Valid()
      ensures qps == old(qps)[qi := old(qps[qi]).(unsignalled := old(qps[qi].unsignalled)[1..])]
      ensures cc.View() == GiveBack(old(cc.View()), key, ok, rtt, now)
      ensures forall d :: Used(cc.View(), d) + old(Total(qps, d)) == old(Used(cc.View(), d)) + Total(qps, d)
    {
      hide Running, Used, Total;
      key := qps[qi].unsignalled[0].key;
      var q' := qps[qi].(unsignalled := qps[qi].unsignalled[1..]);
      forall d ensures Total(qps, d) == Total(qps[qi := q'], d) + (if Dir(key) == d then key.bytes else 0) {
        TotalUpdate(qps, qi, q', d);
        QueueBytesFront(qps[qi].unsignalled, d);
      }
      GiveBackCounts(cc.View(), key, ok, rtt, now);
      qps := qps[qi := q'];
      if ok { cc.OnFeedback(Dir(key), key.bytes, rtt, now); } else { cc.OnError(Dir(key), key.bytes); }
    }

    /** The retirement loop of poll(): every request posted up to seqNo is dropped and reported,
        in order, and its budget given back once. rtts are the delays the clock shows. */
    method RetireUpTo(qi: nat, seqNo: nat, ok: bool, rtts: seq<int>, now: int) returns (reports: seq<Report>)
      requires qi < |qps| && |rtts| >= |qps[qi].unsignalled| && cc.Valid()
      requires forall d :: Total(qps, d) <= Used(cc.View(), d)
      modifies `qps, cc.Repr()
      ensures cc.Valid()
      ensures var q := old(qps[qi]);
              var n := RetireCount(q.unsignalled, seqNo);
              && qps == old(qps)[qi := Cut(q, n)] && reports == Reports(q.unsignalled[..n], ok)
              && cc.View() == GiveBackAll(old(cc.View()), Keys(q.unsignalled[..n]), ok, rtts, now)
      ensures forall d :: Used(cc.View(), d) + old(Total(qps, d)) == old(Used(cc.View(), d)) + Total(qps, d)
    {
      hide Total, RetireCount, Reports, Running, Used, GiveBack, GiveBackAll, Keys;
      reports := [];
      ghost var all := qps[qi].unsignalled;
      var i := 0;
      NothingCut(qps, qi, ok, cc.View(), rtts, now);
      while qps[qi].unsignalled != [] && qps[qi].unsignalled[0].seqNo <= seqNo
        invariant 0 <= i <= RetireCount(all, seqNo) && |qps| == old(|qps|) && cc.Valid()
        invariant qps == old(qps)[qi := Cut(old(qps)[qi], i)]
        invariant reports == Reports(all[..i], ok)
        invariant cc.View() == GiveBackAll(old(cc.View()), Keys(all[..i]), ok, rtts, now)
        invariant forall d :: Total(qps, d) <= Used(cc.View(), d)
        invariant forall d :: Used(cc.View(), d) + old(Total(qps, d)) == old(Used(cc.View(), d)) + Total(qps, d)
        decreases |all| - i
      {
        RetireNext(all, seqNo, i);
        CutNext(old(qps), qi, i, ok, old(cc.View()), rtts, now);
        var key := PopFront(qi, ok, rtts[i], now);
        reports := reports + [Report(key, ok)];
        i := i + 1;
      }
      RetireNext(all, seqNo, i);
    }

    /** poll() handling a completion of queue pair qi. */
    method HandleCompletion(qi: nat, c: Cqe, rtts: seq<int>, now: int) returns (reports: seq<Report>)
      requires Valid()
      requires qi < |qps| ==> c.seqNo < qps[qi].posted && |rtts| >= |qps[qi].unsignalled|
      modifies this, cc.Repr()
      ensures Valid() && |qps| == old(|qps|)
      ensures failed == (old(failed) || !c.ok)
      ensures qi >= |qps| ==> qps == old(qps) && reports == [] && cc.View() == old(cc.View())
      ensures qi < |qps| ==> (qps[qi], reports) == Retire(old(qps[qi]), c)
      ensures qi < |qps| ==> cc.View() == GiveBackAll(old(cc.View()), ReportKeys(reports), c.ok, rtts, now)
      ensures forall q :: 0 <= q < |qps| && q != qi ==> qps[q] == old(qps[q])
      ensures forall d :: Used(cc.View(), d) + old(Total(qps, d)) == old(Used(cc.View(), d)) + Total(qps, d)
    {
      hide Total, RetireCount, Running, Used, GiveBackAll;
      if !c.ok { failed := true; }
      if qi >= |qps| { return []; }
      ghost var n := RetireCount(qps[qi].unsignalled, c.seqNo);
      SameKeys(qps[qi].unsignalled[..n], c.ok);
      hide Reports, Keys, ReportKeys;
      reports := RetireUpTo(qi, c.seqNo, c.ok, rtts, now);
      var q' := qps[qi].(reclaimed := c.seqNo + 1);
      forall d ensures Total(qps[qi := q'], d) == Total(qps, d) {
        TotalUpdate(qps, qi, q', d);
      }
      qps := qps[qi := q'];
    }
  }

  lemma SameKeys(ps: seq<Posted>, ok: bool)
    ensures ReportKeys(Reports(ps, ok)) == Keys(ps)
  {
  }

  lemma NothingPlanned(qs: seq<QueuePair>, c: Ctl, ops: seq<SubOp>, nows: seq<int>, plan: seq<Planned>, depth: nat,
                       period: nat)
    requires plan == [] && Running(c) && |ops| == |nows|
    ensures ClaimAll(c, ops, nows, 0) == c && ReleaseFrom(c, ops, 0, 0) == c
    ensures Plans(qs, c, ops, nows, plan, depth, period) && AnchorOf(plan) == []
    ensures forall q :: On(plan, ops, q) == []
    ensures forall q :: 0 <= q < |qs| ==> SinceAfter(qs[q].sinceSignal, On(plan, ops, q)) == qs[q].sinceSignal
    ensures forall q :: 0 <= q < |qs| ==> PostAll(qs[q], On(plan, ops, q)) == qs[q]
  {
  }

  lemma PlanNext(qs: seq<QueuePair>, c: Ctl, ops: seq<SubOp>, nows: seq<int>, plan: seq<Planned>, p: Planned,
                 depth: nat, period: nat)
    requires Running(c) && |plan| < |ops| == |nows| && Plans(qs, c, ops, nows, plan, depth, period)
    requires CanPlan(qs, ClaimAll(c, ops, nows, |plan|), ops, plan, p, nows[|plan|], depth, period)
    ensures Plans(qs, c, ops, nows, plan + [p], depth, period)
    ensures ClaimAll(c, ops, nows, |plan| + 1) ==
            Claim(ClaimAll(c, ops, nows, |plan|), Dir(ops[|plan|].key), ops[|plan|].key.bytes, nows[|plan|])
  {
    assert (plan + [p])[..|plan|] == plan;
  }

  /** The tests the loop makes on what it tracks are the ones the plan is made by. */
  lemma PlanTracked(qs: seq<QueuePair>, c: Ctl, ops: seq<SubOp>, nows: seq<int>, plan: seq<Planned>, nextSeq: seq<nat>,
                    since: seq<nat>, p: Planned, depth: nat, period: nat)
    requires |plan| < |ops| == |nows| && Tracked(qs, ops, plan, nextSeq, since) && p.qp < |qs| == |nextSeq| == |since|
    requires ops[|plan|].registered && nextSeq[p.qp] - qs[p.qp].reclaimed < depth
    requires Allows(c, Dir(ops[|plan|].key), ops[|plan|].key.bytes, nows[|plan|])
    requires p.signal == (since[p.qp] + 1 >= period || nextSeq[p.qp] - qs[p.qp].reclaimed + 1 >= depth - depth / 4)
    ensures CanPlan(qs, c, ops, plan, p, nows[|plan|], depth, period)
  {
    hide On, Allows, SinceAfter;
  }

  /** The planning loop knows each queue pair's next sequence number and its run without a signal. */
  ghost predicate Tracked(qs: seq<QueuePair>, ops: seq<SubOp>, plan: seq<Planned>, nextSeq: seq<nat>, since: seq<nat>)
    requires |plan| <= |ops|
  {
    && |nextSeq| == |since| == |qs|
    && forall q :: 0 <= q < |qs| ==>
         && nextSeq[q] == qs[q].posted + |On(plan, ops, q)|
         && since[q] == SinceAfter(qs[q].sinceSignal, On(plan, ops, q))
  }

  lemma TrackedStart(qs: seq<QueuePair>, ops: seq<SubOp>, plan: seq<Planned>, nextSeq: seq<nat>, since: seq<nat>)
    requires plan == [] && |nextSeq| == |since| == |qs|
    requires forall q :: 0 <= q < |qs| ==> nextSeq[q] == qs[q].posted && since[q] == qs[q].sinceSignal
    ensures Tracked(qs, ops, plan, nextSeq, since)
  {
  }

  lemma TrackedAt(qs: seq<QueuePair>, ops: seq<SubOp>, plan: seq<Planned>, nextSeq: seq<nat>, since: seq<nat>, q: nat)
    requires |plan| <= |ops| && Tracked(qs, ops, plan, nextSeq, since) && q < |qs|
    ensures |nextSeq| == |since| == |qs| && nextSeq[q] == qs[q].posted + |On(plan, ops, q)|
    ensures since[q] == SinceAfter(qs[q].sinceSignal, On(plan, ops, q))
  {
  }

  lemma TrackedStep(qs: seq<QueuePair>, ops: seq<SubOp>, plan: seq<Planned>, nextSeq: seq<nat>, since: seq<nat>,
                    p: Planned)
    requires |plan| < |ops| && Tracked(qs, ops, plan, nextSeq, since) && p.qp < |qs| == |nextSeq| == |since|
    ensures Tracked(qs, ops, plan + [p], nextSeq[p.qp := nextSeq[p.qp] + 1],
                    since[p.qp := if p.signal then 0 else since[p.qp] + 1])
  {
    hide On;
    forall q | 0 <= q < |qs|
      ensures |On(plan + [p], ops, q)| == |On(plan, ops, q)| + (if p.qp == q then 1 else 0)
      ensures SinceAfter(qs[q].sinceSignal, On(plan + [p], ops, q)) ==
              var s := SinceAfter(qs[q].sinceSignal, On(plan, ops, q));
              if p.qp != q then s else if p.signal then 0 else s + 1
    {
      OnAppend(plan, p, ops, q);
      var ws := On(plan, ops, q);
      assert (ws + [Wr(ops[|plan|].key, p.signal)])[..|ws|] == ws;
    }
  }

  lemma PlannedInside(qs: seq<QueuePair>, c: Ctl, ops: seq<SubOp>, nows: seq<int>, plan: seq<Planned>, depth: nat,
                      period: nat)
    requires qs != [] && Running(c) && |plan| <= |ops| == |nows| && Plans(qs, c, ops, nows, plan, depth, period)
    ensures forall k :: 0 <= k < |plan| ==> plan[k].qp < |qs|
  {
    PlansFit(qs, c, ops, nows, plan, depth, period, 0);
  }

  function Cut(q: QueuePair, i: nat): QueuePair
    requires i <= |q.unsignalled|
  {
    q.(unsignalled := q.unsignalled[i..])
  }

  lemma NothingCut(qs: seq<QueuePair>, qi: nat, ok: bool, c: Ctl, rtts: seq<int>, now: int)
    requires qi < |qs|
    ensures qs == qs[qi := Cut(qs[qi], 0)] && Reports(qs[qi].unsignalled[..0], ok) == []
    ensures Keys(qs[qi].unsignalled[..0]) == [] && GiveBackAll(c, [], ok, rtts, now) == c
  {
  }

  lemma CutNext(qs: seq<QueuePair>, qi: nat, i: nat, ok: bool, c: Ctl, rtts: seq<int>, now: int)
    requires qi < |qs| && i < |qs[qi].unsignalled| <= |rtts|
    ensures var all, q := qs[qi].unsignalled, Cut(qs[qi], i);
            && q.unsignalled[0] == all[i]
            && qs[qi := q][qi := q.(unsignalled := q.unsignalled[1..])] == qs[qi := Cut(qs[qi], i + 1)]
            && Reports(all[..i + 1], ok) == Reports(all[..i], ok) + [Report(all[i].key, ok)]
            && GiveBackAll(c, Keys(all[..i + 1]), ok, rtts, now) ==
               GiveBack(GiveBackAll(c, Keys(all[..i]), ok, rtts, now), all[i].key, ok, rtts[i], now)
  {
    hide GiveBack;
    var all := qs[qi].unsignalled;
    assert Keys(all[..i + 1])[..i] == Keys(all[..i]);
  }

  /** The loop's test and the count of what a completion retires agree. */
  lemma RetireNext(ps: seq<Posted>, seqNo: nat, i: nat)
    requires i <= RetireCount(ps, seqNo)
    ensures i < RetireCount(ps, seqNo) <==> i < |ps| && ps[i].seqNo <= seqNo
  {
  }

  /** Marks the last operation on every queue pair the plan touches. */
  method AnchorPlan(plan: seq<Planned>, n: nat) returns (anchored: seq<Planned>)
    requires forall k :: 0 <= k < |plan| ==> plan[k].qp < n
    ensures anchored == AnchorOf(plan)
  {
    var last: seq<int> := seq(n, _ => -1);
    for k := 0 to |plan|
      invariant |last| == n
      invariant forall q :: 0 <= q < n ==> -1 <= last[q] < k
      invariant forall q :: 0 <= q < n && last[q] >= 0 ==> plan[last[q]].qp == q
      invariant forall q, j :: 0 <= q < n && last[q] < j < k ==> plan[j].qp != q
    {
      last := last[plan[k].qp := k];
    }
    anchored := plan;
    for q := 0 to n
      invariant |anchored| == |plan|
      invariant forall k :: 0 <= k < |plan| ==> anchored[k].qp == plan[k].qp
      invariant forall k :: 0 <= k < |plan| ==>
                  anchored[k].signal == (plan[k].signal || (plan[k].qp < q && last[plan[k].qp] == k))
    {
      if last[q] != -1 {
        anchored := anchored[last[q] := anchored[last[q]].(signal := true)];
      }
    }
    forall k | 0 <= k < |plan| ensures last[plan[k].qp] == k <==> LastOn(plan, k) {
      var q := plan[k].qp;
      if last[q] != k {
        assert last[q] > k;
      }
    }
  }

  lemma RoomForTwo(c: Ctl, ops: seq<SubOp>, nows: seq<int>, first: seq<Planned>, depth: nat, status: Status)
    requires c.Plain? && c.budget.limit.Unlimited? && Running(c) && depth >= 2
    requires |first| < |ops| == |nows| == 2 && forall i :: 0 <= i < 2 ==> ops[i].registered
    ensures Rooms(depth, [IDLE.q]) > 0
    ensures !StopsFor([IDLE.q], ClaimAll(c, ops, nows, |first|), ops, nows, first, depth, status)
  {
    SomeFits(ops, first, depth);
    hide NoneFits, ClaimAll, Running, Rooms, On;
    var c' := ClaimAll(c, ops, nows, |first|);
    assert SameKind(c, c');
  }

  lemma SomeFits(ops: seq<SubOp>, first: seq<Planned>, depth: nat)
    requires |first| < |ops| == 2 <= depth
    ensures Rooms(depth, [IDLE.q]) > 0 && !NoneFits([IDLE.q], depth, first, ops)
  {
    var qs := [IDLE.q];
    assert qs[..0] == [] && Rooms(depth, qs[..0]) == 0;
    OnAtMost(first, ops, 0);
    hide On;
    assert Room(depth, qs[0]) == depth;
  }

  lemma {:induction false} OnAtMost(plan: seq<Planned>, ops: seq<SubOp>, q: nat)
    requires |plan| <= |ops|
    ensures |On(plan, ops, q)| <= |plan|
    decreases |plan|
  {
    if plan != [] {
      OnAtMost(plan[..|plan| - 1], ops, q);
    }
  }

  lemma FirstUnsignalled(c: Ctl, ops: seq<SubOp>, nows: seq<int>, first: seq<Planned>, depth: nat, period: nat)
    requires Running(c) && depth >= 2 && period >= 2 && |first| == |ops| == |nows| == 2
    requires Plans([IDLE.q], c, ops, nows, first, depth, period)
    ensures PostAll(IDLE.q, On(AnchorOf(first)[..1], ops, 0)) == PostOne(IDLE.q, Wr(ops[0].key, false))
  {
    var one := first[..1];
    assert Plans([IDLE.q], c, ops, nows, one, depth, period);
    assert one[..0] == [] && On([], ops, 0) == [] && SinceAfter(0, []) == 0;
    assert CanPlan([IDLE.q], ClaimAll(c, ops, nows, 0), ops, one[..0], one[0], nows[0], depth, period);
    assert CanPlan([IDLE.q], ClaimAll(c, ops, nows, 1), ops, one, first[1], nows[1], depth, period);
    hide Plans, CanPlan, ClaimAll, Running;
    assert first[0] == Planned(0, false) && first[1].qp == 0;
    assert !LastOn(first, 0) by { assert first[1].qp == first[0].qp; }
    var plan := AnchorOf(first);
    assert plan[..1] == [] + [Planned(0, false)];
    OnAppend([], Planned(0, false), ops, 0);
    var ws := On(plan[..1], ops, 0);
    assert ws == [] + [Wr(ops[0].key, false)];
    PostAllAppend(IDLE.q, [], Wr(ops[0].key, false));
  }

  /** A submit() of two operations on a fresh connection with one queue pair, whose second post the
      adapter refuses, leaves the first posted and nothing on the queue pair signalled. */
  method RefuseSecond(depth: nat, period: nat, a: Key, b: Key)
    returns (conn: RdmaConnection, accepted: nat, status: Status)
    requires depth >= 2 && period >= 2
    ensures accepted == 1 && status == TransportError && !conn.failed
    ensures conn.qps == [PostOne(IDLE.q, Wr(a, false))]
    ensures conn.cc.Valid() && Used(conn.cc.View(), Dir(a)) == a.bytes
  {
    hide Plans, ClaimAll, ReleaseFrom, StopsFor, Rooms, AnchorOf, On, PostAll, Running, Used, Total;
    var cc := new Controller.Window(C.Unlimited);
    conn := new RdmaConnection(depth, period, cc, 1);
    var ops, nows := [SubOp(a, true), SubOp(b, true)], [0, 0];
    ghost var was := cc.View();
    assert conn.qps == [IDLE.q];
    OnePosted(a);
    ghost var first, plan;
    accepted, status, first, plan := conn.Submit(ops, nows, 1, false);
    if |first| < 2 {
      RoomForTwo(was, ops, nows, first, depth, status);
    } else {
      FirstUnsignalled(was, ops, nows, first, depth, period);
    }
  }

  lemma OnePosted(a: Key)
    ensures Used(Plain(C.Budget(C.Unlimited, 0, 0)), Dir(a)) == 0
    ensures Total([IDLE.q], Dir(a)) == 0 && Total([PostOne(IDLE.q, Wr(a, false))], Dir(a)) == a.bytes
  {
    TotalOfIdle([IDLE.q], Dir(a));
    TotalUpdate([IDLE.q], 0, PostOne(IDLE.q, Wr(a, false)), Dir(a));
    QueueBytesAppend([], Posted(0, a), Dir(a));
    assert [IDLE.q][0 := PostOne(IDLE.q, Wr(a, false))] == [PostOne(IDLE.q, Wr(a, false))];
  }
}
