/** The provider object: connections that share its congestion controller. */
module RdmaProvider {
  import opened Status
  import opened RdmaLine
  import opened Controllers
  import opened RdmaPlan
  import opened RdmaSubmit
  import C = Congestion

  /** The bytes posted and not retired over all connections, given the queue pairs of each. */
  function Totals(qss: seq<seq<QueuePair>>, d: C.Direction): nat {
    if qss == [] then 0 else Totals(qss[..|qss| - 1], d) + Total(qss[|qss| - 1], d)
  }

  lemma OneMoreIdle(qss: seq<seq<QueuePair>>, qs: seq<QueuePair>)
    requires forall j :: 0 <= j < |qs| ==> qs[j] == IDLE.q
    ensures forall d :: Totals(qss + [qs], d) == Totals(qss, d)
  {
    forall d ensures Totals(qss + [qs], d) == Totals(qss, d) {
      assert (qss + [qs])[..|qss|] == qss;
      TotalOfIdle(qs, d);
    }
  }

  lemma {:induction false} TotalsUpdate(qss: seq<seq<QueuePair>>, i: nat, qs: seq<QueuePair>, d: C.Direction)
    requires i < |qss|
    ensures Totals(qss[i := qs], d) + Total(qss[i], d) == Totals(qss, d) + Total(qs, d)
    ensures Total(qss[i], d) <= Totals(qss, d)
    decreases |qss|
  {
    hide Total;
    var n := |qss| - 1;
    if i == n {
      assert qss[i := qs][..n] == qss[..n];
    } else {
      TotalsUpdate(qss[..n], i, qs, d);
      assert qss[i := qs][..n] == qss[..n][i := qs];
    }
  }

  class Provider {
    const cc: Controller
    var conns: seq<RdmaConnection>

    /** The queue pairs of each connection. */
    ghost function Queues(): (qss: seq<seq<QueuePair>>)
      reads this, conns
      ensures |qss| == |conns| && forall i :: 0 <= i < |conns| ==> qss[i] == conns[i].qps
    {
      seq(|conns|, i requires 0 <= i < |conns| reads this, conns => conns[i].qps)
    }

    ghost predicate Sound(i: nat)
      requires i < |conns|
      reads this, conns
    {
      var c := conns[i];
      c.cc == cc && c.nextQp < |c.qps| && forall q :: 0 <= q < |c.qps| ==> c.qps[q].reclaimed <= c.qps[q].posted
    }

    /** The controller counts exactly what the connections together have posted and not retired. */
    ghost predicate Valid()
      reads this, conns, cc.Repr()
    {
      && cc.Valid()
      && (forall i, j :: 0 <= i < j < |conns| ==> conns[i] != conns[j])
      && (forall i :: 0 <= i < |conns| ==> Sound(i))
      && (forall d :: Used(cc.View(), d) == Totals(Queues(), d))
    }

    /** So every connection is in order, whichever of them acted last. */
    lemma EachIsValid(i: nat)
      requires Valid() && i < |conns|
      ensures conns[i].Valid() && conns[i].cc == cc
    {
      hide Used, Total, Totals, Running;
      forall d ensures Total(conns[i].qps, d) <= Used(cc.View(), d) {
        TotalsUpdate(Queues(), i, conns[i].qps, d);
      }
      assert Sound(i);
    }

    constructor (cc: Controller)
      requires cc.Valid() && forall d :: Used(cc.View(), d) == 0
      ensures Valid() && this.cc == cc && conns == []
    {
      this.cc, conns := cc, [];
    }

    /** A new connection, with n queue pairs of its own. */
    method Connect(depth: nat, period: nat, n: nat)
      requires Valid() && n > 0
      modifies this
      ensures Valid() && |conns| == old(|conns|) + 1 && conns[..old(|conns|)] == old(conns)
              && fresh(conns[old(|conns|)])
      ensures Queues() == old(Queues()) + [seq(n, _ => IDLE.q)]
    {
      var c := new RdmaConnection(depth, period, cc, n);
      ghost var before := Queues();
      conns := conns + [c];
      hide Used, Total, Totals, Running;
      assert Queues() == before + [c.qps] && c.qps == seq(n, _ => IDLE.q);
      OneMoreIdle(before, c.qps);
      forall j | 0 <= j < |conns| ensures Sound(j) {
        assert j < |before| ==> old(Sound(j));
      }
    }

    /** A submit() on one connection leaves the others alone and the budget exact. */
    method Submit(i: nat, ops: seq<SubOp>, nows: seq<int>, refuseAt: nat, outOfMemory: bool)
      returns (accepted: nat, status: Status)
      requires Valid() && i < |conns| && |nows| == |ops|
      modifies conns[i], cc.Repr()
      ensures Valid() && Queues() == old(Queues())[i := conns[i].qps]
      ensures accepted <= |ops| && (status == Ok <==> !conns[i].failed && accepted == |ops|)
      ensures forall d ::
                Used(cc.View(), d) + old(Total(conns[i].qps, d)) == old(Used(cc.View(), d)) + Total(conns[i].qps, d)
    {
      hide Used, Total, Totals, Running, Plans, On, PostAll, ClaimAll, ReleaseFrom, StopsFor, Rooms, AnchorOf;
      EachIsValid(i);
      ghost var first, plan;
      accepted, status, first, plan := conns[i].Submit(ops, nows, refuseAt, outOfMemory);
      Settled(i, old(Queues()), old(cc.View()));
      forall j | 0 <= j < |conns| ensures Sound(j) {
        assert old(Sound(j));
      }
    }

    /** And so does handling a completion on it. */
    method HandleCompletion(i: nat, qi: nat, c: Cqe, rtts: seq<int>, now: int) returns (reports: seq<Report>)
      requires Valid() && i < |conns|
      requires qi < |conns[i].qps| ==> c.seqNo < conns[i].qps[qi].posted && |rtts| >= |conns[i].qps[qi].unsignalled|
      modifies conns[i], cc.Repr()
      ensures Valid() && Queues() == old(Queues())[i := conns[i].qps]
      ensures qi < |conns[i].qps| == old(|conns[i].qps|) ==>
              (conns[i].qps[qi], reports) == Retire(old(conns[i].qps[qi]), c)
      ensures forall d ::
                Used(cc.View(), d) + old(Total(conns[i].qps, d)) == old(Used(cc.View(), d)) + Total(conns[i].qps, d)
    {
      hide Used, Total, Totals, Running, Retire, GiveBackAll;
      EachIsValid(i);
      reports := conns[i].HandleCompletion(qi, c, rtts, now);
      Settled(i, old(Queues()), old(cc.View()));
      forall j | 0 <= j < |conns| ensures Sound(j) {
        assert old(Sound(j));
      }
    }

    /** One connection moved, and moved the controller by as much. */
    lemma Settled(i: nat, before: seq<seq<QueuePair>>, was: Ctl)
      requires i < |conns| == |before| && Queues() == before[i := conns[i].qps] && cc.Valid()
      requires forall d :: Used(was, d) == Totals(before, d)
      requires forall d :: Used(cc.View(), d) + Total(before[i], d) == Used(was, d) + Total(conns[i].qps, d)
      ensures forall d :: Used(cc.View(), d) == Totals(Queues(), d)
    {
      hide Used, Total, Totals, Running;
      forall d ensures Used(cc.View(), d) == Totals(Queues(), d) {
        TotalsUpdate(before, i, conns[i].qps, d);
      }
    }
  }
}
