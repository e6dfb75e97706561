/** The calls are runs: submit() and the handling of a completion, as RdmaConnection promises them,
    are runs of the connections' machine in which nobody else comes in between. */
module RdmaCalls {
  import L = RdmaLine
  import C = Congestion
  import opened Controllers
  import opened RdmaPlan
  import opened RdmaFabric

  /** The steps of connection c. */
  ghost function Of(c: nat): Step -> bool {
    (step: Step) => step.c == c
  }

  ghost function With(s: State, c: nat, n: Conn, ctl: Ctl): State
    requires c < |s.conns|
  {
    State(ctl, s.conns[c := n])
  }

  /** One step of connection c, the others as they are. */
  lemma ReachesNext(u: Setup, s: State, c: nat, n: Conn, ctl: Ctl, step: Step)
    requires c < |s.conns| && step.c == c && Reaches(u, s, With(s, c, n, ctl), Of(c)) && CanStep(u, n, ctl, step)
    ensures var (n', ctl') := StepOf(u, n, ctl, step); Reaches(u, s, With(s, c, n', ctl'), Of(c))
  {
    hide CanStep, StepOf, Reaches;
    var e := With(s, c, n, ctl);
    ReachesStep(u, s, e, Of(c), step);
    var (n', ctl') := StepOf(u, n, ctl, step);
    assert e.conns[c := n'] == s.conns[c := n'];
  }

  // ---------------- submit() ----------------

  lemma StartRun(u: Setup, s: State, c: nat, ops: seq<SubOp>)
    requires c < |s.conns| && s.conns[c].job.Resting?
    ensures Reaches(u, s, With(s, c, s.conns[c].(job := Planning(ops, [], NoAsk)), s.ctl), Of(c))
  {
    hide Reaches;
    ReachesItself(u, s, Of(c));
    assert s == With(s, c, s.conns[c], s.ctl);
    ReachesNext(u, s, c, s.conns[c], s.ctl, Start(c, ops));
  }

  lemma PlanOneMore(u: Setup, s: State, c: nat, n: Conn, ctl: Ctl, ops: seq<SubOp>, plan: seq<Planned>, p: Planned,
                    now: int)
    requires c < |s.conns| && Running(ctl) && CanPlan(Qps(n.lines), ctl, ops, plan, p, now, u.depth, u.period)
    requires Reaches(u, s, With(s, c, n.(job := Planning(ops, plan, NoAsk)), ctl), Of(c))
    ensures |plan| < |ops|
    ensures Reaches(u, s, With(s, c, n.(job := Planning(ops, plan + [p], NoAsk)),
                               Claim(ctl, Dir(ops[|plan|].key), ops[|plan|].key.bytes, now)), Of(c))
  {
    assert |plan| < |ops|;
    hide Reaches, CanPlan, Claim, Running, With;
    ReachesNext(u, s, c, n.(job := Planning(ops, plan, NoAsk)), ctl, Allow(c, p, now));
    ReachesNext(u, s, c, n.(job := Planning(ops, plan, Asked(p, now))), ctl, OnPost(c));
  }

  lemma PlanningRun(u: Setup, s: State, c: nat, ops: seq<SubOp>, nows: seq<int>, plan: seq<Planned>)
    requires c < |s.conns| && Running(s.ctl) && |plan| <= |ops| == |nows| && s.conns[c].job.Resting?
    requires Plans(Qps(s.conns[c].lines), s.ctl, ops, nows, plan, u.depth, u.period)
    ensures Reaches(u, s, With(s, c, s.conns[c].(job := Planning(ops, plan, NoAsk)),
                               ClaimAll(s.ctl, ops, nows, |plan|)), Of(c))
    decreases |plan|
  {
    hide Reaches, CanPlan, Claim, Running, With;
    if plan == [] {
      StartRun(u, s, c, ops);
    } else {
      var k := |plan| - 1;
      PlanningRun(u, s, c, ops, nows, plan[..k]);
      PlanOneMore(u, s, c, s.conns[c], ClaimAll(s.ctl, ops, nows, k), ops, plan[..k], plan[k], nows[k]);
      assert plan[..k] + [plan[k]] == plan;
    }
  }

  /** The lines after the first k operations of a plan were posted. */
  function PostedLines(lines: seq<L.Line>, plan: seq<Planned>, ops: seq<SubOp>, k: nat): (r: seq<L.Line>)
    requires k <= |plan| && PlanShape(ops, plan, |lines|)
    ensures |r| == |lines|
  {
    if k == 0 then lines
    else
      var r := PostedLines(lines, plan, ops, k - 1);
      var p := plan[k - 1];
      r[p.qp := PostOn(r[p.qp], L.Wr(ops[k - 1].key, p.signal))]
  }

  lemma NothingPosted(l: L.Line, plan: seq<Planned>, ops: seq<SubOp>, q: nat)
    requires |plan| <= |ops|
    ensures var ws := On(plan[..0], ops, q); l == l.(q := L.PostAll(l.q, ws), sent := l.sent + ws)
  {
    assert On(plan[..0], ops, q) == [];
    assert l.sent + [] == l.sent;
  }

  lemma PostedOneMore(l: L.Line, ws: seq<L.Wr>, w: L.Wr)
    ensures PostOn(l.(q := L.PostAll(l.q, ws), sent := l.sent + ws), w) ==
            l.(q := L.PostAll(l.q, ws + [w]), sent := l.sent + (ws + [w]))
  {
    hide L.PostAll;
    PostAllAppend(l.q, ws, w);
    assert l.sent + (ws + [w]) == (l.sent + ws) + [w];
  }

  /** Each line got what the plan had for it, in order. */
  lemma {:induction false} PostedLinesAre(lines: seq<L.Line>, plan: seq<Planned>, ops: seq<SubOp>, k: nat, q: nat)
    requires k <= |plan| && PlanShape(ops, plan, |lines|) && q < |lines|
    ensures var ws, r := On(plan[..k], ops, q), PostedLines(lines, plan, ops, k)[q];
            r == lines[q].(q := L.PostAll(lines[q].q, ws), sent := lines[q].sent + ws)
  {
    hide On, L.PostAll, PostOn;
    if k == 0 {
      NothingPosted(lines[q], plan, ops, q);
    } else {
      PostedLinesAre(lines, plan, ops, k - 1, q);
      OnNext(plan, ops, q, k - 1);
      PostedOneMore(lines[q], On(plan[..k - 1], ops, q), L.Wr(ops[k - 1].key, plan[k - 1].signal));
    }
  }

  function PostingConn(n: Conn, plan: seq<Planned>, ops: seq<SubOp>, k: nat): Conn
    requires k <= |plan| && PlanShape(ops, plan, |n.lines|)
  {
    n.(lines := PostedLines(n.lines, plan, ops, k), job := Posting(ops, plan, k), taken := n.taken + OpKeys(ops, 0, k))
  }

  lemma PostingRun(u: Setup, s: State, c: nat, ctl: Ctl, ops: seq<SubOp>, plan: seq<Planned>, k: nat)
    requires c < |s.conns| && k <= |plan| && PlanShape(ops, plan, |s.conns[c].lines|)
    requires Reaches(u, s, With(s, c, s.conns[c].(job := Posting(ops, plan, 0)), ctl), Of(c))
    ensures Reaches(u, s, With(s, c, PostingConn(s.conns[c], plan, ops, k), ctl), Of(c))
    decreases k
  {
    hide Reaches;
    var n := s.conns[c];
    if k == 0 {
      assert n.taken + OpKeys(ops, 0, 0) == n.taken;
    } else {
      PostingRun(u, s, c, ctl, ops, plan, k - 1);
      ReachesNext(u, s, c, PostingConn(n, plan, ops, k - 1), ctl, Post(c));
      assert (n.taken + OpKeys(ops, 0, k - 1)) + [ops[k - 1].key] == n.taken + OpKeys(ops, 0, k);
    }
  }

  lemma ReleasingRun(u: Setup, s: State, c: nat, n: Conn, ctl: Ctl, ops: seq<SubOp>, plan: seq<Planned>, from: nat,
                     k: nat)
    requires c < |s.conns| && from <= k <= |plan| && PlanShape(ops, plan, |n.lines|) && Running(ctl)
    requires Reaches(u, s, With(s, c, n.(job := Releasing(ops, plan, from)), ctl), Of(c))
    ensures Reaches(u, s, With(s, c, n.(job := Releasing(ops, plan, k)), ReleaseFrom(ctl, ops, from, k)), Of(c))
    decreases k
  {
    hide Reaches, Running, Release, With;
    if k > from {
      ReleasingRun(u, s, c, n, ctl, ops, plan, from, k - 1);
      ReleaseOneMore(u, s, c, n, ReleaseFrom(ctl, ops, from, k - 1), ops, plan, k - 1);
    }
  }

  lemma ReleaseOneMore(u: Setup, s: State, c: nat, n: Conn, ctl: Ctl, ops: seq<SubOp>, plan: seq<Planned>, k: nat)
    requires c < |s.conns| && k < |plan| && PlanShape(ops, plan, |n.lines|)
    requires Reaches(u, s, With(s, c, n.(job := Releasing(ops, plan, k)), ctl), Of(c))
    ensures Reaches(u, s, With(s, c, n.(job := Releasing(ops, plan, k + 1)),
                               Release(ctl, Dir(ops[k].key), ops[k].key.bytes)), Of(c))
  {
    hide Reaches, Release, With;
    ReachesNext(u, s, c, n.(job := Releasing(ops, plan, k)), ctl, GiveBackOne(c));
  }

  /** The connection after a submit() that posted the first accepted operations of the plan. */
  function Submitted(n: Conn, plan: seq<Planned>, ops: seq<SubOp>, accepted: nat): Conn
    requires accepted <= |plan| && PlanShape(ops, plan, |n.lines|)
  {
    n.(lines := PostedLines(n.lines, plan, ops, accepted), job := Resting, refused := n.refused || accepted < |plan|,
       taken := n.taken + OpKeys(ops, 0, accepted))
  }

  lemma PostAndEnd(u: Setup, s: State, c: nat, ctl: Ctl, ops: seq<SubOp>, plan: seq<Planned>, accepted: nat)
    requires c < |s.conns| && accepted <= |plan| && PlanShape(ops, plan, |s.conns[c].lines|) && Running(ctl)
    requires Reaches(u, s, With(s, c, s.conns[c].(job := Posting(ops, plan, 0)), ctl), Of(c))
    ensures Reaches(u, s, With(s, c, Submitted(s.conns[c], plan, ops, accepted),
                               ReleaseFrom(ctl, ops, accepted, |plan|)), Of(c))
  {
    hide Reaches, Running, PostedLines;
    PostingRun(u, s, c, ctl, ops, plan, accepted);
    var p := PostingConn(s.conns[c], plan, ops, accepted);
    if accepted == |plan| {
      ReachesNext(u, s, c, p, ctl, EndSubmit(c));
    } else {
      ReachesNext(u, s, c, p, ctl, Refuse(c));
      var r := p.(refused := true);
      ReleasingRun(u, s, c, r, ctl, ops, plan, accepted, |plan|);
      ReachesNext(u, s, c, r.(job := Releasing(ops, plan, |plan|)), ReleaseFrom(ctl, ops, accepted, |plan|),
                  EndSubmit(c));
    }
  }

  /** What RdmaConnection.Submit promises of its queue pairs and the controller, for the plan it made
      and the number it accepted, is a run of the machine. */
  lemma SubmitIsARun(u: Setup, s: State, c: nat, ops: seq<SubOp>, nows: seq<int>, first: seq<Planned>, accepted: nat)
    requires c < |s.conns| && Running(s.ctl) && accepted <= |first| <= |ops| == |nows|
    requires s.conns[c].job.Resting? && s.conns[c].lines != []
    requires Plans(Qps(s.conns[c].lines), s.ctl, ops, nows, first, u.depth, u.period)
    ensures var n, plan := s.conns[c], AnchorOf(first);
            && PlanShape(ops, plan, |n.lines|)
            && Reaches(u, s, With(s, c, Submitted(n, plan, ops, accepted),
                                  ReleaseFrom(ClaimAll(s.ctl, ops, nows, |first|), ops, accepted, |first|)), Of(c))
            && forall q :: 0 <= q < |n.lines| ==>
                 Qps(Submitted(n, plan, ops, accepted).lines)[q] ==
                   L.PostAll(Qps(n.lines)[q], On(plan[..accepted], ops, q))
  {
    var n, plan := s.conns[c], AnchorOf(first);
    PlannedShape(Qps(n.lines), s.ctl, ops, nows, first, u.depth, u.period);
    hide Reaches, Running, Plans, AnchorOf, With, On, L.PostAll, ClaimAll, ReleaseFrom, Submitted;
    PlanningRun(u, s, c, ops, nows, first);
    var ctl := ClaimAll(s.ctl, ops, nows, |first|);
    EndPlanRun(u, s, c, n, ctl, ops, first);
    PostAndEnd(u, s, c, ctl, ops, plan, accepted);
    SubmittedLines(n, plan, ops, accepted);
  }

  lemma PlannedShape(qs: seq<L.QueuePair>, ctl: Ctl, ops: seq<SubOp>, nows: seq<int>, first: seq<Planned>, depth: nat,
                     period: nat)
    requires qs != [] && Running(ctl) && |first| <= |ops| == |nows| && Plans(qs, ctl, ops, nows, first, depth, period)
    ensures PlanShape(ops, AnchorOf(first), |qs|)
  {
    hide Running, Fits;
    PlansFit(qs, ctl, ops, nows, first, depth, period, 0);
  }

  lemma SubmittedLines(n: Conn, plan: seq<Planned>, ops: seq<SubOp>, accepted: nat)
    requires accepted <= |plan| && PlanShape(ops, plan, |n.lines|)
    ensures |Submitted(n, plan, ops, accepted).lines| == |n.lines|
    ensures forall q :: 0 <= q < |n.lines| ==>
              Qps(Submitted(n, plan, ops, accepted).lines)[q] ==
                L.PostAll(Qps(n.lines)[q], On(plan[..accepted], ops, q))
  {
    hide On, L.PostAll, PostedLines;
    forall q | 0 <= q < |n.lines|
      ensures PostedLines(n.lines, plan, ops, accepted)[q].q == L.PostAll(n.lines[q].q, On(plan[..accepted], ops, q))
    {
      PostedLinesAre(n.lines, plan, ops, accepted, q);
    }
  }

  lemma EndPlanRun(u: Setup, s: State, c: nat, n: Conn, ctl: Ctl, ops: seq<SubOp>, plan: seq<Planned>)
    requires c < |s.conns| && Reaches(u, s, With(s, c, n.(job := Planning(ops, plan, NoAsk)), ctl), Of(c))
    ensures Reaches(u, s, With(s, c, n.(job := Posting(ops, AnchorOf(plan), 0)), ctl), Of(c))
  {
    hide Reaches, AnchorOf, With;
    ReachesNext(u, s, c, n.(job := Planning(ops, plan, NoAsk)), ctl, EndPlan(c));
  }

  // ---------------- poll() ----------------

  lemma SettlingRun(u: Setup, s: State, c: nat, n: Conn, keys: seq<L.Key>, ok: bool, rtts: seq<int>, now: int, i: nat)
    requires c < |s.conns| && i <= |keys| <= |rtts|
    requires Reaches(u, s, With(s, c, n.(job := Retiring(keys, ok)), s.ctl), Of(c))
    ensures Reaches(u, s, With(s, c, n.(job := Retiring(keys[i..], ok)), GiveBackAll(s.ctl, keys[..i], ok, rtts, now)),
                    Of(c))
    decreases i
  {
    hide Reaches, GiveBack;
    if i == 0 {
      assert keys[0..] == keys && keys[..0] == [];
    } else {
      SettlingRun(u, s, c, n, keys, ok, rtts, now, i - 1);
      assert keys[i - 1..][1..] == keys[i..] && keys[..i][..i - 1] == keys[..i - 1];
      ReachesNext(u, s, c, n.(job := Retiring(keys[i - 1..], ok)), GiveBackAll(s.ctl, keys[..i - 1], ok, rtts, now),
                  Settle(c, rtts[i - 1], now));
    }
  }

  /** And so is what RdmaConnection.HandleCompletion promises for a completion that waits. */
  lemma HandleIsARun(u: Setup, s: State, c: nat, q: nat, j: nat, rtts: seq<int>, now: int)
    requires c < |s.conns| && s.conns[c].job.Resting? && q < |s.conns[c].lines| && j < |s.conns[c].lines[q].cq|
    requires |rtts| >= |s.conns[c].lines[q].q.unsignalled|
    ensures var n := s.conns[c];
            var l, cqe := n.lines[q], n.lines[q].cq[j];
            var l' := L.Do(u.depth, l, L.Handle(j));
            && Reaches(u, s, With(s, c, n.(lines := n.lines[q := l']),
                                  GiveBackAll(s.ctl, Retired(l, j), cqe.ok, rtts, now)), Of(c))
            && l'.q == L.Retire(l.q, cqe).0 && l'.reported == l.reported + L.Retire(l.q, cqe).1
            && L.ReportKeys(L.Retire(l.q, cqe).1) == Retired(l, j)
  {
    var n := s.conns[c];
    var l, cqe := n.lines[q], n.lines[q].cq[j];
    var l', keys := L.Do(u.depth, l, L.Handle(j)), Retired(l, j);
    hide Reaches, L.Do, Retired, GiveBackAll;
    ReachesItself(u, s, Of(c));
    assert s == With(s, c, n, s.ctl);
    ReachesNext(u, s, c, n, s.ctl, Handle(c, q, j));
    var h := n.(lines := n.lines[q := l']);
    SettlingRun(u, s, c, h, keys, cqe.ok, rtts, now, |keys|);
    assert keys[|keys|..] == [] && keys[..|keys|] == keys;
    ReachesNext(u, s, c, h.(job := Retiring([], cqe.ok)), GiveBackAll(s.ctl, keys, cqe.ok, rtts, now), EndHandle(c));
    HandleIs(u, l, j);
  }

  lemma HandleIs(u: Setup, l: L.Line, j: nat)
    requires j < |l.cq|
    ensures var l', r := L.Do(u.depth, l, L.Handle(j)), L.Retire(l.q, l.cq[j]);
            l'.q == r.0 && l'.reported == l.reported + r.1 && L.ReportKeys(r.1) == Retired(l, j)
  {
    hide L.RetireCount;
  }

  // ---------------- a refused post ----------------

  /** Two operations planned on the one queue pair of an idle connection, the first of them unsignalled. */
  lemma TwoPlanned(u: Setup, ctl: Ctl, ops: seq<SubOp>, nows: seq<int>) returns (first: seq<Planned>)
    requires u.depth >= 2 && u.period >= 2 && Running(ctl) && |ops| == |nows| == 2
    requires forall i :: 0 <= i < 2 ==> ops[i].registered
    requires ctl.Plain? && ctl.budget.limit.Unlimited?
    ensures |first| == 2 && first[0] == Planned(0, false) && first[1].qp == 0
    ensures Plans([L.IDLE.q], ctl, ops, nows, first, u.depth, u.period)
  {
    var qs, p := [L.IDLE.q], Planned(0, false);
    assert On([], ops, 0) == [] && SinceAfter(0, []) == 0;
    assert CanPlan(qs, ctl, ops, [], p, nows[0], u.depth, u.period);
    var one := [p];
    assert one[..0] == [] && ClaimAll(ctl, ops, nows, 0) == ctl;
    assert Plans(qs, ctl, ops, nows, one, u.depth, u.period);
    OnAppend([], p, ops, 0);
    assert [] + [p] == one;
    assert |On(one, ops, 0)| == 1;
    hide On, Running, Claim;
    var ctl1 := ClaimAll(ctl, ops, nows, 1);
    var p1 := Planned(0, Owed(L.IDLE.q, On(one, ops, 0), u.depth, u.period));
    assert CanPlan(qs, ctl1, ops, one, p1, nows[1], u.depth, u.period);
    first := [p, p1];
    assert first[..1] == one;
  }

  /** A refused post strands what was posted before it in the same batch: the adapter finishes it
      and no completion comes, so it waits for that of a later request on its queue pair. */
  lemma RefusedPostStrands(u: Setup, a: L.Key, b: L.Key)
    requires u.depth >= 2 && u.period >= 2
    ensures exists e ::
              && Reaches(u, State(Plain(C.Budget(C.Unlimited, 0, 0)), [Fresh(1)]), e, Of(0)) && |e.conns| == 1
              && e.conns[0].job.Resting? && |e.conns[0].lines| == 1 && e.conns[0].taken == [a]
              && var l := e.conns[0].lines[0];
                 l.sent == [L.Wr(a, false)] && l.results == [true] && L.Quiet(l) && l.reported == []
  {
    var ctl := Plain(C.Budget(C.Unlimited, 0, 0));
    var s, ops, nows := State(ctl, [Fresh(1)]), [SubOp(a, true), SubOp(b, true)], [0, 0];
    assert Qps(Fresh(1).lines) == [L.IDLE.q];
    var first := TwoPlanned(u, ctl, ops, nows);
    SubmitIsARun(u, s, 0, ops, nows, first, 1);
    OneLeft(first, ops);
    hide Reaches, Plans, ClaimAll, ReleaseFrom, AnchorOf, Submitted, Of, Running;
    var m := Submitted(Fresh(1), AnchorOf(first), ops, 1);
    var ctl' := ReleaseFrom(ClaimAll(ctl, ops, nows, 2), ops, 1, 2);
    Finished(u, m, ctl', a);
    ReachesNext(u, s, 0, m, ctl', Finish(0, 0, true));
    var e := With(s, 0, StepOf(u, m, ctl', Finish(0, 0, true)).0, ctl');
    assert e.conns[0] == StepOf(u, m, ctl', Finish(0, 0, true)).0;
  }

  /** What is left on the queue pair when the second of two posts was refused. */
  lemma OneLeft(first: seq<Planned>, ops: seq<SubOp>)
    requires |first| == |ops| == 2 && first[0] == Planned(0, false) && first[1].qp == 0
    ensures PlanShape(ops, AnchorOf(first), 1)
    ensures var m := Submitted(Fresh(1), AnchorOf(first), ops, 1);
            && m.job.Resting? && |m.lines| == 1 && m.taken == [ops[0].key]
            && m.lines[0].sent == [L.Wr(ops[0].key, false)] && m.lines[0].results == []
            && m.lines[0].cq == [] && m.lines[0].reported == []
  {
    var plan := AnchorOf(first);
    assert !LastOn(first, 0) by { assert first[1].qp == first[0].qp; }
    PostedLinesAre(Fresh(1).lines, plan, ops, 1, 0);
    assert plan[..1] == [] + [Planned(0, false)];
    OnAppend([], Planned(0, false), ops, 0);
    assert On(plan[..1], ops, 0) == [L.Wr(ops[0].key, false)];
    hide PostedLines, On, L.PostAll;
  }

  lemma Finished(u: Setup, m: Conn, ctl: Ctl, a: L.Key)
    requires |m.lines| == 1 && m.lines[0].sent == [L.Wr(a, false)] && m.lines[0].results == [] && m.lines[0].cq == []
    ensures CanStep(u, m, ctl, Finish(0, 0, true))
    ensures var n := StepOf(u, m, ctl, Finish(0, 0, true)).0;
            && n.job == m.job && |n.lines| == 1 && n.taken == m.taken && StepOf(u, m, ctl, Finish(0, 0, true)).1 == ctl
            && n.lines[0] == m.lines[0].(results := [true])
  {
  }
}
