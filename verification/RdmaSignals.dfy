/** Signals come often enough on every queue pair, over every run of any number of connections and
    whatever posts the adapter refuses: a queue pair that is three quarters full has a completion to
    wait for, so a full one never stays full. */
module RdmaSignals {
  import L = RdmaLine
  import C = Congestion
  import opened Controllers
  import opened RdmaPlan
  import opened RdmaFabric

  /** A queue pair whose last request is not signalled is less than three quarters full, and has not
      gone a whole period without a signal. */
  ghost predicate Spaced(u: Setup, l: L.Line) {
    L.Anchored(l) || (|l.q.unsignalled| < u.depth - u.depth / 4 && l.q.sinceSignal < u.period)
  }

  /** What is still to be posted asks for its completion wherever it has to. */
  ghost predicate WhereOwed(u: Setup, q: L.QueuePair, ws: seq<L.Wr>) {
    forall i :: 0 <= i < |ws| && Owed(q, ws[..i], u.depth, u.period) ==> ws[i].signalled
  }

  ghost predicate SignalsInv(u: Setup, n: Conn) {
    && (forall q :: 0 <= q < |n.lines| ==> Spaced(u, n.lines[q]))
    && (n.job.Posting? && n.job.next <= |n.job.plan| <= |n.job.ops| ==>
          forall q :: 0 <= q < |n.lines| ==>
            WhereOwed(u, n.lines[q].q, Remaining(n.job.plan, n.job.ops, q, n.job.next)))
  }

  lemma {:induction false} SinceShift(s: nat, w: L.Wr, ws: seq<L.Wr>)
    ensures SinceAfter(if w.signalled then 0 else s + 1, ws) == SinceAfter(s, [w] + ws)
    decreases |ws|
  {
    if ws == [] {
      assert [w] + ws == [w] && [w][..0] == [];
    } else {
      var n := |ws| - 1;
      SinceShift(s, w, ws[..n]);
      assert ([w] + ws)[..n + 1] == [w] + ws[..n];
    }
  }

  lemma OwedShift(u: Setup, q: L.QueuePair, w: L.Wr, ws: seq<L.Wr>)
    ensures Owed(L.PostOne(q, w), ws, u.depth, u.period) == Owed(q, [w] + ws, u.depth, u.period)
  {
    SinceShift(q.sinceSignal, w, ws);
    hide SinceAfter;
  }

  lemma OwedRest(u: Setup, q: L.QueuePair, w: L.Wr, rest: seq<L.Wr>)
    requires WhereOwed(u, q, [w] + rest)
    ensures WhereOwed(u, L.PostOne(q, w), rest)
    ensures !w.signalled ==> q.posted - q.reclaimed + 1 < u.depth - u.depth / 4 && q.sinceSignal + 1 < u.period
  {
    var all := [w] + rest;
    assert all[..0] == [] && all[0] == w;
    assert Owed(q, all[..0], u.depth, u.period) ==> w.signalled;
    forall i | 0 <= i < |rest| && Owed(L.PostOne(q, w), rest[..i], u.depth, u.period) ensures rest[i].signalled {
      OwedShift(u, q, w, rest[..i]);
      assert all[..i + 1] == [w] + rest[..i] && all[i + 1] == rest[i];
    }
  }

  lemma PostSpaced(u: Setup, l: L.Line, w: L.Wr)
    requires L.Inv(u.depth, l)
    requires !w.signalled ==> l.q.posted - l.q.reclaimed + 1 < u.depth - u.depth / 4 && l.q.sinceSignal + 1 < u.period
    ensures Spaced(u, PostOn(l, w))
  {
    L.LedgerSize(l.q, l.reported, l.sent);
    hide L.Ledger, L.Numbered, L.Honest, L.TailComes;
  }

  lemma PostSignals(u: Setup, n: Conn, ctl: Ctl)
    requires ConnInv(u, n) && SignalsInv(u, n) && CanStep(u, n, ctl, Post(0))
    ensures SignalsInv(u, StepOf(u, n, ctl, Post(0)).0)
  {
    var ops, plan, k := n.job.ops, n.job.plan, n.job.next;
    var p, w := plan[k], L.Wr(ops[k].key, plan[k].signal);
    var rest := Remaining(plan, ops, p.qp, k + 1);
    assert L.Inv(u.depth, n.lines[p.qp]);
    hide ConnInv, Spaced, WhereOwed, L.Inv;
    assert Remaining(plan, ops, p.qp, k) == [w] + rest;
    assert WhereOwed(u, n.lines[p.qp].q, Remaining(plan, ops, p.qp, k));
    OwedRest(u, n.lines[p.qp].q, w, rest);
    PostSpaced(u, n.lines[p.qp], w);
    var n' := StepOf(u, n, ctl, Post(0)).0;
    forall q | 0 <= q < |n'.lines| ensures WhereOwed(u, n'.lines[q].q, Remaining(plan, ops, q, k + 1)) {
      assert WhereOwed(u, n.lines[q].q, Remaining(plan, ops, q, k));
    }
  }

  lemma EndPlanSignals(u: Setup, n: Conn)
    requires ConnInv(u, n) && SignalsInv(u, n) && n.job.Planning? && n.job.ask.NoAsk?
    ensures SignalsInv(u, n.(job := Posting(n.job.ops, AnchorOf(n.job.plan), 0)))
  {
    hide LinesInv, TakenInv, AnchorInv, Spaced, Remaining, On, AnchorOf;
    var ops, plan := n.job.ops, n.job.plan;
    forall q | 0 <= q < |n.lines| ensures WhereOwed(u, n.lines[q].q, Remaining(AnchorOf(plan), ops, q, 0)) {
      assert Fits(Qps(n.lines)[q], On(plan, ops, q), u.depth, u.period);
      AllRemains(AnchorOf(plan), ops, q);
      AnchoringAnchors(n.lines[q].q, plan, ops, q, u.depth, u.period);
    }
  }

  lemma HandleSpaced(u: Setup, l: L.Line, j: nat)
    requires L.Inv(u.depth, l) && j < |l.cq| && Spaced(u, l)
    ensures Spaced(u, L.Do(u.depth, l, L.Handle(j)))
  {
    hide L.Inv, L.RetireCount;
  }

  lemma FinishSpaced(u: Setup, l: L.Line, ok: bool)
    requires L.Enabled(u.depth, l, L.Finish(ok)) && Spaced(u, l)
    ensures Spaced(u, L.Do(u.depth, l, L.Finish(ok))) && L.Do(u.depth, l, L.Finish(ok)).q == l.q
  {
  }

  /** A queue pair that is still as it should be, in a connection that is not posting, or with its
      counters as they were. */
  lemma LineSignals(u: Setup, n: Conn, q: nat, l: L.Line, job: Job)
    requires SignalsInv(u, n) && q < |n.lines| && Spaced(u, l)
    requires (job == n.job && l.q == n.lines[q].q) || job.Retiring?
    ensures SignalsInv(u, n.(lines := n.lines[q := l], job := job))
  {
    hide Spaced, WhereOwed, Remaining;
  }

  lemma OtherSignals(u: Setup, n: Conn, ctl: Ctl, s: Step)
    requires SignalsInv(u, n) && CanStep(u, n, ctl, s)
    requires !s.Post? && !s.EndPlan? && !s.Finish? && !s.Handle?
    ensures SignalsInv(u, StepOf(u, n, ctl, s).0)
  {
    hide Spaced, WhereOwed, Remaining, CanPlan, Claim, GiveBack, Release;
  }

  lemma StepSignals(u: Setup, n: Conn, ctl: Ctl, s: Step)
    requires ConnInv(u, n) && SignalsInv(u, n) && CanStep(u, n, ctl, s)
    ensures SignalsInv(u, StepOf(u, n, ctl, s).0)
  {
    if s.Post? {
      PostSignals(u, n, ctl);
    } else if s.EndPlan? {
      EndPlanSignals(u, n);
    } else if s.Finish? {
      hide ConnInv, SignalsInv, L.Do, L.Enabled;
      EachSpaced(u, n, s.q);
      FinishSpaced(u, n.lines[s.q], s.ok);
      LineSignals(u, n, s.q, L.Do(u.depth, n.lines[s.q], L.Finish(s.ok)), n.job);
    } else if s.Handle? {
      hide ConnInv, SignalsInv, L.Do, L.Enabled, Retired;
      EachSpaced(u, n, s.q);
      HandleSpaced(u, n.lines[s.q], s.j);
      LineSignals(u, n, s.q, L.Do(u.depth, n.lines[s.q], L.Handle(s.j)),
                  Retiring(Retired(n.lines[s.q], s.j), n.lines[s.q].cq[s.j].ok));
    } else {
      OtherSignals(u, n, ctl, s);
    }
  }

  lemma EachSpaced(u: Setup, n: Conn, q: nat)
    requires ConnInv(u, n) && SignalsInv(u, n) && q < |n.lines|
    ensures L.Inv(u.depth, n.lines[q]) && Spaced(u, n.lines[q])
  {
  }

  ghost predicate AllSignal(u: Setup, conns: seq<Conn>) {
    forall c :: 0 <= c < |conns| ==> SignalsInv(u, conns[c])
  }

  lemma {:induction false} RunSignals(u: Setup, s: State, steps: seq<Step>)
    requires Inv(u, s) && AllSignal(u, s.conns) && CanRun(u, s, steps)
    ensures Inv(u, After(u, s, steps)) && AllSignal(u, After(u, s, steps).conns)
    decreases |steps|
  {
    hide ConnInv, CanStep, StepOf, SignalsInv, Outs, Used, Running;
    if steps != [] {
      StepSignals(u, s.conns[steps[0].c], s.ctl, steps[0]);
      StepKeeps(u, s, steps[0]);
      RunSignals(u, Do(u, s, steps[0]), steps[1..]);
    }
  }

  lemma StartsSpaced(u: Setup, s: State)
    requires Init(s)
    ensures AllSignal(u, s.conns)
  {
    forall c, q | 0 <= c < |s.conns| && 0 <= q < |s.conns[c].lines| ensures s.conns[c].lines[q] == L.IDLE {
      assert s.conns[c] == Fresh(|s.conns[c].lines|);
    }
  }

  /** In every run, whatever was refused: a queue pair holding three quarters of its depth, or as many
      requests as a signal period, ends with a signalled one; and once the adapter is through with
      it the completion of that one waits to be handled. */
  lemma NearlyFullDrains(u: Setup, s: State, steps: seq<Step>, c: nat, q: nat)
    requires Init(s) && CanRun(u, s, steps) && c < |After(u, s, steps).conns| && q < |After(u, s, steps).conns[c].lines|
    ensures var l := After(u, s, steps).conns[c].lines[q];
            l.q.unsignalled != [] && (|l.q.unsignalled| >= u.depth - u.depth / 4 || l.q.sinceSignal >= u.period) ==>
              && l.sent != [] && l.sent[|l.sent| - 1].signalled
              && (|l.results| == |l.sent| ==> exists j :: 0 <= j < |l.cq| && l.cq[j].seqNo == |l.sent| - 1)
  {
    StartsClean(u, s);
    StartsSpaced(u, s);
    RunSignals(u, s, steps);
    var n := After(u, s, steps).conns[c];
    hide Init, CanRun, After;
    assert ConnInv(u, n) && SignalsInv(u, n);
    var l := n.lines[q];
    assert L.Inv(u.depth, l) && Spaced(u, l);
    L.LedgerSize(l.q, l.reported, l.sent);
    hide ConnInv, SignalsInv, L.Ledger, L.Numbered, L.Honest;
  }
}
