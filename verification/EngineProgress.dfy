/** The engine can always wind down: whatever state it is in, its own threads and the transports
    it uses can bring every request to its end, after which close() and deregister_memory()
    return and poll_completions hands out what is left. */
module EngineProgress {
  import opened Engine
  import L = Lifecycle
  import I = LifecycleInvariant
  import T = LifecycleTheorems
  import P = LifecycleProgress
  import Request
  import Status

  /** A step of a thread at work on a request, or of the transport; nothing from outside. */
  predicate OnItsOwn(s: L.Step) {
    T.Working(s) || s.TransportReports?
  }

  /** Published, and counted as accepted: the reaper may end a request before it is. */
  predicate Settled(l: L.Life) {
    IsEnded(l) && IsCountedIn(l)
  }

  lemma LifeMovesOn(l: L.Life) returns (s: L.Step)
    requires I.Inv(l) && !Settled(l)
    ensures L.Enabled(l, s) && OnItsOwn(s) && P.Work(L.Do(l, s)) < P.Work(l)
  {
    hide P.Work, L.Do, I.Inv, P.EmptyHanded;
    if IsEnded(l) {
      s := L.CountIn;
      P.NotEmptyHanded(l, s);
      P.StepShrinks(l, s);
      return;
    }
    hide L.Enabled;
    if l.flow.link.outstanding != {} {
      s := TransportMovesOn(l);
    } else {
      T.HasStep(l);
      s :| T.Working(s) && L.Enabled(l, s);
      if P.EmptyHanded(l, s) {
        s := GivesUpPosting(l, s);
      } else {
        P.StepShrinks(l, s);
      }
    }
  }

  lemma TransportMovesOn(l: L.Life) returns (s: L.Step)
    requires I.Inv(l) && l.flow.link.outstanding != {}
    ensures L.Enabled(l, s) && OnItsOwn(s) && P.Work(L.Do(l, s)) < P.Work(l)
  {
    hide P.Work, L.Do, I.Inv;
    var i :| i in l.flow.link.outstanding;
    s := L.TransportReports(i, Request.Completion(Status.Ok, 0, false));
    P.NotEmptyHanded(l, s);
    P.StepShrinks(l, s);
  }

  /** Instead of coming back empty-handed the transport may refuse. */
  lemma GivesUpPosting(l: L.Life, turn: L.Step) returns (s: L.Step)
    requires I.Inv(l) && L.Enabled(l, turn) && P.EmptyHanded(l, turn)
    ensures L.Enabled(l, s) && OnItsOwn(s) && P.Work(L.Do(l, s)) < P.Work(l)
  {
    hide P.Work, L.Do, I.Inv;
    s := L.Credit(turn.k, L.Broken);
    P.StepShrinks(l, s);
  }

  /** What winding down consists of: nobody submits, cancels or disconnects. */
  predicate WindsDown(s: Step) {
    match s
    case Within(_, s) => OnItsOwn(s)
    case CheckBound(_) => false
    case GiveUp(_) => false
    case Insert(_, _, _, _) => false
    case _ => true
  }

  /** Only this request has changed, and what follows from that. */
  ghost predicate OnlyRequest(e: Engine, e': Engine, id: nat) {
    && e'.reqs.Keys == e.reqs.Keys && e'.regions == e.regions && e'.gates == e.gates
    && forall other :: other in e.reqs && other != id ==> e'.reqs[other] == e.reqs[other]
  }

  lemma WithinIsOnly(m: Limits, e: Engine, id: nat, s: L.Step)
    requires id in e.reqs && L.Enabled(e.reqs[id], s)
    ensures Enabled(m, e, Within(id, s))
    ensures var e' := Do(m, e, Within(id, s)); OnlyRequest(e, e', id) && e'.reqs[id] == L.Do(e.reqs[id], s)
  {
    hide L.Do, L.Enabled, Keep, Tally;
  }

  lemma RequestMovesOn(m: Limits, e: Engine, id: nat) returns (s: Step, e': Engine)
    requires EngineInv(m, e) && id in e.reqs && !Settled(e.reqs[id])
    ensures WindsDown(s) && Enabled(m, e, s) && Do(m, e, s) == e'
    ensures EngineInv(m, e') && OnlyRequest(e, e', id) && P.Work(e'.reqs[id]) < P.Work(e.reqs[id])
  {
    assert I.Inv(e.reqs[id]);
    hide EngineInv, Enabled, Do, P.Work, L.Enabled, L.Do, I.Inv, OnItsOwn;
    var t := LifeMovesOn(e.reqs[id]);
    WithinIsOnly(m, e, id, t);
    s := Within(id, t);
    StepKeeps(m, e, s);
    e' := Do(m, e, s);
  }

  lemma {:induction false} RequestEnds(m: Limits, e: Engine, id: nat) returns (steps: seq<Step>)
    requires EngineInv(m, e) && id in e.reqs
    ensures CanRun(m, e, steps) && forall i :: 0 <= i < |steps| ==> WindsDown(steps[i])
    ensures var e' := After(m, e, steps); OnlyRequest(e, e', id) && Settled(e'.reqs[id])
    decreases P.Work(e.reqs[id])
  {
    hide EngineInv, Enabled, Do, P.Work, WindsDown;
    if Settled(e.reqs[id]) {
      steps := [];
    } else {
      var s, e' := RequestMovesOn(m, e, id);
      var rest := RequestEnds(m, e', id);
      steps := [s] + rest;
      assert steps[1..] == rest;
    }
  }

  lemma {:induction false} Joined(m: Limits, e: Engine, a: seq<Step>, b: seq<Step>)
    requires CanRun(m, e, a) && CanRun(m, After(m, e, a), b)
    ensures CanRun(m, e, a + b) && After(m, e, a + b) == After(m, After(m, e, a), b)
    decreases |a|
  {
    hide Enabled, Do;
    if a == [] {
      assert a + b == b;
    } else {
      Joined(m, Do(m, e, a[0]), a[1..], b);
      assert (a + b)[0] == a[0] && (a + b)[1..] == a[1..] + b;
    }
  }

  ghost function Unsettled(reqs: map<nat, L.Life>): set<nat> {
    set id | id in reqs && !Settled(reqs[id])
  }

  /** However many requests there are, and wherever they have got to, all of them can end. */
  lemma {:induction false} AllEnd(m: Limits, e: Engine) returns (steps: seq<Step>)
    requires EngineInv(m, e)
    ensures CanRun(m, e, steps) && forall i :: 0 <= i < |steps| ==> WindsDown(steps[i])
    ensures var e' := After(m, e, steps);
            EngineInv(m, e') && Unsettled(e'.reqs) == {} && e'.reqs.Keys == e.reqs.Keys && e'.gates == e.gates
    decreases |Unsettled(e.reqs)|
  {
    hide EngineInv, Enabled, Do, WindsDown;
    if id :| id in Unsettled(e.reqs) {
      var a := RequestEnds(m, e, id);
      var e1 := After(m, e, a);
      RunKeeps(m, e, a);
      assert Unsettled(e1.reqs) < Unsettled(e.reqs) by {
        assert id !in Unsettled(e1.reqs);
      }
      FewerLeft(Unsettled(e1.reqs), Unsettled(e.reqs));
      var b := AllEnd(m, e1);
      Joined(m, e, a, b);
      steps := a + b;
    } else {
      steps := [];
    }
  }

  lemma {:induction false} FewerLeft(a: set<nat>, b: set<nat>)
    requires a < b
    ensures |a| < |b|
  {
    var c := b - a;
    assert b == a + c && a !! c;
    var x :| x in c;
    assert |c| == |c - {x}| + 1;
  }

  lemma NoneInFlight(e: Engine)
    requires Unsettled(e.reqs) == {}
    ensures Inflight(e) == {}
  {
    forall id | id in e.reqs ensures id !in Inflight(e) {
      assert id !in Unsettled(e.reqs);
    }
  }

  /** The last steps: close() returns, a region is deregistered, the queue is emptied. */
  lemma LastSteps(m: Limits, e: Engine, region: nat) returns (steps: seq<Step>, e': Engine)
    requires e.gates.closed && Unsettled(e.reqs) == {}
    ensures CanRun(m, e, steps) && After(m, e, steps) == e'
    ensures forall i :: 0 <= i < |steps| ==> WindsDown(steps[i])
    ensures e'.gates.closeReturned && region in e'.gates.deregistered && e'.finished.completed == []
    ensures e'.reqs == e.reqs
  {
    NoneInFlight(e);
    var e1 := e.(gates := e.gates.(closeReturned := true));
    var e2 := e1.(gates := e1.gates.(retired := e1.gates.retired + {region}));
    var e3 := e2.(gates := e2.gates.(deregistered := e2.gates.deregistered + {region}));
    var n := |e.finished.completed|;
    e' := e3.(finished := HandOut(e3.finished, n));
    NoneInFlight(e2);
    steps := [CloseReturns, Retire(region), Deregister(region), Poll(n)];
    assert Do(m, e, CloseReturns) == e1;
    assert Do(m, e1, Retire(region)) == e2;
    assert Do(m, e2, Deregister(region)) == e3;
    assert Do(m, e3, Poll(n)) == e';
    FourSteps(m, e, steps, e1, e2, e3, e');
  }

  lemma FourSteps(m: Limits, e: Engine, steps: seq<Step>, e1: Engine, e2: Engine, e3: Engine, e4: Engine)
    requires |steps| == 4
    requires Enabled(m, e, steps[0]) && Do(m, e, steps[0]) == e1
    requires Enabled(m, e1, steps[1]) && Do(m, e1, steps[1]) == e2
    requires Enabled(m, e2, steps[2]) && Do(m, e2, steps[2]) == e3
    requires Enabled(m, e3, steps[3]) && Do(m, e3, steps[3]) == e4
    ensures CanRun(m, e, steps) && After(m, e, steps) == e4
  {
    hide Enabled, Do;
    var t1 := steps[1..];
    var t2 := t1[1..];
    var t3 := t2[1..];
    assert t1[0] == steps[1] && t2[0] == steps[2] && t3[0] == steps[3] && t3[1..] == [];
    assert CanRun(m, e4, []) && After(m, e4, []) == e4;
    assert CanRun(m, e3, t3) && After(m, e3, t3) == e4;
    assert CanRun(m, e2, t2) && After(m, e2, t2) == e4;
    assert CanRun(m, e1, t1) && After(m, e1, t1) == e4;
  }

  /** From every state the engine can get to, close() can return and any region be deregistered,
      with every request ended and handed out by poll_completions or dropped for want of room, and
      the counters balancing. */
  lemma CloseCanReturn(m: Limits, steps: seq<Step>, region: nat) returns (more: seq<Step>)
    requires CanRun(m, FRESH, steps)
    ensures CanRun(m, FRESH, steps + more) && forall i :: 0 <= i < |more| ==> WindsDown(more[i])
    ensures var e, e' := After(m, FRESH, steps), After(m, FRESH, steps + more);
            && e'.gates.closeReturned && region in e'.gates.deregistered
            && e'.reqs.Keys == e.reqs.Keys && e'.finished.completed == []
            && (forall id :: id in e'.reqs ==> e'.reqs[id].fate.ender.Ended?)
            && (forall id :: id in e'.reqs ==> multiset(e'.finished.handed + e'.finished.dropped)[id] == 1)
            && e'.stats.accepted == e'.stats.succeeded + e'.stats.failed + e'.stats.cancelled
  {
    var e := After(m, FRESH, steps);
    FreshInv(m);
    RunKeeps(m, FRESH, steps);
    hide Do, Enabled, EngineInv, CanRun, After, WindsDown;
    var e';
    more, e' := Closes(m, e, region);
    Joined(m, FRESH, steps, more);
    RunKeeps(m, e, more);
    AllAccounted(m, e');
  }

  lemma Closes(m: Limits, e: Engine, region: nat) returns (more: seq<Step>, e': Engine)
    requires EngineInv(m, e)
    ensures CanRun(m, e, more) && After(m, e, more) == e' && forall i :: 0 <= i < |more| ==> WindsDown(more[i])
    ensures e'.gates.closeReturned && region in e'.gates.deregistered && e'.reqs.Keys == e.reqs.Keys
    ensures e'.finished.completed == [] && Unsettled(e'.reqs) == {}
  {
    var e0 := SetsClosed(m, e);
    assert WindsDown(SetClosed);
    hide Do, Enabled, EngineInv, CanRun, After, WindsDown;
    var a := AllEnd(m, e0);
    var b;
    b, e' := LastSteps(m, After(m, e0, a), region);
    Joined(m, e0, a, b);
    Joined(m, e, [SetClosed], a + b);
    more := [SetClosed] + (a + b);
  }

  lemma SetsClosed(m: Limits, e: Engine) returns (e': Engine)
    requires EngineInv(m, e)
    ensures EngineInv(m, e') && e' == e.(gates := e.gates.(closed := true))
    ensures CanRun(m, e, [SetClosed]) && After(m, e, [SetClosed]) == e'
  {
    e' := e.(gates := e.gates.(closed := true));
    assert Enabled(m, e, SetClosed) && Do(m, e, SetClosed) == e';
    hide EngineInv, Enabled, Do;
    StepKeeps(m, e, SetClosed);
    OneStep(m, e, SetClosed);
  }

  lemma OneStep(m: Limits, e: Engine, s: Step)
    requires Enabled(m, e, s)
    ensures CanRun(m, e, [s]) && After(m, e, [s]) == Do(m, e, s)
  {
    hide Enabled, Do;
    assert [s][1..] == [];
    assert CanRun(m, Do(m, e, s), []);
  }

  /** Once every request is settled, each has been through the queue, once, and the counters. */
  lemma AllAccounted(m: Limits, e: Engine)
    requires EngineInv(m, e) && Unsettled(e.reqs) == {} && e.finished.completed == []
    ensures forall id :: id in e.reqs ==> e.reqs[id].fate.ender.Ended?
    ensures forall id :: id in e.reqs ==> multiset(e.finished.handed + e.finished.dropped)[id] == 1
    ensures e.stats.accepted == e.stats.succeeded + e.stats.failed + e.stats.cancelled
  {
    hide LivesInv, GatesInv, StatsInv;
    forall id | id in e.reqs ensures Settled(e.reqs[id]) {
      assert id !in Unsettled(e.reqs);
    }
    Balance(e.reqs, e.stats);
    NoneInFlight(e);
    forall id | id in e.reqs ensures multiset(e.finished.handed + e.finished.dropped)[id] == 1 {
      assert id in Where(e.reqs, IsEnded);
      assert All(e.finished)[id] == 1;
    }
  }
}
