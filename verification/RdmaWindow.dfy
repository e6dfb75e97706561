/** How far several connections can take a fixed window they share: the controller is asked and
    told in separate holds of its lock, so what others were let through for counts only later. */
module RdmaWindow {
  import L = RdmaLine
  import C = Congestion
  import opened Controllers
  import opened RdmaPlan
  import opened RdmaFabric

  /** What a connection has been let through for and not claimed yet. */
  function Ask(n: Conn, d: C.Direction, ones: bool): nat {
    if n.job.Planning? && n.job.ask.Asked? && |n.job.plan| < |n.job.ops|
    then Amount(n.job.ops[|n.job.plan|].key, d, ones)
    else 0
  }

  function Asks(conns: seq<Conn>, d: C.Direction, ones: bool): nat {
    if conns == [] then 0 else Asks(conns[..|conns| - 1], d, ones) + Ask(conns[|conns| - 1], d, ones)
  }

  /** What a step is let through for. */
  function LetThrough(n: Conn, s: Step, d: C.Direction, ones: bool): nat {
    if s.Allow? && n.job.Planning? && |n.job.plan| < |n.job.ops|
    then Amount(n.job.ops[|n.job.plan|].key, d, ones)
    else 0
  }

  lemma {:induction false} AsksUpdate(conns: seq<Conn>, c: nat, n: Conn, d: C.Direction, ones: bool)
    requires c < |conns|
    ensures Asks(conns[c := n], d, ones) + Ask(conns[c], d, ones) == Asks(conns, d, ones) + Ask(n, d, ones)
    decreases |conns|
  {
    hide Ask;
    var last := |conns| - 1;
    if c == last {
      assert conns[c := n][..last] == conns[..last];
    } else {
      AsksUpdate(conns[..last], c, n, d, ones);
      assert conns[c := n][..last] == conns[..last][c := n];
    }
  }

  lemma AskMoves(u: Setup, n: Conn, ctl: Ctl, s: Step, d: C.Direction, ones: bool)
    requires CanStep(u, n, ctl, s)
    ensures Ask(StepOf(u, n, ctl, s).0, d, ones) + Claimed(n, s, d, ones) == Ask(n, d, ones) + LetThrough(n, s, d, ones)
  {
    hide Amount, L.Do, L.Enabled, Retired, Claim, GiveBack, Release, PostOn, AnchorOf, On, Owed, Allows;
  }

  // ---------------- the bound ----------------

  /** No operation has more than m bytes. */
  predicate AllSmall(ops: seq<SubOp>, m: nat) {
    forall i :: 0 <= i < |ops| ==> ops[i].key.bytes <= m
  }

  predicate Small(n: Conn, m: nat) {
    n.job.Planning? ==> AllSmall(n.job.ops, m)
  }

  predicate SmallStep(s: Step, m: nat) {
    s.Start? ==> AllSmall(s.ops, m)
  }

  predicate SmallSteps(steps: seq<Step>, m: nat) {
    forall i :: 0 <= i < |steps| ==> SmallStep(steps[i], m)
  }

  predicate Fixed(ctl: Ctl, w: nat) {
    ctl.Plain? && ctl.budget.limit == C.Window(w)
  }

  /** What all but one of n connections can be let through for at a time. */
  function Slack(n: nat, m: nat): int {
    (n - 1) * m
  }

  function Max(a: nat, b: nat): nat {
    if a < b then b else a
  }

  lemma {:induction false} AsksAtMost(conns: seq<Conn>, d: C.Direction, m: nat)
    requires forall c :: 0 <= c < |conns| ==> Small(conns[c], m)
    ensures Asks(conns, d, false) <= |conns| * m
    decreases |conns|
  {
    if conns != [] {
      var last := |conns| - 1;
      AsksAtMost(conns[..last], d, m);
      assert Small(conns[last], m);
      Distributes(last, m);
    }
  }

  lemma Distributes(n: nat, m: nat)
    ensures (n + 1) * m == n * m + m
  {
  }

  lemma {:induction false} OthersAsk(conns: seq<Conn>, c: nat, d: C.Direction, m: nat)
    requires c < |conns| && Ask(conns[c], d, false) == 0
    requires forall i :: 0 <= i < |conns| ==> Small(conns[i], m)
    ensures Asks(conns, d, false) <= Slack(|conns|, m)
    decreases |conns|
  {
    var last := |conns| - 1;
    if c == last {
      AsksAtMost(conns[..last], d, m);
    } else {
      OthersAsk(conns[..last], c, d, m);
      assert Small(conns[last], m);
      Distributes(last - 1, m);
    }
  }

  ghost predicate WindowInv(w: nat, m: nat, s: State) {
    && Fixed(s.ctl, w)
    && (forall c :: 0 <= c < |s.conns| ==> Small(s.conns[c], m))
    && (forall d :: Used(s.ctl, d) + Asks(s.conns, d, false) <= Max(w, m) + Slack(|s.conns|, m))
  }

  lemma StaysSmall(u: Setup, n: Conn, ctl: Ctl, s: Step, m: nat)
    requires CanStep(u, n, ctl, s) && Small(n, m) && SmallStep(s, m)
    ensures Small(StepOf(u, n, ctl, s).0, m)
  {
    hide L.Do, L.Enabled, Retired, Claim, GiveBack, Release, PostOn, AnchorOf, CanPlan;
  }

  /** What is let through fits on top of what is used, or goes out alone. */
  lemma LetThroughFits(u: Setup, n: Conn, ctl: Ctl, s: Step, w: nat, m: nat, d: C.Direction)
    requires CanStep(u, n, ctl, s) && s.Allow? && Fixed(ctl, w) && Small(n, m)
    ensures Ask(n, d, false) == 0
    ensures LetThrough(n, s, d, false) == 0 || Used(ctl, d) + LetThrough(n, s, d, false) <= Max(w, m)
  {
    hide On, Owed;
  }

  lemma StepInWindow(u: Setup, s: State, step: Step, w: nat, m: nat)
    requires Inv(u, s) && WindowInv(w, m, s) && Enabled(u, s, step) && SmallStep(step, m)
    ensures WindowInv(w, m, Do(u, s, step))
  {
    StepMoves(u, s, step);
    hide ConnInv, CanStep, StepOf, Used, Outs, Asks, Freed, Claimed, LetThrough, Small, Running, Ask, Slack, Max,
         SmallStep;
    var n, e := s.conns[step.c], Do(u, s, step);
    StaysSmall(u, n, s.ctl, step, m);
    forall d ensures Used(e.ctl, d) + Asks(e.conns, d, false) <= Max(w, m) + Slack(|s.conns|, m) {
      AskMoves(u, n, s.ctl, step, d, false);
      AsksUpdate(s.conns, step.c, e.conns[step.c], d, false);
      assert Used(s.ctl, d) + Asks(s.conns, d, false) <= Max(w, m) + Slack(|s.conns|, m);
      if step.Allow? {
        LetThroughFits(u, n, s.ctl, step, w, m, d);
        OthersAsk(s.conns, step.c, d, m);
        NothingClaimed(n, step, d);
      } else {
        NoneLetThrough(n, step, d);
      }
    }
  }

  lemma NoneLetThrough(n: Conn, s: Step, d: C.Direction)
    requires !s.Allow?
    ensures LetThrough(n, s, d, false) == 0 && LetThrough(n, s, d, true) == 0
  {
  }

  lemma NothingClaimed(n: Conn, s: Step, d: C.Direction)
    requires s.Allow?
    ensures Claimed(n, s, d, false) == Freed(n, s, d, false) == 0 && Claimed(n, s, d, true) == Freed(n, s, d, true) == 0
  {
  }

  lemma {:induction false} RunInWindow(u: Setup, s: State, steps: seq<Step>, w: nat, m: nat)
    requires Inv(u, s) && WindowInv(w, m, s) && CanRun(u, s, steps) && SmallSteps(steps, m)
    ensures WindowInv(w, m, After(u, s, steps)) && |After(u, s, steps).conns| == |s.conns|
    decreases |steps|
  {
    hide Inv, WindowInv, CanStep, StepOf, SmallStep;
    if steps != [] {
      StepKeeps(u, s, steps[0]);
      StepInWindow(u, s, steps[0], w, m);
      RunInWindow(u, Do(u, s, steps[0]), steps[1..], w, m);
    }
  }

  lemma {:induction false} NothingAsked(conns: seq<Conn>, d: C.Direction, ones: bool)
    requires forall c :: 0 <= c < |conns| ==> conns[c] == Fresh(|conns[c].lines|)
    ensures Asks(conns, d, ones) == 0
    decreases |conns|
  {
    if conns != [] {
      NothingAsked(conns[..|conns| - 1], d, ones);
    }
  }

  /** n connections on a window of w bytes, with operations of up to m bytes, hold up to
      max(w, m) + (n - 1) m bytes at a time. */
  lemma WindowBound(u: Setup, s: State, steps: seq<Step>, w: nat, m: nat, d: C.Direction)
    requires Init(s) && Fixed(s.ctl, w) && CanRun(u, s, steps) && SmallSteps(steps, m)
    ensures Used(After(u, s, steps).ctl, d) <= Max(w, m) + Slack(|s.conns|, m)
  {
    StartsClean(u, s);
    Starts(s, w, m);
    RunInWindow(u, s, steps, w, m);
    hide Init, CanRun, After, Used, Inv;
  }

  lemma Starts(s: State, w: nat, m: nat)
    requires Init(s) && Fixed(s.ctl, w)
    ensures WindowInv(w, m, s)
  {
    forall d ensures Used(s.ctl, d) + Asks(s.conns, d, false) <= Max(w, m) + Slack(|s.conns|, m) {
      NothingAsked(s.conns, d, false);
      if |s.conns| > 0 {
        Distributes(|s.conns| - 1, m);
      }
    }
  }

  // ---------------- one connection ----------------

  lemma {:induction false} NoBytesNoOps(ks: seq<L.Key>, d: C.Direction)
    ensures KeySum(ks, d, false) == 0 <==> KeySum(ks, d, true) == 0
    decreases |ks|
  {
    if ks != [] {
      NoBytesNoOps(ks[1..], d);
    }
  }

  lemma {:induction false} NoBacklog(lines: seq<L.Line>, d: C.Direction)
    ensures Backlog(lines, d, false) == 0 <==> Backlog(lines, d, true) == 0
    decreases |lines|
  {
    hide KeySum;
    if lines != [] {
      NoBacklog(lines[..|lines| - 1], d);
      NoBytesNoOps(L.Keys(lines[|lines| - 1].q.unsignalled), d);
    }
  }

  lemma NoBytesOut(n: Conn, d: C.Direction)
    ensures Out(n, d, false) == 0 <==> Out(n, d, true) == 0
  {
    hide KeySum, Backlog;
    NoBacklog(n.lines, d);
    match n.job
    case Resting =>
    case Planning(ops, plan, _) => if |plan| <= |ops| { NoBytesNoOps(OpKeys(ops, 0, |plan|), d); }
    case Posting(ops, plan, k) => if k <= |plan| <= |ops| { NoBytesNoOps(OpKeys(ops, k, |plan|), d); }
    case Releasing(ops, plan, k) => if k <= |plan| <= |ops| { NoBytesNoOps(OpKeys(ops, k, |plan|), d); }
    case Retiring(keys, _) => NoBytesNoOps(keys, d);
  }

  /** Within the window, or holding one operation that has any bytes. */
  ghost predicate Alone(w: nat, s: State, d: C.Direction)
    requires |s.conns| == 1
  {
    || Used(s.ctl, d) + Ask(s.conns[0], d, false) <= w
    || Out(s.conns[0], d, true) + Ask(s.conns[0], d, true) <= 1
  }

  lemma OneOut(n: Conn, d: C.Direction, ones: bool)
    ensures Outs([n], d, ones) == Out(n, d, ones)
  {
    hide Out;
    assert [n][..0] == [];
    assert Outs([n][..0], d, ones) == 0;
  }

  lemma StepAlone(u: Setup, s: State, step: Step, w: nat, d: C.Direction)
    requires Inv(u, s) && |s.conns| == 1 && Fixed(s.ctl, w) && Alone(w, s, d) && Enabled(u, s, step)
    ensures |Do(u, s, step).conns| == 1 && Fixed(Do(u, s, step).ctl, w) && Alone(w, Do(u, s, step), d)
  {
    StepMoves(u, s, step);
    var n, e := s.conns[0], Do(u, s, step);
    assert s.conns == [n] && step.c == 0;
    OneOut(n, d, false);
    OutMoves(u, n, s.ctl, step, d, true);
    AskMoves(u, n, s.ctl, step, d, false);
    AskMoves(u, n, s.ctl, step, d, true);
    if step.Allow? {
      AloneFits(u, n, s.ctl, step, w, d);
      NothingClaimed(n, step, d);
      NoBytesOut(n, d);
    } else {
      NoneLetThrough(n, step, d);
      FreedAlike(n, step, d);
    }
    hide ConnInv, CanStep, StepOf, Used, Out, Outs, Freed, Claimed, LetThrough, Running, Ask;
  }

  lemma AloneFits(u: Setup, n: Conn, ctl: Ctl, s: Step, w: nat, d: C.Direction)
    requires CanStep(u, n, ctl, s) && s.Allow? && Fixed(ctl, w)
    ensures Ask(n, d, false) == Ask(n, d, true) == 0 && LetThrough(n, s, d, true) <= 1
    ensures LetThrough(n, s, d, false) == 0 || Used(ctl, d) == 0 || Used(ctl, d) + LetThrough(n, s, d, false) <= w
    ensures LetThrough(n, s, d, false) == 0 ==> LetThrough(n, s, d, true) == 0
  {
    hide On, Owed;
  }

  lemma FreedAlike(n: Conn, s: Step, d: C.Direction)
    ensures Claimed(n, s, d, false) == 0 <==> Claimed(n, s, d, true) == 0
    ensures Freed(n, s, d, false) == 0 <==> Freed(n, s, d, true) == 0
  {
  }

  lemma {:induction false} RunAlone(u: Setup, s: State, steps: seq<Step>, w: nat, d: C.Direction)
    requires Inv(u, s) && |s.conns| == 1 && Fixed(s.ctl, w) && Alone(w, s, d) && CanRun(u, s, steps)
    ensures var e := After(u, s, steps); Inv(u, e) && |e.conns| == 1 && Alone(w, e, d)
    decreases |steps|
  {
    hide Inv, Alone, Fixed, CanStep, StepOf;
    if steps != [] {
      StepKeeps(u, s, steps[0]);
      StepAlone(u, s, steps[0], w, d);
      RunAlone(u, Do(u, s, steps[0]), steps[1..], w, d);
    }
  }

  lemma StartsAlone(s: State, w: nat, d: C.Direction)
    requires Init(s) && |s.conns| == 1
    ensures Alone(w, s, d)
  {
    assert s.conns[0] == Fresh(|s.conns[0].lines|);
    hide Out, Used;
  }

  /** A connection with a window to itself passes it only with a single operation larger than the
      window outstanding. */
  lemma OneConnectionKeepsTheWindow(u: Setup, s: State, steps: seq<Step>, w: nat, d: C.Direction)
    requires Init(s) && |s.conns| == 1 && Fixed(s.ctl, w) && CanRun(u, s, steps)
    ensures var e := After(u, s, steps);
            |e.conns| == 1 && (Used(e.ctl, d) <= w || Out(e.conns[0], d, true) == 1)
  {
    StartsClean(u, s);
    StartsAlone(s, w, d);
    RunAlone(u, s, steps, w, d);
    hide Init, CanRun, After, Used, Out, ConnInv, Running, Ask, Outs;
    var e := After(u, s, steps);
    assert e.conns == [e.conns[0]];
    OneOut(e.conns[0], d, false);
    NoBytesOut(e.conns[0], d);
  }

  // ---------------- the bound is reached ----------------

  ghost function UpTo(m: nat): Step -> bool {
    (step: Step) => SmallStep(step, m)
  }

  /** Connection 0 submits k operations of one byte and one of m; every other connection one of m. */
  function OpsOf(k: nat, m: nat, c: nat): seq<SubOp> {
    seq(Ones(k, c) + 1, i requires 0 <= i => SubOp(L.Key(c, i, true, if i < Ones(k, c) then 1 else m), true))
  }

  function Ones(k: nat, c: nat): nat {
    if c == 0 then k else 0
  }

  function Next(u: Setup, ops: seq<SubOp>, plan: seq<Planned>): Planned
    requires |plan| <= |ops|
  {
    Planned(0, Owed(L.IDLE.q, On(plan, ops, 0), u.depth, u.period))
  }

  function PlanTo(u: Setup, ops: seq<SubOp>, j: nat): (plan: seq<Planned>)
    requires j <= |ops|
    ensures |plan| == j
  {
    if j == 0 then [] else var before := PlanTo(u, ops, j - 1); before + [Next(u, ops, before)]
  }

  lemma {:induction false} PlanToFills(u: Setup, ops: seq<SubOp>, j: nat)
    requires j <= |ops|
    ensures |On(PlanTo(u, ops, j), ops, 0)| == j
  {
    hide Owed;
    if j > 0 {
      PlanToFills(u, ops, j - 1);
      OnAppend(PlanTo(u, ops, j - 1), Next(u, ops, PlanTo(u, ops, j - 1)), ops, 0);
    }
  }

  /** A connection midway through planning: j operations claimed, and maybe let through for one more. */
  function Busy(u: Setup, ops: seq<SubOp>, j: nat, asked: bool): Conn
    requires j <= |ops|
  {
    var plan := PlanTo(u, ops, j);
    Conn([L.IDLE], Planning(ops, plan, if asked then Asked(Next(u, ops, plan), 0) else NoAsk), false, [])
  }

  lemma AskStep(u: Setup, s: State, c: nat, ops: seq<SubOp>, j: nat)
    requires c < |s.conns| && j < |ops| && j < u.depth && s.conns[c] == Busy(u, ops, j, false)
    requires ops[j].registered && Allows(s.ctl, Dir(ops[j].key), ops[j].key.bytes, 0)
    ensures var step := Allow(c, Next(u, ops, PlanTo(u, ops, j)), 0);
            Enabled(u, s, step) && Do(u, s, step) == State(s.ctl, s.conns[c := Busy(u, ops, j, true)])
  {
    PlanToFills(u, ops, j);
    hide PlanTo, On, Owed, Allows;
  }

  lemma ClaimStep(u: Setup, s: State, c: nat, ops: seq<SubOp>, j: nat)
    requires c < |s.conns| && j < |ops| && s.conns[c] == Busy(u, ops, j, true) && Running(s.ctl)
    ensures Enabled(u, s, OnPost(c))
    ensures Do(u, s, OnPost(c)) ==
            State(Claim(s.ctl, Dir(ops[j].key), ops[j].key.bytes, 0), s.conns[c := Busy(u, ops, j + 1, false)])
  {
    hide Next, On, Owed;
  }

  datatype Stage =
    | Starting(i: nat)   // the first i connections have started
    | Filling(j: nat)    // connection 0 has claimed j single bytes
    | Asking(i: nat)     // the first i have been let through for m bytes
    | Claiming(i: nat)   // and the first i have claimed them

  function ConnAt(u: Setup, k: nat, m: nat, st: Stage, c: nat): Conn
    requires st.Filling? ==> st.j <= k
  {
    var ops := OpsOf(k, m, c);
    match st
    case Starting(i) => if c < i then Busy(u, ops, 0, false) else Fresh(1)
    case Filling(j) => Busy(u, ops, if c == 0 then j else 0, false)
    case Asking(i) => Busy(u, ops, Ones(k, c), c < i)
    case Claiming(i) => if c < i then Busy(u, ops, Ones(k, c) + 1, false) else Busy(u, ops, Ones(k, c), true)
  }

  function UsedAt(k: nat, m: nat, st: Stage): nat {
    match st
    case Starting(_) => 0
    case Filling(j) => j
    case Asking(_) => k
    case Claiming(i) => k + i * m
  }

  function StateAt(u: Setup, w: nat, k: nat, m: nat, n: nat, st: Stage): (s: State)
    requires st.Filling? ==> st.j <= k
    ensures |s.conns| == n && forall c :: 0 <= c < n ==> s.conns[c] == ConnAt(u, k, m, st, c)
    ensures s.ctl == Plain(C.Budget(C.Window(w), UsedAt(k, m, st), 0))
  {
    State(Plain(C.Budget(C.Window(w), UsedAt(k, m, st), 0)), seq(n, c requires 0 <= c < n => ConnAt(u, k, m, st, c)))
  }

  lemma StartOne(u: Setup, w: nat, k: nat, m: nat, n: nat, i: nat)
    requires i < n && m > 0
    ensures var step, s := Start(i, OpsOf(k, m, i)), StateAt(u, w, k, m, n, Starting(i));
            SmallStep(step, m) && Enabled(u, s, step) && Do(u, s, step) == StateAt(u, w, k, m, n, Starting(i + 1))
  {
    var step, s := Start(i, OpsOf(k, m, i)), StateAt(u, w, k, m, n, Starting(i));
    assert Fresh(1).lines == [L.IDLE];
    assert Do(u, s, step).conns == StateAt(u, w, k, m, n, Starting(i + 1)).conns;
  }

  /** Room for k single bytes below the window, and for m more then, or m alone. */
  predicate Roomy(w: nat, k: nat, m: nat) {
    m > 0 && (k + m == w || (k == 0 && m > w))
  }

  lemma FillOne(u: Setup, w: nat, k: nat, m: nat, n: nat, j: nat, s0: State)
    requires j < k < u.depth && n > 0 && Roomy(w, k, m) && Reaches(u, s0, StateAt(u, w, k, m, n, Filling(j)), UpTo(m))
    ensures Reaches(u, s0, StateAt(u, w, k, m, n, Filling(j + 1)), UpTo(m))
  {
    hide Reaches, Busy;
    var s, ops := StateAt(u, w, k, m, n, Filling(j)), OpsOf(k, m, 0);
    AskStep(u, s, 0, ops, j);
    ReachesStep(u, s0, s, UpTo(m), Allow(0, Next(u, ops, PlanTo(u, ops, j)), 0));
    var a := State(s.ctl, s.conns[0 := Busy(u, ops, j, true)]);
    ClaimStep(u, a, 0, ops, j);
    ReachesStep(u, s0, a, UpTo(m), OnPost(0));
    assert Do(u, a, OnPost(0)).conns == StateAt(u, w, k, m, n, Filling(j + 1)).conns;
  }

  lemma AskOne(u: Setup, w: nat, k: nat, m: nat, n: nat, i: nat, s0: State)
    requires i < n && k < u.depth && Roomy(w, k, m) && Reaches(u, s0, StateAt(u, w, k, m, n, Asking(i)), UpTo(m))
    ensures Reaches(u, s0, StateAt(u, w, k, m, n, Asking(i + 1)), UpTo(m))
  {
    hide Reaches, Busy;
    var s, ops := StateAt(u, w, k, m, n, Asking(i)), OpsOf(k, m, i);
    AskStep(u, s, i, ops, Ones(k, i));
    ReachesStep(u, s0, s, UpTo(m), Allow(i, Next(u, ops, PlanTo(u, ops, Ones(k, i))), 0));
    assert s.conns[i := Busy(u, ops, Ones(k, i), true)] == StateAt(u, w, k, m, n, Asking(i + 1)).conns;
  }

  lemma ClaimOne(u: Setup, w: nat, k: nat, m: nat, n: nat, i: nat, s0: State)
    requires i < n && Reaches(u, s0, StateAt(u, w, k, m, n, Claiming(i)), UpTo(m))
    ensures Reaches(u, s0, StateAt(u, w, k, m, n, Claiming(i + 1)), UpTo(m))
  {
    hide Reaches, Busy;
    var s, ops := StateAt(u, w, k, m, n, Claiming(i)), OpsOf(k, m, i);
    ClaimStep(u, s, i, ops, Ones(k, i));
    ReachesStep(u, s0, s, UpTo(m), OnPost(i));
    Distributes(i, m);
    assert Do(u, s, OnPost(i)).conns == StateAt(u, w, k, m, n, Claiming(i + 1)).conns;
  }

  lemma SameStages(u: Setup, w: nat, k: nat, m: nat, n: nat)
    ensures StateAt(u, w, k, m, n, Starting(n)) == StateAt(u, w, k, m, n, Filling(0))
    ensures StateAt(u, w, k, m, n, Filling(k)) == StateAt(u, w, k, m, n, Asking(0))
    ensures StateAt(u, w, k, m, n, Asking(n)) == StateAt(u, w, k, m, n, Claiming(0))
  {
    hide Busy, OpsOf;
    assert StateAt(u, w, k, m, n, Starting(n)).conns == StateAt(u, w, k, m, n, Filling(0)).conns;
    assert StateAt(u, w, k, m, n, Filling(k)).conns == StateAt(u, w, k, m, n, Asking(0)).conns;
    assert StateAt(u, w, k, m, n, Asking(n)).conns == StateAt(u, w, k, m, n, Claiming(0)).conns;
  }

  lemma AllTheWay(u: Setup, w: nat, k: nat, m: nat, n: nat)
    requires n > 0 && k < u.depth && Roomy(w, k, m)
    ensures Reaches(u, StateAt(u, w, k, m, n, Starting(0)), StateAt(u, w, k, m, n, Claiming(n)), UpTo(m))
  {
    var s0 := StateAt(u, w, k, m, n, Starting(0));
    ReachesItself(u, s0, UpTo(m));
    hide Reaches, StateAt, Enabled, Do, Roomy, SmallStep, OpsOf;
    for i := 0 to n
      invariant Reaches(u, s0, StateAt(u, w, k, m, n, Starting(i)), UpTo(m))
    {
      StartOne(u, w, k, m, n, i);
      ReachesStep(u, s0, StateAt(u, w, k, m, n, Starting(i)), UpTo(m), Start(i, OpsOf(k, m, i)));
    }
    SameStages(u, w, k, m, n);
    for j := 0 to k
      invariant Reaches(u, s0, StateAt(u, w, k, m, n, Filling(j)), UpTo(m))
    {
      FillOne(u, w, k, m, n, j, s0);
    }
    for i := 0 to n
      invariant Reaches(u, s0, StateAt(u, w, k, m, n, Asking(i)), UpTo(m))
    {
      AskOne(u, w, k, m, n, i, s0);
    }
    for i := 0 to n
      invariant Reaches(u, s0, StateAt(u, w, k, m, n, Claiming(i)), UpTo(m))
    {
      ClaimOne(u, w, k, m, n, i, s0);
    }
  }

  /** For every window, size and number of connections, on queues deep enough for the window in
      single bytes, some run reaches the bound. */
  lemma BoundIsReached(w: nat, m: nat, n: nat, period: nat) returns (u: Setup, s: State, steps: seq<Step>)
    requires m > 0 && n > 0
    ensures Init(s) && Fixed(s.ctl, w) && |s.conns| == n && CanRun(u, s, steps) && SmallSteps(steps, m)
    ensures Used(After(u, s, steps).ctl, C.WriteDir) == Max(w, m) + Slack(n, m)
  {
    var k := if m <= w then w - m else 0;
    u := Setup(w + 1, period);
    s := StateAt(u, w, k, m, n, Starting(0));
    AllTheWay(u, w, k, m, n);
    var e := StateAt(u, w, k, m, n, Claiming(n));
    assert Init(s) by {
      forall c | 0 <= c < n ensures s.conns[c] == Fresh(|s.conns[c].lines|) {
        assert s.conns[c] == Fresh(1);
      }
    }
    Distributes(n - 1, m);
    assert Used(e.ctl, C.WriteDir) == Max(w, m) + Slack(n, m);
    hide StateAt, Init, CanRun, After;
    steps :| CanRun(u, s, steps) && After(u, s, steps) == e && forall i :: 0 <= i < |steps| ==> UpTo(m)(steps[i]);
    assert SmallSteps(steps, m);
  }

  /** n connections never hold more than the window, or one operation. */
  ghost predicate KeepsWindow(w: nat, m: nat, n: nat) {
    forall u, s, steps, d ::
      (Init(s) && Fixed(s.ctl, w) && |s.conns| == n && CanRun(u, s, steps) && SmallSteps(steps, m)) ==>
        Used(After(u, s, steps).ctl, d) <= Max(w, m)
  }

  /** They do exactly if there is one of them. */
  lemma WindowKeptIffOneConnection(w: nat, m: nat, n: nat)
    requires m > 0 && n > 0
    ensures KeepsWindow(w, m, n) <==> n == 1
  {
    hide Init, CanRun, After, Used;
    if n == 1 {
      forall u, s, steps, d |
          Init(s) && Fixed(s.ctl, w) && |s.conns| == n && CanRun(u, s, steps) && SmallSteps(steps, m)
        ensures Used(After(u, s, steps).ctl, d) <= Max(w, m)
      {
        WindowBound(u, s, steps, w, m, d);
      }
    } else {
      var u, s, steps := BoundIsReached(w, m, n, 1);
      Distributes(n - 2, m);
    }
  }
}
