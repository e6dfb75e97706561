/** Any number of RDMA connections on one congestion controller, at the granularity of its lock.
    submit() and poll() hold their connection's own lock throughout, but ask, claim and give back
    budget in separate holds of the controller's, so other connections come in between. The
    adapter finishes requests at any time. A submit() looks whether its connection has failed
    before it takes the lock, so a failure in between does not stop it. */
module RdmaFabric {
  import L = RdmaLine
  import P = Provider
  import C = Congestion
  import opened Controllers
  import opened RdmaPlan

  datatype Setup = Setup(depth: nat, period: nat)

  /** Where the thread holding a connection's lock is. */
  datatype Job =
    | Resting                                                            // nobody holds it
    | Planning(ops: seq<SubOp>, plan: seq<Planned>, ask: Ask)            // submit(), planning
    | Posting(ops: seq<SubOp>, plan: seq<Planned>, next: nat)            // submit(), posting
    | Releasing(ops: seq<SubOp>, plan: seq<Planned>, next: nat)          // submit(), a post was refused
    | Retiring(keys: seq<L.Key>, ok: bool)                               // poll(), giving back

  /** Between allow() and on_post(). */
  datatype Ask = NoAsk | Asked(p: Planned, now: int)

  datatype Conn = Conn(
    lines: seq<L.Line>,
    job: Job,
    refused: bool,          // some post of it was refused
    taken: seq<L.Key>)      // everything accepted on it, in order

  datatype State = State(ctl: Ctl, conns: seq<Conn>)

  datatype Step =
    | Start(c: nat, ops: seq<SubOp>)
    | Allow(c: nat, p: Planned, now: int)     // allow() let the next operation through
    | OnPost(c: nat)                          // on_post()
    | EndPlan(c: nat)
    | Post(c: nat)
    | Refuse(c: nat)                          // the adapter refuses the next post
    | GiveBackOne(c: nat)                     // on_error() for one not posted
    | EndSubmit(c: nat)
    | Finish(c: nat, q: nat, ok: bool)        // the adapter finishes a request
    | Handle(c: nat, q: nat, j: nat)          // poll() takes up a completion
    | Settle(c: nat, rtt: int, now: int)      // on_feedback() or on_error() for one retired
    | EndHandle(c: nat)

  function Qps(lines: seq<L.Line>): (qs: seq<L.QueuePair>)
    ensures |qs| == |lines| && forall q :: 0 <= q < |qs| ==> qs[q] == lines[q].q
  {
    seq(|lines|, q requires 0 <= q < |lines| => lines[q].q)
  }

  predicate PlanShape(ops: seq<SubOp>, plan: seq<Planned>, lines: nat) {
    |plan| <= |ops| && forall k :: 0 <= k < |plan| ==> plan[k].qp < lines
  }

  ghost predicate CanStep(u: Setup, n: Conn, ctl: Ctl, s: Step) {
    match s
    case Start(_, _) => n.job.Resting?
    case Allow(_, p, now) =>
      n.job.Planning? && n.job.ask.NoAsk?
        && CanPlan(Qps(n.lines), ctl, n.job.ops, n.job.plan, p, now, u.depth, u.period)
    case OnPost(_) => n.job.Planning? && n.job.ask.Asked? && |n.job.plan| < |n.job.ops| && Running(ctl)
    case EndPlan(_) => n.job.Planning? && n.job.ask.NoAsk?
    case Post(_) => n.job.Posting? && PlanShape(n.job.ops, n.job.plan, |n.lines|) && n.job.next < |n.job.plan|
    case Refuse(_) => n.job.Posting? && n.job.next < |n.job.plan|
    case GiveBackOne(_) => n.job.Releasing? && PlanShape(n.job.ops, n.job.plan, |n.lines|) && n.job.next < |n.job.plan|
    case EndSubmit(_) => (n.job.Posting? || n.job.Releasing?) && n.job.next == |n.job.plan|
    case Finish(_, q, ok) => q < |n.lines| && L.Enabled(u.depth, n.lines[q], L.Finish(ok))
    case Handle(_, q, j) => n.job.Resting? && q < |n.lines| && j < |n.lines[q].cq|
    case Settle(_, _, _) => n.job.Retiring? && n.job.keys != []
    case EndHandle(_) => n.job.Retiring? && n.job.keys == []
  }

  ghost predicate Enabled(u: Setup, s: State, step: Step) {
    step.c < |s.conns| && CanStep(u, s.conns[step.c], s.ctl, step)
  }

  function PostOn(l: L.Line, w: L.Wr): L.Line {
    l.(q := L.PostOne(l.q, w), sent := l.sent + [w])
  }

  /** What poll() reports for the j-th waiting completion. */
  function Retired(l: L.Line, j: nat): seq<L.Key>
    requires j < |l.cq|
  {
    L.Keys(l.q.unsignalled[..L.RetireCount(l.q.unsignalled, l.cq[j].seqNo)])
  }

  ghost function StepOf(u: Setup, n: Conn, ctl: Ctl, s: Step): (Conn, Ctl)
    requires CanStep(u, n, ctl, s)
  {
    match s
    case Start(_, ops) => (n.(job := Planning(ops, [], NoAsk)), ctl)
    case Allow(_, p, now) => (n.(job := n.job.(ask := Asked(p, now))), ctl)
    case OnPost(_) =>
      var key := n.job.ops[|n.job.plan|].key;
      (n.(job := n.job.(plan := n.job.plan + [n.job.ask.p], ask := NoAsk)),
       Claim(ctl, Dir(key), key.bytes, n.job.ask.now))
    case EndPlan(_) => (n.(job := Posting(n.job.ops, AnchorOf(n.job.plan), 0)), ctl)
    case Post(_) =>
      var p, key := n.job.plan[n.job.next], n.job.ops[n.job.next].key;
      (n.(lines := n.lines[p.qp := PostOn(n.lines[p.qp], L.Wr(key, p.signal))],
          job := Posting(n.job.ops, n.job.plan, n.job.next + 1), taken := n.taken + [key]), ctl)
    case Refuse(_) => (n.(job := Releasing(n.job.ops, n.job.plan, n.job.next), refused := true), ctl)
    case GiveBackOne(_) =>
      var key := n.job.ops[n.job.next].key;
      (n.(job := Releasing(n.job.ops, n.job.plan, n.job.next + 1)), Release(ctl, Dir(key), key.bytes))
    case EndSubmit(_) => (n.(job := Resting), ctl)
    case Finish(_, q, ok) => (n.(lines := n.lines[q := L.Do(u.depth, n.lines[q], L.Finish(ok))]), ctl)
    case Handle(_, q, j) =>
      (n.(lines := n.lines[q := L.Do(u.depth, n.lines[q], L.Handle(j))],
          job := Retiring(Retired(n.lines[q], j), n.lines[q].cq[j].ok)), ctl)
    case Settle(_, rtt, now) =>
      (n.(job := n.job.(keys := n.job.keys[1..])), GiveBack(ctl, n.job.keys[0], n.job.ok, rtt, now))
    case EndHandle(_) => (n.(job := Resting), ctl)
  }

  ghost function Do(u: Setup, s: State, step: Step): State
    requires Enabled(u, s, step)
  {
    var (n, ctl) := StepOf(u, s.conns[step.c], s.ctl, step);
    State(ctl, s.conns[step.c := n])
  }

  function Fresh(lines: nat): Conn {
    Conn(seq(lines, _ => L.IDLE), Resting, false, [])
  }

  /** Nothing claimed, nothing posted; every connection with queue pairs of its own. */
  ghost predicate Init(s: State) {
    && Running(s.ctl) && (forall d :: Used(s.ctl, d) == 0)
    && forall c :: 0 <= c < |s.conns| ==> s.conns[c] == Fresh(|s.conns[c].lines|)
  }

  ghost predicate CanRun(u: Setup, s: State, steps: seq<Step>)
    decreases |steps|
  {
    steps == [] || (Enabled(u, s, steps[0]) && CanRun(u, Do(u, s, steps[0]), steps[1..]))
  }

  ghost function After(u: Setup, s: State, steps: seq<Step>): State
    requires CanRun(u, s, steps)
    decreases |steps|
  {
    if steps == [] then s else After(u, Do(u, s, steps[0]), steps[1..])
  }

  // ---------------- sums over sub-operations ----------------

  /** What one sub-operation counts for in a direction: its bytes, or one if it has any. */
  function Amount(k: L.Key, d: C.Direction, ones: bool): nat {
    if Dir(k) != d then 0 else if ones && k.bytes > 0 then 1 else k.bytes
  }

  function KeySum(ks: seq<L.Key>, d: C.Direction, ones: bool): nat {
    if ks == [] then 0 else Amount(ks[0], d, ones) + KeySum(ks[1..], d, ones)
  }

  lemma {:induction false} KeySumConcat(a: seq<L.Key>, b: seq<L.Key>, d: C.Direction, ones: bool)
    ensures KeySum(a + b, d, ones) == KeySum(a, d, ones) + KeySum(b, d, ones)
    decreases |a|
  {
    hide Amount;
    if a == [] {
      assert a + b == b;
    } else {
      KeySumConcat(a[1..], b, d, ones);
      assert (a + b)[1..] == a[1..] + b;
    }
  }

  lemma KeySumOne(k: L.Key, d: C.Direction, ones: bool)
    ensures KeySum([k], d, ones) == Amount(k, d, ones)
  {
    hide Amount;
    assert KeySum([k][1..], d, ones) == 0;
  }

  function OpKeys(ops: seq<SubOp>, from: nat, until: nat): (ks: seq<L.Key>)
    requires from <= until <= |ops|
    ensures |ks| == until - from && forall i :: 0 <= i < |ks| ==> ks[i] == ops[from + i].key
  {
    seq(until - from, i requires 0 <= i < until - from => ops[from + i].key)
  }

  function Backlog(lines: seq<L.Line>, d: C.Direction, ones: bool): nat {
    if lines == [] then 0
    else Backlog(lines[..|lines| - 1], d, ones) + KeySum(L.Keys(lines[|lines| - 1].q.unsignalled), d, ones)
  }

  lemma {:induction false} BacklogUpdate(lines: seq<L.Line>, q: nat, l: L.Line, d: C.Direction, ones: bool)
    requires q < |lines|
    ensures Backlog(lines[q := l], d, ones) + KeySum(L.Keys(lines[q].q.unsignalled), d, ones) ==
            Backlog(lines, d, ones) + KeySum(L.Keys(l.q.unsignalled), d, ones)
    decreases |lines|
  {
    hide KeySum, L.Keys;
    var n := |lines| - 1;
    if q == n {
      assert lines[q := l][..n] == lines[..n];
    } else {
      BacklogUpdate(lines[..n], q, l, d, ones);
      assert lines[q := l][..n] == lines[..n][q := l];
    }
  }

  /** Claimed by the thread at work and not posted, or retired and not given back yet. */
  function Owing(job: Job, d: C.Direction, ones: bool): nat {
    match job
    case Resting => 0
    case Planning(ops, plan, _) => if |plan| <= |ops| then KeySum(OpKeys(ops, 0, |plan|), d, ones) else 0
    case Posting(ops, plan, k) => if k <= |plan| <= |ops| then KeySum(OpKeys(ops, k, |plan|), d, ones) else 0
    case Releasing(ops, plan, k) => if k <= |plan| <= |ops| then KeySum(OpKeys(ops, k, |plan|), d, ones) else 0
    case Retiring(keys, _) => KeySum(keys, d, ones)
  }

  function Out(n: Conn, d: C.Direction, ones: bool): nat {
    Backlog(n.lines, d, ones) + Owing(n.job, d, ones)
  }

  function Outs(conns: seq<Conn>, d: C.Direction, ones: bool): nat {
    if conns == [] then 0 else Outs(conns[..|conns| - 1], d, ones) + Out(conns[|conns| - 1], d, ones)
  }

  lemma {:induction false} OutsUpdate(conns: seq<Conn>, c: nat, n: Conn, d: C.Direction, ones: bool)
    requires c < |conns|
    ensures Outs(conns[c := n], d, ones) + Out(conns[c], d, ones) == Outs(conns, d, ones) + Out(n, d, ones)
    ensures Out(conns[c], d, ones) <= Outs(conns, d, ones)
    decreases |conns|
  {
    hide Out;
    var last := |conns| - 1;
    if c == last {
      assert conns[c := n][..last] == conns[..last];
    } else {
      OutsUpdate(conns[..last], c, n, d, ones);
      assert conns[c := n][..last] == conns[..last][c := n];
    }
  }

  // ---------------- the invariant of a connection ----------------

  /** What the plan still has for queue pair q from k on. */
  function Remaining(plan: seq<Planned>, ops: seq<SubOp>, q: nat, k: nat): seq<L.Wr>
    requires k <= |plan| <= |ops|
    decreases |plan| - k
  {
    if k == |plan| then []
    else
      var rest := Remaining(plan, ops, q, k + 1);
      if plan[k].qp == q then [L.Wr(ops[k].key, plan[k].signal)] + rest else rest
  }

  lemma {:induction false} OnRemaining(plan: seq<Planned>, ops: seq<SubOp>, q: nat, k: nat)
    requires k <= |plan| <= |ops|
    ensures On(plan[..k], ops, q) + Remaining(plan, ops, q, k) == On(plan, ops, q)
    decreases |plan| - k
  {
    hide On;
    if k == |plan| {
      assert plan[..k] == plan && On(plan, ops, q) + [] == On(plan, ops, q);
    } else {
      OnRemaining(plan, ops, q, k + 1);
      OnNext(plan, ops, q, k);
      var rest := Remaining(plan, ops, q, k + 1);
      var w := L.Wr(ops[k].key, plan[k].signal);
      assert (On(plan[..k], ops, q) + [w]) + rest == On(plan[..k], ops, q) + ([w] + rest);
    }
  }

  lemma AllRemains(plan: seq<Planned>, ops: seq<SubOp>, q: nat)
    requires |plan| <= |ops|
    ensures Remaining(plan, ops, q, 0) == On(plan, ops, q)
  {
    OnRemaining(plan, ops, q, 0);
    assert plan[..0] == [] && On([], ops, q) == [];
    assert [] + Remaining(plan, ops, q, 0) == Remaining(plan, ops, q, 0);
  }

  ghost predicate LinesInv(u: Setup, lines: seq<L.Line>) {
    forall q :: 0 <= q < |lines| ==> L.Inv(u.depth, lines[q])
  }

  /** The next request has room and asks for its completion if it has to. */
  ghost predicate NextFits(u: Setup, q: L.QueuePair, ws: seq<L.Wr>, signal: bool) {
    q.posted + |ws| - q.reclaimed < u.depth && signal == Owed(q, ws, u.depth, u.period)
  }

  ghost predicate RestFits(u: Setup, q: L.QueuePair, ws: seq<L.Wr>) {
    (ws != [] ==> q.posted + |ws| - q.reclaimed <= u.depth) && EndsSignalled(ws)
  }

  ghost predicate PlanningInv(u: Setup, qs: seq<L.QueuePair>, ops: seq<SubOp>, plan: seq<Planned>, ask: Ask) {
    && PlanShape(ops, plan, |qs|)
    && (forall q :: 0 <= q < |qs| ==> Fits(qs[q], On(plan, ops, q), u.depth, u.period))
    && (ask.Asked? ==>
          |plan| < |ops| && ask.p.qp < |qs| && NextFits(u, qs[ask.p.qp], On(plan, ops, ask.p.qp), ask.p.signal))
  }

  ghost predicate PostingInv(u: Setup, qs: seq<L.QueuePair>, ops: seq<SubOp>, plan: seq<Planned>, k: nat) {
    && PlanShape(ops, plan, |qs|) && k <= |plan|
    && forall q :: 0 <= q < |qs| ==> RestFits(u, qs[q], Remaining(plan, ops, q, k))
  }

  ghost predicate JobInv(u: Setup, qs: seq<L.QueuePair>, job: Job) {
    match job
    case Planning(ops, plan, ask) => PlanningInv(u, qs, ops, plan, ask)
    case Posting(ops, plan, k) => PostingInv(u, qs, ops, plan, k)
    case Releasing(ops, plan, k) => PlanShape(ops, plan, |qs|) && k <= |plan|
    case _ => true
  }

  /** Unless a post was refused, every queue pair the batch has nothing left for ends signalled. */
  ghost predicate AnchorInv(lines: seq<L.Line>, job: Job, refused: bool) {
    !refused ==>
      && !job.Releasing?
      && forall q :: 0 <= q < |lines| ==>
           (job.Posting? && job.next <= |job.plan| <= |job.ops| && Remaining(job.plan, job.ops, q, job.next) != [])
           || L.Anchored(lines[q])
  }

  function SentCount(lines: seq<L.Line>, x: L.Key): nat {
    if lines == [] then 0
    else SentCount(lines[..|lines| - 1], x) + multiset(L.WrKeys(lines[|lines| - 1].sent))[x]
  }

  lemma {:induction false} SentCountUpdate(lines: seq<L.Line>, q: nat, l: L.Line, x: L.Key)
    requires q < |lines|
    ensures SentCount(lines[q := l], x) + multiset(L.WrKeys(lines[q].sent))[x] ==
            SentCount(lines, x) + multiset(L.WrKeys(l.sent))[x]
    ensures multiset(L.WrKeys(lines[q].sent))[x] <= SentCount(lines, x)
    decreases |lines|
  {
    hide L.WrKeys;
    var n := |lines| - 1;
    if q == n {
      assert lines[q := l][..n] == lines[..n];
    } else {
      SentCountUpdate(lines[..n], q, l, x);
      assert lines[q := l][..n] == lines[..n][q := l];
    }
  }

  /** What was accepted on the connection is what its queue pairs were given. */
  ghost predicate TakenInv(lines: seq<L.Line>, taken: seq<L.Key>) {
    forall x :: multiset(taken)[x] == SentCount(lines, x)
  }

  ghost predicate ConnInv(u: Setup, n: Conn) {
    && LinesInv(u, n.lines) && JobInv(u, Qps(n.lines), n.job)
    && AnchorInv(n.lines, n.job, n.refused) && TakenInv(n.lines, n.taken)
  }

  // ---------------- every step keeps it ----------------

  lemma StartKeeps(u: Setup, n: Conn, ops: seq<SubOp>)
    requires ConnInv(u, n) && n.job.Resting?
    ensures ConnInv(u, n.(job := Planning(ops, [], NoAsk)))
  {
    hide LinesInv, TakenInv;
    var qs := Qps(n.lines);
    forall q | 0 <= q < |qs| ensures Fits(qs[q], On([], ops, q), u.depth, u.period) {
    }
  }

  lemma AllowKeeps(u: Setup, n: Conn, ctl: Ctl, p: Planned, now: int)
    requires ConnInv(u, n) && CanStep(u, n, ctl, Allow(0, p, now))
    ensures ConnInv(u, n.(job := n.job.(ask := Asked(p, now))))
  {
    hide LinesInv, TakenInv, Fits, On, Owed;
  }

  lemma OnPostKeeps(u: Setup, n: Conn)
    requires ConnInv(u, n) && n.job.Planning? && n.job.ask.Asked?
    ensures |n.job.plan| < |n.job.ops|
    ensures ConnInv(u, n.(job := n.job.(plan := n.job.plan + [n.job.ask.p], ask := NoAsk)))
  {
    hide LinesInv, TakenInv, Fits, On, Owed;
    var qs, ops, plan, p := Qps(n.lines), n.job.ops, n.job.plan, n.job.ask.p;
    forall q | 0 <= q < |qs| ensures Fits(qs[q], On(plan + [p], ops, q), u.depth, u.period) {
      FitsOneMore(u, qs[q], ops, plan, p, q);
    }
  }

  lemma FitsOneMore(u: Setup, qp: L.QueuePair, ops: seq<SubOp>, plan: seq<Planned>, p: Planned, q: nat)
    requires |plan| < |ops| && Fits(qp, On(plan, ops, q), u.depth, u.period)
    requires p.qp == q ==> NextFits(u, qp, On(plan, ops, q), p.signal)
    ensures Fits(qp, On(plan + [p], ops, q), u.depth, u.period)
  {
    hide On, Owed, SignalsExactly;
    OnAppend(plan, p, ops, q);
    if p.qp == q {
      SignalsAppend(qp, On(plan, ops, q), L.Wr(ops[|plan|].key, p.signal), u.depth, u.period);
    }
  }

  lemma EndPlanKeeps(u: Setup, n: Conn)
    requires ConnInv(u, n) && n.job.Planning? && n.job.ask.NoAsk?
    ensures ConnInv(u, n.(job := Posting(n.job.ops, AnchorOf(n.job.plan), 0)))
  {
    hide LinesInv, TakenInv, Fits, On, AnchorOf, Remaining, L.Anchored;
    var qs, ops, plan := Qps(n.lines), n.job.ops, n.job.plan;
    forall q | 0 <= q < |qs| ensures RestFits(u, qs[q], Remaining(AnchorOf(plan), ops, q, 0)) {
      AllRemains(AnchorOf(plan), ops, q);
      AnchoredFits(u, qs[q], plan, ops, q);
    }
  }

  lemma AnchoredFits(u: Setup, qp: L.QueuePair, plan: seq<Planned>, ops: seq<SubOp>, q: nat)
    requires |plan| <= |ops| && Fits(qp, On(plan, ops, q), u.depth, u.period)
    ensures RestFits(u, qp, On(AnchorOf(plan), ops, q))
  {
    hide On, AnchorOf, Owed;
    AnchoredShare(plan, ops, q, 0);
    AnchoringAnchors(qp, plan, ops, q, u.depth, u.period);
    var ws := On(AnchorOf(plan), ops, q);
    assert ws != [] ==> ws[|ws| - 1].signalled;
  }

  lemma PostLine(u: Setup, l: L.Line, w: L.Wr)
    requires L.Inv(u.depth, l) && l.q.posted - l.q.reclaimed < u.depth
    ensures L.Enabled(u.depth, l, L.Batch([w])) && PostOn(l, w) == L.Do(u.depth, l, L.Batch([w]))
            && L.Inv(u.depth, PostOn(l, w))
  {
    L.BatchKeeps(u.depth, l, [w]);
    hide L.Inv;
    assert [w][..0] == [] && L.PostAll(l.q, []) == l.q;
    assert L.PostAll(l.q, [w]) == L.PostOne(l.q, w);
  }

  lemma PostKeeps(u: Setup, n: Conn, ctl: Ctl)
    requires ConnInv(u, n) && CanStep(u, n, ctl, Post(0))
    ensures ConnInv(u, StepOf(u, n, ctl, Post(0)).0)
  {
    hide L.Inv, On, L.Anchored, RestFits;
    var ops, plan, k := n.job.ops, n.job.plan, n.job.next;
    var p := plan[k];
    var w := L.Wr(ops[k].key, p.signal);
    var l, l' := n.lines[p.qp], PostOn(n.lines[p.qp], w);
    var n' := StepOf(u, n, ctl, Post(0)).0;
    var qs, qs' := Qps(n.lines), Qps(n'.lines);
    assert RestFits(u, qs[p.qp], Remaining(plan, ops, p.qp, k));
    RestNext(u, l.q, w, Remaining(plan, ops, p.qp, k + 1));
    PostLine(u, l, w);
    forall q | 0 <= q < |qs'| ensures RestFits(u, qs'[q], Remaining(plan, ops, q, k + 1)) {
      assert RestFits(u, qs[q], Remaining(plan, ops, q, k));
    }
    PostTaken(n.lines, n.taken, p.qp, w);
    PostAnchors(l, w, Remaining(plan, ops, p.qp, k + 1));
    assert AnchorInv(n'.lines, n'.job, n'.refused);
  }

  lemma RestNext(u: Setup, q: L.QueuePair, w: L.Wr, rest: seq<L.Wr>)
    requires RestFits(u, q, [w] + rest)
    ensures q.posted - q.reclaimed < u.depth && RestFits(u, L.PostOne(q, w), rest)
    ensures rest == [] ==> w.signalled
  {
    var all := [w] + rest;
    assert all[|all| - 1].signalled;
    assert rest != [] ==> all[|all| - 1] == rest[|rest| - 1];
  }

  lemma PostAnchors(l: L.Line, w: L.Wr, rest: seq<L.Wr>)
    requires rest == [] ==> w.signalled
    ensures rest != [] || L.Anchored(PostOn(l, w))
  {
  }

  lemma PostTaken(lines: seq<L.Line>, taken: seq<L.Key>, q: nat, w: L.Wr)
    requires TakenInv(lines, taken) && q < |lines|
    ensures TakenInv(lines[q := PostOn(lines[q], w)], taken + [w.key])
  {
    hide SentCount;
    var l' := PostOn(lines[q], w);
    forall x ensures multiset(taken + [w.key])[x] == SentCount(lines[q := l'], x) {
      SentCountUpdate(lines, q, l', x);
      L.WrKeysConcat(lines[q].sent, [w]);
      assert L.WrKeys([w]) == [w.key];
      assert multiset(taken)[x] == SentCount(lines, x);
    }
  }

  /** A line on which only the adapter's side, or what was reported, has moved. */
  lemma SameSent(lines: seq<L.Line>, taken: seq<L.Key>, q: nat, l: L.Line)
    requires TakenInv(lines, taken) && q < |lines| && l.sent == lines[q].sent
    ensures TakenInv(lines[q := l], taken)
  {
    hide SentCount;
    forall x ensures multiset(taken)[x] == SentCount(lines[q := l], x) {
      SentCountUpdate(lines, q, l, x);
    }
  }

  lemma LineMoved(u: Setup, n: Conn, q: nat, l: L.Line, job: Job)
    requires ConnInv(u, n) && q < |n.lines| && L.Inv(u.depth, l) && l.sent == n.lines[q].sent
    requires (job == n.job && l.q == n.lines[q].q) || (n.job.Resting? && job.Retiring?)
    ensures ConnInv(u, n.(lines := n.lines[q := l], job := job))
  {
    assert L.Anchored(l) == L.Anchored(n.lines[q]);
    hide L.Inv, L.Anchored, TakenInv, JobInv, Remaining;
    SameSent(n.lines, n.taken, q, l);
    if job == n.job {
      assert Qps(n.lines[q := l]) == Qps(n.lines);
    } else {
      RetiringIsFine(u, Qps(n.lines[q := l]), job);
    }
  }

  lemma RetiringIsFine(u: Setup, qs: seq<L.QueuePair>, job: Job)
    requires job.Retiring?
    ensures JobInv(u, qs, job)
  {
  }

  lemma FinishLine(u: Setup, l: L.Line, ok: bool)
    requires L.Inv(u.depth, l) && L.Enabled(u.depth, l, L.Finish(ok))
    ensures var l' := L.Do(u.depth, l, L.Finish(ok));
            L.Inv(u.depth, l') && l'.sent == l.sent && l'.q == l.q && l'.reported == l.reported
  {
    L.FinishKeeps(u.depth, l, ok);
    hide L.Inv;
  }

  lemma HandleLine(u: Setup, l: L.Line, j: nat)
    requires L.Inv(u.depth, l) && j < |l.cq|
    ensures var l' := L.Do(u.depth, l, L.Handle(j)); L.Inv(u.depth, l') && l'.sent == l.sent
  {
    L.HandleKeeps(u.depth, l, j);
    hide L.Inv;
  }

  lemma ConnKeeps(u: Setup, n: Conn, ctl: Ctl, s: Step)
    requires ConnInv(u, n) && CanStep(u, n, ctl, s)
    ensures ConnInv(u, StepOf(u, n, ctl, s).0)
  {
    match s
    case Start(_, ops) => StartKeeps(u, n, ops);
    case Allow(_, p, now) => AllowKeeps(u, n, ctl, p, now);
    case OnPost(_) => OnPostKeeps(u, n);
    case EndPlan(_) => EndPlanKeeps(u, n);
    case Post(_) => PostKeeps(u, n, ctl);
    case Finish(_, q, ok) =>
      hide L.Do, L.Inv, L.Enabled;
      FinishLine(u, n.lines[q], ok);
      LineMoved(u, n, q, L.Do(u.depth, n.lines[q], L.Finish(ok)), n.job);
    case Handle(_, q, j) =>
      hide L.Do, L.Inv, L.Enabled, Retired;
      HandleLine(u, n.lines[q], j);
      LineMoved(u, n, q, L.Do(u.depth, n.lines[q], L.Handle(j)), Retiring(Retired(n.lines[q], j), n.lines[q].cq[j].ok));
    case EndSubmit(_) => EndSubmitKeeps(u, n);
    case _ =>
      hide LinesInv, TakenInv, PlanningInv, PostingInv;
  }

  lemma EndSubmitKeeps(u: Setup, n: Conn)
    requires ConnInv(u, n) && (n.job.Posting? || n.job.Releasing?) && n.job.next == |n.job.plan|
    ensures ConnInv(u, n.(job := Resting))
  {
    hide LinesInv, TakenInv, L.Anchored;
    forall q | 0 <= q < |n.lines| && !n.refused ensures L.Anchored(n.lines[q]) {
      assert Remaining(n.job.plan, n.job.ops, q, n.job.next) == [];
    }
  }

  // ---------------- the accounts ----------------

  /** What a step claims. */
  ghost function Claimed(n: Conn, s: Step, d: C.Direction, ones: bool): nat {
    if s.OnPost? && n.job.Planning? && |n.job.plan| < |n.job.ops|
    then Amount(n.job.ops[|n.job.plan|].key, d, ones)
    else 0
  }

  /** What a step gives back. */
  ghost function Freed(n: Conn, s: Step, d: C.Direction, ones: bool): nat {
    if s.GiveBackOne? && n.job.Releasing? && n.job.next < |n.job.ops| then Amount(n.job.ops[n.job.next].key, d, ones)
    else if s.Settle? && n.job.Retiring? && n.job.keys != [] then Amount(n.job.keys[0], d, ones)
    else 0
  }

  lemma OpKeysFront(ops: seq<SubOp>, from: nat, until: nat, d: C.Direction, ones: bool)
    requires from < until <= |ops|
    ensures KeySum(OpKeys(ops, from, until), d, ones) ==
            Amount(ops[from].key, d, ones) + KeySum(OpKeys(ops, from + 1, until), d, ones)
  {
    hide Amount;
    assert OpKeys(ops, from, until)[1..] == OpKeys(ops, from + 1, until);
  }

  lemma OpKeysBack(ops: seq<SubOp>, n: nat, d: C.Direction, ones: bool)
    requires n < |ops|
    ensures KeySum(OpKeys(ops, 0, n + 1), d, ones) == KeySum(OpKeys(ops, 0, n), d, ones) + Amount(ops[n].key, d, ones)
  {
    hide Amount;
    assert OpKeys(ops, 0, n + 1) == OpKeys(ops, 0, n) + [ops[n].key];
    KeySumConcat(OpKeys(ops, 0, n), [ops[n].key], d, ones);
    KeySumOne(ops[n].key, d, ones);
  }

  lemma NoKeys(ops: seq<SubOp>, k: nat, d: C.Direction, ones: bool)
    requires k <= |ops|
    ensures KeySum(OpKeys(ops, k, k), d, ones) == 0
  {
    assert OpKeys(ops, k, k) == [];
  }

  lemma PostMoves(n: Conn, d: C.Direction, ones: bool)
    requires n.job.Posting? && PlanShape(n.job.ops, n.job.plan, |n.lines|) && n.job.next < |n.job.plan|
    ensures var p, key := n.job.plan[n.job.next], n.job.ops[n.job.next].key;
            Out(n.(lines := n.lines[p.qp := PostOn(n.lines[p.qp], L.Wr(key, p.signal))],
                   job := Posting(n.job.ops, n.job.plan, n.job.next + 1),
                   taken := n.taken + [key]), d, ones) == Out(n, d, ones)
  {
    hide Amount, Backlog, KeySum;
    var p, key := n.job.plan[n.job.next], n.job.ops[n.job.next].key;
    var l := n.lines[p.qp];
    var l' := PostOn(l, L.Wr(key, p.signal));
    BacklogUpdate(n.lines, p.qp, l', d, ones);
    assert L.Keys(l'.q.unsignalled) == L.Keys(l.q.unsignalled) + [key];
    KeySumConcat(L.Keys(l.q.unsignalled), [key], d, ones);
    KeySumOne(key, d, ones);
    OpKeysFront(n.job.ops, n.job.next, |n.job.plan|, d, ones);
  }

  lemma HandleMoves(u: Setup, n: Conn, q: nat, j: nat, d: C.Direction, ones: bool)
    requires n.job.Resting? && q < |n.lines| && j < |n.lines[q].cq|
    ensures Backlog(n.lines[q := L.Do(u.depth, n.lines[q], L.Handle(j))], d, ones) +
            KeySum(Retired(n.lines[q], j), d, ones) ==
            Backlog(n.lines, d, ones)
  {
    hide Amount, Backlog, KeySum, L.RetireCount, L.Reports;
    var l := n.lines[q];
    var l' := L.Do(u.depth, l, L.Handle(j));
    var m := L.RetireCount(l.q.unsignalled, l.cq[j].seqNo);
    BacklogUpdate(n.lines, q, l', d, ones);
    assert L.Keys(l.q.unsignalled) == L.Keys(l.q.unsignalled[..m]) + L.Keys(l.q.unsignalled[m..]);
    KeySumConcat(L.Keys(l.q.unsignalled[..m]), L.Keys(l.q.unsignalled[m..]), d, ones);
  }

  lemma FinishMoves(u: Setup, lines: seq<L.Line>, q: nat, ok: bool, d: C.Direction, ones: bool)
    requires q < |lines| && L.Enabled(u.depth, lines[q], L.Finish(ok))
    ensures Backlog(lines[q := L.Do(u.depth, lines[q], L.Finish(ok))], d, ones) == Backlog(lines, d, ones)
  {
    hide Backlog, KeySum;
    BacklogUpdate(lines, q, L.Do(u.depth, lines[q], L.Finish(ok)), d, ones);
  }

  lemma PlanMoves(u: Setup, n: Conn, ctl: Ctl, s: Step, d: C.Direction, ones: bool)
    requires ConnInv(u, n) && CanStep(u, n, ctl, s) && (s.Start? || s.Allow? || s.OnPost? || s.EndPlan?)
    ensures Out(StepOf(u, n, ctl, s).0, d, ones) + Freed(n, s, d, ones) == Out(n, d, ones) + Claimed(n, s, d, ones)
  {
    hide Amount, Backlog, KeySum, LinesInv, TakenInv, AnchorInv, PlanningInv, CanPlan, Claim;
    match s
    case Start(_, ops) => NoKeys(ops, 0, d, ones);
    case OnPost(_) => OpKeysBack(n.job.ops, |n.job.plan|, d, ones);
    case EndPlan(_) => PlanningShape(u, Qps(n.lines), n.job.ops, n.job.plan, n.job.ask);
    case _ =>
  }

  lemma PostingMoves(u: Setup, n: Conn, ctl: Ctl, s: Step, d: C.Direction, ones: bool)
    requires ConnInv(u, n) && CanStep(u, n, ctl, s) && (s.Post? || s.Refuse? || s.GiveBackOne? || s.EndSubmit?)
    ensures Out(StepOf(u, n, ctl, s).0, d, ones) + Freed(n, s, d, ones) == Out(n, d, ones) + Claimed(n, s, d, ones)
  {
    hide Amount, Backlog, KeySum, LinesInv, TakenInv, AnchorInv, Remaining, RestFits, PostOn, Release;
    match s
    case Post(_) => PostMoves(n, d, ones);
    case GiveBackOne(_) => OpKeysFront(n.job.ops, n.job.next, |n.job.plan|, d, ones);
    case EndSubmit(_) => NoKeys(n.job.ops, n.job.next, d, ones);
    case _ =>
  }

  lemma PollMoves(u: Setup, n: Conn, ctl: Ctl, s: Step, d: C.Direction, ones: bool)
    requires CanStep(u, n, ctl, s) && (s.Finish? || s.Handle? || s.Settle? || s.EndHandle?)
    ensures Out(StepOf(u, n, ctl, s).0, d, ones) + Freed(n, s, d, ones) == Out(n, d, ones) + Claimed(n, s, d, ones)
  {
    hide Amount, Backlog, KeySum, L.Do, L.Enabled, Retired, GiveBack;
    match s
    case Finish(_, q, ok) => FinishMoves(u, n.lines, q, ok, d, ones);
    case Handle(_, q, j) => HandleMoves(u, n, q, j, d, ones);
    case Settle(_, _, _) => SettleMoves(n.job.keys, d, ones);
    case EndHandle(_) => SettleMoves(n.job.keys, d, ones);
  }

  /** What is outstanding changes by what the step claims and gives back. */
  lemma OutMoves(u: Setup, n: Conn, ctl: Ctl, s: Step, d: C.Direction, ones: bool)
    requires ConnInv(u, n) && CanStep(u, n, ctl, s)
    ensures Out(StepOf(u, n, ctl, s).0, d, ones) + Freed(n, s, d, ones) == Out(n, d, ones) + Claimed(n, s, d, ones)
  {
    hide *;
    match s
    case Start(_, _) => PlanMoves(u, n, ctl, s, d, ones);
    case Allow(_, _, _) => PlanMoves(u, n, ctl, s, d, ones);
    case OnPost(_) => PlanMoves(u, n, ctl, s, d, ones);
    case EndPlan(_) => PlanMoves(u, n, ctl, s, d, ones);
    case Post(_) => PostingMoves(u, n, ctl, s, d, ones);
    case Refuse(_) => PostingMoves(u, n, ctl, s, d, ones);
    case GiveBackOne(_) => PostingMoves(u, n, ctl, s, d, ones);
    case EndSubmit(_) => PostingMoves(u, n, ctl, s, d, ones);
    case _ => PollMoves(u, n, ctl, s, d, ones);
  }

  lemma PlanningShape(u: Setup, qs: seq<L.QueuePair>, ops: seq<SubOp>, plan: seq<Planned>, ask: Ask)
    requires PlanningInv(u, qs, ops, plan, ask)
    ensures |plan| <= |ops|
  {
  }

  lemma SettleMoves(keys: seq<L.Key>, d: C.Direction, ones: bool)
    ensures KeySum(keys, d, ones) == if keys == [] then 0 else Amount(keys[0], d, ones) + KeySum(keys[1..], d, ones)
  {
  }

  /** And so does the controller, which never has to clamp. */
  lemma CtlMoves(u: Setup, n: Conn, ctl: Ctl, s: Step)
    requires ConnInv(u, n) && CanStep(u, n, ctl, s) && Running(ctl) && forall d :: Out(n, d, false) <= Used(ctl, d)
    ensures var ctl' := StepOf(u, n, ctl, s).1;
            && Running(ctl') && SameKind(ctl, ctl')
            && forall d :: Used(ctl', d) + Freed(n, s, d, false) == Used(ctl, d) + Claimed(n, s, d, false)
  {
    hide Running, Used, Release, Claim, GiveBack, LinesInv, TakenInv, AnchorInv, JobInv, Backlog, L.Do, L.Enabled,
         Retired, CanPlan;
    match s
    case OnPost(_) =>
      var key := n.job.ops[|n.job.plan|].key;
      ClaimCounts(ctl, Dir(key), key.bytes, n.job.ask.now);
    case GiveBackOne(_) =>
      var key := n.job.ops[n.job.next].key;
      forall d ensures Amount(key, d, false) <= Used(ctl, d) {
        OpKeysFront(n.job.ops, n.job.next, |n.job.plan|, d, false);
        assert Out(n, d, false) <= Used(ctl, d);
      }
      ReleaseCounts(ctl, Dir(key), key.bytes);
    case Settle(_, rtt, now) =>
      var key := n.job.keys[0];
      forall d ensures Amount(key, d, false) <= Used(ctl, d) {
        SettleMoves(n.job.keys, d, false);
        assert Out(n, d, false) <= Used(ctl, d);
      }
      GiveBackCounts(ctl, key, n.job.ok, rtt, now);
    case _ =>
      assert SameKind(ctl, ctl);
  }

  /** The controller counts exactly what the connections have outstanding. */
  ghost predicate Inv(u: Setup, s: State) {
    && Running(s.ctl)
    && (forall c :: 0 <= c < |s.conns| ==> ConnInv(u, s.conns[c]))
    && (forall d :: Used(s.ctl, d) == Outs(s.conns, d, false))
  }

  /** A step moves the controller by what it claims and gives back. */
  lemma StepMoves(u: Setup, s: State, step: Step)
    requires Inv(u, s) && Enabled(u, s, step)
    ensures var e, n := Do(u, s, step), s.conns[step.c];
            && Running(e.ctl) && SameKind(s.ctl, e.ctl)
            && forall d :: Used(e.ctl, d) + Freed(n, step, d, false) == Used(s.ctl, d) + Claimed(n, step, d, false)
  {
    hide ConnInv, CanStep, StepOf, Running, Used, Out, Freed, Claimed;
    var n := s.conns[step.c];
    forall d ensures Out(n, d, false) <= Used(s.ctl, d) {
      OutsUpdate(s.conns, step.c, n, d, false);
    }
    CtlMoves(u, n, s.ctl, step);
  }

  lemma StepKeeps(u: Setup, s: State, step: Step)
    requires Inv(u, s) && Enabled(u, s, step)
    ensures Inv(u, Do(u, s, step)) && SameKind(s.ctl, Do(u, s, step).ctl)
  {
    hide ConnInv, CanStep, StepOf, Running, Used, Out, Freed, Claimed;
    var n := s.conns[step.c];
    var (n', ctl') := StepOf(u, n, s.ctl, step);
    ConnKeeps(u, n, s.ctl, step);
    StepMoves(u, s, step);
    forall d ensures Used(ctl', d) == Outs(s.conns[step.c := n'], d, false) {
      OutMoves(u, n, s.ctl, step, d, false);
      OutsUpdate(s.conns, step.c, n', d, false);
    }
  }

  lemma {:induction false} RunKeeps(u: Setup, s: State, steps: seq<Step>)
    requires Inv(u, s) && CanRun(u, s, steps)
    ensures Inv(u, After(u, s, steps)) && SameKind(s.ctl, After(u, s, steps).ctl)
    ensures |After(u, s, steps).conns| == |s.conns|
    decreases |steps|
  {
    hide Inv, CanStep, StepOf;
    if steps != [] {
      StepKeeps(u, s, steps[0]);
      RunKeeps(u, Do(u, s, steps[0]), steps[1..]);
    }
  }

  lemma {:induction false} RunExtends(u: Setup, s: State, steps: seq<Step>, step: Step)
    requires CanRun(u, s, steps) && Enabled(u, After(u, s, steps), step)
    ensures CanRun(u, s, steps + [step]) && After(u, s, steps + [step]) == Do(u, After(u, s, steps), step)
    decreases |steps|
  {
    hide Enabled, Do;
    if steps == [] {
      assert [] + [step] == [step];
    } else {
      RunExtends(u, Do(u, s, steps[0]), steps[1..], step);
      assert (steps + [step])[1..] == steps[1..] + [step];
    }
  }

  /** Some run of steps that are all ok leads from s to e. */
  ghost predicate Reaches(u: Setup, s: State, e: State, ok: Step -> bool) {
    exists steps :: CanRun(u, s, steps) && After(u, s, steps) == e && forall i :: 0 <= i < |steps| ==> ok(steps[i])
  }

  lemma ReachesItself(u: Setup, s: State, ok: Step -> bool)
    ensures Reaches(u, s, s, ok)
  {
    assert CanRun(u, s, []) && After(u, s, []) == s;
  }

  lemma ReachesStep(u: Setup, s: State, e: State, ok: Step -> bool, step: Step)
    requires Reaches(u, s, e, ok) && Enabled(u, e, step) && ok(step)
    ensures Reaches(u, s, Do(u, e, step), ok)
  {
    hide Enabled, Do;
    var steps :| CanRun(u, s, steps) && After(u, s, steps) == e && forall i :: 0 <= i < |steps| ==> ok(steps[i]);
    RunExtends(u, s, steps, step);
  }

  lemma {:induction false} NothingOut(conns: seq<Conn>, d: C.Direction, ones: bool)
    requires forall c :: 0 <= c < |conns| ==> conns[c] == Fresh(|conns[c].lines|)
    ensures Outs(conns, d, ones) == 0
    decreases |conns|
  {
    hide Backlog;
    if conns != [] {
      NothingOut(conns[..|conns| - 1], d, ones);
      IdleBacklog(conns[|conns| - 1].lines, d, ones);
    }
  }

  lemma {:induction false} IdleBacklog(lines: seq<L.Line>, d: C.Direction, ones: bool)
    requires forall q :: 0 <= q < |lines| ==> lines[q] == L.IDLE
    ensures Backlog(lines, d, ones) == 0
    ensures forall x :: SentCount(lines, x) == 0
    decreases |lines|
  {
    if lines != [] {
      IdleBacklog(lines[..|lines| - 1], d, ones);
      assert L.Keys([]) == [] && L.WrKeys([]) == [];
    }
  }

  lemma FreshInv(u: Setup, n: Conn)
    requires n == Fresh(|n.lines|)
    ensures ConnInv(u, n)
  {
    IdleBacklog(n.lines, C.WriteDir, false);
  }

  lemma StartsClean(u: Setup, s: State)
    requires Init(s)
    ensures Inv(u, s)
  {
    hide ConnInv, Running, Used, Outs;
    forall c | 0 <= c < |s.conns| ensures ConnInv(u, s.conns[c]) {
      FreshInv(u, s.conns[c]);
    }
    forall d ensures Outs(s.conns, d, false) == 0 {
      NothingOut(s.conns, d, false);
    }
  }
}
