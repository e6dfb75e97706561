/** What holds over every run of any number of RDMA connections on one congestion controller. */
module RdmaRuns {
  import L = RdmaLine
  import P = Provider
  import C = Congestion
  import opened Controllers
  import opened RdmaPlan
  import opened RdmaFabric
  import S = RdmaSubmit

  // ---------------- the shared budget ----------------

  lemma {:induction false} KeySumIsBytes(ps: seq<L.Posted>, d: C.Direction)
    ensures KeySum(L.Keys(ps), d, false) == QueueBytes(ps, d)
    decreases |ps|
  {
    if ps != [] {
      var n := |ps| - 1;
      KeySumIsBytes(ps[..n], d);
      assert L.Keys(ps) == L.Keys(ps[..n]) + [ps[n].key];
      KeySumConcat(L.Keys(ps[..n]), [ps[n].key], d, false);
      KeySumOne(ps[n].key, d, false);
    }
  }

  lemma {:induction false} BacklogIsTotal(lines: seq<L.Line>, d: C.Direction)
    ensures Backlog(lines, d, false) == Total(Qps(lines), d)
    decreases |lines|
  {
    hide KeySum, QueueBytes;
    if lines != [] {
      var n := |lines| - 1;
      BacklogIsTotal(lines[..n], d);
      assert Qps(lines)[..n] == Qps(lines[..n]);
      KeySumIsBytes(lines[n].q.unsignalled, d);
    }
  }

  /** The bytes posted and not retired over all connections. */
  function Posted(conns: seq<Conn>, d: C.Direction): nat {
    if conns == [] then 0 else Posted(conns[..|conns| - 1], d) + Total(Qps(conns[|conns| - 1].lines), d)
  }

  /** The bytes claimed by a submit() and not posted yet, or retired by a poll() and not given back yet. */
  function Midway(conns: seq<Conn>, d: C.Direction): nat {
    if conns == [] then 0 else Midway(conns[..|conns| - 1], d) + Owing(conns[|conns| - 1].job, d, false)
  }

  predicate AllResting(conns: seq<Conn>) {
    forall c :: 0 <= c < |conns| ==> conns[c].job.Resting?
  }

  lemma {:induction false} OutsSplit(conns: seq<Conn>, d: C.Direction)
    ensures Outs(conns, d, false) == Posted(conns, d) + Midway(conns, d)
    ensures AllResting(conns) ==> Midway(conns, d) == 0
    ensures forall c :: 0 <= c < |conns| ==> Total(Qps(conns[c].lines), d) <= Posted(conns, d)
    decreases |conns|
  {
    hide Backlog, Total;
    if conns != [] {
      var n := |conns| - 1;
      OutsSplit(conns[..n], d);
      BacklogIsTotal(conns[n].lines, d);
      forall c | 0 <= c < |conns| ensures Total(Qps(conns[c].lines), d) <= Posted(conns, d) {
        if c < n {
          assert conns[..n][c] == conns[c];
        }
      }
    }
  }

  /** However the connections' calls interleave, the controller counts exactly what is posted and
      not retired plus what a call has in hand; between calls, what is posted. So no connection
      ever owns more than is counted, whatever the others do. */
  lemma BudgetIsExact(u: Setup, s: State, steps: seq<Step>, d: C.Direction)
    requires Init(s) && CanRun(u, s, steps)
    ensures var e := After(u, s, steps);
            && Used(e.ctl, d) == Posted(e.conns, d) + Midway(e.conns, d)
            && (AllResting(e.conns) ==> Used(e.ctl, d) == Posted(e.conns, d))
            && forall c :: 0 <= c < |e.conns| ==> Total(Qps(e.conns[c].lines), d) <= Used(e.ctl, d)
  {
    StartsClean(u, s);
    RunKeeps(u, s, steps);
    hide Init, ConnInv, Total, Outs, Posted, Midway, CanRun, After;
    OutsSplit(After(u, s, steps).conns, d);
  }

  /** In every run an operation is let through, by a fixed window or by TIMELY, exactly if its time has
      come and it fits the window of that moment together with all that is outstanding, or no byte
      is outstanding. */
  lemma AllowedIffItFits(u: Setup, s: State, steps: seq<Step>, d: C.Direction, bytes: nat, now: int)
    requires Init(s) && CanRun(u, s, steps)
    ensures var e := After(u, s, steps);
            var out := Posted(e.conns, d) + Midway(e.conns, d);
            Allows(e.ctl, d, bytes, now) <==>
              && (e.ctl.Adaptive? ==> now >= DirOf(e.ctl, d).nextSend)
              && (WindowOf(e.ctl, d).Some? ==> out + bytes <= WindowOf(e.ctl, d).value || out == 0)
  {
    var e := After(u, s, steps);
    BudgetIsExact(u, s, steps, d);
    AllowsMeans(e.ctl, d, bytes, now);
    hide Init, CanRun, After, WindowOf, Used, Allows, Posted, Midway;
  }

  /** So when a connection's next operation is let through, that is what it meets. */
  lemma AllowedFits(u: Setup, s: State, steps: seq<Step>, c: nat, p: Planned, now: int)
    requires Init(s) && CanRun(u, s, steps) && Enabled(u, After(u, s, steps), Allow(c, p, now))
    ensures var e := After(u, s, steps);
            var key := e.conns[c].job.ops[|e.conns[c].job.plan|].key;
            var out := Posted(e.conns, Dir(key)) + Midway(e.conns, Dir(key));
            && (e.ctl.Adaptive? ==> now >= DirOf(e.ctl, Dir(key)).nextSend)
            && (WindowOf(e.ctl, Dir(key)).Some? ==> out + key.bytes <= WindowOf(e.ctl, Dir(key)).value || out == 0)
  {
    var e := After(u, s, steps);
    var key := e.conns[c].job.ops[|e.conns[c].job.plan|].key;
    AllowedIffItFits(u, s, steps, Dir(key), key.bytes, now);
    hide Init, CanRun, After, WindowOf, Used, Allows, Posted, Midway;
  }

  // ---------------- every queue pair runs as a line ----------------

  ghost predicate LineRun(depth: nat, l: L.Line, ordered: bool) {
    exists steps :: L.CanRun(depth, L.IDLE, steps) && L.After(depth, L.IDLE, steps) == l
      && (ordered ==> L.InOrder(steps))
  }

  lemma LineRunStep(depth: nat, l: L.Line, ordered: bool, s: L.Step)
    requires LineRun(depth, l, ordered) && L.Enabled(depth, l, s) && (ordered && s.Handle? ==> s.j == 0)
    ensures LineRun(depth, L.Do(depth, l, s), ordered)
  {
    hide L.Enabled, L.Do;
    var steps :| L.CanRun(depth, L.IDLE, steps) && L.After(depth, L.IDLE, steps) == l && (ordered ==> L.InOrder(steps));
    L.RunExtends(depth, L.IDLE, steps, s);
  }

  ghost predicate LineRuns(u: Setup, n: Conn, ordered: bool) {
    forall q :: 0 <= q < |n.lines| ==> LineRun(u.depth, n.lines[q], ordered)
  }

  /** poll() takes up the oldest waiting completion first. */
  predicate OldestFirst(s: Step) {
    s.Handle? ==> s.j == 0
  }

  lemma PostRuns(u: Setup, n: Conn, ctl: Ctl, ordered: bool)
    requires LineRuns(u, n, ordered) && ConnInv(u, n) && CanStep(u, n, ctl, Post(0))
    ensures LineRuns(u, StepOf(u, n, ctl, Post(0)).0, ordered)
  {
    var p, w := n.job.plan[n.job.next], L.Wr(n.job.ops[n.job.next].key, n.job.plan[n.job.next].signal);
    var rest := Remaining(n.job.plan, n.job.ops, p.qp, n.job.next + 1);
    assert RestFits(u, Qps(n.lines)[p.qp], Remaining(n.job.plan, n.job.ops, p.qp, n.job.next));
    RestNext(u, n.lines[p.qp].q, w, rest);
    PostLine(u, n.lines[p.qp], w);
    hide LineRun, L.Do, L.Enabled, ConnInv;
    LineRunStep(u.depth, n.lines[p.qp], ordered, L.Batch([w]));
  }

  lemma RunsStep(u: Setup, n: Conn, ctl: Ctl, s: Step, ordered: bool)
    requires LineRuns(u, n, ordered) && ConnInv(u, n) && CanStep(u, n, ctl, s) && (ordered ==> OldestFirst(s))
    ensures LineRuns(u, StepOf(u, n, ctl, s).0, ordered)
  {
    hide LineRun, ConnInv, L.Do, CanPlan, Claim, GiveBack, Release;
    match s
    case Post(_) => PostRuns(u, n, ctl, ordered);
    case Finish(_, q, ok) => LineRunStep(u.depth, n.lines[q], ordered, L.Finish(ok));
    case Handle(_, q, j) => LineRunStep(u.depth, n.lines[q], ordered, L.Handle(j));
    case _ =>
  }

  ghost predicate AllLineRuns(u: Setup, conns: seq<Conn>, ordered: bool) {
    forall c :: 0 <= c < |conns| ==> LineRuns(u, conns[c], ordered)
  }

  lemma {:induction false} RunRuns(u: Setup, s: State, steps: seq<Step>, ordered: bool)
    requires Inv(u, s) && CanRun(u, s, steps) && AllLineRuns(u, s.conns, ordered)
    requires ordered ==> forall i :: 0 <= i < |steps| ==> OldestFirst(steps[i])
    ensures AllLineRuns(u, After(u, s, steps).conns, ordered)
    decreases |steps|
  {
    hide ConnInv, CanStep, StepOf, LineRuns, OldestFirst, Outs, Used, Running;
    if steps != [] {
      RunsStep(u, s.conns[steps[0].c], s.ctl, steps[0], ordered);
      StepKeeps(u, s, steps[0]);
      RunRuns(u, Do(u, s, steps[0]), steps[1..], ordered);
    }
  }

  lemma IdleRuns(u: Setup, s: State, ordered: bool)
    requires Init(s)
    ensures AllLineRuns(u, s.conns, ordered)
  {
    assert L.CanRun(u.depth, L.IDLE, []) && L.After(u.depth, L.IDLE, []) == L.IDLE && L.InOrder([]);
    assert LineRun(u.depth, L.IDLE, ordered);
    hide LineRun;
  }

  /** One line of a connection after a run, with the run of its own that led there. */
  lemma LineOf(u: Setup, s: State, steps: seq<Step>, c: nat, q: nat, ordered: bool) returns (line: seq<L.Step>)
    requires Init(s) && CanRun(u, s, steps) && c < |After(u, s, steps).conns| && q < |After(u, s, steps).conns[c].lines|
    requires ordered ==> forall i :: 0 <= i < |steps| ==> OldestFirst(steps[i])
    ensures L.CanRun(u.depth, L.IDLE, line) && L.After(u.depth, L.IDLE, line) == After(u, s, steps).conns[c].lines[q]
    ensures ordered ==> L.InOrder(line)
    ensures ConnInv(u, After(u, s, steps).conns[c])
  {
    StartsClean(u, s);
    RunKeeps(u, s, steps);
    IdleRuns(u, s, ordered);
    RunRuns(u, s, steps, ordered);
    hide Init, CanRun, After, ConnInv, L.CanRun, L.After, L.InOrder;
    var l := After(u, s, steps).conns[c].lines[q];
    assert LineRuns(u, After(u, s, steps).conns[c], ordered);
    assert LineRun(u.depth, l, ordered);
    line :| L.CanRun(u.depth, L.IDLE, line) && L.After(u.depth, L.IDLE, line) == l && (ordered ==> L.InOrder(line));
  }

  // ---------------- reported exactly once ----------------

  function ReportedCount(lines: seq<L.Line>, x: L.Key): nat {
    if lines == [] then 0
    else ReportedCount(lines[..|lines| - 1], x) + multiset(L.ReportKeys(lines[|lines| - 1].reported))[x]
  }

  function WaitingCount(lines: seq<L.Line>, x: L.Key): nat {
    if lines == [] then 0
    else WaitingCount(lines[..|lines| - 1], x) + multiset(L.Keys(lines[|lines| - 1].q.unsignalled))[x]
  }

  lemma {:induction false} SentIsReportedOrWaiting(u: Setup, lines: seq<L.Line>, x: L.Key)
    requires LinesInv(u, lines)
    ensures SentCount(lines, x) == ReportedCount(lines, x) + WaitingCount(lines, x)
    decreases |lines|
  {
    hide L.Keys, L.ReportKeys, L.WrKeys, L.Numbered, L.Honest, L.TailComes;
    if lines != [] {
      var n := |lines| - 1;
      assert L.Inv(u.depth, lines[n]);
      assert LinesInv(u, lines[..n]);
      SentIsReportedOrWaiting(u, lines[..n], x);
      var r, w := L.ReportKeys(lines[n].reported), L.Keys(lines[n].q.unsignalled);
      assert multiset(r + w) == multiset(r) + multiset(w);
    }
  }

  /** What a connection accepted is reported as often as it was accepted, less what still waits; each
      queue pair reports in posting order, never before the adapter finished, and never a success
      that was none. */
  lemma ReportedExactlyOnce(u: Setup, s: State, steps: seq<Step>, c: nat, x: L.Key)
    requires Init(s) && CanRun(u, s, steps) && c < |After(u, s, steps).conns|
    ensures var n := After(u, s, steps).conns[c];
            && multiset(n.taken)[x] == ReportedCount(n.lines, x) + WaitingCount(n.lines, x)
            && forall q :: 0 <= q < |n.lines| ==>
                 && L.ReportKeys(n.lines[q].reported) <= L.WrKeys(n.lines[q].sent)
                 && |n.lines[q].reported| <= |n.lines[q].results|
                 && (forall i :: 0 <= i < |n.lines[q].reported| && n.lines[q].reported[i].ok ==> n.lines[q].results[i])
                 && |n.lines[q].sent| - |n.lines[q].reported| <= u.depth
  {
    StartsClean(u, s);
    RunKeeps(u, s, steps);
    hide Init, CanRun, After, SentCount, ReportedCount, WaitingCount, JobInv, AnchorInv;
    var n := After(u, s, steps).conns[c];
    assert ConnInv(u, n);
    SentIsReportedOrWaiting(u, n.lines, x);
    assert multiset(n.taken)[x] == SentCount(n.lines, x);
    forall q | 0 <= q < |n.lines|
      ensures L.ReportKeys(n.lines[q].reported) <= L.WrKeys(n.lines[q].sent)
      ensures |n.lines[q].reported| <= |n.lines[q].results| && |n.lines[q].sent| - |n.lines[q].reported| <= u.depth
      ensures forall i :: 0 <= i < |n.lines[q].reported| && n.lines[q].reported[i].ok ==> n.lines[q].results[i]
    {
      var line := LineOf(u, s, steps, c, q, false);
      L.ReportedExactlyOnce(u.depth, line);
    }
  }

  // ---------------- nothing stranded, nothing past the depth ----------------

  /** A queue pair the adapter is through with, without an error, and whose completions are all handled. */
  predicate Drained(l: L.Line) {
    |l.results| == |l.sent| && l.cq == [] && forall i :: 0 <= i < |l.results| ==> l.results[i]
  }

  /** A drained queue pair has reported all it was given exactly if the last request it was given
      asked for its completion; and between calls it did, unless a post was refused on the connection. */
  lemma NothingStranded(u: Setup, s: State, steps: seq<Step>, c: nat, q: nat)
    requires Init(s) && CanRun(u, s, steps) && c < |After(u, s, steps).conns| && q < |After(u, s, steps).conns[c].lines|
    ensures var n := After(u, s, steps).conns[c];
            && (Drained(n.lines[q]) ==> (L.ReportKeys(n.lines[q].reported) == L.WrKeys(n.lines[q].sent) <==>
                                         L.Anchored(n.lines[q])))
            && (n.job.Resting? && !n.refused ==> L.Anchored(n.lines[q]))
  {
    var line := LineOf(u, s, steps, c, q, false);
    var n := After(u, s, steps).conns[c];
    if Drained(n.lines[q]) {
      L.StrandedIffUnsignalledTail(u.depth, line);
    }
    hide LinesInv, TakenInv, L.Anchored, Init, CanRun, After;
  }

  /** Nothing moves on a quiet queue pair but by a post on it. */
  lemma QuietStep(u: Setup, n: Conn, ctl: Ctl, s: Step, q: nat)
    requires CanStep(u, n, ctl, s) && q < |n.lines| && L.Quiet(n.lines[q])
    ensures var n' := StepOf(u, n, ctl, s).0;
            |n'.lines| == |n.lines| && (n'.lines[q] == n.lines[q] || |n.lines[q].sent| < |n'.lines[q].sent|)
  {
    hide CanPlan, Claim, GiveBack, Release, AnchorOf, Retired, L.PostOne;
    match s
    case Handle(_, q', j) =>
      hide L.Do;
    case _ =>
  }

  lemma SentStep(u: Setup, n: Conn, ctl: Ctl, s: Step, q: nat)
    requires CanStep(u, n, ctl, s) && q < |n.lines|
    ensures var n' := StepOf(u, n, ctl, s).0; |n'.lines| == |n.lines| && |n.lines[q].sent| <= |n'.lines[q].sent|
  {
    hide CanPlan, Claim, GiveBack, Release, AnchorOf, Retired, L.PostOne, L.Retire;
  }

  lemma {:induction false} SentRun(u: Setup, s: State, steps: seq<Step>, c: nat, q: nat)
    requires CanRun(u, s, steps) && c < |s.conns| && q < |s.conns[c].lines|
    ensures var e := After(u, s, steps);
            |e.conns| == |s.conns| && |e.conns[c].lines| == |s.conns[c].lines| &&
            |s.conns[c].lines[q].sent| <= |e.conns[c].lines[q].sent|
    decreases |steps|
  {
    hide CanStep, StepOf;
    if steps != [] {
      if steps[0].c == c {
        SentStep(u, s.conns[c], s.ctl, steps[0], q);
      }
      SentRun(u, Do(u, s, steps[0]), steps[1..], c, q);
    }
  }

  lemma {:induction false} QuietRun(u: Setup, s: State, steps: seq<Step>, c: nat, q: nat)
    requires CanRun(u, s, steps) && c < |s.conns| && q < |s.conns[c].lines| && L.Quiet(s.conns[c].lines[q])
    ensures var e := After(u, s, steps);
            && |e.conns| == |s.conns| && |e.conns[c].lines| == |s.conns[c].lines|
            && (e.conns[c].lines[q].sent == s.conns[c].lines[q].sent ==> e.conns[c].lines[q] == s.conns[c].lines[q])
    decreases |steps|
  {
    hide CanStep, StepOf, L.Quiet;
    SentRun(u, s, steps, c, q);
    if steps != [] {
      var s' := Do(u, s, steps[0]);
      if steps[0].c == c {
        QuietStep(u, s.conns[c], s.ctl, steps[0], q);
      }
      SentRun(u, s', steps[1..], c, q);
      if s'.conns[c].lines[q] == s.conns[c].lines[q] {
        QuietRun(u, s', steps[1..], c, q);
      }
    }
  }

  /** What waits on a quiet queue pair goes on waiting, and its budget stays claimed, through every
      run that posts nothing more there, whatever the other queue pairs and connections do. */
  lemma StrandedUntilMoreIsPosted(u: Setup, s: State, before: seq<Step>, more: seq<Step>, c: nat, q: nat,
                                  d: C.Direction)
    requires Init(s) && CanRun(u, s, before) && CanRun(u, After(u, s, before), more)
    requires c < |After(u, s, before).conns| && q < |After(u, s, before).conns[c].lines|
    requires L.Quiet(After(u, s, before).conns[c].lines[q])
    ensures var b, e := After(u, s, before), After(u, After(u, s, before), more);
            && |e.conns| == |b.conns| && |e.conns[c].lines| == |b.conns[c].lines|
            && (e.conns[c].lines[q].sent == b.conns[c].lines[q].sent ==>
                  && e.conns[c].lines[q] == b.conns[c].lines[q]
                  && QueueBytes(b.conns[c].lines[q].q.unsignalled, d) <= Used(e.ctl, d))
  {
    var b := After(u, s, before);
    StartsClean(u, s);
    RunKeeps(u, s, before);
    RunKeeps(u, b, more);
    QuietRun(u, b, more, c, q);
    var e := After(u, b, more);
    hide Init, CanRun, After, ConnInv, Running, Used, Outs;
    ShareIsCounted(e.conns, c, q, d);
  }

  lemma ShareIsCounted(conns: seq<Conn>, c: nat, q: nat, d: C.Direction)
    requires c < |conns| && q < |conns[c].lines|
    ensures QueueBytes(conns[c].lines[q].q.unsignalled, d) <= Outs(conns, d, false)
  {
    hide Outs, Backlog, KeySum, QueueBytes;
    OutsUpdate(conns, c, conns[c], d, false);
    BacklogUpdate(conns[c].lines, q, L.IDLE, d, false);
    KeySumIsBytes(conns[c].lines[q].q.unsignalled, d);
    assert L.Keys([]) == [];
    SettleMoves([], d, false);
  }

  /** And a completion that is handled reports everything posted on its queue pair up to it that was
      not reported before, whether it asked for a completion or not. */
  lemma CompletionReportsUpToIt(u: Setup, s: State, steps: seq<Step>, c: nat, q: nat, j: nat)
    requires Init(s) && CanRun(u, s, steps) && Enabled(u, After(u, s, steps), Handle(c, q, j))
    ensures var e := After(u, s, steps);
            var l, l' := e.conns[c].lines[q], Do(u, e, Handle(c, q, j)).conns[c].lines[q];
            var top := if |l.reported| <= l.cq[j].seqNo then l.cq[j].seqNo + 1 else |l.reported|;
            top <= |l.sent| && L.ReportKeys(l'.reported) == L.WrKeys(l.sent)[..top]
  {
    StartsClean(u, s);
    RunKeeps(u, s, steps);
    var e := After(u, s, steps);
    var l := e.conns[c].lines[q];
    assert ConnInv(u, e.conns[c]) && L.Inv(u.depth, l);
    hide Init, CanRun, After, ConnInv, Inv;
    L.ReportsMove(u.depth, l, L.Handle(j));
    L.HandleKeeps(u.depth, l, j);
    L.ReportedInOrder(u.depth, L.Do(u.depth, l, L.Handle(j)));
    hide L.Inv, L.Retire, L.ReportKeys, L.WrKeys;
  }

  /** While poll() takes up completions oldest first, posted - reclaimed is what the adapter holds,
      and in any order the adapter never holds more than the depth of the queue. */
  lemma WithinDepth(u: Setup, s: State, steps: seq<Step>, c: nat, q: nat)
    requires Init(s) && CanRun(u, s, steps) && c < |After(u, s, steps).conns| && q < |After(u, s, steps).conns[c].lines|
    ensures var qp := After(u, s, steps).conns[c].lines[q].q;
            && |qp.unsignalled| <= u.depth
            && ((forall i :: 0 <= i < |steps| ==> OldestFirst(steps[i])) ==>
                  qp.posted - qp.reclaimed == |qp.unsignalled|)
  {
    var ordered := forall i :: 0 <= i < |steps| ==> OldestFirst(steps[i]);
    var line := LineOf(u, s, steps, c, q, ordered);
    L.RunKeeps(u.depth, L.IDLE, line);
    if ordered {
      L.CapacityIsExact(u.depth, line);
    }
  }

  /** So the room a queue pair is taken to have is never more than the adapter has for it, and is
      exactly that while completions are taken up oldest first. */
  lemma RoomIsThere(u: Setup, s: State, steps: seq<Step>, c: nat, q: nat)
    requires Init(s) && CanRun(u, s, steps) && c < |After(u, s, steps).conns| && q < |After(u, s, steps).conns[c].lines|
    ensures var qp := After(u, s, steps).conns[c].lines[q].q;
            && S.Room(u.depth, qp) <= u.depth - |qp.unsignalled|
            && ((forall i :: 0 <= i < |steps| ==> OldestFirst(steps[i])) ==>
                  S.Room(u.depth, qp) == u.depth - |qp.unsignalled|)
  {
    WithinDepth(u, s, steps, c, q);
    StartsClean(u, s);
    RunKeeps(u, s, steps);
    var l := After(u, s, steps).conns[c].lines[q];
    assert ConnInv(u, After(u, s, steps).conns[c]) && L.Inv(u.depth, l);
    L.LedgerSize(l.q, l.reported, l.sent);
    hide Init, CanRun, After, ConnInv, L.Ledger, L.Numbered, L.Honest, L.TailComes;
  }

  // ---------------- the transport contract ----------------

  /** What the connection holds, over all its queue pairs. */
  ghost function HeldKeys(lines: seq<L.Line>): set<L.Key> {
    if lines == [] then {} else HeldKeys(lines[..|lines| - 1]) + P.Members(L.Keys(lines[|lines| - 1].q.unsignalled))
  }

  ghost function Held(n: Conn): P.Link<L.Key> {
    P.Link(HeldKeys(n.lines))
  }

  lemma {:induction false} HeldIffWaiting(lines: seq<L.Line>, x: L.Key)
    ensures x in HeldKeys(lines) <==> WaitingCount(lines, x) > 0
    decreases |lines|
  {
    if lines != [] {
      HeldIffWaiting(lines[..|lines| - 1], x);
      var ks := L.Keys(lines[|lines| - 1].q.unsignalled);
      assert x in ks <==> x in multiset(ks);
    }
  }

  lemma {:induction false} WaitingUpdate(lines: seq<L.Line>, q: nat, l: L.Line, x: L.Key)
    requires q < |lines|
    ensures WaitingCount(lines[q := l], x) + multiset(L.Keys(lines[q].q.unsignalled))[x] ==
            WaitingCount(lines, x) + multiset(L.Keys(l.q.unsignalled))[x]
    decreases |lines|
  {
    hide L.Keys;
    var n := |lines| - 1;
    if q == n {
      assert lines[q := l][..n] == lines[..n];
    } else {
      WaitingUpdate(lines[..n], q, l, x);
      assert lines[q := l][..n] == lines[..n][q := l];
    }
  }

  lemma {:induction false} DistinctCounts(ks: seq<L.Key>)
    ensures P.Distinct(ks) <==> forall x :: multiset(ks)[x] <= 1
    decreases |ks|
  {
    if ks != [] {
      var rest := ks[1..];
      DistinctCounts(rest);
      P.HeadAndTail(ks);
      hide P.Distinct;
      assert ks == [ks[0]] + rest;
      assert forall x :: multiset(ks)[x] == multiset(rest)[x] + (if x == ks[0] then 1 else 0);
      assert ks[0] in rest <==> ks[0] in multiset(rest);
      if forall x :: multiset(ks)[x] <= 1 {
        assert multiset(ks)[ks[0]] <= 1;
        forall x ensures multiset(rest)[x] <= 1 {
          assert multiset(ks)[x] <= 1;
        }
      }
    }
  }

  /** Nothing waits that was not accepted. */
  lemma WaitingIsTaken(u: Setup, n: Conn, x: L.Key)
    requires ConnInv(u, n)
    ensures WaitingCount(n.lines, x) <= multiset(n.taken)[x]
  {
    hide JobInv, AnchorInv, SentCount, WaitingCount, ReportedCount;
    SentIsReportedOrWaiting(u, n.lines, x);
    assert multiset(n.taken)[x] == SentCount(n.lines, x);
  }

  lemma PostRefines(u: Setup, n: Conn, q: nat, w: L.Wr)
    requires ConnInv(u, n) && q < |n.lines| && P.Distinct(n.taken + [w.key])
    ensures P.CanAccept(Held(n), w.key)
    ensures P.Link(HeldKeys(n.lines[q := PostOn(n.lines[q], w)])) == P.Accept(Held(n), w.key)
  {
    hide ConnInv, P.Distinct, HeldKeys, WaitingCount;
    var l, l' := n.lines[q], PostOn(n.lines[q], w);
    DistinctCounts(n.taken + [w.key]);
    assert multiset(n.taken + [w.key])[w.key] <= 1;
    WaitingIsTaken(u, n, w.key);
    HeldIffWaiting(n.lines, w.key);
    assert L.Keys(l'.q.unsignalled) == L.Keys(l.q.unsignalled) + [w.key];
    forall x ensures x in HeldKeys(n.lines[q := l']) <==> x in HeldKeys(n.lines) || x == w.key {
      WaitingUpdate(n.lines, q, l', x);
      HeldIffWaiting(n.lines, x);
      HeldIffWaiting(n.lines[q := l'], x);
    }
  }

  lemma HandleSplits(u: Setup, n: Conn, q: nat, j: nat, x: L.Key)
    requires q < |n.lines| && j < |n.lines[q].cq|
    ensures WaitingCount(n.lines[q := L.Do(u.depth, n.lines[q], L.Handle(j))], x) +
            multiset(Retired(n.lines[q], j))[x] ==
            WaitingCount(n.lines, x)
  {
    hide WaitingCount, L.RetireCount, L.Reports, L.Keys;
    var l := n.lines[q];
    var l' := L.Do(u.depth, l, L.Handle(j));
    var m := L.RetireCount(l.q.unsignalled, l.cq[j].seqNo);
    var a, b := l.q.unsignalled[..m], l.q.unsignalled[m..];
    WaitingUpdate(n.lines, q, l', x);
    assert l.q.unsignalled == a + b;
    L.KeysConcat(a, b);
    assert multiset(L.Keys(a) + L.Keys(b)) == multiset(L.Keys(a)) + multiset(L.Keys(b));
  }

  lemma HandleRefines(u: Setup, n: Conn, q: nat, j: nat)
    requires ConnInv(u, n) && q < |n.lines| && j < |n.lines[q].cq| && P.Distinct(n.taken)
    ensures var ks := Retired(n.lines[q], j);
            && P.CanReportAll(Held(n), ks)
            && P.Link(HeldKeys(n.lines[q := L.Do(u.depth, n.lines[q], L.Handle(j))])) == P.ReportAll(Held(n), ks)
  {
    hide ConnInv, P.Distinct, HeldKeys, WaitingCount, Retired, L.Do;
    var ks := Retired(n.lines[q], j);
    var lines' := n.lines[q := L.Do(u.depth, n.lines[q], L.Handle(j))];
    DistinctCounts(n.taken);
    forall x
      ensures multiset(ks)[x] <= WaitingCount(n.lines, x) <= 1
      ensures x in HeldKeys(lines') <==> x in HeldKeys(n.lines) && x !in ks
      ensures x in ks ==> x in HeldKeys(n.lines)
    {
      HandleSplits(u, n, q, j, x);
      WaitingIsTaken(u, n, x);
      HeldIffWaiting(n.lines, x);
      HeldIffWaiting(lines', x);
      assert multiset(n.taken)[x] <= 1;
      assert x in ks <==> multiset(ks)[x] > 0;
    }
    DistinctCounts(ks);
    P.ReportAllIs(Held(n), ks);
  }

  lemma {:induction false} SameHeld(a: seq<L.Line>, b: seq<L.Line>)
    requires |a| == |b| && forall q :: 0 <= q < |a| ==> a[q].q == b[q].q
    ensures HeldKeys(a) == HeldKeys(b)
    decreases |a|
  {
    if a != [] {
      var n := |a| - 1;
      SameHeld(a[..n], b[..n]);
      assert a[n].q == b[n].q;
    }
  }

  /** What a step of connection n means to the engine. */
  ghost predicate Means(u: Setup, n: Conn, n': Conn, s: Step) {
    match s
    case Post(_) =>
      n.taken < n'.taken && P.CanAccept(Held(n), n'.taken[|n.taken|])
        && Held(n') == P.Accept(Held(n), n'.taken[|n.taken|])
    case Handle(_, q, j) =>
      q < |n.lines| && j < |n.lines[q].cq| &&
      P.CanReportAll(Held(n), Retired(n.lines[q], j)) && Held(n') == P.ReportAll(Held(n), Retired(n.lines[q], j))
    case _ => Held(n') == Held(n)
  }

  lemma ConnRefines(u: Setup, n: Conn, ctl: Ctl, s: Step)
    requires ConnInv(u, n) && CanStep(u, n, ctl, s) && P.Distinct(StepOf(u, n, ctl, s).0.taken)
    ensures Means(u, n, StepOf(u, n, ctl, s).0, s)
  {
    hide ConnInv, P.Distinct, HeldKeys, CanPlan, Claim, GiveBack, Release, Retired, P.CanReportAll, P.ReportAll;
    match s
    case Post(_) =>
      var p := n.job.plan[n.job.next];
      PostRefines(u, n, p.qp, L.Wr(n.job.ops[n.job.next].key, p.signal));
    case Finish(_, q, ok) => SameHeld(n.lines, StepOf(u, n, ctl, s).0.lines);
    case Handle(_, q, j) =>
      hide L.Do;
      HandleRefines(u, n, q, j);
    case _ =>
  }

  /** Every step of every run is, on its connection, what the transport contract allows: while the
      engine submits no sub-operation twice, a post accepts one the connection does not hold, a
      completion reports what it holds, and nothing else changes what it holds. */
  lemma RefinesContract(u: Setup, s: State, steps: seq<Step>, step: Step)
    requires Init(s) && CanRun(u, s, steps) && Enabled(u, After(u, s, steps), step)
    requires P.Distinct(Do(u, After(u, s, steps), step).conns[step.c].taken)
    ensures Means(u, After(u, s, steps).conns[step.c], Do(u, After(u, s, steps), step).conns[step.c], step)
  {
    StartsClean(u, s);
    RunKeeps(u, s, steps);
    hide Init, CanRun, After, ConnInv, CanStep, StepOf, Means, P.Distinct;
    ConnRefines(u, After(u, s, steps).conns[step.c], After(u, s, steps).ctl, step);
  }
}
