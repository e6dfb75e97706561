/** One RDMA queue pair with the adapter behind it. Only some work requests ask for a
    completion; the adapter works through them in posting order, completes the ones that
    asked, and after a failure completes every further one, failed. A completion retires every
    request posted up to it. Completions reach poll() through a shared queue and a stash, so
    they may be handled out of order. */
module RdmaLine {
  import opened Provider

  datatype Key = Key(request: nat, subId: nat, isWrite: bool, bytes: nat)

  datatype Posted = Posted(seqNo: nat, key: Key)

  datatype QueuePair = QueuePair(posted: nat, reclaimed: nat, sinceSignal: nat, unsignalled: seq<Posted>)

  /** A work request as the adapter was given it. */
  datatype Wr = Wr(key: Key, signalled: bool)

  datatype Cqe = Cqe(seqNo: nat, ok: bool)

  datatype Report = Report(key: Key, ok: bool)

  datatype Line = Line(
    q: QueuePair,
    sent: seq<Wr>,          // everything the adapter was given
    results: seq<bool>,     // how it finished those it has finished, in order
    cq: seq<Cqe>,           // completions not handled yet
    reported: seq<Report>)  // what poll() has handed to the engine

  const IDLE := Line(QueuePair(0, 0, 0, []), [], [], [], [])

  function Keys(ps: seq<Posted>): (ks: seq<Key>)
    ensures |ks| == |ps| && forall i :: 0 <= i < |ps| ==> ks[i] == ps[i].key
  {
    seq(|ps|, i requires 0 <= i < |ps| => ps[i].key)
  }

  function WrKeys(ws: seq<Wr>): (ks: seq<Key>)
    ensures |ks| == |ws| && forall i :: 0 <= i < |ws| ==> ks[i] == ws[i].key
  {
    seq(|ws|, i requires 0 <= i < |ws| => ws[i].key)
  }

  function ReportKeys(rs: seq<Report>): (ks: seq<Key>)
    ensures |ks| == |rs| && forall i :: 0 <= i < |rs| ==> ks[i] == rs[i].key
  {
    seq(|rs|, i requires 0 <= i < |rs| => rs[i].key)
  }

  function PostOne(q: QueuePair, w: Wr): QueuePair {
    QueuePair(q.posted + 1, q.reclaimed, if w.signalled then 0 else q.sinceSignal + 1,
              q.unsignalled + [Posted(q.posted, w.key)])
  }

  function PostAll(q: QueuePair, ws: seq<Wr>): QueuePair
    decreases |ws|
  {
    if ws == [] then q else PostOne(PostAll(q, ws[..|ws| - 1]), ws[|ws| - 1])
  }

  /** How many entries a completion for seqNo retires. */
  function RetireCount(ps: seq<Posted>, seqNo: nat): (n: nat)
    ensures n <= |ps|
    ensures forall i :: 0 <= i < n ==> ps[i].seqNo <= seqNo
    ensures n < |ps| ==> ps[n].seqNo > seqNo
  {
    if ps == [] || ps[0].seqNo > seqNo then 0 else 1 + RetireCount(ps[1..], seqNo)
  }

  function Reports(ps: seq<Posted>, ok: bool): (rs: seq<Report>)
    ensures |rs| == |ps| && forall i :: 0 <= i < |ps| ==> rs[i] == Report(ps[i].key, ok)
  {
    seq(|ps|, i requires 0 <= i < |ps| => Report(ps[i].key, ok))
  }

  function Retire(q: QueuePair, c: Cqe): (QueuePair, seq<Report>) {
    var n := RetireCount(q.unsignalled, c.seqNo);
    (q.(unsignalled := q.unsignalled[n..], reclaimed := c.seqNo + 1), Reports(q.unsignalled[..n], c.ok))
  }

  // ---------------- steps ----------------

  datatype Step =
    | Batch(ws: seq<Wr>)  // one submit() posts these, in order
    | Finish(ok: bool)    // the adapter finishes the next request
    | Handle(j: nat)      // poll() handles the j-th waiting completion

  predicate Broken(l: Line) {
    l.results != [] && !l.results[|l.results| - 1]
  }

  /** A submit never plans past the depth of the queue; a queue pair in error stays there. */
  predicate Enabled(depth: nat, l: Line, s: Step) {
    match s
    case Batch(ws) => ws != [] ==> l.q.posted - l.q.reclaimed + |ws| <= depth
    case Finish(ok) => |l.results| < |l.sent| && (ok ==> !Broken(l))
    case Handle(j) => j < |l.cq|
  }

  function Do(depth: nat, l: Line, s: Step): Line
    requires Enabled(depth, l, s)
  {
    match s
    case Batch(ws) => l.(q := PostAll(l.q, ws), sent := l.sent + ws)
    case Finish(ok) =>
      var n := |l.results|;
      l.(results := l.results + [ok], cq := if l.sent[n].signalled || !ok then l.cq + [Cqe(n, ok)] else l.cq)
    case Handle(j) =>
      var (q, rs) := Retire(l.q, l.cq[j]);
      l.(q := q, reported := l.reported + rs, cq := l.cq[..j] + l.cq[j + 1..])
  }

  // ---------------- the invariant ----------------

  ghost predicate Numbered(q: QueuePair) {
    && |q.unsignalled| <= q.posted
    && forall i :: 0 <= i < |q.unsignalled| ==> q.unsignalled[i].seqNo == q.posted - |q.unsignalled| + i
  }

  /** What was reported followed by what waits is what was posted: nothing lost, nothing twice. */
  ghost predicate Ledger(q: QueuePair, reported: seq<Report>, sent: seq<Wr>) {
    q.posted == |sent| && ReportKeys(reported) + Keys(q.unsignalled) == WrKeys(sent)
  }

  /** A tail that asked for its completion and has not been retired has one waiting. */
  ghost predicate TailComes(l: Line) {
    (l.sent != [] && l.sent[|l.sent| - 1].signalled && l.q.unsignalled != [] && |l.results| == |l.sent|) ==>
      exists j :: 0 <= j < |l.cq| && l.cq[j].seqNo == |l.sent| - 1
  }

  /** A success is only ever followed by what was already finished before it. */
  ghost predicate Honest(results: seq<bool>, cq: seq<Cqe>, reported: seq<Report>) {
    && (forall i, j :: 0 <= i < j < |results| && results[j] ==> results[i])
    && (forall j :: 0 <= j < |cq| ==> cq[j].seqNo < |results| && cq[j].ok == results[cq[j].seqNo])
    && |reported| <= |results|
    && (forall i :: 0 <= i < |reported| && reported[i].ok ==> results[i])
  }

  ghost predicate Inv(depth: nat, l: Line) {
    && Numbered(l.q) && Ledger(l.q, l.reported, l.sent) && TailComes(l) && Honest(l.results, l.cq, l.reported)
    && |l.results| <= |l.sent|
    && l.q.reclaimed <= |l.reported|
    && |l.q.unsignalled| <= depth
  }

  lemma {:induction false} PostAllIs(q: QueuePair, ws: seq<Wr>)
    ensures var p := PostAll(q, ws);
            && p.posted == q.posted + |ws| && p.reclaimed == q.reclaimed
            && |p.unsignalled| == |q.unsignalled| + |ws|
            && p.unsignalled[..|q.unsignalled|] == q.unsignalled
            && forall i :: 0 <= i < |ws| ==> p.unsignalled[|q.unsignalled| + i] == Posted(q.posted + i, ws[i].key)
    decreases |ws|
  {
    if ws != [] {
      PostAllIs(q, ws[..|ws| - 1]);
    }
  }

  lemma KeysConcat(a: seq<Posted>, b: seq<Posted>)
    ensures Keys(a + b) == Keys(a) + Keys(b)
  {
  }

  lemma WrKeysConcat(a: seq<Wr>, b: seq<Wr>)
    ensures WrKeys(a + b) == WrKeys(a) + WrKeys(b)
  {
  }

  lemma ReportKeysConcat(a: seq<Report>, b: seq<Report>)
    ensures ReportKeys(a + b) == ReportKeys(a) + ReportKeys(b)
  {
  }

  lemma BatchLedger(q: QueuePair, reported: seq<Report>, sent: seq<Wr>, ws: seq<Wr>)
    requires Numbered(q) && Ledger(q, reported, sent)
    ensures Numbered(PostAll(q, ws)) && Ledger(PostAll(q, ws), reported, sent + ws)
  {
    hide PostAll, Keys, WrKeys, ReportKeys;
    PostAllIs(q, ws);
    var p := PostAll(q, ws);
    var tail := p.unsignalled[|q.unsignalled|..];
    assert p.unsignalled == q.unsignalled + tail;
    KeysConcat(q.unsignalled, tail);
    WrKeysConcat(sent, ws);
    assert Keys(tail) == WrKeys(ws);
    assert ReportKeys(reported) + (Keys(q.unsignalled) + Keys(tail)) ==
           (ReportKeys(reported) + Keys(q.unsignalled)) + Keys(tail);
  }

  lemma BatchKeeps(depth: nat, l: Line, ws: seq<Wr>)
    requires Inv(depth, l) && Enabled(depth, l, Batch(ws))
    ensures Inv(depth, Do(depth, l, Batch(ws)))
  {
    hide Ledger, Honest, Numbered;
    PostAllIs(l.q, ws);
    BatchLedger(l.q, l.reported, l.sent, ws);
    LedgerSize(l.q, l.reported, l.sent);
    if ws == [] {
      assert l.sent + ws == l.sent;
    }
  }

  lemma LedgerSize(q: QueuePair, reported: seq<Report>, sent: seq<Wr>)
    requires Ledger(q, reported, sent)
    ensures |reported| + |q.unsignalled| == |sent| == q.posted
  {
    assert |ReportKeys(reported) + Keys(q.unsignalled)| == |WrKeys(sent)|;
  }

  lemma FinishKeeps(depth: nat, l: Line, ok: bool)
    requires Inv(depth, l) && Enabled(depth, l, Finish(ok))
    ensures Inv(depth, Do(depth, l, Finish(ok)))
  {
    hide Ledger, Numbered;
    var l' := Do(depth, l, Finish(ok));
    if l.sent[|l.results|].signalled {
      assert l'.cq[|l.cq|].seqNo == |l.results|;
    }
  }

  /** With consecutive numbers, a completion retires exactly what was posted up to it and not
      yet reported. */
  lemma RetireCountIs(q: QueuePair, base: nat, seqNo: nat)
    requires Numbered(q) && base == q.posted - |q.unsignalled| && seqNo < q.posted
    ensures RetireCount(q.unsignalled, seqNo) == if seqNo < base then 0 else seqNo + 1 - base
  {
    var n := RetireCount(q.unsignalled, seqNo);
    if 0 < n { assert q.unsignalled[n - 1].seqNo <= seqNo; }
  }

  lemma RetireLedger(q: QueuePair, reported: seq<Report>, sent: seq<Wr>, c: Cqe)
    requires Numbered(q) && Ledger(q, reported, sent)
    ensures var (q', rs) := Retire(q, c);
            Numbered(q') && Ledger(q', reported + rs, sent)
  {
    hide RetireCount, Keys, WrKeys, ReportKeys, Reports;
    var n := RetireCount(q.unsignalled, c.seqNo);
    var (q', rs) := Retire(q, c);
    var a, b := q.unsignalled[..n], q.unsignalled[n..];
    assert q.unsignalled == a + b;
    KeysConcat(a, b);
    ReportKeysConcat(reported, rs);
    assert ReportKeys(rs) == Keys(a);
    assert (ReportKeys(reported) + Keys(a)) + Keys(b) == ReportKeys(reported) + (Keys(a) + Keys(b));
  }

  lemma RetireHonest(results: seq<bool>, cq: seq<Cqe>, reported: seq<Report>, j: nat, rs: seq<Report>)
    requires Honest(results, cq, reported) && j < |cq|
    requires |reported| + |rs| <= if rs == [] then |reported| else cq[j].seqNo + 1
    requires forall i :: 0 <= i < |rs| ==> rs[i].ok == cq[j].ok
    ensures Honest(results, cq[..j] + cq[j + 1..], reported + rs)
  {
  }

  lemma HandleKeeps(depth: nat, l: Line, j: nat)
    requires Inv(depth, l) && j < |l.cq|
    ensures Inv(depth, Do(depth, l, Handle(j)))
  {
    var c := l.cq[j];
    var (q, rs) := Retire(l.q, c);
    LedgerSize(l.q, l.reported, l.sent);
    RetireCountIs(l.q, |l.reported|, c.seqNo);
    RetireLedger(l.q, l.reported, l.sent, c);
    RetireHonest(l.results, l.cq, l.reported, j, rs);
    HandleTail(depth, l, j);
    hide Ledger, Numbered, Honest, RetireCount, TailComes;
  }

  lemma HandleTail(depth: nat, l: Line, j: nat)
    requires Inv(depth, l) && j < |l.cq|
    ensures TailComes(Do(depth, l, Handle(j)))
  {
    LedgerSize(l.q, l.reported, l.sent);
    RetireCountIs(l.q, |l.reported|, l.cq[j].seqNo);
    hide Ledger, Numbered, Honest, RetireCount, Reports;
    var l' := Do(depth, l, Handle(j));
    if l'.q.unsignalled != [] {
      if i :| 0 <= i < |l.cq| && l.cq[i].seqNo == |l.sent| - 1 {
        assert i != j;
        assert l'.cq[if i < j then i else i - 1] == l.cq[i];
      }
    }
  }

  lemma StepKeeps(depth: nat, l: Line, s: Step)
    requires Inv(depth, l) && Enabled(depth, l, s)
    ensures Inv(depth, Do(depth, l, s))
  {
    match s
    case Batch(ws) => BatchKeeps(depth, l, ws);
    case Finish(ok) => FinishKeeps(depth, l, ok);
    case Handle(j) => HandleKeeps(depth, l, j);
  }

  // ---------------- every run ----------------

  ghost predicate CanRun(depth: nat, l: Line, steps: seq<Step>)
    decreases |steps|
  {
    steps == [] || (Enabled(depth, l, steps[0]) && CanRun(depth, Do(depth, l, steps[0]), steps[1..]))
  }

  ghost function After(depth: nat, l: Line, steps: seq<Step>): Line
    requires CanRun(depth, l, steps)
    decreases |steps|
  {
    if steps == [] then l else After(depth, Do(depth, l, steps[0]), steps[1..])
  }

  lemma {:induction false} RunKeeps(depth: nat, l: Line, steps: seq<Step>)
    requires Inv(depth, l) && CanRun(depth, l, steps)
    ensures Inv(depth, After(depth, l, steps))
    decreases |steps|
  {
    hide Inv, Enabled, Do;
    if steps != [] {
      StepKeeps(depth, l, steps[0]);
      RunKeeps(depth, Do(depth, l, steps[0]), steps[1..]);
    }
  }

  /** Whatever the order completions are handled in: the reports are the posted requests, each
      once and in order, none before the adapter finished it, none reported good that was not,
      and the adapter never holds more than the depth of the queue. */
  lemma ReportedExactlyOnce(depth: nat, steps: seq<Step>)
    requires CanRun(depth, IDLE, steps)
    ensures var l := After(depth, IDLE, steps);
            && ReportKeys(l.reported) + Keys(l.q.unsignalled) == WrKeys(l.sent)
            && |l.reported| <= |l.results|
            && (forall i :: 0 <= i < |l.reported| && l.reported[i].ok ==> l.results[i])
            && |l.sent| - |l.reported| <= depth
  {
    RunKeeps(depth, IDLE, steps);
    LedgerSize(After(depth, IDLE, steps).q, After(depth, IDLE, steps).reported, After(depth, IDLE, steps).sent);
  }

  predicate Anchored(l: Line) {
    l.sent != [] ==> l.sent[|l.sent| - 1].signalled
  }

  /** Completions come from requests that asked for one or failed, so reporting stops at such a
      request. */
  ghost predicate Asked(sent: seq<Wr>, cq: seq<Cqe>, reported: seq<Report>) {
    && |reported| <= |sent|
    && (forall j :: 0 <= j < |cq| ==> cq[j].seqNo < |sent| && (sent[cq[j].seqNo].signalled || !cq[j].ok))
    && (reported != [] ==> sent[|reported| - 1].signalled || !reported[|reported| - 1].ok)
  }

  lemma AskedStep(depth: nat, l: Line, s: Step)
    requires Inv(depth, l) && Enabled(depth, l, s) && Asked(l.sent, l.cq, l.reported)
    ensures var l' := Do(depth, l, s); Asked(l'.sent, l'.cq, l'.reported)
  {
    match s
    case Batch(ws) => AskedBatch(l.sent, ws, l.cq, l.reported);
    case Finish(_) => AskedFinish(depth, l, s);
    case Handle(j) => AskedHandle(depth, l, j);
  }

  lemma AskedBatch(sent: seq<Wr>, ws: seq<Wr>, cq: seq<Cqe>, reported: seq<Report>)
    requires Asked(sent, cq, reported)
    ensures Asked(sent + ws, cq, reported)
  {
  }

  lemma AskedFinish(depth: nat, l: Line, s: Step)
    requires Enabled(depth, l, s) && s.Finish? && Asked(l.sent, l.cq, l.reported)
    ensures var l' := Do(depth, l, s); Asked(l'.sent, l'.cq, l'.reported)
  {
  }

  lemma AskedHandle(depth: nat, l: Line, j: nat)
    requires Inv(depth, l) && j < |l.cq| && Asked(l.sent, l.cq, l.reported)
    ensures var l' := Do(depth, l, Handle(j)); Asked(l'.sent, l'.cq, l'.reported)
  {
    LedgerSize(l.q, l.reported, l.sent);
    RetireCountIs(l.q, |l.reported|, l.cq[j].seqNo);
    var (q, rs) := Retire(l.q, l.cq[j]);
    assert rs != [] ==> rs[|rs| - 1].ok == l.cq[j].ok && |l.reported| + |rs| == l.cq[j].seqNo + 1;
    hide Inv, RetireCount, Reports, Retire;
    AskedMore(l.sent, l.cq, l.reported, j, rs);
  }

  lemma AskedMore(sent: seq<Wr>, cq: seq<Cqe>, reported: seq<Report>, j: nat, rs: seq<Report>)
    requires Asked(sent, cq, reported) && j < |cq|
    requires rs != [] ==> rs[|rs| - 1].ok == cq[j].ok && |reported| + |rs| == cq[j].seqNo + 1
    ensures Asked(sent, cq[..j] + cq[j + 1..], reported + rs)
  {
    assert rs != [] ==> (reported + rs)[|reported + rs| - 1] == rs[|rs| - 1];
    assert rs == [] ==> reported + rs == reported;
  }

  lemma {:induction false} RunAsked(depth: nat, l: Line, steps: seq<Step>)
    requires Inv(depth, l) && CanRun(depth, l, steps) && Asked(l.sent, l.cq, l.reported)
    ensures var e := After(depth, l, steps); Inv(depth, e) && Asked(e.sent, e.cq, e.reported)
    decreases |steps|
  {
    hide Inv, Asked, Enabled, Do;
    if steps != [] {
      StepKeeps(depth, l, steps[0]);
      AskedStep(depth, l, steps[0]);
      RunAsked(depth, Do(depth, l, steps[0]), steps[1..]);
    }
  }

  /** When the adapter is through without an error and every completion is handled, everything was
      reported exactly if the last request posted asked for its completion. */
  lemma StrandedIffUnsignalledTail(depth: nat, steps: seq<Step>)
    requires CanRun(depth, IDLE, steps)
    requires var l := After(depth, IDLE, steps);
             |l.results| == |l.sent| && l.cq == [] && forall i :: 0 <= i < |l.results| ==> l.results[i]
    ensures var l := After(depth, IDLE, steps); ReportKeys(l.reported) == WrKeys(l.sent) <==> Anchored(l)
  {
    var l := After(depth, IDLE, steps);
    RunAsked(depth, IDLE, steps);
    LedgerSize(l.q, l.reported, l.sent);
    if ReportKeys(l.reported) == WrKeys(l.sent) {
      assert |l.reported| == |l.sent|;
      AllOk(depth, steps);
    } else {
      assert ReportKeys(l.reported) + [] == ReportKeys(l.reported) && Keys([]) == [];
    }
  }

  /** A failure reported was a failure of the adapter. */
  ghost predicate FailuresReal(results: seq<bool>, cq: seq<Cqe>, reported: seq<Report>) {
    (forall i :: 0 <= i < |results| ==> results[i]) ==>
      && (forall j :: 0 <= j < |cq| ==> cq[j].ok)
      && forall i :: 0 <= i < |reported| ==> reported[i].ok
  }

  lemma FailuresStep(depth: nat, l: Line, s: Step)
    requires Enabled(depth, l, s) && FailuresReal(l.results, l.cq, l.reported)
    ensures var l' := Do(depth, l, s); FailuresReal(l'.results, l'.cq, l'.reported)
  {
    if s.Finish? {
      var l' := Do(depth, l, s);
      assert l'.results[..|l.results|] == l.results && l'.results[|l.results|] == s.ok;
      if forall i :: 0 <= i < |l'.results| ==> l'.results[i] {
        forall i | 0 <= i < |l.results| ensures l.results[i] {
          assert l'.results[i] == l.results[i];
        }
      }
    }
  }

  lemma {:induction false} RunFailures(depth: nat, l: Line, steps: seq<Step>)
    requires CanRun(depth, l, steps) && FailuresReal(l.results, l.cq, l.reported)
    ensures var e := After(depth, l, steps); FailuresReal(e.results, e.cq, e.reported)
    decreases |steps|
  {
    hide FailuresReal, Enabled, Do;
    if steps != [] {
      FailuresStep(depth, l, steps[0]);
      RunFailures(depth, Do(depth, l, steps[0]), steps[1..]);
    }
  }

  lemma AllOk(depth: nat, steps: seq<Step>)
    requires CanRun(depth, IDLE, steps)
    requires var l := After(depth, IDLE, steps); forall i :: 0 <= i < |l.results| ==> l.results[i]
    ensures var l := After(depth, IDLE, steps); forall i :: 0 <= i < |l.reported| ==> l.reported[i].ok
  {
    RunFailures(depth, IDLE, steps);
  }

  // ---------------- how far reporting gets ----------------

  /** One past the last request of which a completion was handled; zero before the first. */
  ghost function Highest(depth: nat, l: Line, steps: seq<Step>): nat
    requires CanRun(depth, l, steps)
    decreases |steps|
  {
    if steps == [] then 0
    else
      var rest := Highest(depth, Do(depth, l, steps[0]), steps[1..]);
      if steps[0].Handle? && rest <= l.cq[steps[0].j].seqNo then l.cq[steps[0].j].seqNo + 1 else rest
  }

  lemma ReportsMove(depth: nat, l: Line, s: Step)
    requires Inv(depth, l) && Enabled(depth, l, s)
    ensures |Do(depth, l, s).reported| ==
            if s.Handle? && |l.reported| <= l.cq[s.j].seqNo then l.cq[s.j].seqNo + 1 else |l.reported|
  {
    if s.Handle? {
      LedgerSize(l.q, l.reported, l.sent);
      RetireCountIs(l.q, |l.reported|, l.cq[s.j].seqNo);
    }
    hide Ledger, TailComes, Numbered, RetireCount, PostAll;
  }

  lemma {:induction false} RunReports(depth: nat, l: Line, steps: seq<Step>)
    requires Inv(depth, l) && CanRun(depth, l, steps)
    ensures var top := Highest(depth, l, steps);
            |After(depth, l, steps).reported| == if top < |l.reported| then |l.reported| else top
    decreases |steps|
  {
    if steps != [] {
      StepKeeps(depth, l, steps[0]);
      ReportsMove(depth, l, steps[0]);
      hide Inv, Do;
      RunReports(depth, Do(depth, l, steps[0]), steps[1..]);
    }
  }

  /** What is reported is everything up to the last request of which a completion was handled, in
      whatever order they were: so one without a completion of its own is reported by the first
      completion of a later one, and not before. */
  lemma ReportedUpToTheHighest(depth: nat, steps: seq<Step>)
    requires CanRun(depth, IDLE, steps)
    ensures var l, top := After(depth, IDLE, steps), Highest(depth, IDLE, steps);
            top <= |l.sent| && ReportKeys(l.reported) == WrKeys(l.sent)[..top]
  {
    RunReports(depth, IDLE, steps);
    RunKeeps(depth, IDLE, steps);
    ReportedInOrder(depth, After(depth, IDLE, steps));
  }

  lemma ReportedInOrder(depth: nat, l: Line)
    requires Inv(depth, l)
    ensures |l.reported| <= |l.sent| && ReportKeys(l.reported) == WrKeys(l.sent)[..|l.reported|]
  {
    hide ReportKeys, Keys, WrKeys;
    LedgerSize(l.q, l.reported, l.sent);
    assert ReportKeys(l.reported) == (ReportKeys(l.reported) + Keys(l.q.unsignalled))[..|l.reported|];
  }

  /** The adapter is through and no completion waits. */
  predicate Quiet(l: Line) {
    |l.results| == |l.sent| && l.cq == []
  }

  /** The first completion of what it is given next reports all that waited. */
  lemma NextCompletionReports(depth: nat, l: Line, w: Wr, ok: bool)
    requires Inv(depth, l) && Quiet(l) && l.q.posted - l.q.reclaimed < depth
    requires (w.signalled || !ok) && (ok ==> !Broken(l))
    ensures var steps := [Batch([w]), Finish(ok), Handle(0)];
            && CanRun(depth, l, steps)
            && After(depth, l, steps).sent == l.sent + [w]
            && ReportKeys(After(depth, l, steps).reported) == WrKeys(l.sent + [w])
  {
    hide Inv, Do, Enabled, Quiet, CanRun, After, ReportKeys, WrKeys, Broken;
    PostedAndFinished(depth, l, w, ok);
    HandledAll(depth, Do(depth, Do(depth, l, Batch([w])), Finish(ok)), ok);
    ThreeSteps(depth, l, w, ok);
  }

  lemma HandledAll(depth: nat, l: Line, ok: bool)
    requires Inv(depth, l) && l.sent != [] && l.cq == [Cqe(|l.sent| - 1, ok)]
    ensures Enabled(depth, l, Handle(0))
    ensures var e := Do(depth, l, Handle(0)); e.sent == l.sent && ReportKeys(e.reported) == WrKeys(l.sent)
  {
    LedgerSize(l.q, l.reported, l.sent);
    ReportsMove(depth, l, Handle(0));
    HandleKeeps(depth, l, 0);
    var e := Do(depth, l, Handle(0));
    assert e.sent == l.sent && |l.reported| <= |l.sent|;
    hide Inv, Do, Enabled, ReportKeys, WrKeys;
    ReportedInOrder(depth, e);
    WholeIs(WrKeys(l.sent), |e.reported|);
  }

  lemma WholeIs(ks: seq<Key>, n: nat)
    requires n == |ks|
    ensures ks[..n] == ks
  {
  }

  lemma PostedAndFinished(depth: nat, l: Line, w: Wr, ok: bool)
    requires Inv(depth, l) && Quiet(l) && l.q.posted - l.q.reclaimed < depth
    requires (w.signalled || !ok) && (ok ==> !Broken(l))
    ensures Enabled(depth, l, Batch([w])) && Enabled(depth, Do(depth, l, Batch([w])), Finish(ok))
    ensures var b := Do(depth, Do(depth, l, Batch([w])), Finish(ok));
            && Inv(depth, b) && b.cq == [Cqe(|l.sent|, ok)] && b.sent == l.sent + [w]
            && |b.reported| <= |l.sent|
  {
    BatchKeeps(depth, l, [w]);
    LedgerSize(l.q, l.reported, l.sent);
    hide PostAll, Ledger, Numbered, TailComes, Honest;
    FinishKeeps(depth, Do(depth, l, Batch([w])), ok);
  }

  lemma ThreeSteps(depth: nat, l: Line, w: Wr, ok: bool)
    requires Enabled(depth, l, Batch([w]))
    requires Enabled(depth, Do(depth, l, Batch([w])), Finish(ok))
    requires Enabled(depth, Do(depth, Do(depth, l, Batch([w])), Finish(ok)), Handle(0))
    ensures var steps := [Batch([w]), Finish(ok), Handle(0)];
            && CanRun(depth, l, steps)
            && After(depth, l, steps) == Do(depth, Do(depth, Do(depth, l, Batch([w])), Finish(ok)), Handle(0))
  {
    hide Do, Enabled;
    RunExtends(depth, l, [], Batch([w]));
    assert [] + [Batch([w])] == [Batch([w])];
    RunExtends(depth, l, [Batch([w])], Finish(ok));
    assert [Batch([w])] + [Finish(ok)] == [Batch([w]), Finish(ok)];
    RunExtends(depth, l, [Batch([w]), Finish(ok)], Handle(0));
    assert [Batch([w]), Finish(ok)] + [Handle(0)] == [Batch([w]), Finish(ok), Handle(0)];
  }

  // ---------------- handled in order ----------------

  ghost predicate InOrder(steps: seq<Step>) {
    forall i :: 0 <= i < |steps| && steps[i].Handle? ==> steps[i].j == 0
  }

  /** With the oldest completion always handled first, the counter of reclaimed entries is exact. */
  ghost predicate Exact(l: Line) {
    && l.q.reclaimed == |l.reported|
    && (forall j :: 0 <= j < |l.cq| ==> l.cq[j].seqNo >= |l.reported|)
    && (forall i, j :: 0 <= i < j < |l.cq| ==> l.cq[i].seqNo < l.cq[j].seqNo)
  }

  lemma InOrderStep(depth: nat, l: Line, s: Step)
    requires Inv(depth, l) && Enabled(depth, l, s) && Exact(l) && (s.Handle? ==> s.j == 0)
    ensures Exact(Do(depth, l, s))
  {
    hide Do, Exact, Inv, Enabled;
    match s
    case Batch(ws) => InOrderBatch(depth, l, ws);
    case Finish(ok) => InOrderFinish(depth, l, ok);
    case Handle(j) => InOrderHandle(depth, l);
  }

  lemma InOrderBatch(depth: nat, l: Line, ws: seq<Wr>)
    requires Enabled(depth, l, Batch(ws)) && Exact(l)
    ensures Exact(Do(depth, l, Batch(ws)))
  {
    PostAllIs(l.q, ws);
    hide PostAll;
  }

  lemma InOrderFinish(depth: nat, l: Line, ok: bool)
    requires Inv(depth, l) && Enabled(depth, l, Finish(ok)) && Exact(l)
    ensures Exact(Do(depth, l, Finish(ok)))
  {
    hide Ledger, TailComes, Numbered;
  }

  lemma InOrderHandle(depth: nat, l: Line)
    requires Inv(depth, l) && Enabled(depth, l, Handle(0)) && Exact(l)
    ensures Exact(Do(depth, l, Handle(0)))
  {
    LedgerSize(l.q, l.reported, l.sent);
    RetireCountIs(l.q, |l.reported|, l.cq[0].seqNo);
    hide Ledger, TailComes, Numbered, RetireCount, Inv, Reports;
    var l' := Do(depth, l, Handle(0));
    assert l'.cq == l.cq[1..];
    assert |l'.reported| == l.cq[0].seqNo + 1;
  }

  /** Handling a completion leaves the counter exact exactly when no later request has been reported
      before it; otherwise the counter falls behind, and never runs ahead. */
  lemma ExactIffNotStale(depth: nat, l: Line, j: nat)
    requires Inv(depth, l) && j < |l.cq|
    ensures var l' := Do(depth, l, Handle(j)); l'.q.reclaimed == |l'.reported| <==> l.cq[j].seqNo + 1 >= |l.reported|
    ensures var l' := Do(depth, l, Handle(j)); l'.q.reclaimed <= |l'.reported|
  {
    LedgerSize(l.q, l.reported, l.sent);
    RetireCountIs(l.q, |l.reported|, l.cq[j].seqNo);
    hide Ledger, TailComes, Numbered, RetireCount, Reports;
  }

  lemma {:induction false} RunExact(depth: nat, l: Line, steps: seq<Step>)
    requires Inv(depth, l) && Exact(l) && CanRun(depth, l, steps) && InOrder(steps)
    ensures Inv(depth, After(depth, l, steps)) && Exact(After(depth, l, steps))
    decreases |steps|
  {
    hide Inv, Exact, Enabled, Do;
    if steps != [] {
      StepKeeps(depth, l, steps[0]);
      InOrderStep(depth, l, steps[0]);
      RunExact(depth, Do(depth, l, steps[0]), steps[1..]);
    }
  }

  /** Handled in order, posted - reclaimed is what the adapter holds and never passes the depth. */
  lemma CapacityIsExact(depth: nat, steps: seq<Step>)
    requires CanRun(depth, IDLE, steps) && InOrder(steps)
    ensures var l := After(depth, IDLE, steps);
            l.q.posted - l.q.reclaimed == |l.q.unsignalled| <= depth
  {
    RunExact(depth, IDLE, steps);
    var l := After(depth, IDLE, steps);
    LedgerSize(l.q, l.reported, l.sent);
  }

  // ---------------- runs that show the limits ----------------

  ghost predicate Reachable(depth: nat, l: Line) {
    exists steps :: CanRun(depth, IDLE, steps) && After(depth, IDLE, steps) == l
  }

  lemma {:induction false} RunExtends(depth: nat, l: Line, steps: seq<Step>, s: Step)
    requires CanRun(depth, l, steps) && Enabled(depth, After(depth, l, steps), s)
    ensures CanRun(depth, l, steps + [s]) && After(depth, l, steps + [s]) == Do(depth, After(depth, l, steps), s)
    decreases |steps|
  {
    hide Enabled, Do;
    if steps == [] {
      assert [] + [s] == [s];
    } else {
      RunExtends(depth, Do(depth, l, steps[0]), steps[1..], s);
      assert (steps + [s])[1..] == steps[1..] + [s];
    }
  }

  lemma ReachableStep(depth: nat, l: Line, s: Step)
    requires Reachable(depth, l) && Enabled(depth, l, s)
    ensures Reachable(depth, Do(depth, l, s))
  {
    hide Enabled, Do;
    var steps :| CanRun(depth, IDLE, steps) && After(depth, IDLE, steps) == l;
    RunExtends(depth, IDLE, steps, s);
  }

  lemma IdleIsReachable(depth: nat)
    ensures Reachable(depth, IDLE)
  {
    assert CanRun(depth, IDLE, []) && After(depth, IDLE, []) == IDLE;
  }

  /** Two requests, both signalled as a signal period of one makes it, of which poll() has handled
      only the later completion, and so reported both. */
  lemma LaterHandledFirst(k: Key, k': Key)
    ensures Reachable(2, Line(QueuePair(2, 2, 0, []), [Wr(k, true), Wr(k', true)], [true, true], [Cqe(0, true)],
                              [Report(k, true), Report(k', true)]))
  {
    IdleIsReachable(2);
    hide Reachable;
    var w := [Wr(k, true), Wr(k', true)];
    ReachableStep(2, IDLE, Batch(w));
    var l1 := Do(2, IDLE, Batch(w));
    PostAllIs(IDLE.q, w);
    assert l1.q.unsignalled == [Posted(0, k), Posted(1, k')];
    assert l1.q.sinceSignal == 0;
    hide PostAll;
    ReachableStep(2, l1, Finish(true));
    var l2 := Do(2, l1, Finish(true));
    ReachableStep(2, l2, Finish(true));
    var l3 := Do(2, l2, Finish(true));
    assert l3.cq == [Cqe(0, true), Cqe(1, true)] && l3.results == [true, true];
    ReachableStep(2, l3, Handle(1));
    RetireCountIs(l3.q, 0, 1);
    hide RetireCount;
    var l4 := Do(2, l3, Handle(1));
    assert l4.q.unsignalled == [] && l4.cq == [Cqe(0, true)] && l4.reported == [Report(k, true), Report(k', true)];
  }

  /** Out of order the counter is not exact: an older completion handled last takes it back. */
  lemma StaleCompletionRewinds(k: Key, k': Key)
    requires k != k'
    ensures exists l :: Reachable(2, l) && l.sent == [Wr(k, true), Wr(k', true)]
                        && l.q.unsignalled == [] && l.q.posted - l.q.reclaimed == 1
  {
    LaterHandledFirst(k, k');
    hide Reachable;
    var l := Line(QueuePair(2, 2, 0, []), [Wr(k, true), Wr(k', true)], [true, true], [Cqe(0, true)],
                  [Report(k, true), Report(k', true)]);
    ReachableStep(2, l, Handle(0));
    var l' := Do(2, l, Handle(0));
    assert l'.q.reclaimed == 1 && l'.q.unsignalled == [];
  }

  /** And it can take posted - reclaimed past the depth of the queue, though the adapter never holds
      that much: two requests, the first one's completion left waiting, two more, and then that one. */
  lemma StaleCompletionPassesTheDepth(a: Key, b: Key, c: Key, d: Key)
    requires Distinct([a, b, c, d])
    ensures exists l :: Reachable(2, l) && WrKeys(l.sent) == [a, b, c, d]
                        && |l.q.unsignalled| == 2 && l.q.posted - l.q.reclaimed == 3
  {
    LaterHandledFirst(a, b);
    hide Reachable;
    var l := Line(QueuePair(2, 2, 0, []), [Wr(a, true), Wr(b, true)], [true, true], [Cqe(0, true)],
                  [Report(a, true), Report(b, true)]);
    var more := [Wr(c, true), Wr(d, true)];
    ReachableStep(2, l, Batch(more));
    PostAllIs(l.q, more);
    var l1 := Do(2, l, Batch(more));
    hide PostAll;
    ReachableStep(2, l1, Handle(0));
    RetireCountIs(l1.q, 2, 0);
    hide RetireCount;
    var l2 := Do(2, l1, Handle(0));
    assert l2.q.reclaimed == 1 && l2.q.posted == 4;
    assert WrKeys(l2.sent) == [a, b, c, d];
  }
}
