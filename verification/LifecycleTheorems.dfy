/** What holds of every request in every run, from the moment it enters inflight_. */
module LifecycleTheorems {
  import opened Status
  import opened Request
  import opened Provider
  import opened Lifecycle
  import opened LifecycleInvariant

  ghost predicate CanRun(l: Life, steps: seq<Step>)
    decreases |steps|
  {
    steps == [] || (Enabled(l, steps[0]) && CanRun(Do(l, steps[0]), steps[1..]))
  }

  ghost function After(l: Life, steps: seq<Step>): Life
    requires CanRun(l, steps)
    decreases |steps|
  {
    if steps == [] then l else After(Do(l, steps[0]), steps[1..])
  }

  /** A state some run from the admission of some request leads to. */
  ghost predicate Reachable(l: Life) {
    exists laneOf: seq<nat>, up: seq<bool>, steps: seq<Step> ::
      && WellPlanned(laneOf, |up|)
      && CanRun(Admit(laneOf, up), steps)
      && After(Admit(laneOf, up), steps) == l
  }

  lemma AdmitPieces(laneOf: seq<nat>, up: seq<bool>)
    requires WellPlanned(laneOf, |up|)
    ensures var l := Admit(laneOf, up);
            && PiecesInv(laneOf, l.pieces, {}, {}, false)
            && WorkInv(laneOf, l.pieces, {}, false)
            && |l.pieces| == |up| > 0
  {
    var l := Admit(laneOf, up);
    assert 0 <= laneOf[0] < |l.pieces|;
    forall k | 0 <= k < |l.pieces|
      ensures PieceInv(l.pieces[k], Lane(laneOf, k), {}, {}, false)
    {
      assert Used(laneOf, k);
      var i :| 0 <= i < |laneOf| && laneOf[i] == k;
      assert i in Lane(laneOf, k);
    }
  }

  lemma AdmitFlow(n: nat, ps: seq<Piece>)
    requires n > 0 && |ps| > 0 && forall k :: 0 <= k < |ps| ==> ps[k].pc.NotReady?
    ensures var f := Flow(Link({}), map[], {}, {}, {}, {});
            && PartsInv(0, ps, Admitted) && FlowInv(n, f, true) && CountersInv(NewReq(n), f)
            && SealInv(n, f, ps, NewReq(n)) && ProgressInv(n, f, ps, NewReq(n))
  {
    assert ps[0].pc.NotReady?;
    assert 0 in Upto(n);
  }

  lemma AdmitInv(laneOf: seq<nat>, up: seq<bool>)
    requires WellPlanned(laneOf, |up|)
    ensures Inv(Admit(laneOf, up))
  {
    hide PiecesInv, WorkInv, PartsInv, FlowInv, CountersInv, SealInv, ProgressInv;
    AdmitPieces(laneOf, up);
    AdmitFlow(|laneOf|, Admit(laneOf, up).pieces);
  }

  lemma {:induction false} RunKeepsInv(l: Life, steps: seq<Step>)
    requires Inv(l) && CanRun(l, steps)
    ensures Inv(After(l, steps))
    decreases |steps|
  {
    hide Inv;
    if steps != [] {
      StepKeepsInv(l, steps[0]);
      RunKeepsInv(Do(l, steps[0]), steps[1..]);
    }
  }

  lemma ReachableInv(l: Life)
    requires Reachable(l)
    ensures Inv(l)
  {
    hide Inv;
    var laneOf: seq<nat>, up: seq<bool>, steps: seq<Step> :|
      && WellPlanned(laneOf, |up|)
      && CanRun(Admit(laneOf, up), steps)
      && After(Admit(laneOf, up), steps) == l;
    AdmitInv(laneOf, up);
    RunKeepsInv(Admit(laneOf, up), steps);
  }

  /** Claimed out of inflight_ at most once, ended at most once and only by the claimer,
      published at most once and only after it ended. */
  lemma EndsOnce(l: Life)
    requires Reachable(l)
    ensures l.fate.claims <= 1 && l.fate.endings <= l.fate.claims && l.fate.published <= l.fate.endings
    ensures l.fate.claims == 0 <==> InFlight(l.fate)
    ensures l.fate.endings == 1 <==> Terminal(l.req)
    ensures l.fate.ender.Ended? ==> l.fate.published == 1
  {
    ReachableInv(l);
  }

  lemma StepGrows(l: Life, s: Step)
    requires Enabled(l, s)
    ensures Grows(l.req, Do(l, s).req)
  {
    hide Do, Enabled, Grows;
    if s.CountCompletion? || s.Finish? || s.CallCancel? || s.NoteBroken? || s.DependencyFailed? || s.Seal? {
      EventGrows(l, s);
    } else {
      OtherGrows(l, s);
    }
  }

  lemma EventGrows(l: Life, s: Step)
    requires Enabled(l, s)
    requires s.CountCompletion? || s.Finish? || s.CallCancel? || s.NoteBroken? || s.DependencyFailed? || s.Seal?
    ensures Grows(l.req, Do(l, s).req)
  {
  }

  lemma OtherGrows(l: Life, s: Step)
    requires Enabled(l, s)
    requires !(s.CountCompletion? || s.Finish? || s.CallCancel? || s.NoteBroken? || s.DependencyFailed? || s.Seal?)
    ensures Grows(l.req, Do(l, s).req)
  {
  }

  lemma {:induction false} RunGrows(l: Life, steps: seq<Step>)
    requires CanRun(l, steps)
    ensures Grows(l.req, After(l, steps).req)
    decreases |steps|
  {
    hide Enabled, Do;
    if steps != [] {
      StepGrows(l, steps[0]);
      RunGrows(Do(l, steps[0]), steps[1..]);
    }
  }

  /** A terminal state is never left, and what wait() answers never changes after it. */
  lemma EndingIsFinal(l: Life, steps: seq<Step>)
    requires Terminal(l.req) && CanRun(l, steps)
    ensures After(l, steps).req.state == l.req.state
    ensures Outcome(After(l, steps).req) == Outcome(l.req)
  {
    RunGrows(l, steps);
  }

  /** Some sub-operation of the request is, or can yet be put, on a live connection. */
  ghost predicate MayMoveBytes(l: Life) {
    || (exists i :: 0 <= i < |l.laneOf| && l.laneOf[i] < |l.up| && l.up[l.laneOf[i]] && i in l.flow.link.outstanding)
    || (exists k, i :: 0 <= k < |l.up| && l.up[k] && Enabled(l, TransportAccepts(k, i)))
  }

  lemma EndedIsStill(l: Life)
    requires Inv(l)
    requires FailedSafe in l.req.stages || CancelledSafe in l.req.stages || SourceReusable in l.req.stages
    ensures !MayMoveBytes(l)
  {
    TerminalWasClaimed(l.fate, l.req);
    ClaimedIsStill(l);
  }

  /** Whoever takes a request out of inflight_ leaves nothing of it on a live connection. */
  lemma ClaimedIsStill(l: Life)
    requires Inv(l) && !InFlight(l.fate)
    ensures !MayMoveBytes(l)
  {
    hide FlowInv, ReasonInv, FateInv, CountersInv, PartsInv, WorkInv, CreditInv;
    forall k, i | 0 <= k < |l.up| && Enabled(l, TransportAccepts(k, i)) ensures !l.up[k] {
      PieceFacts(l, k);
      assert i in Lane(l.laneOf, k);
    }
  }

  /** FailedSafe, CancelledSafe and SourceReusable are true when they are set and stay true: from
      then on, whatever still runs, no transport moves a byte for the request. */
  lemma SafeMeansStill(l: Life, steps: seq<Step>)
    requires Reachable(l) && CanRun(l, steps)
    requires FailedSafe in l.req.stages || CancelledSafe in l.req.stages || SourceReusable in l.req.stages
    ensures !MayMoveBytes(After(l, steps))
  {
    ReachableInv(l);
    RunKeepsInv(l, steps);
    RunGrows(l, steps);
    EndedIsStill(After(l, steps));
  }

  /** Success means every sub-operation was accepted, each completed kOk, and no error was recorded. */
  lemma SuccessMeansAllLanded(l: Life)
    requires Reachable(l) && l.req.state.Succeeded?
    ensures l.flow.posted == l.flow.landed == Ids(l)
    ensures Outcome(l.req) == Ok
  {
    ReachableInv(l);
  }

  /** wait() answers kOk exactly for success, and a failure always has a reason to give. */
  lemma OutcomeTellsTheEnding(l: Life)
    requires Reachable(l) && Terminal(l.req)
    ensures Outcome(l.req) == Ok <==> l.req.state.Succeeded?
    ensures l.req.state.Failed? ==> !l.req.error.IsOk() && Outcome(l.req) == l.req.error.status
  {
    ReachableInv(l);
  }

  /** A step of the threads working on the request, as opposed to a caller cancelling it, a
      connection going away or a dependency being looked at again. */
  predicate Working(s: Step) {
    !(s.CallCancel? || s.Disconnect? || s.ReaperClaims? || s.WaitForDependency? || s.DependencyFailed?
      || s.TransportReports?)
  }

  /** No request is stuck: until it is published, some thread has a step to take or the
      transport still owes a completion. */
  lemma NeverStuck(l: Life)
    requires Reachable(l) && !l.fate.ender.Ended?
    ensures l.flow.link.outstanding != {} || exists s :: Working(s) && Enabled(l, s)
  {
    ReachableInv(l);
    hide Reachable, Inv, Enabled, Working;
    HasStep(l);
  }

  lemma HasStep(l: Life)
    requires Inv(l) && !l.fate.ender.Ended?
    ensures l.flow.link.outstanding != {} || exists s :: Working(s) && Enabled(l, s)
  {
    if !InFlight(l.fate) {
      EnderHasStep(l);
    } else if k :| 0 <= k < |l.pieces| && !l.pieces[k].pc.Done? {
      PieceHasStep(l, k);
    } else if i :| i in l.flow.events {
      var s :=
        match l.flow.events[i]
        case Arrived(_) => LookUp(i)
        case Found(_) => CountCompletion(i)
        case WasLast => EventClaims(i);
      assert Working(s) && Enabled(l, s);
    } else {
      assert PartsDecided(l.pieces);
      assert l.flow.events.Keys == {};
      assert l.flow.posted == l.flow.link.outstanding + l.flow.counted;
    }
  }

  lemma EnderHasStep(l: Life)
    requires !InFlight(l.fate) && !l.fate.ender.Ended?
    ensures exists s :: Working(s) && Enabled(l, s)
  {
    var e := ErrorInfo(TransportError, 0, false);
    var s := match l.fate.ender
      case AfterPiece => TestCancelled
      case AfterCompletion => TestCancelled
      case AfterCancelTest => TestError
      case AfterReap => ReaperSeals
      case Marking => MarkComplete
      case Counting(_) => CountEnding
      case Finalizing(_) => Finish(e)
      case Publishing(_) => Publish;
    assert Working(s) && Enabled(l, s);
  }

  lemma PieceHasStep(l: Life, k: nat)
    requires k < |l.pieces| && !l.pieces[k].pc.Done?
    requires l.pieces[k].pc.NotReady? ==> !l.submission.PartsSet?
    ensures exists s :: Working(s) && Enabled(l, s)
  {
    var e := ErrorInfo(TransportError, 0, false);
    var s := match l.pieces[k].pc
      case NotReady => if l.submission.Admitted? then CountIn else CountParts
      case Idle => CheckAbandoned(k)
      case Checked => StartPosting(k)
      case Posting => Credit(k, Whole)
      case Noting => NoteBroken(k, e)
      case ToDraining => StartDraining(k)
      case Finishing => FinishPart(k)
      case LastCheck => CheckLast(k)
      case Sealing => Seal(k)
      case Claiming => PieceClaims(k);
    assert Working(s) && Enabled(l, s);
  }

  // ---------------- cancellation ----------------

  /** The ender is past the test for a cancellation and on its way to success. */
  predicate WillSucceed(l: Life) {
    var e := l.fate.ender;
    e.Marking? || (Decided(e) && e.e.EndSuccess?) || (e.AfterCancelTest? && l.req.error.IsOk())
  }

  /** A request that will succeed has nothing left that could record an error. */
  lemma NothingLeftToFail(l: Life)
    requires Inv(l) && l.fate.ender.AfterCancelTest? && l.req.error.IsOk()
    ensures forall k :: 0 <= k < |l.pieces| ==> !l.pieces[k].pc.Noting? && !l.pieces[k].pc.Idle?
    ensures forall i :: i in l.flow.events ==> !l.flow.events[i].Found?
  {
    forall k | 0 <= k < |l.pieces| ensures l.pieces[k].left == {} {
      assert l.pieces[k].left <= Upto(|l.laneOf|);
    }
    forall i | i in l.flow.events ensures !l.flow.events[i].Found? {
      assert i in Upto(|l.laneOf|);
    }
  }

  lemma StepKeepsVerdict(l: Life, s: Step)
    requires Inv(l) && Enabled(l, s) && l.req.cancelRequested
    ensures WillSucceed(Do(l, s)) == WillSucceed(l)
  {
    hide Inv;
    if l.fate.ender.AfterCancelTest? && l.req.error.IsOk() {
      NothingLeftToFail(l);
    }
  }

  lemma {:induction false} RunKeepsVerdict(l: Life, steps: seq<Step>)
    requires Inv(l) && CanRun(l, steps) && l.req.cancelRequested
    ensures WillSucceed(After(l, steps)) == WillSucceed(l)
    decreases |steps|
  {
    hide Inv, WillSucceed;
    if steps != [] {
      StepKeepsInv(l, steps[0]);
      StepKeepsVerdict(l, steps[0]);
      StepGrows(l, steps[0]);
      RunKeepsVerdict(Do(l, steps[0]), steps[1..]);
    }
  }

  /** A cancel() that returned kOk before the ending is honoured exactly when the ender had not
      yet tested for one: wherever the run goes from there, the request succeeds if and only if
      the ender was already past its test and on its way to success. */
  lemma CancelHonouredIffInTime(l: Life, steps: seq<Step>)
    requires Reachable(l) && !Terminal(l.req)
    requires CanRun(Do(l, CallCancel), steps) && Terminal(After(Do(l, CallCancel), steps).req)
    ensures After(Do(l, CallCancel), steps).req.state.Succeeded? <==> WillSucceed(l)
    ensures BeforeTest(l.fate.ender) ==> !After(Do(l, CallCancel), steps).req.state.Succeeded?
  {
    hide Inv, Reachable;
    ReachableInv(l);
    StepKeepsInv(l, CallCancel);
    var c := Do(l, CallCancel);
    RunKeepsInv(c, steps);
    RunKeepsVerdict(c, steps);
    VerdictShows(After(c, steps));
  }

  lemma VerdictShows(l: Life)
    requires Inv(l) && Terminal(l.req)
    ensures l.req.state.Succeeded? <==> WillSucceed(l)
  {
    assert l.req.state == FinalState(l.fate.ender.e);
  }

  lemma {:induction false} RunExtends(l: Life, steps: seq<Step>, s: Step)
    requires CanRun(l, steps) && Enabled(After(l, steps), s)
    ensures CanRun(l, steps + [s]) && After(l, steps + [s]) == Do(After(l, steps), s)
    decreases |steps|
  {
    hide Enabled, Do;
    if steps == [] {
      assert [] + [s] == [s];
    } else {
      RunExtends(Do(l, steps[0]), steps[1..], s);
      assert (steps + [s])[1..] == steps[1..] + [s];
    }
  }

  lemma ReachableStep(l: Life, s: Step)
    requires Reachable(l) && Enabled(l, s)
    ensures Reachable(Do(l, s))
  {
    hide Enabled, Do, WellPlanned, Admit;
    var laneOf: seq<nat>, up: seq<bool>, steps: seq<Step> :|
      && WellPlanned(laneOf, |up|)
      && CanRun(Admit(laneOf, up), steps)
      && After(Admit(laneOf, up), steps) == l;
    RunExtends(Admit(laneOf, up), steps, s);
  }

  // One sub-operation on one lane: waiting for its turn, posted, completed and about to be
  // claimed, and claimed by the completion path, which has just tested for a cancellation.

  const ONE_IDLE := Life(
    NewReq(1).(partsLeft := 1), [0], [Piece({0}, {}, Idle)], [true],
    Flow(Link({}), map[], {}, {}, {}, {}), PartsSet, Fate(Nobody, 0, 0, 0, false))

  const ONE_POSTED := ONE_IDLE.(
    req := ONE_IDLE.req.(state := Inflight, accepted := 1), pieces := [Piece({}, {}, Finishing)],
    flow := Flow(Link({0}), map[], {0}, {0}, {}, {}))

  const ONE_COUNTED := ONE_POSTED.(
    req := ONE_POSTED.req.(completed := 1, partsLeft := 0), pieces := [Piece({}, {}, Done)],
    flow := Flow(Link({}), map[0 := WasLast], {0}, {0}, {0}, {0}))

  const ONE_TESTED := ONE_COUNTED.(
    flow := ONE_COUNTED.flow.(events := map[]), fate := Fate(AfterCancelTest, 1, 0, 0, false))

  lemma IdleIsReachable()
    ensures Reachable(ONE_IDLE)
  {
    assert Used([0], 0) by { assert [0][0] == 0; }
    var l0 := Admit([0], [true]);
    assert CanRun(l0, []) && After(l0, []) == l0;
    assert Lane([0], 0) == {0};
    assert l0.pieces == [Piece({0}, {}, NotReady)];
    hide Reachable;
    ReachableStep(l0, CountIn);
    var l1 := Do(l0, CountIn);
    ReachableStep(l1, CountParts);
    assert Do(l1, CountParts) == ONE_IDLE;
  }

  lemma PostedIsReachable()
    ensures Reachable(ONE_POSTED)
  {
    IdleIsReachable();
    hide Reachable;
    ReachableStep(ONE_IDLE, CheckAbandoned(0));
    var l1 := Do(ONE_IDLE, CheckAbandoned(0));
    ReachableStep(l1, StartPosting(0));
    var l2 := Do(l1, StartPosting(0));
    ReachableStep(l2, TransportAccepts(0, 0));
    var l3 := Do(l2, TransportAccepts(0, 0));
    var none: set<nat>, one: set<nat> := {}, {0};
    assert one - {0} == none && none + {0} == one;
    assert l3.pieces == [Piece(none, one, Posting)];
    ReachableStep(l3, Credit(0, Whole));
    assert Do(l3, Credit(0, Whole)) == ONE_POSTED;
  }

  lemma CountedIsReachable()
    ensures Reachable(ONE_COUNTED)
  {
    PostedIsReachable();
    hide Reachable;
    var ok := Completion(Ok, 0, false);
    ReachableStep(ONE_POSTED, FinishPart(0));
    var l1 := Do(ONE_POSTED, FinishPart(0));
    ReachableStep(l1, CheckLast(0));
    var l2 := Do(l1, CheckLast(0));
    ReachableStep(l2, TransportReports(0, ok));
    var l3 := Do(l2, TransportReports(0, ok));
    ReachableStep(l3, LookUp(0));
    var l4 := Do(l3, LookUp(0));
    ReachableStep(l4, CountCompletion(0));
    assert Do(l4, CountCompletion(0)) == ONE_COUNTED;
  }

  lemma TestedIsReachable()
    ensures Reachable(ONE_TESTED)
  {
    CountedIsReachable();
    hide Reachable;
    ReachableStep(ONE_COUNTED, EventClaims(0));
    var l1 := Do(ONE_COUNTED, EventClaims(0));
    ReachableStep(l1, TestCancelled);
    assert Do(l1, TestCancelled) == ONE_TESTED;
  }

  /** It can come too late: a cancel() takes effect, so it returned kOk before the ending, and
      the request succeeds all the same. */
  lemma CancelCanComeTooLate()
    ensures exists l: Life :: Reachable(l) && l.req.cancelRequested && l.req.state.Succeeded?
  {
    TestedIsReachable();
    hide Reachable;
    ReachableStep(ONE_TESTED, CallCancel);
    var l1 := Do(ONE_TESTED, CallCancel);
    ReachableStep(l1, TestError);
    var l2 := Do(l1, TestError);
    assert l2.fate.ender.Marking? && !Terminal(l2.req);
    ReachableStep(l2, MarkComplete);
    SuccessFollows(Do(l2, MarkComplete));
  }

  lemma SuccessFollows(l: Life)
    requires Reachable(l) && l.fate.ender == Counting(EndSuccess) && !Terminal(l.req) && l.req.cancelRequested
    ensures exists m: Life :: Reachable(m) && m.req.cancelRequested && m.req.state.Succeeded?
  {
    hide Reachable;
    var e := ErrorInfo(TransportError, 0, false);
    ReachableStep(l, CountEnding);
    ReachableStep(Do(l, CountEnding), Finish(e));
    var m := Do(Do(l, CountEnding), Finish(e));
    assert m.req.cancelRequested && m.req.state.Succeeded?;
  }
}
