/** Which error a request ends up with: over every run, the first one any step brought. */
module LifecycleErrors {
  import opened Status
  import opened Request
  import opened Lifecycle
  import opened LifecycleTheorems

  datatype Option<T> = None | Some(value: T)

  /** The error a step brings to a request that has not ended: a dependency that failed, a submission
      that broke off, a completion that was not kOk, or the reason the reaper gives. */
  ghost function BroughtBy(l: Life, s: Step): Option<ErrorInfo>
    requires Enabled(l, s)
  {
    if Terminal(l.req) then None
    else
      match s
      case DependencyFailed(_, e) => Some(e)
      case NoteBroken(_, e) => Some(e)
      case CountCompletion(i) =>
        var ev := l.flow.events[i].ev;
        if ev.status == Ok then None
        else Some(ErrorInfo(ev.status, ev.providerErrno, ev.mayHaveModifiedTarget))
      case Finish(e) => if l.fate.ender.e.EndStranded? then Some(e) else None
      case _ => None
  }

  lemma ErrorStep(l: Life, s: Step)
    requires Enabled(l, s)
    ensures var e := Do(l, s).req.error;
            if l.req.error.IsOk() && BroughtBy(l, s).Some? then e == BroughtBy(l, s).value && !e.IsOk()
            else e == l.req.error
  {
    if s.CountCompletion? || s.Finish? || s.NoteBroken? || s.DependencyFailed? {
      hide Claim, SetState, SetPc;
    } else {
      OtherStep(l, s);
    }
  }

  lemma OtherStep(l: Life, s: Step)
    requires Enabled(l, s) && !(s.CountCompletion? || s.Finish? || s.NoteBroken? || s.DependencyFailed?)
    ensures Do(l, s).req.error == l.req.error && BroughtBy(l, s).None?
  {
  }

  /** The state before step k of a run. */
  ghost function StateAt(l: Life, steps: seq<Step>, k: nat): Life
    requires CanRun(l, steps) && k <= |steps|
    decreases |steps|
  {
    if k == 0 then l else StateAt(Do(l, steps[0]), steps[1..], k - 1)
  }

  lemma {:induction false} EnabledAt(l: Life, steps: seq<Step>, k: nat)
    requires CanRun(l, steps) && k < |steps|
    ensures Enabled(StateAt(l, steps, k), steps[k])
    decreases |steps|
  {
    hide Enabled, Do;
    if k > 0 {
      EnabledAt(Do(l, steps[0]), steps[1..], k - 1);
    }
  }

  /** Step k brings e. */
  ghost predicate Brings(l: Life, steps: seq<Step>, k: nat, e: ErrorInfo)
    requires CanRun(l, steps)
  {
    k < |steps| && Enabled(StateAt(l, steps, k), steps[k]) && BroughtBy(StateAt(l, steps, k), steps[k]) == Some(e)
  }

  ghost predicate NoneBefore(l: Life, steps: seq<Step>, k: nat)
    requires CanRun(l, steps) && k <= |steps|
  {
    forall j :: 0 <= j < k ==>
      Enabled(StateAt(l, steps, j), steps[j]) && BroughtBy(StateAt(l, steps, j), steps[j]).None?
  }

  lemma Shift(l: Life, steps: seq<Step>, k: nat, e: ErrorInfo)
    requires CanRun(l, steps) && steps != [] && k < |steps| && BroughtBy(l, steps[0]).None?
    requires Brings(Do(l, steps[0]), steps[1..], k, e) && NoneBefore(Do(l, steps[0]), steps[1..], k)
    ensures k + 1 < |steps| && Brings(l, steps, k + 1, e) && NoneBefore(l, steps, k + 1)
  {
    hide BroughtBy, Enabled, Do;
    forall j | 0 <= j < k + 1
      ensures Enabled(StateAt(l, steps, j), steps[j]) && BroughtBy(StateAt(l, steps, j), steps[j]).None?
    {
      if j > 0 {
        assert StateAt(l, steps, j) == StateAt(Do(l, steps[0]), steps[1..], j - 1) && steps[1..][j - 1] == steps[j];
      }
    }
  }

  lemma {:induction false} FirstKept(l: Life, steps: seq<Step>) returns (k: nat)
    requires CanRun(l, steps) && l.req.error.IsOk() && !After(l, steps).req.error.IsOk()
    ensures Brings(l, steps, k, After(l, steps).req.error) && NoneBefore(l, steps, k)
    decreases |steps|
  {
    hide Enabled, Do, BroughtBy;
    ErrorStep(l, steps[0]);
    if BroughtBy(l, steps[0]).Some? {
      k := 0;
      RunGrows(Do(l, steps[0]), steps[1..]);
    } else {
      k := FirstKept(Do(l, steps[0]), steps[1..]);
      Shift(l, steps, k, After(l, steps).req.error);
      k := k + 1;
    }
  }

  // ---------------- completions are as the transport reported them ----------------

  /** Every completion still being handled was reported, as it is, by some step so far. */
  ghost predicate Told(l: Life, past: seq<Step>) {
    forall i :: i in l.flow.events && !l.flow.events[i].WasLast? ==>
      exists t :: 0 <= t < |past| && past[t] == TransportReports(i, l.flow.events[i].ev)
  }

  lemma TellsMore(l: Life, past: seq<Step>, s: Step)
    requires Told(l, past)
    ensures Told(l, past + [s])
  {
    forall i | i in l.flow.events && !l.flow.events[i].WasLast?
      ensures exists t :: 0 <= t < |past + [s]| && (past + [s])[t] == TransportReports(i, l.flow.events[i].ev)
    {
      var t :| 0 <= t < |past| && past[t] == TransportReports(i, l.flow.events[i].ev);
      assert (past + [s])[t] == past[t];
    }
  }

  /** No event but the one a step is about changes, and that one only as said. */
  lemma EventsMove(l: Life, s: Step)
    requires Enabled(l, s)
    ensures var f, e := l.flow.events, Do(l, s).flow.events;
            forall i :: i in e && !e[i].WasLast? ==>
              if s.TransportReports? && s.i == i then e[i] == Arrived(s.ev)
              else i in f && !f[i].WasLast? && e[i].ev == f[i].ev
  {
    hide OnSubopComplete, PartFinished, SealIfIdle, EndReq, Cancel, NoteError, SetState, Claim;
    if s.EventClaims? {
      ClaimFlow(l.(flow := l.flow.(events := l.flow.events - {s.i})), AfterCompletion);
    } else if !s.TransportReports? && !s.LookUp? && !s.CountCompletion? {
      EventsStay(l, s);
      hide Do, Enabled;
    }
  }

  lemma EventsStay(l: Life, s: Step)
    requires Enabled(l, s) && !s.TransportReports? && !s.LookUp? && !s.CountCompletion? && !s.EventClaims?
    ensures Do(l, s).flow.events == l.flow.events
  {
    hide OnSubopComplete, PartFinished, SealIfIdle, EndReq, Cancel, NoteError, SetState, Claim;
    if s.ReaperClaims? {
      ClaimFlow(l, AfterReap);
    } else if s.PieceClaims? {
      ClaimFlow(SetPc(l, s.k, Done), AfterPiece);
    }
  }

  lemma ClaimFlow(l: Life, e: Ender)
    ensures Claim(l, e).flow == l.flow
  {
  }

  lemma ToldStep(l: Life, past: seq<Step>, s: Step)
    requires Told(l, past) && Enabled(l, s)
    ensures Told(Do(l, s), past + [s])
  {
    EventsMove(l, s);
    TellsMore(l, past, s);
    hide Do, Enabled;
    var e := Do(l, s).flow.events;
    forall i | i in e && !e[i].WasLast?
      ensures exists t :: 0 <= t < |past + [s]| && (past + [s])[t] == TransportReports(i, e[i].ev)
    {
      if s.TransportReports? && s.i == i {
        assert (past + [s])[|past|] == TransportReports(i, e[i].ev);
      }
    }
  }

  lemma {:induction false} ToldAt(l: Life, past: seq<Step>, steps: seq<Step>, k: nat)
    requires Told(l, past) && CanRun(l, steps) && k <= |steps|
    ensures Told(StateAt(l, steps, k), past + steps[..k])
    decreases |steps|
  {
    hide Told, Do, Enabled;
    if k == 0 {
      assert past + steps[..0] == past;
    } else {
      ToldStep(l, past, steps[0]);
      ToldAt(Do(l, steps[0]), past + [steps[0]], steps[1..], k - 1);
      assert (past + [steps[0]]) + steps[1..][..k - 1] == past + steps[..k];
    }
  }

  // ---------------- the theorem ----------------

  /** Step k carries e: in its own fields, or in those of the completion it counts, as an earlier step
      reported it. */
  ghost predicate Carries(steps: seq<Step>, k: nat, e: ErrorInfo) {
    k < |steps| &&
    match steps[k]
    case DependencyFailed(_, x) => e == x
    case NoteBroken(_, x) => e == x
    case Finish(x) => e == x
    case CountCompletion(i) => exists t :: 0 <= t < k && Reported(steps[t], i, e)
    case _ => false
  }

  predicate Reported(s: Step, i: nat, e: ErrorInfo) {
    && s.TransportReports? && s.i == i && s.ev.status != Ok
    && e.status == s.ev.status && e.providerErrno == s.ev.providerErrno
    && e.mayHaveModifiedTarget == s.ev.mayHaveModifiedTarget
  }

  /** The error of a request is, field by field, the one carried by the first step of its run that
      brought any. */
  lemma FirstErrorIsKept(laneOf: seq<nat>, up: seq<bool>, steps: seq<Step>) returns (k: nat)
    requires WellPlanned(laneOf, |up|) && CanRun(Admit(laneOf, up), steps)
    requires !After(Admit(laneOf, up), steps).req.error.IsOk()
    ensures k < |steps| && Carries(steps, k, After(Admit(laneOf, up), steps).req.error)
    ensures NoneBefore(Admit(laneOf, up), steps, k)
  {
    var l := Admit(laneOf, up);
    assert l.req.error.IsOk() && Told(l, []);
    k := FirstKept(l, steps);
    hide CanRun, After, NoneBefore, StateAt, Admit, WellPlanned;
    if steps[k].CountCompletion? {
      WasReported(l, steps, k, After(l, steps).req.error);
    }
  }

  lemma WasReported(l: Life, steps: seq<Step>, k: nat, e: ErrorInfo)
    requires CanRun(l, steps) && Told(l, []) && k < |steps| && steps[k].CountCompletion?
    requires Brings(l, steps, k, e)
    ensures Carries(steps, k, e)
  {
    ToldAt(l, [], steps, k);
    hide CanRun, After, StateAt;
    var i := steps[k].i;
    assert [] + steps[..k] == steps[..k];
    var t :| 0 <= t < |steps[..k]|
             && steps[..k][t] == TransportReports(i, StateAt(l, steps, k).flow.events[i].ev);
    assert Reported(steps[t], i, e);
  }

  /** So wait() answers with that step's status for a failed request, and Cancelled for one that was
      cancelled, whatever went wrong with it. */
  lemma WaitTellsTheFirstError(laneOf: seq<nat>, up: seq<bool>, steps: seq<Step>) returns (k: nat, e: ErrorInfo)
    requires WellPlanned(laneOf, |up|) && CanRun(Admit(laneOf, up), steps)
    ensures var r := After(Admit(laneOf, up), steps).req;
            && (r.state.Failed? ==> k < |steps| && Carries(steps, k, e) && Outcome(r) == e.status && r.error == e)
            && (r.state.CancelledState? ==> Outcome(r) == Cancelled)
  {
    var l := Admit(laneOf, up);
    k, e := 0, NO_ERROR;
    if After(l, steps).req.state.Failed? {
      assert Reachable(After(l, steps));
      OutcomeTellsTheEnding(After(l, steps));
      hide CanRun, After, Reachable;
      k := FirstErrorIsKept(laneOf, up, steps);
      e := After(l, steps).req.error;
    }
  }
}
