/** One logical transfer: the fields of `RequestImpl` as a value (`Req`), each critical
    section of the class as a function on that value, and the class itself, whose methods
    are proved to perform exactly those functions. Everything the concurrent protocol says
    about a request is said about these functions. */
module Request {
  import opened Status

  datatype State =
    | Queued | WaitDependency | Inflight | WaitTargetReady | WaitNotifyAck | Draining
    | Succeeded | Failed | CancelledState

  datatype Stage =
    | AcceptedStage | SourceReusable | TransferComplete | TargetReady | FailedSafe | CancelledSafe

  datatype ErrorInfo = ErrorInfo(status: Status, providerErrno: int, mayHaveModifiedTarget: bool) {
    predicate IsOk() { status == Ok }
  }

  const NO_ERROR := ErrorInfo(Ok, 0, false)

  datatype Completion = Completion(status: Status, providerErrno: int, mayHaveModifiedTarget: bool)

  datatype Req = Req(
    total: nat,
    state: State,
    completed: nat,
    accepted: nat,
    sealed: bool,
    partsLeft: nat,
    cancelRequested: bool,
    stages: set<Stage>,
    error: ErrorInfo)

  function NewReq(total: nat): Req {
    Req(total, Queued, 0, 0, false, 0, false, {AcceptedStage}, NO_ERROR)
  }

  predicate TerminalState(s: State) {
    s.Succeeded? || s.Failed? || s.CancelledState?
  }

  predicate Terminal(r: Req) {
    TerminalState(r.state)
  }

  /** Only the first error is kept. */
  function RecordError(r: Req, e: ErrorInfo): Req {
    if e.IsOk() || !r.error.IsOk() then r else r.(error := e)
  }

  function SetState(r: Req, s: State): Req {
    if Terminal(r) || r.cancelRequested then r else r.(state := s)
  }

  function MarkStage(r: Req, s: Stage): Req {
    r.(stages := r.stages + {s})
  }

  function AddAccepted(r: Req, n: nat): Req {
    r.(accepted := r.accepted + n)
  }

  function SealAccepted(r: Req): Req {
    r.(sealed := true)
  }

  function SetParts(r: Req, n: nat): Req {
    r.(partsLeft := n)
  }

  /** A lane is done posting; true for the last one. */
  function PartFinished(r: Req): (Req, bool) {
    var left := if r.partsLeft > 0 then r.partsLeft - 1 else 0;
    (r.(partsLeft := left), left == 0)
  }

  predicate Abandoning(r: Req) {
    Terminal(r) || r.cancelRequested || !r.error.IsOk()
  }

  function SealIfIdle(r: Req): (Req, bool) {
    (r.(sealed := true), !Terminal(r) && r.completed >= r.accepted)
  }

  /** True for the last completion: of all sub-operations before the seal, of the accepted ones after. */
  function OnSubopComplete(r: Req, ev: Completion): (Req, bool) {
    if Terminal(r) then (r, false)
    else
      var r1 := if ev.status == Ok then r
                else RecordError(r, ErrorInfo(ev.status, ev.providerErrno, ev.mayHaveModifiedTarget));
      var r2 := r1.(completed := r1.completed + 1);
      (r2, r2.completed >= (if r2.sealed then r2.accepted else r2.total))
  }

  function Cancel(r: Req): (Req, Status) {
    if r.state.Succeeded? then (r, InvalidArgument)
    else if Terminal(r) then (r, Ok)
    else (r.(cancelRequested := true, state := Draining), Ok)
  }

  function NoteError(r: Req, e: ErrorInfo): Req {
    if Terminal(r) then r else RecordError(r, e)
  }

  function Fail(r: Req, e: ErrorInfo): Req {
    if Terminal(r) then r
    else RecordError(r, e).(stages := r.stages + {FailedSafe}, state := Failed)
  }

  function FinishSuccess(r: Req): Req {
    if Terminal(r) then r
    else r.(stages := r.stages + {TransferComplete, TargetReady, SourceReusable}, state := Succeeded)
  }

  function FinishCancelled(r: Req): Req {
    if Terminal(r) then r
    else r.(stages := r.stages + {CancelledSafe}, state := CancelledState)
  }

  /** The answer of wait(), once there is one. */
  function Outcome(r: Req): Status {
    if r.state.CancelledState? then Cancelled
    else if !r.error.IsOk() then r.error.status
    else if r.state.Failed? then Internal
    else Ok
  }

  // ---------------- any sequence of calls ----------------

  /** Every call another part of the engine can make on a request, in any order. The stages
      marked from outside are the two the completion path marks, and nothing sets a terminal
      state except the three ending calls. */
  datatype Call =
    | CSetState(s: State)
    | CMarkTransferComplete
    | CMarkTargetReady
    | CAddAccepted(n: nat)
    | CSealAccepted
    | CSetParts(n: nat)
    | CPartFinished
    | CSealIfIdle
    | CSubopComplete(ev: Completion)
    | CCancel
    | CNoteError(e: ErrorInfo)
    | CFail(e: ErrorInfo)
    | CFinishSuccess
    | CFinishCancelled

  function Apply(r: Req, c: Call): Req {
    match c
    case CSetState(s) => if TerminalState(s) then r else SetState(r, s)
    case CMarkTransferComplete => MarkStage(r, TransferComplete)
    case CMarkTargetReady => MarkStage(r, TargetReady)
    case CAddAccepted(n) => AddAccepted(r, n)
    case CSealAccepted => SealAccepted(r)
    case CSetParts(n) => SetParts(r, n)
    case CPartFinished => PartFinished(r).0
    case CSealIfIdle => SealIfIdle(r).0
    case CSubopComplete(ev) => OnSubopComplete(r, ev).0
    case CCancel => Cancel(r).0
    case CNoteError(e) => NoteError(r, e)
    case CFail(e) => Fail(r, e)
    case CFinishSuccess => FinishSuccess(r)
    case CFinishCancelled => FinishCancelled(r)
  }

  function ApplyAll(r: Req, calls: seq<Call>): Req
    decreases |calls|
  {
    if calls == [] then r else ApplyAll(Apply(r, calls[0]), calls[1..])
  }

  /** The three endings are exclusive, and each is visible in the stages exactly when it is
      the state. */
  predicate EndingsExclusive(r: Req) {
    && (FailedSafe in r.stages <==> r.state.Failed?)
    && (CancelledSafe in r.stages <==> r.state.CancelledState?)
    && (SourceReusable in r.stages <==> r.state.Succeeded?)
    && (r.state.Succeeded? ==> TransferComplete in r.stages && TargetReady in r.stages)
    && AcceptedStage in r.stages
  }

  lemma {:induction false} EndingsStayExclusive(r: Req, calls: seq<Call>)
    requires EndingsExclusive(r)
    ensures EndingsExclusive(ApplyAll(r, calls))
    decreases |calls|
  {
    if calls != [] {
      EndingsStayExclusive(Apply(r, calls[0]), calls[1..]);
    }
  }

  /** Whatever is called and in whatever order, a new request reaches at most one ending. */
  lemma AtMostOneEnding(total: nat, calls: seq<Call>)
    ensures EndingsExclusive(ApplyAll(NewReq(total), calls))
  {
    EndingsStayExclusive(NewReq(total), calls);
  }

  /** What never changes back, whatever is called: an ending and what wait() says about it,
      the recorded error, an accepted cancellation, the seal, and every stage reached. */
  predicate Grows(r: Req, s: Req) {
    && (Terminal(r) ==> s.state == r.state && Outcome(s) == Outcome(r))
    && (!r.error.IsOk() ==> s.error == r.error)
    && (r.cancelRequested ==> s.cancelRequested)
    && (r.sealed ==> s.sealed)
    && (Abandoning(r) ==> Abandoning(s))
    && r.stages <= s.stages
    && r.total == s.total
  }

  lemma {:induction false} CallsOnlyGrow(r: Req, calls: seq<Call>)
    ensures Grows(r, ApplyAll(r, calls))
    decreases |calls|
  {
    if calls != [] {
      assert Grows(r, Apply(r, calls[0]));
      CallsOnlyGrow(Apply(r, calls[0]), calls[1..]);
    }
  }

  /** The state last asked for, from s on. */
  function LastAsked(s: State, calls: seq<Call>): State
    decreases |calls|
  {
    if calls == [] then s
    else LastAsked(if calls[0].CSetState? && !TerminalState(calls[0].s) then calls[0].s else s, calls[1..])
  }

  /** Until it ends, a request is in the state last asked for, and draining from the moment it is
      cancelled; it is cancelled once somebody has asked for it, and not before. */
  lemma {:induction false} StateFollows(r: Req, calls: seq<Call>)
    requires !Terminal(r) && !r.cancelRequested
    ensures var e := ApplyAll(r, calls);
            !Terminal(e) ==>
              && (e.cancelRequested <==> CCancel in calls)
              && e.state == if CCancel in calls then Draining else LastAsked(r.state, calls)
    decreases |calls|
  {
    if calls != [] {
      var r' := Apply(r, calls[0]);
      if Terminal(r') {
        CallsOnlyGrow(r', calls[1..]);
      } else if calls[0].CCancel? {
        DrainsOnly(r', calls[1..]);
      } else {
        StateFollows(r', calls[1..]);
        assert CCancel in calls <==> CCancel in calls[1..];
      }
    }
  }

  lemma {:induction false} DrainsOnly(r: Req, calls: seq<Call>)
    requires r.cancelRequested && r.state == Draining
    ensures var e := ApplyAll(r, calls); e.cancelRequested && (!Terminal(e) ==> e.state == Draining)
    decreases |calls|
  {
    if calls != [] {
      var r' := Apply(r, calls[0]);
      if Terminal(r') {
        CallsOnlyGrow(r', calls[1..]);
      } else {
        DrainsOnly(r', calls[1..]);
      }
    }
  }

  /** The two stages the completion path marks are reached once marked or once the request has
      succeeded, and not otherwise. */
  lemma {:induction false} StagesFollow(r: Req, calls: seq<Call>)
    requires !Terminal(r)
    ensures var e := ApplyAll(r, calls);
            && (TransferComplete in e.stages <==>
                  TransferComplete in r.stages || CMarkTransferComplete in calls || e.state.Succeeded?)
            && (TargetReady in e.stages <==>
                  TargetReady in r.stages || CMarkTargetReady in calls || e.state.Succeeded?)
    decreases |calls|
  {
    hide Apply;
    if calls != [] {
      var r' := Apply(r, calls[0]);
      HeadOrRest(calls, CMarkTransferComplete);
      HeadOrRest(calls, CMarkTargetReady);
      StageStep(r, calls[0]);
      if Terminal(r') {
        EndedStages(r', calls[1..]);
      } else {
        StagesFollow(r', calls[1..]);
      }
    }
  }

  lemma HeadOrRest(calls: seq<Call>, c: Call)
    requires calls != []
    ensures c in calls <==> c == calls[0] || c in calls[1..]
  {
  }

  lemma StageStep(r: Req, c: Call)
    ensures var e := Apply(r, c);
            && (TransferComplete in e.stages <==>
                  TransferComplete in r.stages || c == CMarkTransferComplete || (!Terminal(r) && e.state.Succeeded?))
            && (TargetReady in e.stages <==>
                  TargetReady in r.stages || c == CMarkTargetReady || (!Terminal(r) && e.state.Succeeded?))
            && (Terminal(r) ==> e.state == r.state)
  {
  }

  lemma {:induction false} EndedStages(r: Req, calls: seq<Call>)
    requires Terminal(r)
    ensures var e := ApplyAll(r, calls);
            && e.state == r.state
            && (TransferComplete in e.stages <==> TransferComplete in r.stages || CMarkTransferComplete in calls)
            && (TargetReady in e.stages <==> TargetReady in r.stages || CMarkTargetReady in calls)
    decreases |calls|
  {
    hide Apply;
    if calls != [] {
      HeadOrRest(calls, CMarkTransferComplete);
      HeadOrRest(calls, CMarkTargetReady);
      StageStep(r, calls[0]);
      EndedStages(Apply(r, calls[0]), calls[1..]);
    }
  }

  // ---------------- the class ----------------

  /** Each method is one hold of the request's lock. */
  class RequestImpl {
    const total: nat
    var state: State
    var completedSubops: nat
    var acceptedSubops: nat
    var sealed: bool
    var partsLeft: nat
    var cancelRequested: bool
    var stages: set<Stage>
    var error: ErrorInfo

    ghost function View(): Req
      reads this
    {
      Req(total, state, completedSubops, acceptedSubops, sealed, partsLeft, cancelRequested, stages, error)
    }

    constructor (totalSubops: nat)
      ensures View() == NewReq(totalSubops)
    {
      total := totalSubops;
      state := Queued;
      completedSubops, acceptedSubops, sealed, partsLeft := 0, 0, false, 0;
      cancelRequested := false;
      stages := {AcceptedStage};
      error := NO_ERROR;
    }

    method RecordErrorLocked(e: ErrorInfo)
      modifies `error
      ensures View() == RecordError(old(View()), e)
    {
      if e.IsOk() || !error.IsOk() { return; }
      error := e;
    }

    method SetStateTo(s: State)
      modifies `state
      ensures View() == SetState(old(View()), s)
    {
      if TerminalState(state) || cancelRequested { return; }
      state := s;
    }

    method FinishPart() returns (last: bool)
      modifies `partsLeft
      ensures (View(), last) == PartFinished(old(View()))
    {
      if partsLeft > 0 { partsLeft := partsLeft - 1; }
      last := partsLeft == 0;
    }

    method SealWhenIdle() returns (idle: bool)
      modifies `sealed
      ensures (View(), idle) == SealIfIdle(old(View()))
    {
      sealed := true;
      idle := !TerminalState(state) && completedSubops >= acceptedSubops;
    }

    method SubopComplete(ev: Completion) returns (last: bool)
      modifies `error, `completedSubops
      ensures (View(), last) == OnSubopComplete(old(View()), ev)
      ensures TerminalState(state) ==> error == old(error) && completedSubops == old(completedSubops) && !last
      ensures !TerminalState(state) ==>
                && completedSubops == old(completedSubops) + 1
                && error == (if old(error).IsOk() && ev.status != Ok then
                               ErrorInfo(ev.status, ev.providerErrno, ev.mayHaveModifiedTarget)
                             else old(error))
                && (last <==> completedSubops >= if sealed then acceptedSubops else total)
    {
      if TerminalState(state) { return false; }
      if ev.status != Ok {
        RecordErrorLocked(ErrorInfo(ev.status, ev.providerErrno, ev.mayHaveModifiedTarget));
      }
      completedSubops := completedSubops + 1;
      var expected := if sealed then acceptedSubops else total;
      last := completedSubops >= expected;
    }

    method RequestCancel() returns (s: Status)
      modifies `cancelRequested, `state
      ensures (View(), s) == Cancel(old(View()))
    {
      if state.Succeeded? { return InvalidArgument; }
      if TerminalState(state) { return Ok; }
      cancelRequested := true;
      state := Draining;
      s := Ok;
    }

    method NoteErrorOnce(e: ErrorInfo)
      modifies `error
      ensures View() == NoteError(old(View()), e)
    {
      if TerminalState(state) { return; }
      RecordErrorLocked(e);
    }

    method EndFailed(e: ErrorInfo)
      modifies `error, `stages, `state
      ensures View() == Fail(old(View()), e)
    {
      if TerminalState(state) { return; }
      RecordErrorLocked(e);
      stages := stages + {FailedSafe};
      state := Failed;
    }

    method EndSucceeded()
      modifies `stages, `state
      ensures View() == FinishSuccess(old(View()))
    {
      if TerminalState(state) { return; }
      stages := stages + {TransferComplete, TargetReady, SourceReusable};
      state := Succeeded;
    }

    method EndCancelled()
      modifies `stages, `state
      ensures View() == FinishCancelled(old(View()))
    {
      if TerminalState(state) { return; }
      stages := stages + {CancelledSafe};
      state := CancelledState;
    }
  }
}
