/** The life of one admitted request over every interleaving of the threads that touch it:
    its submitter, the scheduling passes that post its lanes, the handlers of its
    completions, callers cancelling it and the reaper of departed peers.

    A step is one hold of the engine's lock or of the request's lock, or one call into the
    transport. A lane's piece of work is held by one thread at a time, so its thread is the
    piece's program counter; a completion taken from the transport is handled by one thread,
    whose progress is the event's phase. Pieces and events of a request may all be in
    progress at once, which allows every interleaving the engine has and more. */
module Lifecycle {
  import opened Status
  import opened Request
  import opened Provider

  /** Where the thread holding a piece is inside post_ops and part_done. */
  datatype Pc =
    | NotReady    // submit_vector has not counted the parts yet
    | Idle        // waiting for a turn
    | Checked     // found not abandoning
    | Posting     // inside the transport's submit
    | Noting      // submission stopped; the error is about to be recorded
    | ToDraining
    | Finishing   // nothing left to post
    | LastCheck   // was the last part
    | Sealing
    | Claiming
    | Done

  datatype Piece = Piece(left: set<nat>, uncredited: set<nat>, pc: Pc)

  datatype Event = Arrived(ev: Completion) | Found(ev: Completion) | WasLast

  datatype Ending = EndSuccess | EndFailure | EndStranded | EndCancel

  /** Where the one thread that claimed the request is. */
  datatype Ender =
    | Nobody
    | AfterPiece          // end_abandoned claimed it
    | AfterCompletion     // the completion path claimed it
    | AfterCancelTest     // and found no cancellation
    | AfterReap           // the reaper claimed it
    | Marking
    | Counting(e: Ending)
    | Finalizing(e: Ending)
    | Publishing(e: Ending)
    | Ended(e: Ending)

  datatype Submission = Admitted | CountedIn | PartsSet

  /** Where each sub-operation is. */
  datatype Flow = Flow(
    link: Link<nat>,         // what the transport holds
    events: map<nat, Event>, // completions taken from it and not dealt with yet
    posted: set<nat>,        // every sub-operation ever accepted
    credited: set<nat>,      // those add_accepted_subops has counted
    counted: set<nat>,       // those on_subop_complete has counted
    landed: set<nat>)        // those of them that completed kOk

  /** The ending, with counters that witness how often each part of it happened. The request
      is in the engine's inflight_ map exactly while nobody has claimed it. */
  datatype Fate = Fate(
    ender: Ender,
    claims: nat,
    endings: nat,
    published: nat,
    cancelledInTime: bool)   // a cancel() took effect before the ender tested for one

  datatype Life = Life(
    req: Req,
    laneOf: seq<nat>,        // the piece each sub-operation belongs to
    pieces: seq<Piece>,
    up: seq<bool>,           // whether each piece's connection may still move bytes
    flow: Flow,
    submission: Submission,
    fate: Fate)

  predicate InFlight(f: Fate) {
    f.ender.Nobody?
  }

  function Upto(n: nat): (s: set<nat>)
    ensures forall i: nat :: i in s <==> i < n
    ensures |s| == n
  {
    if n == 0 then {} else Upto(n - 1) + {n - 1}
  }

  function Ids(l: Life): set<nat> {
    Upto(|l.laneOf|)
  }

  function Lane(laneOf: seq<nat>, k: nat): set<nat> {
    set i | 0 <= i < |laneOf| && laneOf[i] == k
  }

  /** A request as submit_vector builds it: at least one sub-operation, and no empty lane. */
  predicate WellPlanned(laneOf: seq<nat>, lanes: nat) {
    && |laneOf| > 0
    && (forall i :: 0 <= i < |laneOf| ==> laneOf[i] < lanes)
    && (forall k {:trigger Used(laneOf, k)} :: 0 <= k < lanes ==> Used(laneOf, k))
  }

  predicate Used(laneOf: seq<nat>, k: nat) {
    exists i :: 0 <= i < |laneOf| && laneOf[i] == k
  }

  /** The state right after the entry went into inflight_. */
  function Admit(laneOf: seq<nat>, up: seq<bool>): (l: Life)
    requires WellPlanned(laneOf, |up|)
  {
    var pieces := seq(|up|, k requires 0 <= k < |up| =>
      Piece(Lane(laneOf, k), {}, NotReady));
    Life(NewReq(|laneOf|), laneOf, pieces, up, Flow(Link({}), map[], {}, {}, {}, {}), Admitted,
         Fate(Nobody, 0, 0, 0, false))
  }

  // ---------------- steps ----------------

  datatype Outcome3 = Deferred | Whole | Broken

  datatype Step =
    | CountIn
    | CountParts
    | WaitForDependency
    | DependencyFailed(k: nat, e: ErrorInfo)
    | CheckAbandoned(k: nat)
    | StartPosting(k: nat)
    | TransportAccepts(k: nat, i: nat)
    | Credit(k: nat, o: Outcome3)
    | NoteBroken(k: nat, e: ErrorInfo)
    | StartDraining(k: nat)
    | FinishPart(k: nat)
    | CheckLast(k: nat)
    | Seal(k: nat)
    | PieceClaims(k: nat)
    | TransportReports(i: nat, ev: Completion)
    | LookUp(i: nat)
    | CountCompletion(i: nat)
    | EventClaims(i: nat)
    | TestCancelled
    | TestError
    | MarkComplete
    | CountEnding
    | Finish(e: ErrorInfo)
    | Publish
    | CallCancel
    | Disconnect(k: nat)
    | ReaperClaims
    | ReaperSeals

  predicate PieceAt(l: Life, k: nat, pc: Pc) {
    k < |l.pieces| && l.pieces[k].pc == pc
  }

  predicate Enabled(l: Life, s: Step) {
    match s
    case CountIn => l.submission.Admitted?
    case CountParts => l.submission.CountedIn?
    case WaitForDependency => l.submission.PartsSet?
    case DependencyFailed(k, e) => PieceAt(l, k, Idle) && !e.IsOk()
    case CheckAbandoned(k) => PieceAt(l, k, Idle)
    case StartPosting(k) => PieceAt(l, k, Checked)
    case TransportAccepts(k, i) => PieceAt(l, k, Posting) && i in l.pieces[k].left && CanAccept(l.flow.link, i)
    // A transport that took part of the slice leaves some of the lane behind.
    case Credit(k, o) => PieceAt(l, k, Posting) && (!o.Whole? ==> l.pieces[k].left != {})
    case NoteBroken(k, e) => PieceAt(l, k, Noting) && !e.IsOk()
    case StartDraining(k) => PieceAt(l, k, ToDraining)
    case FinishPart(k) => PieceAt(l, k, Finishing)
    case CheckLast(k) => PieceAt(l, k, LastCheck)
    case Seal(k) => PieceAt(l, k, Sealing)
    case PieceClaims(k) => PieceAt(l, k, Claiming)
    // Work on a stopped connection still completes: failed, or well if it was done before.
    case TransportReports(i, _) => CanReport(l.flow.link, i)
    case LookUp(i) => i in l.flow.events && l.flow.events[i].Arrived?
    case CountCompletion(i) => i in l.flow.events && l.flow.events[i].Found?
    case EventClaims(i) => i in l.flow.events && l.flow.events[i].WasLast?
    case TestCancelled => l.fate.ender.AfterPiece? || l.fate.ender.AfterCompletion?
    case TestError => l.fate.ender.AfterCancelTest?
    case MarkComplete => l.fate.ender.Marking?
    case CountEnding => l.fate.ender.Counting?
    case Finish(e) => l.fate.ender.Finalizing? && !e.IsOk()
    case Publish => l.fate.ender.Publishing?
    case CallCancel => true
    case Disconnect(k) => k < |l.up|
    // Every lane was disconnected before the reaper takes the peer's requests.
    case ReaperClaims => InFlight(l.fate) && forall k :: 0 <= k < |l.up| ==> !l.up[k]
    case ReaperSeals => l.fate.ender.AfterReap?
  }

  function SetPc(l: Life, k: nat, pc: Pc): Life
    requires k < |l.pieces|
  {
    l.(pieces := l.pieces[k := l.pieces[k].(pc := pc)])
  }

  function SetEnder(l: Life, e: Ender): Life {
    l.(fate := l.fate.(ender := e))
  }

  /** No one has yet asked whether the request was cancelled. */
  predicate BeforeTest(e: Ender) {
    e.Nobody? || e.AfterCompletion? || e.AfterPiece?
  }

  /** Whoever takes the request out of inflight_ ends it, and only that one. */
  function Claim(l: Life, e: Ender): Life {
    if InFlight(l.fate) then l.(fate := l.fate.(ender := e, claims := l.fate.claims + 1)) else l
  }

  function AfterCredit(left: set<nat>, o: Outcome3): Pc {
    match o
    case Deferred => Idle
    case Whole => if left == {} then Finishing else Idle
    case Broken => Noting
  }

  function EndReq(r: Req, how: Ending, e: ErrorInfo): Req {
    match how
    case EndSuccess => FinishSuccess(r)
    case EndFailure => Fail(r, r.error)
    case EndStranded => Fail(r, e)
    case EndCancel => FinishCancelled(r)
  }

  function DoCountParts(l: Life): Life {
    l.(submission := PartsSet, req := SetParts(l.req, |l.pieces|), pieces := MakeIdle(l.pieces))
  }

  function MakeIdle(ps: seq<Piece>): (qs: seq<Piece>)
    ensures |qs| == |ps|
    ensures forall k :: 0 <= k < |ps| ==> qs[k] == ps[k].(pc := Idle)
  {
    if ps == [] then [] else [ps[0].(pc := Idle)] + MakeIdle(ps[1..])
  }

  function DoCheckAbandoned(l: Life, k: nat): Life
    requires k < |l.pieces|
  {
    if Abandoning(l.req) then l.(pieces := l.pieces[k := Piece({}, {}, Finishing)])
    else SetPc(l, k, Checked)
  }

  function DoStartPosting(l: Life, k: nat): Life
    requires k < |l.pieces|
  {
    SetPc(l, k, Posting).(req := SetState(l.req, Inflight))
  }

  function DoAccept(l: Life, k: nat, i: nat): Life
    requires k < |l.pieces|
  {
    var p := l.pieces[k];
    l.(pieces := l.pieces[k := p.(left := p.left - {i}, uncredited := p.uncredited + {i})],
       flow := l.flow.(link := Accept(l.flow.link, i), posted := l.flow.posted + {i}))
  }

  function DoCredit(l: Life, k: nat, o: Outcome3): Life
    requires k < |l.pieces|
  {
    var p := l.pieces[k];
    l.(pieces := l.pieces[k := Piece(p.left, {}, AfterCredit(p.left, o))],
       req := AddAccepted(l.req, |p.uncredited|), flow := l.flow.(credited := l.flow.credited + p.uncredited))
  }

  function DoNoteBroken(l: Life, k: nat, e: ErrorInfo): Life
    requires k < |l.pieces|
  {
    SetPc(l, k, ToDraining).(req := NoteError(l.req, e))
  }

  function DoStartDraining(l: Life, k: nat): Life
    requires k < |l.pieces|
  {
    l.(pieces := l.pieces[k := Piece({}, {}, Finishing)], req := SetState(l.req, Draining))
  }

  function DoFinishPart(l: Life, k: nat): Life
    requires k < |l.pieces|
  {
    var (r, last) := PartFinished(l.req);
    SetPc(l, k, if last then LastCheck else Done).(req := r)
  }

  function DoCheckLast(l: Life, k: nat): Life
    requires k < |l.pieces|
  {
    SetPc(l, k, if Abandoning(l.req) then Sealing else Done)
  }

  function DoSeal(l: Life, k: nat): Life
    requires k < |l.pieces|
  {
    var (r, idle) := SealIfIdle(l.req);
    SetPc(l, k, if idle then Claiming else Done).(req := r)
  }

  function DoPieceClaims(l: Life, k: nat): Life
    requires k < |l.pieces|
  {
    Claim(SetPc(l, k, Done), AfterPiece)
  }

  function DoReport(l: Life, i: nat, ev: Completion): Life {
    l.(flow := l.flow.(link := Report(l.flow.link, i), events := l.flow.events[i := Arrived(ev)]))
  }

  function DoLookUp(l: Life, i: nat): Life
    requires i in l.flow.events && l.flow.events[i].Arrived?
  {
    if InFlight(l.fate) then l.(flow := l.flow.(events := l.flow.events[i := Found(l.flow.events[i].ev)]))
    else l.(flow := l.flow.(events := l.flow.events - {i}))
  }

  function DoCountCompletion(l: Life, i: nat): Life
    requires i in l.flow.events && l.flow.events[i].Found?
  {
    var ev := l.flow.events[i].ev;
    var (r, last) := OnSubopComplete(l.req, ev);
    l.(req := r, flow := l.flow.(
         counted := if Terminal(l.req) then l.flow.counted else l.flow.counted + {i},
         landed := if Terminal(l.req) || ev.status != Ok then l.flow.landed else l.flow.landed + {i},
         events := if last then l.flow.events[i := WasLast] else l.flow.events - {i}))
  }

  function DoEventClaims(l: Life, i: nat): Life {
    Claim(l.(flow := l.flow.(events := l.flow.events - {i})), AfterCompletion)
  }

  function DoTestCancelled(l: Life): Life {
    SetEnder(l, if l.req.cancelRequested then Counting(EndCancel)
                else if l.fate.ender.AfterPiece? then Counting(EndFailure)
                else AfterCancelTest)
  }

  function DoFinish(l: Life, e: ErrorInfo): Life
    requires l.fate.ender.Finalizing?
  {
    l.(req := EndReq(l.req, l.fate.ender.e, e),
       fate := l.fate.(ender := Publishing(l.fate.ender.e), endings := l.fate.endings + 1))
  }

  function DoPublish(l: Life): Life
    requires l.fate.ender.Publishing?
  {
    l.(fate := l.fate.(ender := Ended(l.fate.ender.e), published := l.fate.published + 1))
  }

  function DoCancel(l: Life): Life {
    l.(req := Cancel(l.req).0,
       fate := l.fate.(cancelledInTime := l.fate.cancelledInTime || BeforeTest(l.fate.ender)))
  }

  function Do(l: Life, s: Step): Life
    requires Enabled(l, s)
  {
    match s
    case CountIn => l.(submission := CountedIn)
    case CountParts => DoCountParts(l)
    case WaitForDependency => l.(req := SetState(l.req, WaitDependency))
    case DependencyFailed(k, e) => l.(req := NoteError(l.req, e))
    case CheckAbandoned(k) => DoCheckAbandoned(l, k)
    case StartPosting(k) => DoStartPosting(l, k)
    case TransportAccepts(k, i) => DoAccept(l, k, i)
    case Credit(k, o) => DoCredit(l, k, o)
    case NoteBroken(k, e) => DoNoteBroken(l, k, e)
    case StartDraining(k) => DoStartDraining(l, k)
    case FinishPart(k) => DoFinishPart(l, k)
    case CheckLast(k) => DoCheckLast(l, k)
    case Seal(k) => DoSeal(l, k)
    case PieceClaims(k) => DoPieceClaims(l, k)
    case TransportReports(i, ev) => DoReport(l, i, ev)
    case LookUp(i) => DoLookUp(l, i)
    case CountCompletion(i) => DoCountCompletion(l, i)
    case EventClaims(i) => DoEventClaims(l, i)
    case TestCancelled => DoTestCancelled(l)
    case TestError => SetEnder(l, if l.req.error.IsOk() then Marking else Counting(EndFailure))
    case MarkComplete => SetEnder(l, Counting(EndSuccess)).(req := MarkStage(l.req, TransferComplete))
    case CountEnding => SetEnder(l, Finalizing(l.fate.ender.e))
    case Finish(e) => DoFinish(l, e)
    case Publish => DoPublish(l)
    case CallCancel => DoCancel(l)
    case Disconnect(k) => l.(up := l.up[k := false])
    case ReaperClaims => Claim(l, AfterReap)
    case ReaperSeals => SetEnder(l, Counting(EndStranded)).(req := SealAccepted(l.req))
  }
}
