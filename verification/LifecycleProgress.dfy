/** Every request gets to its end: each step of the threads working on it, and of the transport,
    leaves less to do, but for a turn in which the transport takes nothing. */
module LifecycleProgress {
  import opened Status
  import opened Request
  import opened Provider
  import opened Lifecycle
  import opened LifecycleInvariant
  import opened LifecycleTheorems

  // ---------------- what is left to do ----------------

  function PcRank(pc: Pc): nat {
    match pc
    case NotReady => 12
    case Idle => 10
    case Checked => 9
    case Posting => 8
    case Noting => 7
    case ToDraining => 6
    case Finishing => 5
    case LastCheck => 4
    case Sealing => 3
    case Claiming => 2
    case Done => 0
  }

  /** A sub-operation still to be posted has the longest way to go. */
  function PieceWork(p: Piece): nat {
    20 * |p.left| + 5 * |p.uncredited| + PcRank(p.pc)
  }

  function PiecesWork(ps: seq<Piece>): nat {
    if ps == [] then 0 else PiecesWork(ps[..|ps| - 1]) + PieceWork(ps[|ps| - 1])
  }

  function EventRank(e: Event): nat {
    match e
    case Arrived(_) => 3
    case Found(_) => 2
    case WasLast => 1
  }

  function Ranked(events: map<nat, Event>, rank: nat): set<nat> {
    set i | i in events && EventRank(events[i]) == rank
  }

  function EventsWork(events: map<nat, Event>): nat {
    3 * |Ranked(events, 3)| + 2 * |Ranked(events, 2)| + |Ranked(events, 1)|
  }

  function EnderRank(e: Ender): nat {
    match e
    case Nobody => 10
    case AfterReap => 9
    case AfterPiece => 8
    case AfterCompletion => 8
    case AfterCancelTest => 7
    case Marking => 6
    case Counting(_) => 5
    case Finalizing(_) => 4
    case Publishing(_) => 3
    case Ended(_) => 0
  }

  function SubmissionRank(s: Submission): nat {
    match s
    case Admitted => 2
    case CountedIn => 1
    case PartsSet => 0
  }

  function Work(l: Life): nat {
    PiecesWork(l.pieces) + EventsWork(l.flow.events) + 4 * |l.flow.link.outstanding|
    + EnderRank(l.fate.ender) + SubmissionRank(l.submission)
  }

  // ---------------- how it changes ----------------

  lemma {:induction false} PieceChanges(ps: seq<Piece>, k: nat, p: Piece)
    requires k < |ps|
    ensures PiecesWork(ps[k := p]) + PieceWork(ps[k]) == PiecesWork(ps) + PieceWork(p)
    decreases |ps|
  {
    hide PieceWork;
    var n := |ps| - 1;
    if k == n {
      assert ps[k := p][..n] == ps[..n];
    } else {
      PieceChanges(ps[..n], k, p);
      assert ps[k := p][..n] == ps[..n][k := p];
    }
  }

  lemma {:induction false} AllIdle(ps: seq<Piece>)
    requires forall k :: 0 <= k < |ps| ==> ps[k].pc.NotReady?
    ensures PiecesWork(MakeIdle(ps)) <= PiecesWork(ps)
    decreases |ps|
  {
    if ps != [] {
      var n := |ps| - 1;
      AllIdle(ps[..n]);
      assert MakeIdle(ps)[..n] == MakeIdle(ps[..n]);
    }
  }

  lemma EventGone(events: map<nat, Event>, i: nat)
    requires i in events
    ensures EventsWork(events - {i}) + EventRank(events[i]) == EventsWork(events)
  {
    var r := EventRank(events[i]);
    forall rank | 1 <= rank <= 3
      ensures Ranked(events, rank) == Ranked(events - {i}, rank) + (if rank == r then {i} else {})
    {
    }
  }

  lemma EventCame(events: map<nat, Event>, i: nat, e: Event)
    requires i !in events
    ensures EventsWork(events[i := e]) == EventsWork(events) + EventRank(e)
  {
    EventGone(events[i := e], i);
    assert events[i := e] - {i} == events;
  }

  lemma EventChanges(events: map<nat, Event>, i: nat, e: Event)
    requires i in events
    ensures EventsWork(events[i := e]) + EventRank(events[i]) == EventsWork(events) + EventRank(e)
  {
    EventGone(events, i);
    EventCame(events - {i}, i, e);
    assert (events - {i})[i := e] == events[i := e];
  }

  // ---------------- steps ----------------

  /** A turn in which the transport took nothing and says to come back. */
  predicate EmptyHanded(l: Life, s: Step) {
    && s.Credit? && PieceAt(l, s.k, Posting)
    && l.pieces[s.k].uncredited == {} && AfterCredit(l.pieces[s.k].left, s.o).Idle?
  }

  /** Someone outside: a caller cancelling, a connection going away, a dependency looked at. */
  predicate Outside(s: Step) {
    s.CallCancel? || s.Disconnect? || s.WaitForDependency? || s.DependencyFailed?
  }

  predicate OfPiece(s: Step) {
    s.CheckAbandoned? || s.StartPosting? || s.Credit? || s.NoteBroken? || s.StartDraining? || s.FinishPart?
    || s.CheckLast? || s.Seal?
  }

  /** The step touches no piece but its own, and nothing else that counts. */
  ghost predicate OnlyPiece(l: Life, e: Life, k: nat) {
    && e.flow.events == l.flow.events && e.flow.link == l.flow.link && e.fate == l.fate
    && e.submission == l.submission && |e.pieces| == |l.pieces|
    && k < |l.pieces| && e.pieces == l.pieces[k := e.pieces[k]]
  }

  lemma CreditShrinks(l: Life, s: Step)
    requires Enabled(l, s) && s.Credit?
    ensures var e := Do(l, s);
            && OnlyPiece(l, e, s.k)
            && if EmptyHanded(l, s) then PieceWork(e.pieces[s.k]) == PieceWork(l.pieces[s.k]) + 2
               else PieceWork(e.pieces[s.k]) < PieceWork(l.pieces[s.k])
  {
    hide AddAccepted;
    var p := l.pieces[s.k];
    assert p.uncredited == {} || |p.uncredited| >= 1;
  }

  lemma PieceShrinks(l: Life, s: Step)
    requires Enabled(l, s) && OfPiece(s) && !s.Credit?
    ensures var e := Do(l, s); OnlyPiece(l, e, s.k) && PieceWork(e.pieces[s.k]) < PieceWork(l.pieces[s.k])
  {
    hide NoteError, SetState, PartFinished, SealIfIdle, Abandoning;
  }

  lemma OfPieceShrinks(l: Life, s: Step)
    requires Enabled(l, s) && OfPiece(s)
    ensures if EmptyHanded(l, s) then Work(Do(l, s)) == Work(l) + 2 else Work(Do(l, s)) < Work(l)
  {
    if s.Credit? {
      CreditShrinks(l, s);
    } else {
      PieceShrinks(l, s);
    }
    var e := Do(l, s);
    hide Do, Enabled, PieceWork, EventsWork, EmptyHanded;
    PieceChanges(l.pieces, s.k, e.pieces[s.k]);
  }

  lemma ClaimShrinks(l: Life, e: Ender)
    requires e.AfterPiece? || e.AfterCompletion? || e.AfterReap?
    ensures var c := Claim(l, e);
            && EnderRank(c.fate.ender) <= EnderRank(l.fate.ender)
            && c.pieces == l.pieces && c.flow == l.flow && c.submission == l.submission
            && (InFlight(l.fate) ==> EnderRank(c.fate.ender) < EnderRank(l.fate.ender))
  {
  }

  lemma PieceClaimsShrinks(l: Life, k: nat)
    requires Enabled(l, PieceClaims(k))
    ensures Work(Do(l, PieceClaims(k))) < Work(l)
  {
    var d := SetPc(l, k, Done);
    ClaimShrinks(d, AfterPiece);
    PieceChanges(l.pieces, k, d.pieces[k]);
    hide Claim, EventsWork;
  }

  lemma AcceptShrinks(l: Life, k: nat, i: nat)
    requires Enabled(l, TransportAccepts(k, i))
    ensures Work(Do(l, TransportAccepts(k, i))) < Work(l)
  {
    var p := l.pieces[k];
    var q := p.(left := p.left - {i}, uncredited := p.uncredited + {i});
    PieceChanges(l.pieces, k, q);
    assert |p.left - {i}| == |p.left| - 1 && |p.uncredited + {i}| <= |p.uncredited| + 1;
    assert |l.flow.link.outstanding + {i}| <= |l.flow.link.outstanding| + 1;
    hide EventsWork, PiecesWork;
  }

  lemma ReportShrinks(l: Life, i: nat, ev: Completion)
    requires Enabled(l, TransportReports(i, ev))
    ensures Work(Do(l, TransportReports(i, ev))) < Work(l)
  {
    assert |l.flow.link.outstanding - {i}| == |l.flow.link.outstanding| - 1;
    if i in l.flow.events {
      EventChanges(l.flow.events, i, Arrived(ev));
    } else {
      EventCame(l.flow.events, i, Arrived(ev));
    }
    hide EventsWork, PiecesWork;
  }

  lemma EventShrinks(l: Life, s: Step)
    requires Enabled(l, s) && (s.LookUp? || s.CountCompletion? || s.EventClaims?)
    ensures Work(Do(l, s)) < Work(l)
  {
    var events := l.flow.events;
    EventGone(events, s.i);
    match s
    case LookUp(i) => EventChanges(events, i, Found(events[i].ev));
    case CountCompletion(i) => EventChanges(events, i, WasLast);
    case EventClaims(i) => ClaimShrinks(l.(flow := l.flow.(events := events - {i})), AfterCompletion);
  }

  lemma EnderShrinks(l: Life, s: Step)
    requires Enabled(l, s)
    requires s.TestCancelled? || s.TestError? || s.MarkComplete? || s.CountEnding? || s.Finish? || s.Publish?
             || s.ReaperClaims? || s.ReaperSeals? || s.CountIn?
    ensures Work(Do(l, s)) < Work(l)
  {
    hide EventsWork, PiecesWork, EndReq, MarkStage, SealAccepted;
  }

  lemma CountPartsShrinks(l: Life)
    requires Inv(l) && Enabled(l, CountParts)
    ensures Work(Do(l, CountParts)) < Work(l)
  {
    assert PartsInv(l.req.partsLeft, l.pieces, l.submission);
    hide Inv;
    AllIdle(l.pieces);
    hide EventsWork, PiecesWork, PartsInv;
  }

  lemma OutsideKeeps(l: Life, s: Step)
    requires Enabled(l, s) && Outside(s)
    ensures Work(Do(l, s)) == Work(l)
  {
    hide EventsWork, PiecesWork, Cancel, NoteError, SetState;
  }

  /** Every step but those from outside and the empty-handed turns leaves less to do. */
  lemma StepShrinks(l: Life, s: Step)
    requires Inv(l) && Enabled(l, s)
    ensures if Outside(s) then Work(Do(l, s)) == Work(l)
            else if EmptyHanded(l, s) then Work(Do(l, s)) == Work(l) + 2
            else Work(Do(l, s)) < Work(l)
  {
    if Outside(s) {
      OutsideKeeps(l, s);
    } else if OfPiece(s) {
      OfPieceShrinks(l, s);
    } else {
      hide Inv, Enabled, Do, Work, EmptyHanded;
      NotEmptyHanded(l, s);
      match s
      case PieceClaims(k) => PieceClaimsShrinks(l, k);
      case TransportAccepts(k, i) => AcceptShrinks(l, k, i);
      case TransportReports(i, ev) => ReportShrinks(l, i, ev);
      case LookUp(_) => EventShrinks(l, s);
      case CountCompletion(_) => EventShrinks(l, s);
      case EventClaims(_) => EventShrinks(l, s);
      case CountParts => CountPartsShrinks(l);
      case _ => EnderShrinks(l, s);
    }
  }

  lemma NotEmptyHanded(l: Life, s: Step)
    requires !OfPiece(s)
    ensures !EmptyHanded(l, s)
  {
  }

  // ---------------- every run ----------------

  /** The steps of a run that get the request on, and the turns that came back empty-handed. */
  ghost function Tally(l: Life, steps: seq<Step>): (nat, nat)
    requires CanRun(l, steps)
    decreases |steps|
  {
    if steps == [] then (0, 0)
    else
      var (on, empty) := Tally(Do(l, steps[0]), steps[1..]);
      if Outside(steps[0]) then (on, empty)
      else if EmptyHanded(l, steps[0]) then (on, empty + 1)
      else (on + 1, empty)
  }

  lemma {:induction false} RunShrinks(l: Life, steps: seq<Step>)
    requires Inv(l) && CanRun(l, steps)
    ensures Tally(l, steps).0 + Work(After(l, steps)) <= Work(l) + 2 * Tally(l, steps).1
    decreases |steps|
  {
    hide Inv, Enabled, Do, Work, EmptyHanded, Outside;
    if steps != [] {
      StepShrinks(l, steps[0]);
      StepKeepsInv(l, steps[0]);
      RunShrinks(Do(l, steps[0]), steps[1..]);
    }
  }

  /** From any reachable state, however its threads and the transport interleave and whatever happens
      outside, a request takes only so many steps: as many as there is work left, and two more for
      each empty-handed turn. When there are none left to take it has been published, or the
      transport owes a completion. */
  lemma EveryRequestEnds(l: Life, steps: seq<Step>)
    requires Reachable(l) && CanRun(l, steps)
    ensures Tally(l, steps).0 <= Work(l) + 2 * Tally(l, steps).1
    ensures (forall s :: Working(s) ==> !Enabled(After(l, steps), s)) ==>
              After(l, steps).fate.ender.Ended? || After(l, steps).flow.link.outstanding != {}
  {
    ReachableInv(l);
    RunShrinks(l, steps);
    ReachableRun(l, steps);
    hide Inv, Enabled, Do, Work, Tally, Reachable, CanRun, After;
    if !After(l, steps).fate.ender.Ended? {
      NeverStuck(After(l, steps));
    }
  }

  lemma {:induction false} ReachableRun(l: Life, steps: seq<Step>)
    requires Reachable(l) && CanRun(l, steps)
    ensures Reachable(After(l, steps))
    decreases |steps|
  {
    hide Enabled, Do, Reachable;
    if steps != [] {
      ReachableStep(l, steps[0]);
      ReachableRun(Do(l, steps[0]), steps[1..]);
    }
  }

  const ONE_REAPED := ONE_IDLE.(
    up := [false], req := ONE_IDLE.req.(sealed := true), fate := Fate(Counting(EndStranded), 1, 0, 0, false))

  lemma ReapedIsReachable()
    ensures Reachable(ONE_REAPED)
  {
    IdleIsReachable();
    hide Reachable;
    ReachableStep(ONE_IDLE, Disconnect(0));
    var l1 := ONE_IDLE.(up := [false]);
    assert Do(ONE_IDLE, Disconnect(0)) == l1;
    ReachableStep(l1, ReaperClaims);
    var l2 := l1.(fate := Fate(AfterReap, 1, 0, 0, false));
    assert Do(l1, ReaperClaims) == l2;
    ReachableStep(l2, ReaperSeals);
    assert Do(l2, ReaperSeals) == ONE_REAPED;
  }

  /** A request all of whose connections have gone ends failed, with the reason the reaper gives,
      having posted nothing. */
  lemma ReaperEndsIt(e: ErrorInfo)
    requires !e.IsOk()
    ensures exists l :: Reachable(l) && l.fate.ender.Ended? && l.req.state.Failed? && l.req.error == e && l.req.sealed
              && l.up == [false] && l.flow.posted == {}
  {
    ReapedIsReachable();
    hide Reachable;
    ReachableStep(ONE_REAPED, CountEnding);
    var l1 := ONE_REAPED.(fate := Fate(Finalizing(EndStranded), 1, 0, 0, false));
    assert Do(ONE_REAPED, CountEnding) == l1;
    ReachableStep(l1, Finish(e));
    var l2 := Do(l1, Finish(e));
    ReachableStep(l2, Publish);
  }
}
