/** The invariant of one request's life, in parts that each speak about a few fields, and the
    proof that every step of every thread keeps all of them. */
module LifecycleInvariant {
  import opened Status
  import opened Request
  import opened Provider
  import opened Lifecycle

  /** Past the point where the piece's part is counted as finished. */
  predicate Closed(pc: Pc) {
    pc.LastCheck? || pc.Sealing? || pc.Claiming? || pc.Done?
  }

  predicate LastPart(pc: Pc) {
    pc.LastCheck? || pc.Sealing? || pc.Claiming?
  }

  function OpenParts(ps: seq<Piece>): set<nat> {
    set k | 0 <= k < |ps| && !Closed(ps[k].pc)
  }

  ghost predicate AllClosed(ps: seq<Piece>) {
    forall k :: 0 <= k < |ps| ==> Closed(ps[k].pc)
  }

  predicate HasWork(pc: Pc) {
    pc.NotReady? || pc.Idle? || pc.Checked? || pc.Noting? || pc.ToDraining?
  }

  ghost predicate Shape(l: Life) {
    && WellPlanned(l.laneOf, |l.up|)
    && |l.pieces| == |l.up|
    && l.req.total == |l.laneOf|
  }

  /** A piece, given the sub-operations of its lane and the state of the whole request. */
  predicate PieceInv(p: Piece, lane: set<nat>, posted: set<nat>, credited: set<nat>, abandoning: bool) {
    && p.left <= lane
    && p.left !! posted
    && p.uncredited <= lane
    && p.uncredited <= posted
    && p.uncredited !! credited
    && (HasWork(p.pc) ==> p.left != {})
    && (!p.pc.Posting? ==> p.uncredited == {})
    && (Closed(p.pc) || p.pc.Finishing? ==> p.left == {})
    && ((p.pc.ToDraining? || p.pc.Sealing? || p.pc.Claiming?) ==> abandoning)
  }

  ghost predicate PiecesInv(laneOf: seq<nat>, ps: seq<Piece>, posted: set<nat>, credited: set<nat>, abandoning: bool) {
    forall k :: 0 <= k < |ps| ==> PieceInv(ps[k], Lane(laneOf, k), posted, credited, abandoning)
  }

  /** Every sub-operation was posted or still waits in its piece, unless the request was given up. */
  ghost predicate WorkInv(laneOf: seq<nat>, ps: seq<Piece>, posted: set<nat>, abandoning: bool)
    requires forall i :: 0 <= i < |laneOf| ==> laneOf[i] < |ps|
  {
    abandoning || forall i :: 0 <= i < |laneOf| ==> i in posted || i in ps[laneOf[i]].left
  }

  /** What add_accepted_subops has not counted yet is in the hands of a thread about to. */
  ghost predicate CreditInv(laneOf: seq<nat>, ps: seq<Piece>, posted: set<nat>, credited: set<nat>)
    requires forall i :: 0 <= i < |laneOf| ==> laneOf[i] < |ps|
  {
    forall i :: 0 <= i < |laneOf| && i in posted ==> i in credited || i in ps[laneOf[i]].uncredited
  }

  ghost predicate PartsInv(partsLeft: nat, ps: seq<Piece>, submission: Submission) {
    && (submission.PartsSet? ==> partsLeft == |OpenParts(ps)|)
    && (forall k :: 0 <= k < |ps| ==> (ps[k].pc.NotReady? <==> !submission.PartsSet?))
    && (forall k, j :: 0 <= k < |ps| && 0 <= j < |ps| && LastPart(ps[k].pc) ==> Closed(ps[j].pc))
  }

  /** What is where: nothing accepted is lost while the request is in flight. */
  ghost predicate FlowInv(n: nat, f: Flow, inflight: bool) {
    && f.posted <= Upto(n)
    && f.link.outstanding <= f.posted
    && f.events.Keys <= f.posted
    && f.credited <= f.posted
    && f.landed <= f.counted <= f.posted
    && f.link.outstanding !! f.events.Keys
    && f.link.outstanding !! f.counted
    && (forall i :: i in f.events ==> (f.events[i].WasLast? <==> i in f.counted))
    && (inflight ==> f.posted == f.link.outstanding + f.events.Keys + f.counted)
  }

  /** The request's counters mean what they say. */
  ghost predicate CountersInv(r: Req, f: Flow) {
    && r.accepted == |f.credited|
    && r.completed == |f.counted|
    && (f.counted != f.landed ==> !r.error.IsOk())
  }

  /** Nothing of this request moves bytes, now or later: what the transport holds or may
      still be given of it is on connections that have stopped. */
  ghost predicate Inert(laneOf: seq<nat>, ps: seq<Piece>, up: seq<bool>, outstanding: set<nat>)
    requires |ps| == |up|
    requires forall i :: 0 <= i < |laneOf| ==> laneOf[i] < |ps|
  {
    forall i :: 0 <= i < |laneOf| ==>
      (i in outstanding || i in ps[laneOf[i]].left) ==> !up[laneOf[i]]
  }

  predicate Decided(e: Ender) {
    e.Counting? || e.Finalizing? || e.Publishing? || e.Ended?
  }

  function FinalState(e: Ending): State {
    match e
    case EndSuccess => Succeeded
    case EndFailure => Failed
    case EndStranded => Failed
    case EndCancel => CancelledState
  }

  /** How far the ending is, and what the request shows of it. */
  ghost predicate FateInv(f: Fate, r: Req) {
    && f.claims == (if InFlight(f) then 0 else 1)
    && (Terminal(r) <==> f.ender.Publishing? || f.ender.Ended?)
    && f.endings == (if Terminal(r) then 1 else 0)
    && f.published == (if f.ender.Ended? then 1 else 0)
    && (Terminal(r) ==> r.state == FinalState(f.ender.e))
    && (r.state.Failed? ==> !r.error.IsOk())
    && EndingsExclusive(r)
    && (f.cancelledInTime ==> r.cancelRequested)
    && (f.cancelledInTime ==>
          (BeforeTest(f.ender) || f.ender.AfterReap?
           || (Decided(f.ender) && (f.ender.e.EndCancel? || f.ender.e.EndStranded?))))
    && (r.cancelRequested && BeforeTest(f.ender) ==> f.cancelledInTime)
  }

  /** Why the ender may end the request the way it is about to. */
  ghost predicate ReasonInv(n: nat, f: Flow, e: Ender, r: Req) {
    && (e.AfterPiece? ==> Abandoning(r))
    && (e.AfterCompletion? ==> f.counted == Upto(n) || Abandoning(r))
    && (e.AfterCancelTest? ==> f.counted == Upto(n) || !r.error.IsOk())
    && (e.Marking? || (Decided(e) && e.e.EndSuccess?) ==> f.landed == Upto(n) && r.error.IsOk())
    && (Decided(e) && e.e.EndFailure? ==> !r.error.IsOk())
    && (Decided(e) && e.e.EndCancel? ==> r.cancelRequested)
  }

  /** While in flight, the seal is set only when every lane is done posting, and the two places
      that find the request finished look at a complete count. */
  ghost predicate SealInv(n: nat, f: Flow, ps: seq<Piece>, r: Req) {
    && (r.sealed ==> Abandoning(r) && AllClosed(ps))
    && (forall k :: 0 <= k < |ps| && ps[k].pc.Claiming? ==> f.counted == f.posted)
    && (forall i :: i in f.events && f.events[i].WasLast? ==>
        f.counted == Upto(n) || (r.sealed && f.counted == f.posted))
  }

  /** Someone is about to claim the request. */
  ghost predicate SomeoneWillClaim(ps: seq<Piece>, events: map<nat, Event>) {
    || (exists k :: 0 <= k < |ps| && ps[k].pc.Claiming?)
    || (exists i :: i in events && events[i].WasLast?)
  }

  /** Every part has decided whether the request has to be sealed. */
  ghost predicate PartsDecided(ps: seq<Piece>) {
    forall k :: 0 <= k < |ps| ==> ps[k].pc.Done? || ps[k].pc.Claiming?
  }

  /** While in flight, a request whose count is complete is about to be claimed, and once all
      parts are decided the count is measured against something it can reach. */
  ghost predicate ProgressInv(n: nat, f: Flow, ps: seq<Piece>, r: Req) {
    && (f.counted == Upto(n) ==> SomeoneWillClaim(ps, f.events))
    && (r.sealed && f.counted == f.posted ==> SomeoneWillClaim(ps, f.events))
    && (PartsDecided(ps) ==> r.sealed || f.posted == Upto(n))
  }

  ghost predicate Inv(l: Life) {
    && Shape(l)
    && PiecesInv(l.laneOf, l.pieces, l.flow.posted, l.flow.credited, Abandoning(l.req))
    && WorkInv(l.laneOf, l.pieces, l.flow.posted, Abandoning(l.req))
    && CreditInv(l.laneOf, l.pieces, l.flow.posted, l.flow.credited)
    && PartsInv(l.req.partsLeft, l.pieces, l.submission)
    && FlowInv(|l.laneOf|, l.flow, InFlight(l.fate))
    && CountersInv(l.req, l.flow)
    && FateInv(l.fate, l.req)
    && ReasonInv(|l.laneOf|, l.flow, l.fate.ender, l.req)
    && (!InFlight(l.fate) ==> Inert(l.laneOf, l.pieces, l.up, l.flow.link.outstanding))
    && (InFlight(l.fate) ==> SealInv(|l.laneOf|, l.flow, l.pieces, l.req))
    && (InFlight(l.fate) ==> ProgressInv(|l.laneOf|, l.flow, l.pieces, l.req))
  }

  // ---------------- every step keeps it ----------------

  // The components of the invariant, one at a time, when piece k becomes p.

  lemma OpenPartsUpdate(ps: seq<Piece>, k: nat, p: Piece)
    requires k < |ps|
    ensures Closed(p.pc) == Closed(ps[k].pc) ==> OpenParts(ps[k := p]) == OpenParts(ps)
    ensures Closed(p.pc) && !Closed(ps[k].pc) ==> OpenParts(ps[k := p]) == OpenParts(ps) - {k} && k in OpenParts(ps)
  {
  }

  lemma PiecesUpdate(laneOf: seq<nat>, ps: seq<Piece>, k: nat, p: Piece,
                     posted: set<nat>, posted': set<nat>, credited: set<nat>, credited': set<nat>, ab: bool, ab': bool)
    requires k < |ps| && PiecesInv(laneOf, ps, posted, credited, ab)
    requires posted <= posted' && posted' - posted <= Lane(laneOf, k)
    requires credited <= credited' && credited' - credited <= Lane(laneOf, k)
    requires ab ==> ab'
    requires PieceInv(p, Lane(laneOf, k), posted', credited', ab')
    ensures PiecesInv(laneOf, ps[k := p], posted', credited', ab')
  {
    forall j | 0 <= j < |ps| && j != k
      ensures PieceInv(ps[j], Lane(laneOf, j), posted', credited', ab')
    {
      assert Lane(laneOf, j) !! Lane(laneOf, k);
    }
  }

  lemma WorkUpdate(laneOf: seq<nat>, ps: seq<Piece>, k: nat, p: Piece, posted: set<nat>, posted': set<nat>, ab: bool,
                   ab': bool)
    requires k < |ps| && forall i :: 0 <= i < |laneOf| ==> laneOf[i] < |ps|
    requires WorkInv(laneOf, ps, posted, ab)
    requires posted <= posted' && (ab ==> ab')
    requires ab' || ps[k].left <= p.left + posted'
    ensures WorkInv(laneOf, ps[k := p], posted', ab')
  {
  }

  lemma CreditUpdate(laneOf: seq<nat>, ps: seq<Piece>, k: nat, p: Piece,
                     posted: set<nat>, posted': set<nat>, credited: set<nat>, credited': set<nat>)
    requires k < |ps| && forall i :: 0 <= i < |laneOf| ==> laneOf[i] < |ps|
    requires CreditInv(laneOf, ps, posted, credited)
    requires posted' - posted <= Lane(laneOf, k) * p.uncredited
    requires credited <= credited' && ps[k].uncredited <= p.uncredited + credited'
    ensures CreditInv(laneOf, ps[k := p], posted', credited')
  {
    forall i | 0 <= i < |laneOf| && i in posted'
      ensures i in credited' || i in ps[k := p][laneOf[i]].uncredited
    {
      if i !in posted {
        assert i in posted' - posted;
      }
    }
  }

  lemma InertUpdate(laneOf: seq<nat>, ps: seq<Piece>, k: nat, p: Piece, up: seq<bool>, out: set<nat>, out': set<nat>)
    requires |ps| == |up| && k < |ps| && forall i :: 0 <= i < |laneOf| ==> laneOf[i] < |ps|
    requires Inert(laneOf, ps, up, out)
    requires p.left <= ps[k].left && out' - out <= ps[k].left * Lane(laneOf, k)
    ensures Inert(laneOf, ps[k := p], up, out')
  {
    forall i | 0 <= i < |laneOf| && (i in out' || i in ps[k := p][laneOf[i]].left)
      ensures !up[laneOf[i]]
    {
      if i in out' && i !in out {
        assert i in out' - out;
      }
    }
  }

  /** With a part still open, nobody has sealed the request or is deciding about it, so only a
      completion can be about to claim it. */
  lemma OpenPartSeal(n: nat, f: Flow, f': Flow, ps: seq<Piece>, k: nat, p: Piece, r: Req, r': Req)
    requires k < |ps| && !Closed(ps[k].pc) && !Closed(p.pc)
    requires forall i, j :: 0 <= i < |ps| && 0 <= j < |ps| && LastPart(ps[i].pc) ==> Closed(ps[j].pc)
    requires SealInv(n, f, ps, r) && ProgressInv(n, f, ps, r)
    requires f'.events == f.events && f'.counted == f.counted && r'.sealed == r.sealed
    ensures SealInv(n, f', ps[k := p], r') && ProgressInv(n, f', ps[k := p], r')
  {
    assert ps[k := p][k] == p;
    forall j | 0 <= j < |ps| ensures !ps[j].pc.Claiming? {
    }
  }

  /** What a piece may do to the request besides counting: move its state while it has not
      ended, and record a first error while it has work left. */
  predicate SoftChange(r: Req, r': Req, hasWork: bool) {
    && r'.total == r.total && r'.sealed == r.sealed && r'.completed == r.completed
    && r'.cancelRequested == r.cancelRequested && r'.stages == r.stages
    && (r'.state == r.state || (!Terminal(r) && !Terminal(r')))
    && (r'.error == r.error || (hasWork && r.error.IsOk() && !r'.error.IsOk() && !Terminal(r)))
  }

  lemma SoftFate(n: nat, f: Flow, f': Flow, fate: Fate, r: Req, r': Req, hasWork: bool)
    requires FateInv(fate, r) && ReasonInv(n, f, fate.ender, r)
    requires SoftChange(r, r', hasWork)
    requires f'.counted == f.counted && f'.landed == f.landed
    requires hasWork ==> f.landed != Upto(n)
    ensures FateInv(fate, r') && ReasonInv(n, f', fate.ender, r')
  {
  }

  lemma PieceFacts(l: Life, k: nat)
    requires Inv(l) && k < |l.pieces|
    ensures var p := l.pieces[k];
            PieceInv(p, Lane(l.laneOf, k), l.flow.posted, l.flow.credited, Abandoning(l.req))
    ensures l.pieces[k].left != {} ==> l.flow.landed != Upto(|l.laneOf|)
    ensures forall i, j :: 0 <= i < |l.pieces| && 0 <= j < |l.pieces| && LastPart(l.pieces[i].pc) ==>
            Closed(l.pieces[j].pc)
  {
    if l.pieces[k].left != {} {
      var i :| i in l.pieces[k].left;
      assert i in Upto(|l.laneOf|) && i !in l.flow.landed;
    }
  }

  lemma PartsReady(partsLeft: nat, ps: seq<Piece>, submission: Submission, k: nat)
    requires PartsInv(partsLeft, ps, submission) && k < |ps|
    ensures submission.PartsSet? <==> !ps[k].pc.NotReady?
    ensures forall j :: 0 <= j < |ps| && !submission.PartsSet? ==> ps[j].pc.NotReady?
    ensures LastPart(ps[k].pc) ==> AllClosed(ps)
  {
  }

  lemma TerminalWasClaimed(f: Fate, r: Req)
    requires FateInv(f, r) && Terminal(r)
    ensures !InFlight(f)
  {
  }

  lemma PartsUpdate(partsLeft: nat, ps: seq<Piece>, submission: Submission, k: nat, p: Piece)
    requires k < |ps| && PartsInv(partsLeft, ps, submission)
    requires !Closed(ps[k].pc) && !Closed(p.pc) && (p.pc.NotReady? <==> ps[k].pc.NotReady?)
    ensures PartsInv(partsLeft, ps[k := p], submission)
  {
    OpenPartsUpdate(ps, k, p);
  }

  /** How one open piece, with the request and its flow, may move on. */
  predicate OpenChange(lane: set<nat>, p: Piece, p': Piece, r: Req, r': Req, f: Flow, f': Flow) {
    && !Closed(p.pc) && !Closed(p'.pc) && (p'.pc.NotReady? <==> p.pc.NotReady?)
    && PieceInv(p', lane, f'.posted, f'.credited, Abandoning(r'))
    && (Abandoning(r') || p.left <= p'.left + f'.posted)
    && p'.left <= p.left
    && p.uncredited <= p'.uncredited + f'.credited
    && SoftChange(r, r', p.left != {})
    && r'.partsLeft == r.partsLeft
    && f.posted <= f'.posted && f'.posted - f.posted <= p.left * p'.uncredited
    && f'.link.outstanding - f.link.outstanding <= f'.posted - f.posted
    && f.credited <= f'.credited && f'.credited - f.credited <= p.uncredited
    && f'.events == f.events && f'.counted == f.counted && f'.landed == f.landed
  }

  lemma OpenPieceStep(l: Life, k: nat, p: Piece, r: Req, f: Flow)
    requires Inv(l)
    requires k < |l.pieces| && OpenChange(Lane(l.laneOf, k), l.pieces[k], p, l.req, r, l.flow, f)
    requires FlowInv(|l.laneOf|, f, InFlight(l.fate)) && CountersInv(r, f)
    ensures Inv(l.(pieces := l.pieces[k := p], req := r, flow := f))
  {
    hide PiecesInv, WorkInv, CreditInv, FlowInv, FateInv, ReasonInv, CountersInv, Inert, SealInv, ProgressInv, PartsInv,
         Lane;
    PieceFacts(l, k);
    PiecesUpdate(l.laneOf, l.pieces, k, p, l.flow.posted, f.posted, l.flow.credited, f.credited, Abandoning(l.req),
                 Abandoning(r));
    WorkUpdate(l.laneOf, l.pieces, k, p, l.flow.posted, f.posted, Abandoning(l.req), Abandoning(r));
    CreditUpdate(l.laneOf, l.pieces, k, p, l.flow.posted, f.posted, l.flow.credited, f.credited);
    PartsUpdate(l.req.partsLeft, l.pieces, l.submission, k, p);
    SoftFate(|l.laneOf|, l.flow, f, l.fate, l.req, r, l.pieces[k].left != {});
    if InFlight(l.fate) {
      OpenPartSeal(|l.laneOf|, l.flow, f, l.pieces, k, p, l.req, r);
    } else {
      InertUpdate(l.laneOf, l.pieces, k, p, l.up, l.flow.link.outstanding, f.link.outstanding);
    }
  }

  lemma CheckAbandonedKeeps(l: Life, k: nat)
    requires Inv(l) && PieceAt(l, k, Idle)
    ensures Inv(DoCheckAbandoned(l, k))
  {
    hide PiecesInv, WorkInv, CreditInv, PartsInv, FlowInv, CountersInv, FateInv, ReasonInv, Inert, SealInv, ProgressInv;
    PieceFacts(l, k);
    OpenPieceStep(l, k, if Abandoning(l.req) then Piece({}, {}, Finishing)
                  else l.pieces[k].(pc := Checked), l.req, l.flow);
  }

  lemma StartPostingKeeps(l: Life, k: nat)
    requires Inv(l) && PieceAt(l, k, Checked)
    ensures Inv(DoStartPosting(l, k))
  {
    hide PiecesInv, WorkInv, CreditInv, PartsInv, FlowInv, FateInv, ReasonInv, Inert, SealInv, ProgressInv;
    PieceFacts(l, k);
    OpenPieceStep(l, k, l.pieces[k].(pc := Posting), SetState(l.req, Inflight), l.flow);
  }

  lemma AcceptFlow(n: nat, f: Flow, inflight: bool, i: nat)
    requires FlowInv(n, f, inflight) && i < n && i !in f.posted
    ensures i !in f.credited
    ensures FlowInv(n, f.(link := Accept(f.link, i), posted := f.posted + {i}), inflight)
  {
  }

  lemma CreditFlow(n: nat, f: Flow, inflight: bool, r: Req, c: set<nat>)
    requires FlowInv(n, f, inflight) && CountersInv(r, f) && c <= f.posted && c !! f.credited
    ensures FlowInv(n, f.(credited := f.credited + c), inflight)
    ensures CountersInv(AddAccepted(r, |c|), f.(credited := f.credited + c))
  {
  }

  lemma AcceptChange(lane: set<nat>, p: Piece, r: Req, f: Flow, i: nat)
    requires p.pc.Posting? && PieceInv(p, lane, f.posted, f.credited, Abandoning(r))
    requires i in p.left && i !in f.credited
    ensures OpenChange(lane, p, p.(left := p.left - {i}, uncredited := p.uncredited + {i}), r, r,
                       f, f.(link := Accept(f.link, i), posted := f.posted + {i}))
  {
  }

  lemma AcceptKeeps(l: Life, k: nat, i: nat)
    requires Inv(l) && PieceAt(l, k, Posting) && i in l.pieces[k].left
    ensures Inv(DoAccept(l, k, i))
  {
    hide PiecesInv, WorkInv, CreditInv, PartsInv, FlowInv, CountersInv, FateInv, ReasonInv, Inert, SealInv, ProgressInv,
         OpenChange;
    PieceFacts(l, k);
    assert i in Lane(l.laneOf, k);
    var p := l.pieces[k];
    var f := l.flow.(link := Accept(l.flow.link, i), posted := l.flow.posted + {i});
    AcceptFlow(|l.laneOf|, l.flow, InFlight(l.fate), i);
    AcceptChange(Lane(l.laneOf, k), p, l.req, l.flow, i);
    assert CountersInv(l.req, f) by {
      SameCounters(l.req, l.flow, f);
    }
    OpenPieceStep(l, k, p.(left := p.left - {i}, uncredited := p.uncredited + {i}), l.req, f);
  }

  lemma SameCounters(r: Req, f: Flow, f': Flow)
    requires CountersInv(r, f) && f'.credited == f.credited && f'.counted == f.counted && f'.landed == f.landed
    ensures CountersInv(r, f')
  {
  }

  lemma CreditChange(lane: set<nat>, p: Piece, r: Req, f: Flow, o: Outcome3)
    requires p.pc.Posting? && PieceInv(p, lane, f.posted, f.credited, Abandoning(r))
    requires !o.Whole? ==> p.left != {}
    ensures OpenChange(lane, p, Piece(p.left, {}, AfterCredit(p.left, o)), r, AddAccepted(r, |p.uncredited|),
                       f, f.(credited := f.credited + p.uncredited))
  {
  }

  lemma CreditKeeps(l: Life, k: nat, o: Outcome3)
    requires Inv(l) && PieceAt(l, k, Posting) && (!o.Whole? ==> l.pieces[k].left != {})
    ensures Inv(DoCredit(l, k, o))
  {
    hide PiecesInv, WorkInv, CreditInv, PartsInv, FlowInv, CountersInv, FateInv, ReasonInv, Inert, SealInv, ProgressInv,
         OpenChange;
    PieceFacts(l, k);
    var p := l.pieces[k];
    CreditFlow(|l.laneOf|, l.flow, InFlight(l.fate), l.req, p.uncredited);
    CreditChange(Lane(l.laneOf, k), p, l.req, l.flow, o);
    OpenPieceStep(l, k, Piece(p.left, {}, AfterCredit(p.left, o)), AddAccepted(l.req, |p.uncredited|),
                  l.flow.(credited := l.flow.credited + p.uncredited));
  }

  lemma NoteBrokenKeeps(l: Life, k: nat, e: ErrorInfo)
    requires Inv(l) && PieceAt(l, k, Noting) && !e.IsOk()
    ensures Inv(DoNoteBroken(l, k, e))
  {
    hide PiecesInv, WorkInv, CreditInv, PartsInv, FlowInv, FateInv, ReasonInv, Inert, SealInv, ProgressInv;
    PieceFacts(l, k);
    OpenPieceStep(l, k, l.pieces[k].(pc := ToDraining), NoteError(l.req, e), l.flow);
  }

  lemma DependencyFailedKeeps(l: Life, k: nat, e: ErrorInfo)
    requires Inv(l) && PieceAt(l, k, Idle) && !e.IsOk()
    ensures Inv(l.(req := NoteError(l.req, e)))
  {
    hide PiecesInv, WorkInv, CreditInv, PartsInv, FlowInv, FateInv, ReasonInv, Inert, SealInv, ProgressInv;
    PieceFacts(l, k);
    assert l.pieces[k := l.pieces[k]] == l.pieces;
    OpenPieceStep(l, k, l.pieces[k], NoteError(l.req, e), l.flow);
  }

  lemma StartDrainingKeeps(l: Life, k: nat)
    requires Inv(l) && PieceAt(l, k, ToDraining)
    ensures Inv(DoStartDraining(l, k))
  {
    hide PiecesInv, WorkInv, CreditInv, PartsInv, FlowInv, FateInv, ReasonInv, Inert, SealInv, ProgressInv;
    PieceFacts(l, k);
    OpenPieceStep(l, k, Piece({}, {}, Finishing), SetState(l.req, Draining), l.flow);
  }

  lemma WaitForDependencyKeeps(l: Life)
    requires Inv(l) && l.submission.PartsSet?
    ensures Inv(l.(req := SetState(l.req, WaitDependency)))
  {
    hide PiecesInv, WorkInv, CreditInv, PartsInv, FlowInv, FateInv, ReasonInv, Inert;
    SoftFate(|l.laneOf|, l.flow, l.flow, l.fate, l.req, SetState(l.req, WaitDependency), false);
  }

  lemma CountInKeeps(l: Life)
    requires Inv(l) && l.submission.Admitted?
    ensures Inv(l.(submission := CountedIn))
  {
    hide PiecesInv, WorkInv, CreditInv, FlowInv, CountersInv, FateInv, ReasonInv, Inert, SealInv, ProgressInv;
  }

  lemma IdlePieces(laneOf: seq<nat>, ps: seq<Piece>, f: Flow, up: seq<bool>, ab: bool)
    requires |ps| == |up| && forall i :: 0 <= i < |laneOf| ==> laneOf[i] < |ps|
    requires forall k :: 0 <= k < |ps| ==> ps[k].pc.NotReady?
    requires PiecesInv(laneOf, ps, f.posted, f.credited, ab) && WorkInv(laneOf, ps, f.posted, ab)
    requires CreditInv(laneOf, ps, f.posted, f.credited)
    ensures PiecesInv(laneOf, MakeIdle(ps), f.posted, f.credited, ab)
    ensures WorkInv(laneOf, MakeIdle(ps), f.posted, ab)
    ensures CreditInv(laneOf, MakeIdle(ps), f.posted, f.credited)
    ensures Inert(laneOf, ps, up, f.link.outstanding) ==> Inert(laneOf, MakeIdle(ps), up, f.link.outstanding)
  {
    var qs := MakeIdle(ps);
    forall k | 0 <= k < |qs| ensures PieceInv(qs[k], Lane(laneOf, k), f.posted, f.credited, ab) {
      assert qs[k] == ps[k].(pc := Idle);
    }
  }

  lemma IdleParts(ps: seq<Piece>)
    ensures PartsInv(|ps|, MakeIdle(ps), PartsSet)
  {
    hide MakeIdle, Upto;
    var qs := MakeIdle(ps);
    forall k | 0 <= k < |qs| ensures qs[k].pc.Idle? {
      assert qs[k] == ps[k].(pc := Idle);
    }
    assert OpenParts(qs) == Upto(|ps|);
  }

  lemma IdleSeal(n: nat, f: Flow, ps: seq<Piece>, r: Req, r': Req)
    requires |ps| > 0 && forall k :: 0 <= k < |ps| ==> ps[k].pc.NotReady?
    requires SealInv(n, f, ps, r) && ProgressInv(n, f, ps, r) && r'.sealed == r.sealed
    ensures SealInv(n, f, MakeIdle(ps), r') && ProgressInv(n, f, MakeIdle(ps), r')
  {
    assert ps[0].pc.NotReady?;
    assert MakeIdle(ps)[0].pc.Idle?;
  }

  lemma CountPartsKeeps(l: Life)
    requires Inv(l) && l.submission.CountedIn?
    ensures Inv(DoCountParts(l))
  {
    hide PiecesInv, WorkInv, CreditInv, PartsInv, FlowInv, FateInv, ReasonInv, Inert, SealInv, ProgressInv;
    PartsReady(l.req.partsLeft, l.pieces, l.submission, l.laneOf[0]);
    IdlePieces(l.laneOf, l.pieces, l.flow, l.up, Abandoning(l.req));
    IdleParts(l.pieces);
    SoftFate(|l.laneOf|, l.flow, l.flow, l.fate, l.req, SetParts(l.req, |l.pieces|), false);
    if InFlight(l.fate) {
      assert 0 <= l.laneOf[0] < |l.up|;
      IdleSeal(|l.laneOf|, l.flow, l.pieces, l.req, SetParts(l.req, |l.pieces|));
    }
  }

  // ---- a part finishes, and the last one decides ----

  /** A piece with nothing left in its hands moves on; only its program counter changes. */
  lemma PcUpdate(laneOf: seq<nat>, ps: seq<Piece>, k: nat, pc: Pc, f: Flow, up: seq<bool>, ab: bool)
    requires |ps| == |up| && k < |ps| && forall i :: 0 <= i < |laneOf| ==> laneOf[i] < |ps|
    requires Closed(pc) && (Closed(ps[k].pc) || ps[k].pc.Finishing?)
    requires (pc.Sealing? || pc.Claiming?) ==> ab
    requires PiecesInv(laneOf, ps, f.posted, f.credited, ab) && WorkInv(laneOf, ps, f.posted, ab)
    requires CreditInv(laneOf, ps, f.posted, f.credited)
    ensures PiecesInv(laneOf, ps[k := ps[k].(pc := pc)], f.posted, f.credited, ab)
    ensures WorkInv(laneOf, ps[k := ps[k].(pc := pc)], f.posted, ab)
    ensures CreditInv(laneOf, ps[k := ps[k].(pc := pc)], f.posted, f.credited)
    ensures Inert(laneOf, ps, up, f.link.outstanding) ==>
            Inert(laneOf, ps[k := ps[k].(pc := pc)], up, f.link.outstanding)
  {
    var p := ps[k].(pc := pc);
    PiecesUpdate(laneOf, ps, k, p, f.posted, f.posted, f.credited, f.credited, ab, ab);
  }

  lemma FinishParts(partsLeft: nat, ps: seq<Piece>, k: nat)
    requires k < |ps| && PartsInv(partsLeft, ps, PartsSet) && ps[k].pc.Finishing?
    ensures partsLeft > 0
    ensures PartsInv(partsLeft - 1, ps[k := ps[k].(pc := if partsLeft == 1 then LastCheck else Done)], PartsSet)
    ensures partsLeft > 1 ==> exists j :: 0 <= j < |ps| && j != k && !Closed(ps[j].pc)
  {
    var p := ps[k].(pc := if partsLeft == 1 then LastCheck else Done);
    OpenPartsUpdate(ps, k, p);
    var qs := ps[k := p];
    assert |OpenParts(qs)| == |OpenParts(ps)| - 1;
    if partsLeft > 1 {
      assert OpenParts(qs) != {};
      var j :| j in OpenParts(qs);
      assert qs[j] == ps[j];
    } else {
      assert OpenParts(qs) == {};
      forall j | 0 <= j < |qs| ensures Closed(qs[j].pc) {
        assert j !in OpenParts(qs);
      }
    }
  }

  lemma FinishSeal(n: nat, f: Flow, ps: seq<Piece>, k: nat, pc: Pc, r: Req, r': Req)
    requires k < |ps| && ps[k].pc.Finishing? && (pc.LastCheck? || pc.Done?) && r'.sealed == r.sealed
    requires forall i, j :: 0 <= i < |ps| && 0 <= j < |ps| && LastPart(ps[i].pc) ==> Closed(ps[j].pc)
    requires pc.Done? ==> exists j :: 0 <= j < |ps| && j != k && !Closed(ps[j].pc)
    requires SealInv(n, f, ps, r) && ProgressInv(n, f, ps, r)
    ensures SealInv(n, f, ps[k := ps[k].(pc := pc)], r') && ProgressInv(n, f, ps[k := ps[k].(pc := pc)], r')
  {
    var qs := ps[k := ps[k].(pc := pc)];
    assert qs[k].pc == pc;
    if pc.Done? {
      var j :| 0 <= j < |ps| && j != k && !Closed(ps[j].pc);
      assert qs[j] == ps[j];
    }
  }

  lemma FinishPartKeeps(l: Life, k: nat)
    requires Inv(l) && PieceAt(l, k, Finishing)
    ensures Inv(DoFinishPart(l, k))
  {
    hide PiecesInv, WorkInv, CreditInv, PartsInv, FlowInv, FateInv, ReasonInv, Inert, SealInv, ProgressInv;
    var (r, last) := PartFinished(l.req);
    PieceFacts(l, k);
    PartsReady(l.req.partsLeft, l.pieces, l.submission, k);
    FinishParts(l.req.partsLeft, l.pieces, k);
    PcUpdate(l.laneOf, l.pieces, k, if last then LastCheck else Done, l.flow, l.up, Abandoning(l.req));
    SoftFate(|l.laneOf|, l.flow, l.flow, l.fate, l.req, r, false);
    if InFlight(l.fate) {
      FinishSeal(|l.laneOf|, l.flow, l.pieces, k, if last then LastCheck else Done, l.req, r);
    }
  }

  lemma LastParts(partsLeft: nat, ps: seq<Piece>, submission: Submission, k: nat, pc: Pc)
    requires k < |ps| && PartsInv(partsLeft, ps, submission) && LastPart(ps[k].pc) && Closed(pc)
    ensures PartsInv(partsLeft, ps[k := ps[k].(pc := pc)], submission)
  {
    OpenPartsUpdate(ps, k, ps[k].(pc := pc));
  }

  /** With every part finished and nothing wrong, everything was posted. */
  lemma AllPosted(laneOf: seq<nat>, ps: seq<Piece>, f: Flow, inflight: bool)
    requires forall i :: 0 <= i < |laneOf| ==> laneOf[i] < |ps|
    requires AllClosed(ps) && PiecesInv(laneOf, ps, f.posted, f.credited, false) && WorkInv(laneOf, ps, f.posted, false)
    requires FlowInv(|laneOf|, f, inflight)
    ensures f.posted == Upto(|laneOf|)
  {
    forall i | i in Upto(|laneOf|) ensures i in f.posted {
      assert Closed(ps[laneOf[i]].pc);
    }
  }

  lemma DecideSeal(n: nat, f: Flow, ps: seq<Piece>, k: nat, pc: Pc, r: Req)
    requires k < |ps| && ps[k].pc.LastCheck? && (pc.Sealing? || (pc.Done? && f.posted == Upto(n)))
    requires SealInv(n, f, ps, r) && ProgressInv(n, f, ps, r)
    ensures SealInv(n, f, ps[k := ps[k].(pc := pc)], r) && ProgressInv(n, f, ps[k := ps[k].(pc := pc)], r)
  {
    var qs := ps[k := ps[k].(pc := pc)];
    assert qs[k].pc == pc;
    if j :| 0 <= j < |ps| && ps[j].pc.Claiming? {
      assert qs[j] == ps[j];
    }
  }

  lemma CheckLastKeeps(l: Life, k: nat)
    requires Inv(l) && PieceAt(l, k, LastCheck)
    ensures Inv(DoCheckLast(l, k))
  {
    hide PiecesInv, WorkInv, CreditInv, PartsInv, FlowInv, CountersInv, FateInv, ReasonInv, Inert, SealInv, ProgressInv;
    PieceFacts(l, k);
    PartsReady(l.req.partsLeft, l.pieces, l.submission, k);
    var pc := if Abandoning(l.req) then Sealing else Done;
    LastParts(l.req.partsLeft, l.pieces, l.submission, k, pc);
    PcUpdate(l.laneOf, l.pieces, k, pc, l.flow, l.up, Abandoning(l.req));
    if InFlight(l.fate) {
      if pc.Done? { AllPosted(l.laneOf, l.pieces, l.flow, true); }
      DecideSeal(|l.laneOf|, l.flow, l.pieces, k, pc, l.req);
    }
  }

  lemma SubsetSize(a: set<nat>, b: set<nat>)
    requires a <= b
    ensures |a| <= |b|
    ensures |a| == |b| ==> a == b
  {
    assert b == a + (b - a);
    assert |b| == |a| + |b - a|;
  }

  /** Once every part is finished, everything posted has been counted as accepted. */
  lemma AllCredited(laneOf: seq<nat>, ps: seq<Piece>, f: Flow, r: Req, ab: bool)
    requires forall i :: 0 <= i < |laneOf| ==> laneOf[i] < |ps|
    requires AllClosed(ps) && PiecesInv(laneOf, ps, f.posted, f.credited, ab)
             && CreditInv(laneOf, ps, f.posted, f.credited)
    requires FlowInv(|laneOf|, f, true) && CountersInv(r, f)
    ensures f.credited == f.posted && r.accepted == |f.posted|
    ensures r.completed >= r.accepted <==> f.counted == f.posted
  {
    forall i | i in f.posted ensures i in f.credited {
      assert i in Upto(|laneOf|);
      assert Closed(ps[laneOf[i]].pc);
    }
    assert f.credited == f.posted;
    SubsetSize(f.counted, f.posted);
  }

  lemma SealSeal(n: nat, f: Flow, ps: seq<Piece>, k: nat, idle: bool, r: Req)
    requires k < |ps| && ps[k].pc.Sealing? && AllClosed(ps) && Abandoning(r)
    requires idle <==> f.counted == f.posted
    requires SealInv(n, f, ps, r) && ProgressInv(n, f, ps, r)
    ensures var qs := ps[k := ps[k].(pc := if idle then Claiming else Done)];
            SealInv(n, f, qs, r.(sealed := true)) && ProgressInv(n, f, qs, r.(sealed := true))
  {
    var qs := ps[k := ps[k].(pc := if idle then Claiming else Done)];
    assert qs[k].pc == if idle then Claiming else Done;
    if j :| 0 <= j < |ps| && ps[j].pc.Claiming? {
      assert qs[j] == ps[j];
    }
  }

  lemma SealFate(n: nat, f: Flow, fate: Fate, r: Req)
    requires FateInv(fate, r) && ReasonInv(n, f, fate.ender, r) && CountersInv(r, f)
    ensures FateInv(fate, SealAccepted(r)) && ReasonInv(n, f, fate.ender, SealAccepted(r))
    ensures CountersInv(SealAccepted(r), f)
  {
  }

  lemma SealKeeps(l: Life, k: nat)
    requires Inv(l) && PieceAt(l, k, Sealing)
    ensures Inv(DoSeal(l, k))
  {
    hide PiecesInv, WorkInv, CreditInv, PartsInv, FlowInv, CountersInv, FateInv, ReasonInv, Inert, SealInv, ProgressInv;
    PieceFacts(l, k);
    PartsReady(l.req.partsLeft, l.pieces, l.submission, k);
    var (r, idle) := SealIfIdle(l.req);
    if Terminal(l.req) { TerminalWasClaimed(l.fate, l.req); }
    var pc := if idle then Claiming else Done;
    LastParts(l.req.partsLeft, l.pieces, l.submission, k, pc);
    PcUpdate(l.laneOf, l.pieces, k, pc, l.flow, l.up, Abandoning(l.req));
    SealFate(|l.laneOf|, l.flow, l.fate, l.req);
    if InFlight(l.fate) {
      AllCredited(l.laneOf, l.pieces, l.flow, l.req, Abandoning(l.req));
      SealSeal(|l.laneOf|, l.flow, l.pieces, k, idle, l.req);
    }
  }

  // ---- claims ----

  /** Whoever claims a request after its count is complete finds nothing of it in motion. */
  lemma ClaimInert(laneOf: seq<nat>, ps: seq<Piece>, f: Flow, up: seq<bool>, ab: bool)
    requires |ps| == |up| && forall i :: 0 <= i < |laneOf| ==> laneOf[i] < |ps|
    requires PiecesInv(laneOf, ps, f.posted, f.credited, ab) && FlowInv(|laneOf|, f, true)
    requires (AllClosed(ps) && f.counted == f.posted) || f.counted == Upto(|laneOf|)
    ensures Inert(laneOf, ps, up, f.link.outstanding)
  {
    forall i | 0 <= i < |laneOf|
      ensures i !in f.link.outstanding && i !in ps[laneOf[i]].left
    {
      assert PieceInv(ps[laneOf[i]], Lane(laneOf, laneOf[i]), f.posted, f.credited, ab);
      assert i in Upto(|laneOf|);
    }
  }

  lemma ClaimFate(n: nat, f: Flow, f': Flow, fate: Fate, r: Req, e: Ender)
    requires FateInv(fate, r) && InFlight(fate) && FlowInv(n, f, true)
    requires e.AfterPiece? || e.AfterCompletion? || e.AfterReap?
    requires e.AfterPiece? ==> Abandoning(r)
    requires e.AfterCompletion? ==> f'.counted == Upto(n) || Abandoning(r)
    requires f'.events.Keys <= f.events.Keys && f' == f.(events := f'.events)
    requires forall i :: i in f'.events ==> f'.events[i] == f.events[i]
    ensures FateInv(fate.(ender := e, claims := fate.claims + 1), r)
    ensures ReasonInv(n, f', e, r) && FlowInv(n, f', false)
  {
  }

  lemma ClaimingFacts(n: nat, f: Flow, ps: seq<Piece>, r: Req, k: nat)
    requires SealInv(n, f, ps, r) && k < |ps| && ps[k].pc.Claiming?
    ensures f.counted == f.posted
  {
  }

  lemma PieceClaimsKeeps(l: Life, k: nat)
    requires Inv(l) && PieceAt(l, k, Claiming)
    ensures Inv(DoPieceClaims(l, k))
  {
    hide PiecesInv, WorkInv, CreditInv, PartsInv, FlowInv, CountersInv, FateInv, ReasonInv, Inert, SealInv, ProgressInv;
    PieceFacts(l, k);
    PartsReady(l.req.partsLeft, l.pieces, l.submission, k);
    LastParts(l.req.partsLeft, l.pieces, l.submission, k, Done);
    PcUpdate(l.laneOf, l.pieces, k, Done, l.flow, l.up, Abandoning(l.req));
    if InFlight(l.fate) {
      ClaimingFacts(|l.laneOf|, l.flow, l.pieces, l.req, k);
      ClaimInert(l.laneOf, l.pieces, l.flow, l.up, Abandoning(l.req));
      ClaimFate(|l.laneOf|, l.flow, l.flow, l.fate, l.req, AfterPiece);
    }
  }

  lemma DropEvent(n: nat, f: Flow, i: nat, fate: Fate, r: Req)
    requires FlowInv(n, f, false) && ReasonInv(n, f, fate.ender, r) && CountersInv(r, f)
    ensures var f' := f.(events := f.events - {i});
            FlowInv(n, f', false) && ReasonInv(n, f', fate.ender, r) && CountersInv(r, f')
  {
  }

  lemma WasLastFacts(n: nat, f: Flow, ps: seq<Piece>, r: Req, i: nat)
    requires SealInv(n, f, ps, r) && i in f.events && f.events[i].WasLast?
    ensures f.counted == Upto(n) || (f.counted == f.posted && AllClosed(ps) && Abandoning(r))
  {
  }

  lemma EventClaimsKeeps(l: Life, i: nat)
    requires Inv(l) && i in l.flow.events && l.flow.events[i].WasLast?
    ensures Inv(DoEventClaims(l, i))
  {
    hide PiecesInv, WorkInv, CreditInv, PartsInv, FlowInv, CountersInv, FateInv, ReasonInv, Inert, SealInv, ProgressInv;
    var f := l.flow.(events := l.flow.events - {i});
    if InFlight(l.fate) {
      WasLastFacts(|l.laneOf|, l.flow, l.pieces, l.req, i);
      ClaimInert(l.laneOf, l.pieces, l.flow, l.up, Abandoning(l.req));
      ClaimFate(|l.laneOf|, l.flow, f, l.fate, l.req, AfterCompletion);
      SameCounters(l.req, l.flow, f);
    } else {
      DropEvent(|l.laneOf|, l.flow, i, l.fate, l.req);
    }
  }

  lemma ReaperClaimsKeeps(l: Life)
    requires Inv(l) && InFlight(l.fate) && (forall k :: 0 <= k < |l.up| ==> !l.up[k])
    ensures Inv(Claim(l, AfterReap))
  {
    hide PiecesInv, WorkInv, CreditInv, PartsInv, FlowInv, CountersInv, FateInv, ReasonInv, SealInv, ProgressInv;
    ClaimFate(|l.laneOf|, l.flow, l.flow, l.fate, l.req, AfterReap);
  }

  // ---- completions ----

  lemma ReportFlow(n: nat, f: Flow, inflight: bool, i: nat, ev: Completion, ps: seq<Piece>, r: Req)
    requires FlowInv(n, f, inflight) && i in f.link.outstanding
    ensures var f' := f.(link := Report(f.link, i), events := f.events[i := Arrived(ev)]);
            && FlowInv(n, f', inflight)
            && (SealInv(n, f, ps, r) ==> SealInv(n, f', ps, r))
            && (ProgressInv(n, f, ps, r) ==> ProgressInv(n, f', ps, r))
  {
    var f' := f.(link := Report(f.link, i), events := f.events[i := Arrived(ev)]);
    assert i !in f.events;
    if j :| j in f.events && f.events[j].WasLast? {
      assert f'.events[j].WasLast?;
    }
  }

  lemma ReportKeeps(l: Life, i: nat, ev: Completion)
    requires Inv(l) && i in l.flow.link.outstanding
    ensures Inv(DoReport(l, i, ev))
  {
    hide PiecesInv, WorkInv, CreditInv, PartsInv, FlowInv, FateInv, SealInv, ProgressInv;
    ReportFlow(|l.laneOf|, l.flow, InFlight(l.fate), i, ev, l.pieces, l.req);
  }

  lemma FoundFlow(n: nat, f: Flow, i: nat, ps: seq<Piece>, r: Req)
    requires FlowInv(n, f, true) && i in f.events && f.events[i].Arrived?
    ensures var f' := f.(events := f.events[i := Found(f.events[i].ev)]);
            && FlowInv(n, f', true)
            && (SealInv(n, f, ps, r) ==> SealInv(n, f', ps, r))
            && (ProgressInv(n, f, ps, r) ==> ProgressInv(n, f', ps, r))
  {
    var f' := f.(events := f.events[i := Found(f.events[i].ev)]);
    assert f'.events.Keys == f.events.Keys;
    if j :| j in f.events && f.events[j].WasLast? {
      assert f'.events[j].WasLast?;
    }
  }

  lemma LookUpKeeps(l: Life, i: nat)
    requires Inv(l) && i in l.flow.events && l.flow.events[i].Arrived?
    ensures Inv(DoLookUp(l, i))
  {
    hide PiecesInv, WorkInv, CreditInv, PartsInv, FlowInv, FateInv, Inert, SealInv, ProgressInv;
    if InFlight(l.fate) {
      FoundFlow(|l.laneOf|, l.flow, i, l.pieces, l.req);
    } else {
      DropEvent(|l.laneOf|, l.flow, i, l.fate, l.req);
    }
  }

  /** Giving the request up only relaxes what its pieces owe. */
  lemma AbandonMonotone(laneOf: seq<nat>, ps: seq<Piece>, f: Flow, ab: bool, ab': bool)
    requires forall i :: 0 <= i < |laneOf| ==> laneOf[i] < |ps|
    requires PiecesInv(laneOf, ps, f.posted, f.credited, ab) && WorkInv(laneOf, ps, f.posted, ab) && (ab ==> ab')
    ensures PiecesInv(laneOf, ps, f.posted, f.credited, ab') && WorkInv(laneOf, ps, f.posted, ab')
  {
    forall k | 0 <= k < |ps| ensures PieceInv(ps[k], Lane(laneOf, k), f.posted, f.credited, ab') {
      assert PieceInv(ps[k], Lane(laneOf, k), f.posted, f.credited, ab);
    }
  }

  function CountedFlow(f: Flow, i: nat, ok: bool, last: bool): Flow {
    f.(counted := f.counted + {i}, landed := if ok then f.landed + {i} else f.landed,
       events := if last then f.events[i := WasLast] else f.events - {i})
  }

  lemma CountFlow(n: nat, f: Flow, inflight: bool, i: nat, ok: bool, last: bool)
    requires FlowInv(n, f, inflight) && i in f.events && f.events[i].Found?
    ensures i in f.posted && i !in f.counted
    ensures FlowInv(n, CountedFlow(f, i, ok, last), inflight)
  {
    var f' := CountedFlow(f, i, ok, last);
    assert last ==> f'.events.Keys == f.events.Keys;
    assert !last ==> f'.events.Keys == f.events.Keys - {i};
    assert inflight ==> f'.posted == f'.link.outstanding + f'.events.Keys + f'.counted;
  }

  lemma CountCounters(f: Flow, i: nat, ev: Completion, r: Req)
    requires CountersInv(r, f) && i !in f.counted && !Terminal(r)
    ensures var (r', last) := OnSubopComplete(r, ev);
            CountersInv(r', CountedFlow(f, i, ev.status == Ok, last))
  {
    var (r', last) := OnSubopComplete(r, ev);
    var f' := CountedFlow(f, i, ev.status == Ok, last);
    assert |f'.counted| == |f.counted| + 1;
    if f.counted == f.landed && ev.status == Ok {
      assert f'.counted == f'.landed;
    }
  }

  lemma CountFate(n: nat, f: Flow, fate: Fate, i: nat, ev: Completion, r: Req)
    requires FlowInv(n, f, InFlight(fate)) && FateInv(fate, r) && ReasonInv(n, f, fate.ender, r)
    requires i in f.events && f.events[i].Found? && !Terminal(r)
    ensures var (r', last) := OnSubopComplete(r, ev);
            FateInv(fate, r') && ReasonInv(n, CountedFlow(f, i, ev.status == Ok, last), fate.ender, r')
  {
    assert i in Upto(n) && i !in f.counted;
  }

  /** The completion that makes the count complete is the one that sees it, whether the
      request was sealed before it or not. */
  lemma LastMeansComplete(laneOf: seq<nat>, f: Flow, i: nat, ev: Completion, ps: seq<Piece>, r: Req)
    requires forall j :: 0 <= j < |laneOf| ==> laneOf[j] < |ps|
    requires r.total == |laneOf| && PiecesInv(laneOf, ps, f.posted, f.credited, Abandoning(r))
    requires CreditInv(laneOf, ps, f.posted, f.credited)
    requires FlowInv(|laneOf|, f, true) && CountersInv(r, f) && (r.sealed ==> AllClosed(ps))
    requires i in f.events && f.events[i].Found? && !Terminal(r)
    ensures var (r', last) := OnSubopComplete(r, ev);
            last <==> f.counted + {i} == (if r.sealed then f.posted else Upto(|laneOf|))
    ensures f.counted + {i} == Upto(|laneOf|) ==> f.posted == Upto(|laneOf|)
  {
    hide PiecesInv, CreditInv, FlowInv, CountersInv;
    CountedSize(|laneOf|, f, r, i);
    SubsetSize(f.counted + {i}, f.posted);
    SubsetSize(f.counted + {i}, Upto(|laneOf|));
    if r.sealed {
      AllCredited(laneOf, ps, f, r, Abandoning(r));
    }
  }

  lemma CountedSize(n: nat, f: Flow, r: Req, i: nat)
    requires FlowInv(n, f, true) && CountersInv(r, f) && i in f.events && f.events[i].Found?
    ensures f.counted + {i} <= f.posted <= Upto(n)
    ensures |f.counted + {i}| == r.completed + 1
  {
    assert i !in f.counted;
  }

  lemma CountSeal(n: nat, f: Flow, i: nat, ev: Completion, ps: seq<Piece>, r: Req)
    requires SealInv(n, f, ps, r) && ProgressInv(n, f, ps, r)
    requires i in f.events && i in f.posted && i !in f.counted && i < n && !Terminal(r)
    requires var (r', last) := OnSubopComplete(r, ev);
             last <==> f.counted + {i} == (if r.sealed then f.posted else Upto(n))
    requires f.counted + {i} == Upto(n) ==> f.posted == Upto(n)
    ensures var (r', last) := OnSubopComplete(r, ev);
            var f' := CountedFlow(f, i, ev.status == Ok, last);
            SealInv(n, f', ps, r') && ProgressInv(n, f', ps, r')
  {
    var (r', last) := OnSubopComplete(r, ev);
    var f' := CountedFlow(f, i, ev.status == Ok, last);
    assert i in Upto(n);
    assert last ==> f'.events[i].WasLast?;
  }

  lemma SealedClosed(n: nat, f: Flow, ps: seq<Piece>, r: Req, i: nat)
    requires SealInv(n, f, ps, r) && FlowInv(n, f, true) && i in f.events
    ensures r.sealed ==> AllClosed(ps)
    ensures i < n
  {
    assert i in Upto(n);
  }

  lemma CountCompletionKeeps(l: Life, i: nat)
    requires Inv(l) && i in l.flow.events && l.flow.events[i].Found?
    ensures Inv(DoCountCompletion(l, i))
  {
    hide PiecesInv, WorkInv, CreditInv, PartsInv, FlowInv, CountersInv, FateInv, ReasonInv, Inert, SealInv, ProgressInv;
    var ev := l.flow.events[i].ev;
    if Terminal(l.req) {
      TerminalWasClaimed(l.fate, l.req);
      DropEvent(|l.laneOf|, l.flow, i, l.fate, l.req);
    } else {
      var (r, last) := OnSubopComplete(l.req, ev);
      AbandonMonotone(l.laneOf, l.pieces, l.flow, Abandoning(l.req), Abandoning(r));
      CountFlow(|l.laneOf|, l.flow, InFlight(l.fate), i, ev.status == Ok, last);
      CountCounters(l.flow, i, ev, l.req);
      CountFate(|l.laneOf|, l.flow, l.fate, i, ev, l.req);
      if InFlight(l.fate) {
        SealedClosed(|l.laneOf|, l.flow, l.pieces, l.req, i);
        LastMeansComplete(l.laneOf, l.flow, i, ev, l.pieces, l.req);
        CountSeal(|l.laneOf|, l.flow, i, ev, l.pieces, l.req);
      }
      assert DoCountCompletion(l, i).flow == CountedFlow(l.flow, i, ev.status == Ok, last);
    }
  }

  // ---- the ending, cancellation and disconnection ----

  lemma TestCancelledKeeps(l: Life)
    requires Inv(l) && (l.fate.ender.AfterPiece? || l.fate.ender.AfterCompletion?)
    ensures Inv(DoTestCancelled(l))
  {
    hide PiecesInv, WorkInv, CreditInv, PartsInv, FlowInv, CountersInv, Inert, SealInv, ProgressInv;
  }

  lemma TestErrorKeeps(l: Life)
    requires Inv(l) && l.fate.ender.AfterCancelTest?
    ensures Inv(SetEnder(l, if l.req.error.IsOk() then Marking else Counting(EndFailure)))
  {
    hide PiecesInv, WorkInv, CreditInv, PartsInv, FlowInv, Inert, SealInv, ProgressInv;
  }

  lemma MarkCompleteKeeps(l: Life)
    requires Inv(l) && l.fate.ender.Marking?
    ensures Inv(SetEnder(l, Counting(EndSuccess)).(req := MarkStage(l.req, TransferComplete)))
  {
    hide PiecesInv, WorkInv, CreditInv, PartsInv, FlowInv, Inert, SealInv, ProgressInv;
  }

  lemma CountEndingKeeps(l: Life)
    requires Inv(l) && l.fate.ender.Counting?
    ensures Inv(SetEnder(l, Finalizing(l.fate.ender.e)))
  {
    hide PiecesInv, WorkInv, CreditInv, PartsInv, FlowInv, CountersInv, Inert, SealInv, ProgressInv;
  }

  lemma PublishKeeps(l: Life)
    requires Inv(l) && l.fate.ender.Publishing?
    ensures Inv(DoPublish(l))
  {
    hide PiecesInv, WorkInv, CreditInv, PartsInv, FlowInv, CountersInv, Inert, SealInv, ProgressInv;
  }

  lemma ReaperSealsKeeps(l: Life)
    requires Inv(l) && l.fate.ender.AfterReap?
    ensures Inv(SetEnder(l, Counting(EndStranded)).(req := SealAccepted(l.req)))
  {
    hide PiecesInv, WorkInv, CreditInv, PartsInv, FlowInv, Inert, SealInv, ProgressInv;
  }

  lemma FinishFate(n: nat, f: Flow, fate: Fate, r: Req, e: ErrorInfo)
    requires FateInv(fate, r) && ReasonInv(n, f, fate.ender, r) && CountersInv(r, f)
    requires fate.ender.Finalizing? && !e.IsOk()
    ensures var r' := EndReq(r, fate.ender.e, e);
            var fate' := fate.(ender := Publishing(fate.ender.e), endings := fate.endings + 1);
            Terminal(r') && FateInv(fate', r') && ReasonInv(n, f, fate'.ender, r') && CountersInv(r', f)
            && r'.partsLeft == r.partsLeft && r'.total == r.total
  {
  }

  lemma FinishKeeps(l: Life, e: ErrorInfo)
    requires Inv(l) && l.fate.ender.Finalizing? && !e.IsOk()
    ensures Inv(DoFinish(l, e))
  {
    hide PiecesInv, WorkInv, CreditInv, PartsInv, FlowInv, CountersInv, FateInv, ReasonInv, Inert, SealInv, ProgressInv;
    AbandonMonotone(l.laneOf, l.pieces, l.flow, Abandoning(l.req), true);
    FinishFate(|l.laneOf|, l.flow, l.fate, l.req, e);
  }

  lemma CancelKeeps(l: Life)
    requires Inv(l)
    ensures Inv(DoCancel(l))
  {
    hide PiecesInv, WorkInv, CreditInv, PartsInv, FlowInv, Inert;
    AbandonMonotone(l.laneOf, l.pieces, l.flow, Abandoning(l.req), true);
  }

  lemma DisconnectKeeps(l: Life, k: nat)
    requires Inv(l) && k < |l.up|
    ensures Inv(l.(up := l.up[k := false]))
  {
    hide PiecesInv, WorkInv, CreditInv, PartsInv, FlowInv, CountersInv, FateInv, ReasonInv, SealInv, ProgressInv;
  }

  /** Every step of every thread keeps the invariant. */
  lemma StepKeepsInv(l: Life, s: Step)
    requires Inv(l) && Enabled(l, s)
    ensures Inv(Do(l, s))
  {
    hide Inv;
    match s
    case CountIn => CountInKeeps(l);
    case CountParts => CountPartsKeeps(l);
    case WaitForDependency => WaitForDependencyKeeps(l);
    case DependencyFailed(k, e) => DependencyFailedKeeps(l, k, e);
    case CheckAbandoned(k) => CheckAbandonedKeeps(l, k);
    case StartPosting(k) => StartPostingKeeps(l, k);
    case TransportAccepts(k, i) => AcceptKeeps(l, k, i);
    case Credit(k, o) => CreditKeeps(l, k, o);
    case NoteBroken(k, e) => NoteBrokenKeeps(l, k, e);
    case StartDraining(k) => StartDrainingKeeps(l, k);
    case FinishPart(k) => FinishPartKeeps(l, k);
    case CheckLast(k) => CheckLastKeeps(l, k);
    case Seal(k) => SealKeeps(l, k);
    case PieceClaims(k) => PieceClaimsKeeps(l, k);
    case TransportReports(i, ev) => ReportKeeps(l, i, ev);
    case LookUp(i) => LookUpKeeps(l, i);
    case CountCompletion(i) => CountCompletionKeeps(l, i);
    case EventClaims(i) => EventClaimsKeeps(l, i);
    case TestCancelled => TestCancelledKeeps(l);
    case TestError => TestErrorKeeps(l);
    case MarkComplete => MarkCompleteKeeps(l);
    case CountEnding => CountEndingKeeps(l);
    case Finish(e) => FinishKeeps(l, e);
    case Publish => PublishKeeps(l);
    case CallCancel => CancelKeeps(l);
    case Disconnect(k) => DisconnectKeeps(l, k);
    case ReaperClaims => ReaperClaimsKeeps(l);
    case ReaperSeals => ReaperSealsKeeps(l);
  }
}
