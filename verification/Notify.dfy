/** Notifications between an engine and its peers. The sender records one before sending it; the
    peer queues it if its queue has room and acknowledges it, or refuses it; and whoever first
    takes the record out - acknowledgement, refusal, failed send, cancellation, a peer's
    departure or close() - ends it. Channels deliver in order and may stop at any point. Steps
    are lock holds. */
module Notify {
  import opened Status

  datatype Note = Note(id: nat, payload: seq<nat>)

  datatype Reply = Ack(id: nat) | Refused(id: nat)

  /** A peer and the channel to it and back. */
  datatype Far = Far(
    sent: seq<Note>,       // what the channel to it took, in order
    verdicts: seq<bool>,   // for each it has received: whether it was queued
    inbox: seq<Note>,      // its queue
    log: seq<Note>,        // everything its queue ever took
    replies: seq<Reply>,   // what the channel back took, in order
    taken: nat)            // how many of those have arrived

  datatype Rec = Rec(peer: nat, payload: seq<nat>)

  /** Why a notification was taken out of notify_pending_. */
  datatype Reason = ByAck | ByRefusal | SendFailed(status: Status) | Swept(status: Status)

  datatype Outcome = Succeeded | FailedWith(status: Status) | CancelledOutcome

  /** The sender's side. */
  datatype Ledger = Ledger(
    records: map<nat, Rec>,     // every notification ever recorded
    next: nat,
    pending: set<nat>,          // notify_pending_
    sending: set<nat>,          // recorded, send_control not called yet
    claimed: map<nat, Reason>,  // taken out, not ended yet
    cancelled: set<nat>,        // cancel requested
    ended: map<nat, Outcome>,
    why: map<nat, Reason>,      // of those ended
    published: seq<nat>,
    closed: bool,
    sweptAll: bool)

  datatype State = State(led: Ledger, far: seq<Far>)

  /** How a claimed notification ends. An error-free sweep cancels, and so does a requested
      cancellation that a sweep meets; nothing else looks at it. */
  function Ending(r: Reason, cancelRequested: bool): Outcome {
    match r
    case ByAck => Succeeded
    case ByRefusal => FailedWith(ResourceExhausted)
    case SendFailed(st) => FailedWith(st)
    case Swept(st) => if st == Ok || cancelRequested then CancelledOutcome else FailedWith(st)
  }

  datatype Step =
    | Record(peer: nat, payload: seq<nat>)
    | Send(id: nat)                                // the channel took it
    | CannotSend(id: nat, status: Status)
    | Receive(peer: nat, depth: nat, sent: bool)   // the peer handles the next one; sent: its reply left
    | PollOne(peer: nat)                           // the peer's application takes one
    | TakeReply(peer: nat)
    | Cancel(id: nat)
    | SweepCancelled
    | SweepPeer(peer: nat, status: Status)
    | Close
    | SweepAll
    | End(id: nat)

  /** take_notification: only a notification still pending is claimed. */
  function Take(l: Ledger, id: nat, why: Reason): Ledger {
    if id in l.pending then l.(pending := l.pending - {id}, claimed := l.claimed[id := why]) else l
  }

  /** end_notifications, up to the end of its lock hold. */
  function Sweep(l: Ledger, ids: set<nat>, status: Status): Ledger {
    var hit := l.pending * ids;
    l.(pending := l.pending - hit, claimed := l.claimed + (map id | id in hit :: Swept(status)))
  }

  function OfPeer(records: map<nat, Rec>, p: nat): set<nat> {
    set id | id in records && records[id].peer == p
  }

  ghost predicate Enabled(s: State, step: Step) {
    match step
    case Record(p, _) => p < |s.far| && !s.led.closed
    case Send(id) => id in s.led.sending && id in s.led.records && s.led.records[id].peer < |s.far|
    case CannotSend(id, status) => id in s.led.sending && status != Ok
    case Receive(p, _, _) => p < |s.far| && |s.far[p].verdicts| < |s.far[p].sent|
    case PollOne(p) => p < |s.far| && s.far[p].inbox != []
    case TakeReply(p) => p < |s.far| && s.far[p].taken < |s.far[p].replies|
    case Cancel(id) => id in s.led.records && id !in s.led.ended
    case SweepPeer(_, status) => status != Ok
    case SweepAll => s.led.closed
    case End(id) => id in s.led.claimed
    case _ => true
  }

  function Received(f: Far, depth: nat, sent: bool): Far
    requires |f.verdicts| < |f.sent|
  {
    var n := f.sent[|f.verdicts|];
    var room := |f.inbox| < depth;
    var reply := if room then Ack(n.id) else Refused(n.id);
    f.(verdicts := f.verdicts + [room],
       inbox := if room then f.inbox + [n] else f.inbox,
       log := if room then f.log + [n] else f.log,
       replies := if sent then f.replies + [reply] else f.replies)
  }

  function Recorded(l: Ledger, p: nat, payload: seq<nat>): Ledger {
    l.(records := l.records[l.next := Rec(p, payload)], next := l.next + 1,
       pending := l.pending + {l.next}, sending := l.sending + {l.next})
  }

  function Ended(l: Ledger, id: nat): Ledger
    requires id in l.claimed
  {
    l.(claimed := l.claimed - {id},
       ended := l.ended[id := Ending(l.claimed[id], id in l.cancelled)],
       why := l.why[id := l.claimed[id]],
       // The caller of notify() still holds one whose send failed; it is not published.
       published := if l.claimed[id].SendFailed? then l.published else l.published + [id])
  }

  ghost function Do(s: State, step: Step): State
    requires Enabled(s, step)
  {
    match step
    case Record(p, payload) => s.(led := Recorded(s.led, p, payload))
    case Send(id) =>
      var r := s.led.records[id];
      var f := s.far[r.peer];
      State(s.led.(sending := s.led.sending - {id}), s.far[r.peer := f.(sent := f.sent + [Note(id, r.payload)])])
    case CannotSend(id, status) => s.(led := Take(s.led.(sending := s.led.sending - {id}), id, SendFailed(status)))
    case Receive(p, depth, sent) => s.(far := s.far[p := Received(s.far[p], depth, sent)])
    case PollOne(p) => s.(far := s.far[p := s.far[p].(inbox := s.far[p].inbox[1..])])
    case TakeReply(p) =>
      var f := s.far[p];
      var r := f.replies[f.taken];
      State(Take(s.led, r.id, if r.Ack? then ByAck else ByRefusal), s.far[p := f.(taken := f.taken + 1)])
    case Cancel(id) => s.(led := s.led.(cancelled := s.led.cancelled + {id}))
    case SweepCancelled => s.(led := Sweep(s.led, s.led.cancelled, Ok))
    case SweepPeer(p, status) => s.(led := Sweep(s.led, OfPeer(s.led.records, p), status))
    case Close => s.(led := s.led.(closed := true))
    case SweepAll => s.(led := Sweep(s.led, s.led.pending, Ok).(sweptAll := true))
    case End(id) => s.(led := Ended(s.led, id))
  }

  ghost predicate Init(s: State) {
    && s.led == Ledger(map[], s.led.next, {}, {}, map[], {}, map[], map[], [], false, false)
    && forall p :: 0 <= p < |s.far| ==> s.far[p] == Far([], [], [], [], [], 0)
  }

  // ---------------- the invariant ----------------

  /** Every notification is in exactly one stage, and ends as its reason says. */
  ghost predicate Stages(l: Ledger) {
    && (forall id :: id in l.records ==> id < l.next)
    && l.pending + l.claimed.Keys + l.ended.Keys == l.records.Keys
    && l.pending !! l.claimed.Keys && l.pending !! l.ended.Keys && l.claimed.Keys !! l.ended.Keys
    && l.sending <= l.records.Keys
    && l.why.Keys == l.ended.Keys
    && (forall id :: id in l.ended ==> (l.ended[id] == Succeeded <==> l.why[id] == ByAck))
    && (l.sweptAll ==> l.closed && l.pending == {})
  }

  /** Published once each: what has ended, but for those whose send failed. */
  ghost predicate Publications(published: seq<nat>, why: map<nat, Reason>) {
    && (forall id :: id in published <==> id in why && !why[id].SendFailed?)
    && (forall i, j :: 0 <= i < j < |published| ==> published[i] != published[j])
  }

  /** The channel to p carries what was recorded for p, each once and none still to be sent. */
  ghost predicate Carried(sent: seq<Note>, p: nat, records: map<nat, Rec>, sending: set<nat>) {
    && (forall i :: 0 <= i < |sent| ==>
          sent[i].id in records && records[sent[i].id] == Rec(p, sent[i].payload) && sent[i].id !in sending)
    && (forall i, j :: 0 <= i < j < |sent| ==> sent[i].id != sent[j].id)
  }

  /** The notes that were queued, out of those received. */
  function Kept(sent: seq<Note>, verdicts: seq<bool>): seq<Note>
    requires |verdicts| <= |sent|
    decreases |verdicts|
  {
    if verdicts == [] then []
    else
      var n := |verdicts| - 1;
      if verdicts[n] then Kept(sent, verdicts[..n]) + [sent[n]] else Kept(sent, verdicts[..n])
  }

  /** A note with that id was received with that verdict. */
  ghost predicate Backed(sent: seq<Note>, verdicts: seq<bool>, id: nat, queued: bool) {
    exists i :: 0 <= i < |verdicts| <= |sent| && sent[i].id == id && verdicts[i] == queued
  }

  ghost predicate FarInv(f: Far) {
    && |f.verdicts| <= |f.sent| && f.taken <= |f.replies|
    && f.log == Kept(f.sent, f.verdicts)
    && (forall i :: 0 <= i < |f.replies| ==> Backed(f.sent, f.verdicts, f.replies[i].id, f.replies[i].Ack?))
  }

  /** An acknowledgement or refusal acted on was the recorded peer's. */
  ghost predicate Grounded(far: seq<Far>, records: map<nat, Rec>, id: nat, why: Reason) {
    why.ByAck? || why.ByRefusal? ==>
      && id in records && records[id].peer < |far|
      && Backed(far[records[id].peer].sent, far[records[id].peer].verdicts, id, why.ByAck?)
  }

  ghost predicate AllGrounded(far: seq<Far>, records: map<nat, Rec>, reasons: map<nat, Reason>) {
    forall id :: id in reasons ==> Grounded(far, records, id, reasons[id])
  }

  ghost predicate FarSide(far: seq<Far>, records: map<nat, Rec>, sending: set<nat>) {
    forall p :: 0 <= p < |far| ==> FarInv(far[p]) && Carried(far[p].sent, p, records, sending)
  }

  ghost predicate Inv(s: State) {
    && Stages(s.led) && Publications(s.led.published, s.led.why)
    && FarSide(s.far, s.led.records, s.led.sending)
    && AllGrounded(s.far, s.led.records, s.led.claimed) && AllGrounded(s.far, s.led.records, s.led.why)
  }

  // ---------------- the ledger ----------------

  lemma TakeStages(l: Ledger, id: nat, why: Reason)
    requires Stages(l)
    ensures Stages(Take(l, id, why))
  {
  }

  lemma SweepStages(l: Ledger, ids: set<nat>, status: Status)
    requires Stages(l)
    ensures Stages(Sweep(l, ids, status))
    ensures Sweep(l, l.pending, status).pending == {}
  {
  }

  lemma RecordStages(l: Ledger, p: nat, payload: seq<nat>)
    requires Stages(l) && !l.closed
    ensures Stages(Recorded(l, p, payload)) && l.next !in l.records
  {
  }

  lemma EndStages(l: Ledger, id: nat)
    requires Stages(l) && id in l.claimed && Publications(l.published, l.why)
    ensures Stages(Ended(l, id)) && Publications(Ended(l, id).published, Ended(l, id).why)
  {
  }

  // ---------------- the far side ----------------

  lemma KeptGrows(sent: seq<Note>, n: Note, verdicts: seq<bool>)
    requires |verdicts| <= |sent|
    ensures Kept(sent + [n], verdicts) == Kept(sent, verdicts)
    decreases |verdicts|
  {
    if verdicts != [] {
      KeptGrows(sent, n, verdicts[..|verdicts| - 1]);
    }
  }

  lemma KeptNext(sent: seq<Note>, verdicts: seq<bool>, room: bool)
    requires |verdicts| < |sent|
    ensures Kept(sent, verdicts + [room]) ==
            if room then Kept(sent, verdicts) + [sent[|verdicts|]] else Kept(sent, verdicts)
  {
    assert (verdicts + [room])[..|verdicts|] == verdicts;
  }

  lemma BackedGrows(sent: seq<Note>, verdicts: seq<bool>, sent': seq<Note>, verdicts': seq<bool>, id: nat, queued: bool)
    requires sent <= sent' && verdicts <= verdicts' && |verdicts'| <= |sent'|
    requires Backed(sent, verdicts, id, queued)
    ensures Backed(sent', verdicts', id, queued)
  {
    var i :| 0 <= i < |verdicts| <= |sent| && sent[i].id == id && verdicts[i] == queued;
    assert sent'[i] == sent[i] && verdicts'[i] == verdicts[i];
  }

  /** f' has been sent and has judged everything f had. */
  ghost predicate Extends(f: Far, f': Far) {
    f.sent <= f'.sent && f.verdicts <= f'.verdicts && |f'.verdicts| <= |f'.sent|
  }

  lemma SendFar(f: Far, n: Note)
    requires FarInv(f)
    ensures var f' := f.(sent := f.sent + [n]); FarInv(f') && Extends(f, f')
  {
    hide Backed;
    var f' := f.(sent := f.sent + [n]);
    KeptGrows(f.sent, n, f.verdicts);
    forall i | 0 <= i < |f.replies| ensures Backed(f'.sent, f'.verdicts, f.replies[i].id, f.replies[i].Ack?) {
      BackedGrows(f.sent, f.verdicts, f'.sent, f'.verdicts, f.replies[i].id, f.replies[i].Ack?);
    }
  }

  lemma ReceiveFar(f: Far, depth: nat, sent: bool)
    requires FarInv(f) && |f.verdicts| < |f.sent|
    ensures FarInv(Received(f, depth, sent)) && Extends(f, Received(f, depth, sent))
  {
    var f' := Received(f, depth, sent);
    KeptNext(f.sent, f.verdicts, |f.inbox| < depth);
    forall i | 0 <= i < |f'.replies| ensures Backed(f'.sent, f'.verdicts, f'.replies[i].id, f'.replies[i].Ack?) {
      if i < |f.replies| {
        BackedGrows(f.sent, f.verdicts, f'.sent, f'.verdicts, f.replies[i].id, f.replies[i].Ack?);
      } else {
        assert f'.sent[|f.verdicts|].id == f'.replies[i].id && f'.verdicts[|f.verdicts|] == f'.replies[i].Ack?;
      }
    }
  }

  lemma SendCarried(sent: seq<Note>, p: nat, records: map<nat, Rec>, sending: set<nat>, id: nat)
    requires Carried(sent, p, records, sending) && id in sending && id in records && records[id].peer == p
    ensures Carried(sent + [Note(id, records[id].payload)], p, records, sending - {id})
  {
  }

  /** Grounds survive whatever happens to the far side and to the records. */
  lemma GroundsStay(far: seq<Far>, far': seq<Far>, records: map<nat, Rec>, records': map<nat, Rec>,
                    reasons: map<nat, Reason>)
    requires AllGrounded(far, records, reasons)
    requires |far| == |far'| && forall p :: 0 <= p < |far| ==> Extends(far[p], far'[p]) || far[p] == far'[p]
    requires forall id :: id in records ==> id in records' && records'[id] == records[id]
    ensures AllGrounded(far', records', reasons)
  {
    forall id | id in reasons ensures Grounded(far', records', id, reasons[id]) {
      assert Grounded(far, records, id, reasons[id]);
      if reasons[id].ByAck? || reasons[id].ByRefusal? {
        var f, f' := far[records[id].peer], far'[records[id].peer];
        if f != f' {
          BackedGrows(f.sent, f.verdicts, f'.sent, f'.verdicts, id, reasons[id].ByAck?);
        }
      }
    }
  }

  /** A reply that has arrived is about a note this sender recorded for that peer. */
  lemma ReplyGrounded(s: State, p: nat)
    requires Inv(s) && p < |s.far| && s.far[p].taken < |s.far[p].replies|
    ensures var r := s.far[p].replies[s.far[p].taken];
            Grounded(s.far, s.led.records, r.id, if r.Ack? then ByAck else ByRefusal)
  {
    var f := s.far[p];
    var r := f.replies[f.taken];
    assert FarInv(f) && Carried(f.sent, p, s.led.records, s.led.sending);
    assert Backed(f.sent, f.verdicts, r.id, r.Ack?);
    var i :| 0 <= i < |f.verdicts| <= |f.sent| && f.sent[i].id == r.id && f.verdicts[i] == r.Ack?;
    assert s.led.records[r.id] == Rec(p, f.sent[i].payload);
  }

  // ---------------- steps and runs ----------------

  lemma SenderStepKeeps(s: State, step: Step)
    requires Inv(s) && Enabled(s, step)
    requires step.Record? || step.CannotSend? || step.Cancel? || step.SweepCancelled? || step.SweepPeer?
             || step.Close? || step.SweepAll? || step.End?
    ensures Inv(Do(s, step))
  {
    hide FarInv, Grounded, Carried;
    var l := s.led;
    match step
    case Record(p, payload) =>
      RecordStages(l, p, payload);
      RecordFar(s.far, l.records, l.sending, l.next, Rec(p, payload));
      GroundsStay(s.far, s.far, l.records, Recorded(l, p, payload).records, l.claimed);
      GroundsStay(s.far, s.far, l.records, Recorded(l, p, payload).records, l.why);
    case CannotSend(id, status) =>
      TakeStages(l.(sending := l.sending - {id}), id, SendFailed(status));
      SendingFar(s.far, l.records, l.sending, id);
      NeedsNoGrounds(s.far, l.records, l.claimed, {id}, SendFailed(status));
    case SweepCancelled =>
      SweepStages(l, l.cancelled, Ok);
      NeedsNoGrounds(s.far, l.records, l.claimed, l.pending * l.cancelled, Swept(Ok));
    case SweepPeer(p, status) =>
      SweepStages(l, OfPeer(l.records, p), status);
      NeedsNoGrounds(s.far, l.records, l.claimed, l.pending * OfPeer(l.records, p), Swept(status));
    case SweepAll =>
      SweepStages(l, l.pending, Ok);
      NeedsNoGrounds(s.far, l.records, l.claimed, l.pending * l.pending, Swept(Ok));
    case End(id) =>
      EndStages(l, id);
    case _ =>
  }

  lemma NeedsNoGrounds(far: seq<Far>, records: map<nat, Rec>, reasons: map<nat, Reason>, ids: set<nat>, why: Reason)
    requires AllGrounded(far, records, reasons) && !why.ByAck? && !why.ByRefusal?
    ensures AllGrounded(far, records, reasons + (map id | id in ids :: why))
    ensures forall id :: id in ids ==> AllGrounded(far, records, reasons[id := why])
  {
  }

  lemma RecordFar(far: seq<Far>, records: map<nat, Rec>, sending: set<nat>, next: nat, r: Rec)
    requires FarSide(far, records, sending) && next !in records
    ensures FarSide(far, records[next := r], sending + {next})
  {
    hide FarInv;
  }

  lemma SendingFar(far: seq<Far>, records: map<nat, Rec>, sending: set<nat>, id: nat)
    requires FarSide(far, records, sending)
    ensures FarSide(far, records, sending - {id})
  {
    hide FarInv;
  }

  lemma FarUpdate(far: seq<Far>, p: nat, f: Far, records: map<nat, Rec>, sending: set<nat>)
    requires FarSide(far, records, sending) && p < |far|
    requires FarInv(f) && Carried(f.sent, p, records, sending)
    ensures FarSide(far[p := f], records, sending)
  {
    hide FarInv, Carried;
  }

  lemma FarStepKeeps(s: State, step: Step)
    requires Inv(s) && Enabled(s, step) && (step.Send? || step.Receive? || step.PollOne? || step.TakeReply?)
    ensures Inv(Do(s, step))
  {
    hide Stages, FarInv, Grounded, Carried, Received, Take, Backed, Kept, AllGrounded, FarSide;
    var l, s' := s.led, Do(s, step);
    match step
    case Send(id) =>
      var p := l.records[id].peer;
      FarFacts(s, p);
      SendFar(s.far[p], Note(id, l.records[id].payload));
      SendCarried(s.far[p].sent, p, l.records, l.sending, id);
      SendingFar(s.far, l.records, l.sending, id);
      FarUpdate(s.far, p, s'.far[p], l.records, s'.led.sending);
      GroundsMove(s, p, s'.far[p]);
      SentStages(l, id);
    case Receive(p, depth, sent) =>
      FarFacts(s, p);
      ReceiveFar(s.far[p], depth, sent);
      SameSent(s.far[p], depth, sent);
      FarUpdate(s.far, p, s'.far[p], l.records, l.sending);
      GroundsMove(s, p, s'.far[p]);
    case PollOne(p) =>
      FarFacts(s, p);
      QuietFar(s.far[p], s'.far[p]);
      FarUpdate(s.far, p, s'.far[p], l.records, l.sending);
      GroundsMove(s, p, s'.far[p]);
    case TakeReply(p) =>
      FarFacts(s, p);
      ReplyGrounded(s, p);
      var r := s.far[p].replies[s.far[p].taken];
      var why := if r.Ack? then ByAck else ByRefusal;
      QuietFar(s.far[p], s'.far[p]);
      FarUpdate(s.far, p, s'.far[p], l.records, l.sending);
      TakeStages(l, r.id, why);
      TakeGrounds(s.far, l, r.id, why);
      TakeOnlyClaims(l, r.id, why);
      assert s' == State(Take(l, r.id, why), s.far[p := s'.far[p]]);
      GroundsMove(State(s'.led, s.far), p, s'.far[p]);
  }

  lemma SentStages(l: Ledger, id: nat)
    requires Stages(l)
    ensures Stages(l.(sending := l.sending - {id}))
  {
  }

  lemma TakeOnlyClaims(l: Ledger, id: nat, why: Reason)
    ensures var l' := Take(l, id, why);
            l'.records == l.records && l'.sending == l.sending && l'.why == l.why && l'.published == l.published
            && l'.ended == l.ended
  {
  }

  lemma TakeGrounds(far: seq<Far>, l: Ledger, id: nat, why: Reason)
    requires AllGrounded(far, l.records, l.claimed) && Grounded(far, l.records, id, why)
    ensures AllGrounded(far, l.records, Take(l, id, why).claimed)
  {
    hide Grounded;
  }

  lemma FarFacts(s: State, p: nat)
    requires Inv(s) && p < |s.far|
    ensures FarInv(s.far[p]) && Carried(s.far[p].sent, p, s.led.records, s.led.sending)
  {
  }

  lemma SameSent(f: Far, depth: nat, sent: bool)
    requires |f.verdicts| < |f.sent|
    ensures Received(f, depth, sent).sent == f.sent
  {
  }

  lemma QuietFar(f: Far, f': Far)
    requires FarInv(f) && f' == f.(inbox := f'.inbox, taken := f'.taken) && f'.taken <= |f.replies|
    ensures FarInv(f') && Extends(f, f')
  {
  }

  lemma GroundsMove(s: State, p: nat, f: Far)
    requires AllGrounded(s.far, s.led.records, s.led.claimed) && AllGrounded(s.far, s.led.records, s.led.why)
    requires p < |s.far| && Extends(s.far[p], f)
    ensures AllGrounded(s.far[p := f], s.led.records, s.led.claimed)
    ensures AllGrounded(s.far[p := f], s.led.records, s.led.why)
  {
    hide AllGrounded;
    GroundsStay(s.far, s.far[p := f], s.led.records, s.led.records, s.led.claimed);
    GroundsStay(s.far, s.far[p := f], s.led.records, s.led.records, s.led.why);
  }

  ghost predicate CanRun(s: State, steps: seq<Step>)
    decreases |steps|
  {
    steps == [] || (Enabled(s, steps[0]) && CanRun(Do(s, steps[0]), steps[1..]))
  }

  ghost function After(s: State, steps: seq<Step>): State
    requires CanRun(s, steps)
    decreases |steps|
  {
    if steps == [] then s else After(Do(s, steps[0]), steps[1..])
  }

  lemma StepKeeps(s: State, step: Step)
    requires Inv(s) && Enabled(s, step)
    ensures Inv(Do(s, step))
  {
    hide Inv, Do, Enabled;
    if step.Send? || step.Receive? || step.PollOne? || step.TakeReply? {
      FarStepKeeps(s, step);
    } else {
      SenderStepKeeps(s, step);
    }
  }

  lemma {:induction false} RunKeeps(s: State, steps: seq<Step>)
    requires Inv(s) && CanRun(s, steps)
    ensures Inv(After(s, steps))
    decreases |steps|
  {
    hide Inv, Do, Enabled;
    if steps != [] {
      StepKeeps(s, steps[0]);
      RunKeeps(Do(s, steps[0]), steps[1..]);
    }
  }

  lemma StartsClean(s: State)
    requires Init(s)
    ensures Inv(s)
  {
  }

  // ---------------- the theorems ----------------

  /** How often a notification entered a queue. */
  function Times(log: seq<Note>, id: nat): nat {
    if log == [] then 0 else Times(log[..|log| - 1], id) + (if log[|log| - 1].id == id then 1 else 0)
  }

  /** A note received once is in the log once or never, as its verdict says. */
  lemma {:induction false} TimesKept(sent: seq<Note>, verdicts: seq<bool>, id: nat)
    requires |verdicts| <= |sent| && forall i, j :: 0 <= i < j < |sent| ==> sent[i].id != sent[j].id
    ensures Times(Kept(sent, verdicts), id) == if Backed(sent, verdicts, id, true) then 1 else 0
    decreases |verdicts|
  {
    if verdicts != [] {
      var n := |verdicts| - 1;
      var before, w := Kept(sent, verdicts[..n]), verdicts[..n];
      TimesKept(sent, w, id);
      assert (before + [sent[n]])[..|before|] == before;
      if Backed(sent, w, id, true) {
        BackedGrows(sent, w, sent, verdicts, id, true);
        var i :| 0 <= i < |w| <= |sent| && sent[i].id == id && w[i] == true;
        assert sent[n].id != id;
      } else {
        forall i | 0 <= i < n && sent[i].id == id ensures !verdicts[i] {
          assert w[i] == verdicts[i];
        }
        assert verdicts[n] && sent[n].id == id ==> Backed(sent, verdicts, id, true);
      }
    }
  }

  lemma {:induction false} InKept(sent: seq<Note>, verdicts: seq<bool>, i: nat)
    requires i < |verdicts| <= |sent| && verdicts[i]
    ensures sent[i] in Kept(sent, verdicts)
    decreases |verdicts|
  {
    if i < |verdicts| - 1 {
      InKept(sent, verdicts[..|verdicts| - 1], i);
    }
  }

  /** Another peer never queued it. */
  lemma ElsewhereNever(s: State, id: nat, p: nat)
    requires Inv(s) && id in s.led.records && p < |s.far| && s.led.records[id].peer != p
    ensures Times(s.far[p].log, id) == 0
  {
    var f := s.far[p];
    assert FarInv(f) && Carried(f.sent, p, s.led.records, s.led.sending);
    TimesKept(f.sent, f.verdicts, id);
  }

  /** A notification succeeds only if the peer it was for queued exactly that payload, exactly
      once, and no other peer did. */
  lemma SuccessMeansQueued(s: State, steps: seq<Step>, id: nat)
    requires Init(s) && CanRun(s, steps)
    requires id in After(s, steps).led.ended && After(s, steps).led.ended[id] == Succeeded
    ensures var e := After(s, steps);
            && id in e.led.records && e.led.records[id].peer < |e.far|
            && Note(id, e.led.records[id].payload) in e.far[e.led.records[id].peer].log
            && forall p :: 0 <= p < |e.far| ==> Times(e.far[p].log, id) == if p == e.led.records[id].peer then 1 else 0
  {
    StartsClean(s);
    RunKeeps(s, steps);
    var e := After(s, steps);
    QueuedOnce(e, id);
  }

  lemma QueuedOnce(e: State, id: nat)
    requires Inv(e) && id in e.led.ended && e.led.ended[id] == Succeeded
    ensures && id in e.led.records && e.led.records[id].peer < |e.far|
            && Note(id, e.led.records[id].payload) in e.far[e.led.records[id].peer].log
    ensures forall p :: 0 <= p < |e.far| ==> Times(e.far[p].log, id) == if p == e.led.records[id].peer then 1 else 0
  {
    assert e.led.why[id] == ByAck;
    assert Grounded(e.far, e.led.records, id, ByAck);
    var q := e.led.records[id].peer;
    var f := e.far[q];
    assert FarInv(f) && Carried(f.sent, q, e.led.records, e.led.sending);
    var i :| 0 <= i < |f.verdicts| <= |f.sent| && f.sent[i].id == id && f.verdicts[i] == true;
    InKept(f.sent, f.verdicts, i);
    forall p | 0 <= p < |e.far| ensures Times(e.far[p].log, id) == if p == q then 1 else 0 {
      if p == q {
        TimesKept(f.sent, f.verdicts, id);
      } else {
        ElsewhereNever(e, id, p);
      }
    }
  }

  /** One that ended on the peer's refusal was never queued anywhere. */
  lemma RefusalMeansNeverQueued(s: State, steps: seq<Step>, id: nat, p: nat)
    requires Init(s) && CanRun(s, steps)
    requires id in After(s, steps).led.why && After(s, steps).led.why[id] == ByRefusal && p < |After(s, steps).far|
    ensures Times(After(s, steps).far[p].log, id) == 0
  {
    StartsClean(s);
    RunKeeps(s, steps);
    NeverQueued(After(s, steps), id, p);
  }

  lemma NeverQueued(e: State, id: nat, p: nat)
    requires Inv(e) && id in e.led.why && e.led.why[id] == ByRefusal && p < |e.far|
    ensures Times(e.far[p].log, id) == 0
  {
    assert Grounded(e.far, e.led.records, id, ByRefusal);
    var q := e.led.records[id].peer;
    if p == q {
      var f := e.far[q];
      assert FarInv(f) && Carried(f.sent, q, e.led.records, e.led.sending);
      var i :| 0 <= i < |f.verdicts| <= |f.sent| && f.sent[i].id == id && f.verdicts[i] == false;
      TimesKept(f.sent, f.verdicts, id);
    } else {
      ElsewhereNever(e, id, p);
    }
  }

  lemma {:induction false} CountOfDistinct(ids: seq<nat>, id: nat)
    requires forall i, j :: 0 <= i < j < |ids| ==> ids[i] != ids[j]
    ensures multiset(ids)[id] == if id in ids then 1 else 0
    decreases |ids|
  {
    if ids != [] {
      var n := |ids| - 1;
      CountOfDistinct(ids[..n], id);
      assert ids == ids[..n] + [ids[n]];
    }
  }

  /** Nothing a later step does changes an ending, and it is published once, or never if it is
      that of a send that failed. */
  lemma {:induction false} EndsOnce(s: State, steps: seq<Step>, id: nat)
    requires Inv(s) && CanRun(s, steps) && id in s.led.ended && id in s.led.why
    ensures var e := After(s, steps);
            && id in e.led.ended && e.led.ended[id] == s.led.ended[id]
            && id in e.led.why && e.led.why[id] == s.led.why[id]
            && multiset(e.led.published)[id] == if s.led.why[id].SendFailed? then 0 else 1
    decreases |steps|
  {
    if steps == [] {
      CountOfDistinct(s.led.published, id);
    } else {
      StepKeeps(s, steps[0]);
      EndStays(s, steps[0], id);
      EndsOnce(Do(s, steps[0]), steps[1..], id);
    }
  }

  lemma EndStays(s: State, step: Step, id: nat)
    requires Inv(s) && Enabled(s, step) && id in s.led.ended && id in s.led.why
    ensures var e := Do(s, step).led;
            id in e.ended && e.ended[id] == s.led.ended[id] && id in e.why && e.why[id] == s.led.why[id]
  {
    hide FarSide, AllGrounded, Publications, Received;
  }

  /** Once close() has swept, nothing waits for an acknowledgement again. */
  lemma {:induction false} ClosedForGood(s: State, steps: seq<Step>)
    requires Inv(s) && CanRun(s, steps) && s.led.sweptAll
    ensures After(s, steps).led.sweptAll && After(s, steps).led.pending == {}
    decreases |steps|
  {
    if steps != [] {
      StepKeeps(s, steps[0]);
      SweptStays(s, steps[0]);
      ClosedForGood(Do(s, steps[0]), steps[1..]);
    }
  }

  lemma SweptStays(s: State, step: Step)
    requires Enabled(s, step) && s.led.sweptAll
    ensures Do(s, step).led.sweptAll
  {
  }
}
