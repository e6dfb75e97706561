/** What becomes of a notification: where it is while it waits, how each way of ending it ends, and
    what the peer's application gets to see. */
module NotifyProgress {
  import opened Status
  import opened Notify

  // ---------------- on its way ----------------

  /** In the channel to the peer, or answered in the channel back. */
  ghost predicate OnItsWay(f: Far, id: nat) {
    || (exists i :: |f.verdicts| <= i < |f.sent| && f.sent[i].id == id)
    || (exists j :: f.taken <= j < |f.replies| && f.replies[j].id == id)
  }

  ghost predicate Placed(l: Ledger, far: seq<Far>, id: nat) {
    id in l.sending || (id in l.records && l.records[id].peer < |far| && OnItsWay(far[l.records[id].peer], id))
  }

  ghost predicate AllPlaced(s: State) {
    && (forall id :: id in s.led.pending ==> Placed(s.led, s.far, id))
    && (forall id :: id in s.led.records ==> s.led.records[id].peer < |s.far|)
  }

  /** The peer's reply, if the step is about one, leaves. */
  predicate Answers(s: Step) {
    s.Receive? ==> s.sent
  }

  lemma SendMoves(f: Far, n: Note, id: nat)
    requires |f.verdicts| <= |f.sent|
    ensures OnItsWay(f, id) || n.id == id ==> OnItsWay(f.(sent := f.sent + [n]), id)
  {
    var f' := f.(sent := f.sent + [n]);
    if i :| |f.verdicts| <= i < |f.sent| && f.sent[i].id == id {
      assert f'.sent[i].id == id;
    }
    assert f'.sent[|f.sent|] == n;
  }

  lemma ReceiveMoves(f: Far, depth: nat, id: nat)
    requires |f.verdicts| < |f.sent| && f.taken <= |f.replies| && OnItsWay(f, id)
    ensures OnItsWay(Received(f, depth, true), id)
  {
    var f' := Received(f, depth, true);
    if i :| |f.verdicts| <= i < |f.sent| && f.sent[i].id == id {
      if i == |f.verdicts| {
        assert f'.replies[|f.replies|].id == id;
      } else {
        assert |f'.verdicts| <= i < |f'.sent| && f'.sent[i].id == id;
      }
    } else {
      var j :| f.taken <= j < |f.replies| && f.replies[j].id == id;
      assert f'.replies[j].id == id;
    }
  }

  lemma TakeMoves(f: Far, id: nat)
    requires f.taken < |f.replies| && OnItsWay(f, id) && f.replies[f.taken].id != id
    ensures OnItsWay(f.(taken := f.taken + 1), id)
  {
    var f' := f.(taken := f.taken + 1);
    if i :| |f.verdicts| <= i < |f.sent| && f.sent[i].id == id {
      assert |f'.verdicts| <= i < |f'.sent| && f'.sent[i].id == id;
    } else {
      var j :| f.taken <= j < |f.replies| && f.replies[j].id == id;
      assert f'.taken <= j < |f'.replies| && f'.replies[j].id == id;
    }
  }

  lemma FarStepPlaces(s: State, step: Step)
    requires Inv(s) && Enabled(s, step) && AllPlaced(s) && Answers(step)
    requires step.Send? || step.Receive? || step.PollOne? || step.TakeReply?
    ensures AllPlaced(Do(s, step))
  {
    var e := Do(s, step);
    var p := if step.Send? then s.led.records[step.id].peer else step.peer;
    FarFacts(s, p);
    hide Inv, Stages, Grounded, Carried, Kept, OnItsWay;
    forall id | id in e.led.pending ensures Placed(e.led, e.far, id) {
      assert Placed(s.led, s.far, id);
      match step
      case Send(n) => SendMoves(s.far[p], Note(n, s.led.records[n].payload), id);
      case Receive(_, depth, _) =>
        if id !in s.led.sending && s.led.records[id].peer == p { ReceiveMoves(s.far[p], depth, id); }
      case TakeReply(_) =>
        if id !in s.led.sending && s.led.records[id].peer == p { TakeMoves(s.far[p], id); }
      case PollOne(_) => SameWay(s.far[p], e.far[p], id);
    }
  }

  lemma SameWay(f: Far, f': Far, id: nat)
    requires f' == f.(inbox := f'.inbox)
    ensures OnItsWay(f', id) == OnItsWay(f, id)
  {
  }

  lemma SenderStepPlaces(s: State, step: Step)
    requires Inv(s) && Enabled(s, step) && AllPlaced(s)
    requires !(step.Send? || step.Receive? || step.PollOne? || step.TakeReply?)
    ensures AllPlaced(Do(s, step))
  {
    hide FarSide, AllGrounded, Publications, OnItsWay;
    var e := Do(s, step);
    forall id | id in e.led.pending ensures Placed(e.led, e.far, id) {
      assert id in s.led.pending ==> Placed(s.led, s.far, id);
    }
  }

  lemma {:induction false} RunPlaces(s: State, steps: seq<Step>)
    requires Inv(s) && CanRun(s, steps) && AllPlaced(s) && forall i :: 0 <= i < |steps| ==> Answers(steps[i])
    ensures Inv(After(s, steps)) && AllPlaced(After(s, steps))
    decreases |steps|
  {
    hide Inv, Do, Enabled, AllPlaced, Answers;
    if steps != [] {
      StepKeeps(s, steps[0]);
      if steps[0].Send? || steps[0].Receive? || steps[0].PollOne? || steps[0].TakeReply? {
        FarStepPlaces(s, steps[0]);
      } else {
        SenderStepPlaces(s, steps[0]);
      }
      RunPlaces(Do(s, steps[0]), steps[1..]);
    }
  }

  /** While every reply gets away, a notification that waits is being sent, is in the channel to its
      peer, or is answered and the answer in the channel back: so once all that has been handled
      nothing waits. */
  lemma NothingWaitsInVain(s: State, steps: seq<Step>, id: nat)
    requires Init(s) && CanRun(s, steps) && forall i :: 0 <= i < |steps| ==> Answers(steps[i])
    requires id in After(s, steps).led.pending
    ensures var e := After(s, steps);
            || id in e.led.sending
            || (id in e.led.records && e.led.records[id].peer < |e.far| && OnItsWay(e.far[e.led.records[id].peer], id))
  {
    StartsClean(s);
    RunPlaces(s, steps);
  }

  // ---------------- how it ends ----------------

  /** Each ending by its reason: an acknowledgement succeeds, a refusal is an exhausted resource, a
      failed send fails with its own status, and a sweep cancels if it carries no error or a
      cancellation was asked for, and fails with its status otherwise. */
  ghost predicate EndsBy(why: Reason, cancelled: bool, how: Outcome) {
    && (why.ByAck? ==> how == Succeeded)
    && (why.ByRefusal? ==> how == FailedWith(ResourceExhausted))
    && (why.SendFailed? ==> how == FailedWith(why.status))
    && (why.Swept? && (why.status == Ok || cancelled) ==> how == CancelledOutcome)
    && (why.Swept? && why.status != Ok && !cancelled ==> how == FailedWith(why.status))
  }

  ghost predicate AllEndedBy(l: Ledger) {
    l.why.Keys == l.ended.Keys && forall id :: id in l.ended ==> EndsBy(l.why[id], id in l.cancelled, l.ended[id])
  }

  lemma EndedByStep(s: State, step: Step)
    requires Enabled(s, step) && AllEndedBy(s.led)
    ensures AllEndedBy(Do(s, step).led)
  {
    hide Received;
    if step.End? {
      EndedByOne(s.led, step.id);
    } else {
      hide EndsBy;
      var l, e := s.led, Do(s, step).led;
      forall id | id in e.ended ensures EndsBy(e.why[id], id in e.cancelled, e.ended[id]) {
        assert EndsBy(l.why[id], id in l.cancelled, l.ended[id]);
      }
    }
  }

  lemma EndedByOne(l: Ledger, id: nat)
    requires id in l.claimed && AllEndedBy(l)
    ensures AllEndedBy(Ended(l, id))
  {
  }

  lemma {:induction false} EndsByItsReason(s: State, steps: seq<Step>)
    requires CanRun(s, steps) && AllEndedBy(s.led)
    ensures AllEndedBy(After(s, steps).led)
    decreases |steps|
  {
    hide Do, Enabled, AllEndedBy;
    if steps != [] {
      EndedByStep(s, steps[0]);
      EndsByItsReason(Do(s, steps[0]), steps[1..]);
    }
  }

  /** From any state, whatever it waits for, a pending notification can be cancelled, and cancelling it
      ends it cancelled. */
  lemma CancelEndsIt(s: State, id: nat)
    requires Inv(s) && id in s.led.pending
    ensures var steps := [Cancel(id), SweepCancelled, End(id)];
            && CanRun(s, steps) && id in After(s, steps).led.ended
            && After(s, steps).led.ended[id] == CancelledOutcome && id in After(s, steps).led.published
  {
    hide FarSide, AllGrounded, Publications;
    var a := Do(s, Cancel(id));
    var b := Do(a, SweepCancelled);
    assert id in b.led.claimed && b.led.claimed[id] == Swept(Ok);
    ThreeSteps(s, Cancel(id), SweepCancelled, End(id));
  }

  /** A peer that has gone ends all that waited for it, with the status of its departure, or cancelled
      where that was asked for. */
  lemma DepartureEndsIt(s: State, id: nat, status: Status)
    requires Inv(s) && id in s.led.pending && status != Ok && id in s.led.records
    ensures var p := s.led.records[id].peer;
            var steps := [SweepPeer(p, status), End(id)];
            && CanRun(s, steps) && id in After(s, steps).led.ended && id in After(s, steps).led.published
            && After(s, steps).led.ended[id] == (if id in s.led.cancelled then CancelledOutcome else FailedWith(status))
            && forall o :: o in Do(s, SweepPeer(p, status)).led.pending ==>
                 o in s.led.pending && o in s.led.records && s.led.records[o].peer != p
  {
    hide FarSide, AllGrounded, Publications;
    var p := s.led.records[id].peer;
    var a := Do(s, SweepPeer(p, status));
    assert id in a.led.claimed && a.led.claimed[id] == Swept(status);
    TwoSteps(s, SweepPeer(p, status), End(id));
  }

  /** And close() ends everything, and takes nothing new. */
  lemma CloseEndsIt(s: State, id: nat)
    requires Inv(s) && id in s.led.pending
    ensures var steps := [Close, SweepAll, End(id)];
            && CanRun(s, steps) && id in After(s, steps).led.ended && id in After(s, steps).led.published
            && After(s, steps).led.ended[id] == CancelledOutcome && After(s, steps).led.pending == {}
            && forall p, payload :: !Enabled(After(s, steps), Record(p, payload))
  {
    hide FarSide, AllGrounded, Publications;
    var a := Do(s, Close);
    var b := Do(a, SweepAll);
    assert id in b.led.claimed && b.led.claimed[id] == Swept(Ok);
    ThreeSteps(s, Close, SweepAll, End(id));
  }

  lemma TwoSteps(s: State, x: Step, y: Step)
    requires Enabled(s, x) && Enabled(Do(s, x), y)
    ensures CanRun(s, [x, y]) && After(s, [x, y]) == Do(Do(s, x), y)
  {
    hide Enabled, Do;
    var e := Do(Do(s, x), y);
    assert CanRun(e, []) && After(e, []) == e;
    assert [y][1..] == [] && [x, y][1..] == [y];
    assert CanRun(Do(s, x), [y]) && After(Do(s, x), [y]) == e;
  }

  lemma ThreeSteps(s: State, x: Step, y: Step, z: Step)
    requires Enabled(s, x) && Enabled(Do(s, x), y) && Enabled(Do(Do(s, x), y), z)
    ensures CanRun(s, [x, y, z]) && After(s, [x, y, z]) == Do(Do(Do(s, x), y), z)
  {
    hide Enabled, Do;
    TwoSteps(Do(s, x), y, z);
    assert [x, y, z][1..] == [y, z];
  }

  // ---------------- what the peer sees ----------------

  /** The queue is the end of what was ever queued: the application has taken the rest, in order. */
  ghost predicate QueueInv(f: Far, depth: nat) {
    |f.inbox| <= |f.log| && f.inbox == f.log[|f.log| - |f.inbox|..] && |f.inbox| <= depth
  }

  /** The peers' queues all hold that many. */
  predicate Deep(s: Step, depth: nat) {
    s.Receive? ==> s.depth == depth
  }

  lemma ReceivedQueue(f: Far, depth: nat, sent: bool)
    requires |f.verdicts| < |f.sent| && QueueInv(f, depth)
    ensures var e := Received(f, depth, sent);
            && QueueInv(e, depth) && |e.verdicts| == |f.verdicts| + 1
            && (e.verdicts[|f.verdicts|] <==> |f.inbox| < depth)
            && e.log == (if |f.inbox| < depth then f.log + [f.sent[|f.verdicts|]] else f.log)
            && (sent ==> e.replies == f.replies + [if |f.inbox| < depth then Ack(f.sent[|f.verdicts|].id)
                                                   else Refused(f.sent[|f.verdicts|].id)])
            && (!sent ==> e.replies == f.replies)
  {
    var e, n := Received(f, depth, sent), f.sent[|f.verdicts|];
    if |f.inbox| < depth {
      assert f.log[|f.log| - |f.inbox|..] + [n] == (f.log + [n])[|f.log| - |f.inbox|..];
    }
  }

  lemma QueueStep(s: State, step: Step, depth: nat)
    requires Enabled(s, step) && Deep(step, depth) && forall p :: 0 <= p < |s.far| ==> QueueInv(s.far[p], depth)
    ensures var e := Do(s, step); |e.far| == |s.far| && forall p :: 0 <= p < |e.far| ==> QueueInv(e.far[p], depth)
  {
    hide Take, Sweep, Recorded, Ended, OfPeer, Received;
    if step.Receive? {
      ReceivedQueue(s.far[step.peer], depth, step.sent);
    } else if step.PollOne? {
      var f := s.far[step.peer];
      assert f.inbox[1..] == f.log[|f.log| - |f.inbox| + 1..];
    }
  }

  lemma {:induction false} RunQueues(s: State, steps: seq<Step>, depth: nat)
    requires CanRun(s, steps) && forall p :: 0 <= p < |s.far| ==> QueueInv(s.far[p], depth)
    requires forall i :: 0 <= i < |steps| ==> Deep(steps[i], depth)
    ensures var e := After(s, steps); |e.far| == |s.far| && forall p :: 0 <= p < |e.far| ==> QueueInv(e.far[p], depth)
    decreases |steps|
  {
    hide Do, Enabled, QueueInv, Deep;
    if steps != [] {
      QueueStep(s, steps[0], depth);
      RunQueues(Do(s, steps[0]), steps[1..], depth);
    }
  }

  /** Over any run a peer's queue never holds more than its depth, and what its application has taken
      is, in order, the first part of what was ever queued. */
  lemma QueueIsInOrder(s: State, steps: seq<Step>, depth: nat, p: nat)
    requires Init(s) && CanRun(s, steps) && p < |s.far| && forall i :: 0 <= i < |steps| ==> Deep(steps[i], depth)
    ensures p < |After(s, steps).far|
    ensures var f := After(s, steps).far[p];
            |f.inbox| <= depth && exists k :: 0 <= k <= |f.log| && f.log == f.log[..k] + f.inbox
  {
    RunQueues(s, steps, depth);
    var f := After(s, steps).far[p];
    hide CanRun, After;
    assert QueueInv(f, depth);
    var k := |f.log| - |f.inbox|;
    assert f.log == f.log[..k] + f.inbox;
  }

  ghost predicate Reaches(s: State, e: State) {
    exists steps :: CanRun(s, steps) && After(s, steps) == e
  }

  lemma {:induction false} RunExtends(s: State, steps: seq<Step>, step: Step)
    requires CanRun(s, steps) && Enabled(After(s, steps), step)
    ensures CanRun(s, steps + [step]) && After(s, steps + [step]) == Do(After(s, steps), step)
    decreases |steps|
  {
    hide Do, Enabled;
    if steps == [] {
      var e := Do(s, step);
      assert [] + [step] == [step] && [step][1..] == [];
      assert CanRun(e, []) && After(e, []) == e;
    } else {
      RunExtends(Do(s, steps[0]), steps[1..], step);
      assert (steps + [step])[1..] == steps[1..] + [step];
    }
  }

  lemma ReachesStep(s: State, e: State, step: Step, e': State)
    requires Reaches(s, e) && Enabled(e, step) && Do(e, step) == e'
    ensures Reaches(s, e')
  {
    hide Do, Enabled;
    var steps :| CanRun(s, steps) && After(s, steps) == e;
    RunExtends(s, steps, step);
  }

  function Clean(next: nat): Ledger {
    Ledger(map[], next, {}, {}, map[], {}, map[], map[], [], false, false)
  }

  function Sent(id: nat, payload: seq<nat>): Ledger {
    Clean(id + 1).(records := map[id := Rec(0, payload)], pending := {id})
  }

  lemma SendsOne(s: State, payload: seq<nat>)
    requires Init(s) && |s.far| == 1
    ensures Reaches(s, State(Sent(s.led.next, payload), [Far([Note(s.led.next, payload)], [], [], [], [], 0)]))
  {
    var id := s.led.next;
    assert s.far[0] == Far([], [], [], [], [], 0);
    assert CanRun(s, []) && After(s, []) == s;
    hide Reaches;
    var s1 := State(Sent(id, payload).(sending := {id}), [Far([], [], [], [], [], 0)]);
    assert s.far == s1.far;
    ReachesStep(s, s, Record(0, payload), s1);
    var s2 := State(Sent(id, payload), [Far([Note(id, payload)], [], [], [], [], 0)]);
    assert s1.led.sending - {id} == {} && s1.far[0 := s2.far[0]] == s2.far;
    assert s1.far[0].sent + [Note(id, payload)] == [Note(id, payload)];
    ReachesStep(s, s1, Send(id), s2);
  }

  /** A notification goes all the way: sent, queued, acknowledged, ended, and taken by the application. */
  lemma DeliveryRoundTrip(s: State, payload: seq<nat>, depth: nat)
    requires Init(s) && |s.far| == 1 && depth > 0
    ensures exists e :: Reaches(s, e) && Delivered(e, s.led.next, payload)
  {
    var id, n, l := s.led.next, Note(s.led.next, payload), Sent(s.led.next, payload);
    SendsOne(s, payload);
    hide Reaches;
    var s2 := State(l, [Far([n], [], [], [], [], 0)]);
    var s3 := State(l, [Far([n], [true], [n], [n], [Ack(id)], 0)]);
    assert s2.far[0 := s3.far[0]] == s3.far;
    assert s2.far[0].verdicts + [true] == [true] && s2.far[0].replies + [Ack(id)] == [Ack(id)];
    assert s2.far[0].inbox + [n] == [n] && s2.far[0].log + [n] == [n];
    ReachesStep(s, s2, Receive(0, depth, true), s3);
    var s4 := State(l.(pending := {}, claimed := map[id := ByAck]), [Far([n], [true], [n], [n], [Ack(id)], 1)]);
    assert s3.far[0 := s4.far[0]] == s4.far;
    ReachesStep(s, s3, TakeReply(0), s4);
    Finishes(s, s4, id, payload);
  }

  lemma Finishes(s: State, s4: State, id: nat, payload: seq<nat>)
    requires var n := Note(id, payload);
             s4 == State(Sent(id, payload).(pending := {}, claimed := map[id := ByAck]),
                         [Far([n], [true], [n], [n], [Ack(id)], 1)])
    requires Reaches(s, s4)
    ensures exists e :: Reaches(s, e) && Delivered(e, id, payload)
  {
    hide Reaches;
    var n := Note(id, payload);
    var l := s4.led.(claimed := map[], ended := map[id := Succeeded], why := map[id := ByAck], published := [id]);
    var s5 := State(l, s4.far);
    ReachesStep(s, s4, End(id), s5);
    var s6 := State(l, [Far([n], [true], [], [n], [Ack(id)], 1)]);
    assert [n][1..] == [] && s5.far[0 := s6.far[0]] == s6.far;
    ReachesStep(s, s5, PollOne(0), s6);
  }

  predicate Delivered(s: State, id: nat, payload: seq<nat>) {
    && |s.far| == 1 && s.far[0].log == [Note(id, payload)] && s.far[0].inbox == []
    && id in s.led.ended && s.led.ended[id] == Succeeded && s.led.published == [id] && s.led.pending == {}
  }
}
