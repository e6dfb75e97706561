/** The completion queue that poll() and every verify_path() loop read. Whoever draws a
    completion may have drawn somebody else's: transfers go to a stash that poll() reads first,
    another connection's verification to a table its owner looks in, receives are absorbed on the
    spot. Steps are lock holds and single turns of the distribution loops. */
module CompletionQueue {
  // ---------------- work request ids ----------------

  const TWO_15 := 0x8000
  const TWO_16 := 0x1_0000
  const TWO_48 := 0x1_0000_0000_0000
  const VERIFY_ID := 0x4000_0000_0000_0000
  const RECV_ID := 0x8000_0000_0000_0000
  const TWO_64 := 0x1_0000_0000_0000_0000

  /** A 64-bit shift drops the high bits of the index; the sequence number fills the rest. */
  function MakeWrId(qpIndex: nat, seqNo: nat): nat {
    (qpIndex * TWO_48) % TWO_64 + seqNo % TWO_48
  }

  function WrQpIndex(id: nat): nat {
    (id / TWO_48) % TWO_15
  }

  function WrSeq(id: nat): nat {
    id % TWO_48
  }

  datatype Kind = Transfer | Verification | Receive

  /** The tests the readers make, in their order. */
  function KindOf(id: nat): Kind {
    if id == VERIFY_ID then Verification else if (id / RECV_ID) % 2 == 1 then Receive else Transfer
  }

  lemma ShiftWraps(qpIndex: nat)
    ensures (qpIndex * TWO_48) % TWO_64 == (qpIndex % TWO_16) * TWO_48
  {
    var low, high := qpIndex % TWO_16, qpIndex / TWO_16;
    assert qpIndex * TWO_48 == low * TWO_48 + high * TWO_64;
    assert 0 <= low * TWO_48 < TWO_64;
  }

  /** What a transfer's id gives back, for any index and sequence number; so both come back
      exactly when the index fits 15 bits and the sequence number 48. */
  lemma WrIdRoundTrip(qpIndex: nat, seqNo: nat)
    ensures MakeWrId(qpIndex, seqNo) < TWO_64
    ensures WrQpIndex(MakeWrId(qpIndex, seqNo)) == qpIndex % TWO_15
    ensures WrSeq(MakeWrId(qpIndex, seqNo)) == seqNo % TWO_48
    ensures WrQpIndex(MakeWrId(qpIndex, seqNo)) == qpIndex && WrSeq(MakeWrId(qpIndex, seqNo)) == seqNo <==>
              qpIndex < TWO_15 && seqNo < TWO_48
  {
    ShiftWraps(qpIndex);
    Apart(qpIndex % TWO_16, seqNo % TWO_48);
    Halves(qpIndex);
  }

  lemma Halves(n: nat)
    ensures (n % TWO_16) % TWO_15 == n % TWO_15
    ensures n % TWO_15 == n <==> n < TWO_15
  {
  }

  lemma Apart(q: nat, low: nat)
    requires low < TWO_48
    ensures (q * TWO_48 + low) / TWO_48 == q && (q * TWO_48 + low) % TWO_48 == low
  {
  }

  /** Exactly which minted ids a reader mistakes for something else. */
  lemma MintedIdIsATransfer(qpIndex: nat, seqNo: nat)
    ensures KindOf(MakeWrId(qpIndex, seqNo)) == Receive <==> qpIndex % TWO_16 >= TWO_15
    ensures KindOf(MakeWrId(qpIndex, seqNo)) == Verification <==> qpIndex % TWO_16 == 0x4000 && seqNo % TWO_48 == 0
  {
    ShiftWraps(qpIndex);
    var q, low := qpIndex % TWO_16, seqNo % TWO_48;
    var id := MakeWrId(qpIndex, seqNo);
    assert id == q * TWO_48 + low && low < TWO_48 && id < TWO_64;
    assert id >= RECV_ID <==> q >= TWO_15;
    assert id / RECV_ID == if id >= RECV_ID then 1 else 0;
    assert id == VERIFY_ID <==> q == 0x4000 && low == 0;
  }

  // ---------------- the machine ----------------

  /** stamp tells apart completions that carry the same id. */
  datatype Wc = Wc(stamp: nat, id: nat, qp: nat)

  datatype Pc =
    | Idle
    | TookStash(max: nat)            // poll() between the stash and the queue
    | Giving                         // handing out what was drawn
    | Checking                       // verify_path() about to look in the table
    | Drawing                        // verify_path() about to read the queue
    | Finished

  /** A thread inside poll(), or inside verify_path() for its own queue pair. */
  datatype Reader = Reader(polls: bool, qp: nat, pc: Pc, batch: seq<Wc>, mine: seq<Wc>, answer: seq<Wc>)

  datatype Shared = Shared(
    queue: seq<Wc>,          // the adapter's completion queue
    stash: seq<Wc>,
    verified: map<nat, Wc>,  // verification completions left for their owner
    handled: seq<Wc>,        // transfers retired on a registered connection
    dropped: seq<Wc>,        // transfers of a connection already forgotten
    received: seq<Wc>,
    registered: set<nat>,
    forgotten: set<nat>)

  datatype State = State(sh: Shared, readers: seq<Reader>, produced: seq<Wc>)

  datatype Step =
    | Arrive(wc: Wc)                      // the adapter completes something
    | Register(qp: nat)
    | Forget(qp: nat)
    | TakeStash(r: nat, max: nat)         // poll(): whatever is stashed, up to max
    | PollDraw(r: nat, n: nat)            // poll(): up to what is left of max; none if that fails
    | Give(r: nat)                        // one turn of either distribution loop
    | PollReturn(r: nat)
    | LookUp(r: nat)                      // verify_path(): take_verified
    | VerifyDraw(r: nat, n: nat)          // verify_path(): up to eight
    | VerifyTurn(r: nat)                  // verify_path(): answered, or around again
    | GiveUp(r: nat)                      // verify_path(): the deadline passed, or the draw failed

  /** The adapter's side: stamps are fresh, a queue pair's one verification send completes once,
      and transfers complete only on queue pairs that were registered before. */
  ghost predicate CanArrive(s: State, wc: Wc) {
    && (forall i :: 0 <= i < |s.produced| ==> s.produced[i].stamp != wc.stamp)
    && (KindOf(wc.id) == Verification ==>
          forall i :: 0 <= i < |s.produced| && KindOf(s.produced[i].id) == Verification ==> s.produced[i].qp != wc.qp)
    && (KindOf(wc.id) == Transfer ==> wc.qp in s.sh.registered + s.sh.forgotten)
  }

  predicate Is(s: State, r: nat, polls: bool, pc: Pc) {
    r < |s.readers| && s.readers[r].polls == polls && s.readers[r].pc == pc
  }

  ghost predicate Enabled(s: State, step: Step) {
    match step
    case Arrive(wc) => CanArrive(s, wc)
    case Register(qp) => qp !in s.sh.forgotten // numbers are not reused
    case Forget(qp) => qp in s.sh.registered
    case TakeStash(r, max) => Is(s, r, true, Idle) && max > 0
    case PollDraw(r, n) =>
      r < |s.readers| && s.readers[r].polls && s.readers[r].pc.TookStash?
      && |s.readers[r].batch| + n <= s.readers[r].pc.max && n <= |s.sh.queue|
    case Give(r) => r < |s.readers| && s.readers[r].pc == Giving && s.readers[r].batch != []
    case PollReturn(r) => Is(s, r, true, Giving) && s.readers[r].batch == []
    case LookUp(r) => Is(s, r, false, Checking)
    case VerifyDraw(r, n) => Is(s, r, false, Drawing) && n <= 8 && n <= |s.sh.queue|
    case VerifyTurn(r) => Is(s, r, false, Giving) && s.readers[r].batch == []
    case GiveUp(r) => Is(s, r, false, Checking) || Is(s, r, false, Drawing)
  }

  function Min(a: nat, b: nat): nat {
    if a < b then a else b
  }

  /** Where a reader puts the completion at the front of its batch. */
  function Place(rd: Reader, sh: Shared): (Reader, Shared)
    requires rd.batch != []
  {
    var wc, rest := rd.batch[0], rd.(batch := rd.batch[1..]);
    match KindOf(wc.id)
    case Verification =>
      if !rd.polls && wc.qp == rd.qp then (rest.(mine := rest.mine + [wc]), sh)
      else (rest, sh.(verified := sh.verified[wc.qp := wc]))
    case Receive => (rest, sh.(received := sh.received + [wc]))
    case Transfer =>
      if !rd.polls then (rest, sh.(stash := sh.stash + [wc]))
      else if wc.qp in sh.registered then (rest, sh.(handled := sh.handled + [wc]))
      else (rest, sh.(dropped := sh.dropped + [wc]))
  }

  function FromStash(rd: Reader, sh: Shared, n: nat): (Reader, Shared)
    requires n <= |sh.stash|
  {
    (rd.(batch := rd.batch + sh.stash[..n]), sh.(stash := sh.stash[n..]))
  }

  function FromQueue(rd: Reader, sh: Shared, n: nat): (Reader, Shared)
    requires n <= |sh.queue|
  {
    (rd.(batch := rd.batch + sh.queue[..n]), sh.(queue := sh.queue[n..]))
  }

  /** What a reader's own step does to it and to the shared state. */
  ghost function ReaderStep(rd: Reader, sh: Shared, step: Step): (Reader, Shared) {
    match step
    case TakeStash(_, max) =>
      FromStash(rd.(pc := TookStash(max)), sh, Min(max, |sh.stash|))
    case PollDraw(_, n) =>
      if n <= |sh.queue| then FromQueue(rd.(pc := Giving), sh, n) else (rd, sh)
    case Give(_) => if rd.batch != [] then Place(rd, sh) else (rd, sh)
    case PollReturn(_) => (rd.(pc := Idle), sh)
    case LookUp(_) =>
      if rd.qp in sh.verified then
        (rd.(pc := Finished, answer := rd.answer + [sh.verified[rd.qp]]), sh.(verified := sh.verified - {rd.qp}))
      else (rd.(pc := Drawing), sh)
    case VerifyDraw(_, n) =>
      if n <= |sh.queue| then FromQueue(rd.(pc := Giving), sh, n) else (rd, sh)
    case VerifyTurn(_) =>
      if rd.mine != [] then (rd.(pc := Finished, answer := rd.answer + rd.mine, mine := []), sh)
      else (rd.(pc := Checking), sh)
    case GiveUp(_) => (rd.(pc := Finished), sh)
    case _ => (rd, sh)
  }

  ghost function Do(s: State, step: Step): State
    requires Enabled(s, step)
  {
    match step
    case Arrive(wc) => s.(sh := s.sh.(queue := s.sh.queue + [wc]), produced := s.produced + [wc])
    case Register(qp) => s.(sh := s.sh.(registered := s.sh.registered + {qp}))
    case Forget(qp) => s.(sh := s.sh.(registered := s.sh.registered - {qp}, forgotten := s.sh.forgotten + {qp}))
    case _ =>
      var (rd, sh) := ReaderStep(s.readers[step.r], s.sh, step);
      s.(readers := s.readers[step.r := rd], sh := sh)
  }

  /** Nobody has drawn anything yet: any number of threads polling and verifying. */
  ghost predicate Init(s: State) {
    && s.sh == Shared([], [], map[], [], [], [], {}, {}) && s.produced == []
    && (forall r :: 0 <= r < |s.readers| ==> var rd := s.readers[r];
          rd.batch == [] && rd.mine == [] && rd.answer == [] && rd.pc == if rd.polls then Idle else Checking)
  }

  // ---------------- where completions are ----------------

  /** How many copies of a completion a reader, all readers and the shared state hold. */
  function WithReader(rd: Reader, wc: Wc): nat {
    multiset(rd.batch)[wc] + multiset(rd.mine)[wc] + multiset(rd.answer)[wc]
  }

  function WithReaders(rs: seq<Reader>, wc: Wc): nat {
    if rs == [] then 0 else WithReaders(rs[..|rs| - 1], wc) + WithReader(rs[|rs| - 1], wc)
  }

  function InShared(sh: Shared, wc: Wc): nat {
    multiset(sh.queue)[wc] + multiset(sh.stash)[wc] + (if wc in sh.verified.Values then 1 else 0)
    + multiset(sh.handled)[wc] + multiset(sh.dropped)[wc] + multiset(sh.received)[wc]
  }

  /** What may lie where. */
  ghost predicate SharedKinds(sh: Shared) {
    && (forall i :: 0 <= i < |sh.stash| ==> KindOf(sh.stash[i].id) == Transfer)
    && (forall i :: 0 <= i < |sh.handled| ==> KindOf(sh.handled[i].id) == Transfer)
    && (forall i :: 0 <= i < |sh.dropped| ==> KindOf(sh.dropped[i].id) == Transfer && sh.dropped[i].qp in sh.forgotten)
    && (forall i :: 0 <= i < |sh.received| ==> KindOf(sh.received[i].id) == Receive)
    && (forall qp :: qp in sh.verified ==> sh.verified[qp].qp == qp && KindOf(sh.verified[qp].id) == Verification)
    && sh.registered !! sh.forgotten
  }

  ghost predicate ReaderKinds(rd: Reader) {
    && (forall i :: 0 <= i < |rd.mine| ==> rd.mine[i].qp == rd.qp && KindOf(rd.mine[i].id) == Verification)
    && (forall i :: 0 <= i < |rd.answer| ==> rd.answer[i].qp == rd.qp && KindOf(rd.answer[i].id) == Verification)
    && (rd.polls ==> rd.mine == [] && rd.answer == [])
    && (rd.batch != [] ==> rd.pc == Giving || rd.pc.TookStash?)
    && (rd.mine != [] ==> rd.pc == Giving) && (rd.answer != [] ==> rd.pc == Finished)
  }

  /** Both verify the same queue pair. */
  predicate SameCheck(a: Wc, b: Wc) {
    KindOf(a.id) == Verification && KindOf(b.id) == Verification && a.qp == b.qp
  }

  ghost predicate ProducedOnce(sh: Shared, produced: seq<Wc>) {
    && (forall i, j :: 0 <= i < j < |produced| ==> produced[i].stamp != produced[j].stamp)
    && (forall i, j :: 0 <= i < j < |produced| ==> !SameCheck(produced[i], produced[j]))
    && (forall i :: 0 <= i < |produced| && KindOf(produced[i].id) == Transfer ==>
          produced[i].qp in sh.registered + sh.forgotten)
  }

  /** Every completion produced is in exactly one place, as often as it was produced. */
  ghost predicate Accounted(s: State) {
    forall wc :: multiset(s.produced)[wc] == InShared(s.sh, wc) + WithReaders(s.readers, wc)
  }

  ghost predicate Inv(s: State) {
    && Accounted(s)
    && SharedKinds(s.sh)
    && (forall r :: 0 <= r < |s.readers| ==> ReaderKinds(s.readers[r]))
    && ProducedOnce(s.sh, s.produced)
  }

  // ---------------- the proofs ----------------

  lemma {:induction false} WithReadersUpdate(rs: seq<Reader>, r: nat, rd: Reader, wc: Wc)
    requires r < |rs|
    ensures WithReaders(rs[r := rd], wc) + WithReader(rs[r], wc) == WithReaders(rs, wc) + WithReader(rd, wc)
    decreases |rs|
  {
    hide WithReader;
    var n := |rs| - 1;
    if r == n {
      assert rs[r := rd][..n] == rs[..n];
    } else {
      WithReadersUpdate(rs[..n], r, rd, wc);
      assert rs[r := rd][..n] == rs[..n][r := rd];
    }
  }

  lemma {:induction false} WithReadersHolds(rs: seq<Reader>, r: nat, wc: Wc)
    requires r < |rs|
    ensures WithReader(rs[r], wc) <= WithReaders(rs, wc)
    decreases |rs|
  {
    if r < |rs| - 1 {
      WithReadersHolds(rs[..|rs| - 1], r, wc);
    }
  }

  lemma TakeFront(q: seq<Wc>, n: nat, b: seq<Wc>, wc: Wc)
    requires n <= |q|
    ensures multiset(q)[wc] + multiset(b)[wc] == multiset(b + q[..n])[wc] + multiset(q[n..])[wc]
  {
    assert q == q[..n] + q[n..];
  }

  lemma {:induction false} CountOnce(produced: seq<Wc>, wc: Wc)
    requires forall i, j :: 0 <= i < j < |produced| ==> produced[i].stamp != produced[j].stamp
    ensures multiset(produced)[wc] <= 1
    decreases |produced|
  {
    if produced != [] {
      var n := |produced| - 1;
      assert produced == produced[..n] + [produced[n]];
      CountOnce(produced[..n], wc);
      if produced[n] == wc {
        assert wc !in produced[..n];
      }
    }
  }

  lemma NoteVerified(m: map<nat, Wc>, wc: Wc, x: Wc)
    requires forall qp :: qp in m ==> m[qp].qp == qp
    requires wc.qp !in m
    ensures wc !in m.Values
    ensures x in m[wc.qp := wc].Values <==> x in m.Values || x == wc
  {
    var m' := m[wc.qp := wc];
    assert m'[wc.qp] == wc;
    if x in m.Values {
      assert m'[x.qp] == x;
    }
  }

  lemma TakeVerified(m: map<nat, Wc>, qp: nat, x: Wc)
    requires forall k :: k in m ==> m[k].qp == k
    requires qp in m
    ensures m[qp] !in (m - {qp}).Values
    ensures x in m.Values <==> x in (m - {qp}).Values || x == m[qp]
  {
    var m' := m - {qp};
    if x in m.Values && x != m[qp] {
      assert m'[x.qp] == x;
    }
    if x in m'.Values {
      assert m[x.qp] == x;
    }
  }

  /** Two completions in different places never verify the same queue pair. */
  lemma Elsewhere(sh: Shared, produced: seq<Wc>, x: Wc, y: Wc)
    requires ProducedOnce(sh, produced) && x in produced && y in produced
    requires x == y ==> multiset(produced)[x] >= 2
    ensures !SameCheck(x, y)
  {
    CountOnce(produced, x);
    var i :| 0 <= i < |produced| && produced[i] == x;
    var j :| 0 <= j < |produced| && produced[j] == y;
    assert i < j ==> !SameCheck(produced[i], produced[j]);
    assert j < i ==> !SameCheck(produced[j], produced[i]);
  }

  lemma PlaceMoves(rd: Reader, sh: Shared, x: Wc)
    requires rd.batch != [] && SharedKinds(sh)
    requires KindOf(rd.batch[0].id) == Verification && (rd.polls || rd.batch[0].qp != rd.qp) ==>
               rd.batch[0].qp !in sh.verified
    ensures var (rd', sh') := Place(rd, sh);
            InShared(sh', x) + WithReader(rd', x) == InShared(sh, x) + WithReader(rd, x)
  {
    hide KindOf;
    var wc := rd.batch[0];
    assert rd.batch == [wc] + rd.batch[1..];
    assert multiset(rd.batch)[x] == multiset{wc}[x] + multiset(rd.batch[1..])[x];
    if KindOf(wc.id) == Verification && (rd.polls || wc.qp != rd.qp) {
      NoteVerified(sh.verified, wc, x);
    }
  }

  lemma PlaceKinds(rd: Reader, sh: Shared)
    requires rd.batch != [] && rd.pc == Giving && SharedKinds(sh) && ReaderKinds(rd)
    requires KindOf(rd.batch[0].id) == Transfer ==> rd.batch[0].qp in sh.registered + sh.forgotten
    ensures var (rd', sh') := Place(rd, sh);
            SharedKinds(sh') && ReaderKinds(rd') && sh'.registered == sh.registered && sh'.forgotten == sh.forgotten
  {
    hide KindOf;
  }

  lemma DrawMoves(rd: Reader, sh: Shared, step: Step, x: Wc)
    requires step.TakeStash? || step.PollDraw? || step.VerifyDraw?
    ensures var (rd', sh') := ReaderStep(rd, sh, step);
            InShared(sh', x) + WithReader(rd', x) == InShared(sh, x) + WithReader(rd, x)
  {
    hide FromStash, FromQueue;
    match step
    case TakeStash(_, max) => StashMoves(rd.(pc := TookStash(max)), sh, Min(max, |sh.stash|), x);
    case PollDraw(_, n) => if n <= |sh.queue| { QueueMoves(rd.(pc := Giving), sh, n, x); }
    case VerifyDraw(_, n) => if n <= |sh.queue| { QueueMoves(rd.(pc := Giving), sh, n, x); }
    case _ =>
  }

  lemma StashMoves(rd: Reader, sh: Shared, n: nat, x: Wc)
    requires n <= |sh.stash|
    ensures var (rd', sh') := FromStash(rd, sh, n);
            InShared(sh', x) + WithReader(rd', x) == InShared(sh, x) + WithReader(rd, x)
  {
    TakeFront(sh.stash, n, rd.batch, x);
  }

  lemma QueueMoves(rd: Reader, sh: Shared, n: nat, x: Wc)
    requires n <= |sh.queue|
    ensures var (rd', sh') := FromQueue(rd, sh, n);
            InShared(sh', x) + WithReader(rd', x) == InShared(sh, x) + WithReader(rd, x)
  {
    TakeFront(sh.queue, n, rd.batch, x);
  }

  lemma TurnMoves(rd: Reader, sh: Shared, step: Step, x: Wc)
    requires step.PollReturn? || step.LookUp? || step.VerifyTurn? || step.GiveUp?
    requires SharedKinds(sh)
    ensures var (rd', sh') := ReaderStep(rd, sh, step);
            InShared(sh', x) + WithReader(rd', x) == InShared(sh, x) + WithReader(rd, x)
  {
    if step.LookUp? {
      if rd.qp in sh.verified {
        LookUpMoves(rd, sh, x);
      }
    } else if step.VerifyTurn? {
      AnswerMoves(rd, x);
    }
    hide KindOf, SharedKinds, InShared, WithReader;
  }

  lemma LookUpMoves(rd: Reader, sh: Shared, x: Wc)
    requires SharedKinds(sh) && rd.qp in sh.verified
    ensures var rd', sh' := rd.(pc := Finished, answer := rd.answer + [sh.verified[rd.qp]]),
            sh.(verified := sh.verified - {rd.qp});
            InShared(sh', x) + WithReader(rd', x) == InShared(sh, x) + WithReader(rd, x)
  {
    hide KindOf;
    TakeVerified(sh.verified, rd.qp, x);
  }

  lemma AnswerMoves(rd: Reader, x: Wc)
    ensures WithReader(rd.(pc := Finished, answer := rd.answer + rd.mine, mine := []), x) == WithReader(rd, x)
    ensures WithReader(rd.(pc := Checking), x) == WithReader(rd, x)
  {
  }

  lemma OtherKinds(rd: Reader, sh: Shared, step: Step)
    requires !step.Arrive? && !step.Register? && !step.Forget? && !step.Give?
    requires SharedKinds(sh) && ReaderKinds(rd)
    requires (step.TakeStash? ==> rd.pc == Idle) && rd.pc != Finished
    requires rd.pc == Giving ==> step.PollReturn? || step.VerifyTurn?
    requires step.PollReturn? || step.LookUp? || step.VerifyTurn? || step.GiveUp? ==>
               rd.batch == [] && (step.PollReturn? <==> rd.polls)
    ensures var (rd', sh') := ReaderStep(rd, sh, step);
            SharedKinds(sh') && ReaderKinds(rd') && sh'.registered == sh.registered && sh'.forgotten == sh.forgotten
  {
    hide KindOf;
  }

  /** What a reader is about to hand out can be handed out. */
  lemma FrontIsFresh(s: State, r: nat)
    requires Inv(s) && r < |s.readers| && s.readers[r].batch != []
    ensures var wc := s.readers[r].batch[0];
            && (KindOf(wc.id) == Verification ==> wc.qp !in s.sh.verified)
            && (KindOf(wc.id) == Transfer ==> wc.qp in s.sh.registered + s.sh.forgotten)
  {
    hide KindOf;
    var wc := s.readers[r].batch[0];
    WithReadersHolds(s.readers, r, wc);
    assert wc in multiset(s.readers[r].batch);
    assert multiset(s.produced)[wc] > 0;
    if KindOf(wc.id) == Verification && wc.qp in s.sh.verified {
      var v := s.sh.verified[wc.qp];
      assert v in s.sh.verified.Values;
      assert multiset(s.produced)[v] == InShared(s.sh, v) + WithReaders(s.readers, v);
      Elsewhere(s.sh, s.produced, v, wc);
    }
  }

  lemma ReaderStepKeeps(s: State, step: Step)
    requires Inv(s) && Enabled(s, step) && !step.Arrive? && !step.Register? && !step.Forget?
    ensures Inv(Do(s, step))
  {
    hide SharedKinds, ReaderKinds, InShared, WithReader, WithReaders, ProducedOnce, Place, KindOf;
    var r := step.r;
    var rd, sh := s.readers[r], s.sh;
    var (rd', sh') := ReaderStep(rd, sh, step);
    QuietBatch(rd);
    if step.Give? {
      FrontIsFresh(s, r);
      PlaceKinds(rd, sh);
    } else {
      OtherKinds(rd, sh, step);
    }
    forall x ensures multiset(s.produced)[x] == InShared(sh', x) + WithReaders(s.readers[r := rd'], x) {
      if step.Give? {
        PlaceMoves(rd, sh, x);
      } else if step.TakeStash? || step.PollDraw? || step.VerifyDraw? {
        DrawMoves(rd, sh, step, x);
      } else {
        TurnMoves(rd, sh, step, x);
      }
      WithReadersUpdate(s.readers, r, rd', x);
    }
    ProducedFrame(sh, sh', s.produced);
  }

  lemma QuietBatch(rd: Reader)
    requires ReaderKinds(rd)
    ensures rd.batch != [] ==> rd.pc == Giving || rd.pc.TookStash?
  {
  }

  lemma ProducedFrame(sh: Shared, sh': Shared, produced: seq<Wc>)
    requires ProducedOnce(sh, produced) && sh'.registered == sh.registered && sh'.forgotten == sh.forgotten
    ensures ProducedOnce(sh', produced)
  {
  }

  lemma OutsideStepKeeps(s: State, step: Step)
    requires Inv(s) && Enabled(s, step) && (step.Arrive? || step.Register? || step.Forget?)
    ensures Inv(Do(s, step))
  {
    hide ReaderKinds, WithReader, WithReaders, InShared, SharedKinds, ProducedOnce, KindOf, CanArrive;
    var s' := Do(s, step);
    match step
    case Arrive(wc) =>
      ArriveOnce(s, wc);
      forall x ensures multiset(s'.produced)[x] == InShared(s'.sh, x) + WithReaders(s.readers, x) {
        ArriveMoves(s.sh, s.produced, wc, x);
      }
    case Register(qp) => Membership(s.sh, s'.sh, s.produced, s.sh.registered + {qp}, s.sh.forgotten);
    case Forget(qp) => Membership(s.sh, s'.sh, s.produced, s.sh.registered - {qp}, s.sh.forgotten + {qp});
  }

  lemma ArriveMoves(sh: Shared, produced: seq<Wc>, wc: Wc, x: Wc)
    ensures multiset(produced + [wc])[x] == multiset(produced)[x] + (if x == wc then 1 else 0)
    ensures InShared(sh.(queue := sh.queue + [wc]), x) == InShared(sh, x) + (if x == wc then 1 else 0)
  {
  }

  lemma Membership(sh: Shared, sh': Shared, produced: seq<Wc>, registered: set<nat>, forgotten: set<nat>)
    requires SharedKinds(sh) && ProducedOnce(sh, produced)
    requires sh' == sh.(registered := registered, forgotten := forgotten)
    requires sh.registered + sh.forgotten <= registered + forgotten && sh.forgotten <= forgotten
    requires sh.registered !! sh.forgotten ==> registered !! forgotten
    ensures SharedKinds(sh') && ProducedOnce(sh', produced)
    ensures forall x :: InShared(sh', x) == InShared(sh, x)
  {
    hide KindOf;
  }

  lemma ArriveOnce(s: State, wc: Wc)
    requires ProducedOnce(s.sh, s.produced) && CanArrive(s, wc)
    ensures var sh' := s.sh.(queue := s.sh.queue + [wc]);
            ProducedOnce(sh', s.produced + [wc]) && (SharedKinds(s.sh) ==> SharedKinds(sh'))
  {
  }

  ghost predicate CanRun(s: State, steps: seq<Step>)
    decreases |steps|
  {
    steps == [] || (Enabled(s, steps[0]) && CanRun(Do(s, steps[0]), steps[1..]))
  }

  ghost function After(s: State, steps: seq<Step>): State
    requires CanRun(s, steps)
    decreases |steps|
  {
    if steps == [] then s else After(Do(s, steps[0]), steps[1..])
  }

  lemma {:induction false} RunKeeps(s: State, steps: seq<Step>)
    requires Inv(s) && CanRun(s, steps)
    ensures Inv(After(s, steps))
    decreases |steps|
  {
    hide Inv, Enabled, Do;
    if steps != [] {
      if steps[0].Arrive? || steps[0].Register? || steps[0].Forget? {
        OutsideStepKeeps(s, steps[0]);
      } else {
        ReaderStepKeeps(s, steps[0]);
      }
      RunKeeps(Do(s, steps[0]), steps[1..]);
    }
  }

  lemma StartsClean(s: State)
    requires Init(s)
    ensures Inv(s)
  {
    forall wc ensures WithReaders(s.readers, wc) == 0 {
      NotWithReaders(s.readers, wc);
    }
    forall r | 0 <= r < |s.readers| ensures ReaderKinds(s.readers[r]) {
    }
  }

  // ---------------- the theorems ----------------

  /** Whatever the interleaving, every completion the adapter produced is in exactly one place,
      once. */
  lemma NothingLostNothingTwice(s: State, steps: seq<Step>)
    requires Init(s) && CanRun(s, steps)
    ensures var e := After(s, steps);
            forall wc :: InShared(e.sh, wc) + WithReaders(e.readers, wc) == multiset(e.produced)[wc] <= 1
  {
    StartsClean(s);
    RunKeeps(s, steps);
    var e := After(s, steps);
    forall wc ensures InShared(e.sh, wc) + WithReaders(e.readers, wc) == multiset(e.produced)[wc] <= 1 {
      CountOnce(e.produced, wc);
    }
  }

  /** A transfer of a connection that was not forgotten is never dropped and never mistaken: once
      the queue, the stash and the readers' hands are empty, poll() has handled it. */
  lemma TransfersAreHandled(s: State, steps: seq<Step>, wc: Wc)
    requires Init(s) && CanRun(s, steps)
    requires var e := After(s, steps);
             && wc in e.produced && KindOf(wc.id) == Transfer && wc.qp !in e.sh.forgotten
             && wc !in e.sh.queue && wc !in e.sh.stash
             && forall r :: 0 <= r < |e.readers| ==> wc !in e.readers[r].batch
    ensures multiset(After(s, steps).sh.handled)[wc] == 1
  {
    StartsClean(s);
    RunKeeps(s, steps);
    var e := After(s, steps);
    CountOnce(e.produced, wc);
    assert multiset(e.produced)[wc] == 1;
    assert wc !in e.sh.verified.Values;
    assert wc !in e.sh.dropped && wc !in e.sh.received;
    NotWithReaders(e.readers, wc);
    assert InShared(e.sh, wc) == multiset(e.sh.handled)[wc];
  }

  lemma {:induction false} NotWithReaders(rs: seq<Reader>, wc: Wc)
    requires forall r :: 0 <= r < |rs| ==> wc !in rs[r].batch && wc !in rs[r].mine && wc !in rs[r].answer
    ensures WithReaders(rs, wc) == 0
    decreases |rs|
  {
    if rs != [] {
      NotWithReaders(rs[..|rs| - 1], wc);
    }
  }

  lemma {:induction false} WhoHolds(rs: seq<Reader>, wc: Wc) returns (r: nat)
    requires WithReaders(rs, wc) > 0
    ensures r < |rs| && WithReader(rs[r], wc) > 0
    decreases |rs|
  {
    var n := |rs| - 1;
    if WithReader(rs[n], wc) > 0 {
      r := n;
    } else {
      r := WhoHolds(rs[..n], wc);
    }
  }

  /** A verification completion nobody has in hand any more waits in the table under its own
      queue pair, or its own queue pair's verify_path() has it; and a verify_path() is only ever
      answered with its own. */
  lemma VerificationsReachTheirOwner(s: State, steps: seq<Step>, wc: Wc)
    requires Init(s) && CanRun(s, steps)
    requires var e := After(s, steps);
             && wc in e.produced && KindOf(wc.id) == Verification
             && wc !in e.sh.queue && forall r :: 0 <= r < |e.readers| ==> wc !in e.readers[r].batch
    ensures var e := After(s, steps);
            || (wc.qp in e.sh.verified && e.sh.verified[wc.qp] == wc)
            || exists r :: 0 <= r < |e.readers| && !e.readers[r].polls && e.readers[r].qp == wc.qp
                 && (wc in e.readers[r].mine || wc in e.readers[r].answer)
  {
    StartsClean(s);
    RunKeeps(s, steps);
    var e := After(s, steps);
    assert wc in multiset(e.produced);
    if InShared(e.sh, wc) > 0 {
      assert wc !in e.sh.stash && wc !in e.sh.handled && wc !in e.sh.dropped && wc !in e.sh.received;
      assert wc in e.sh.verified.Values;
    } else {
      var r := WhoHolds(e.readers, wc);
      assert ReaderKinds(e.readers[r]);
    }
  }

  lemma AnsweredWithOwn(s: State, steps: seq<Step>, r: nat, i: nat)
    requires Init(s) && CanRun(s, steps)
    requires r < |After(s, steps).readers| && i < |After(s, steps).readers[r].answer|
    ensures var rd := After(s, steps).readers[r];
            !rd.polls && rd.answer[i].qp == rd.qp && KindOf(rd.answer[i].id) == Verification
  {
    StartsClean(s);
    RunKeeps(s, steps);
    assert ReaderKinds(After(s, steps).readers[r]);
  }

  // ---------------- one whole call ----------------

  datatype Spot = Mine | Table | Received | Stashed | Handled | Dropped

  /** A polling thread retires transfers, a verifying one sets them aside; each keeps receives
      apart, and a verification that is not the thread's own goes under its queue pair. */
  predicate GoesTo(spot: Spot, polls: bool, qp: nat, registered: set<nat>, w: Wc) {
    match spot
    case Mine => !polls && KindOf(w.id).Verification? && w.qp == qp
    case Table => KindOf(w.id).Verification? && (polls || w.qp != qp)
    case Received => KindOf(w.id).Receive?
    case Stashed => !polls && KindOf(w.id).Transfer?
    case Handled => polls && KindOf(w.id).Transfer? && w.qp in registered
    case Dropped => polls && KindOf(w.id).Transfer? && w.qp !in registered
  }

  /** Those of ws that go to one spot, in order. */
  function Bound(spot: Spot, polls: bool, qp: nat, registered: set<nat>, ws: seq<Wc>): seq<Wc> {
    if ws == [] then []
    else
      (if GoesTo(spot, polls, qp, registered, ws[0]) then [ws[0]] else []) + Bound(spot, polls, qp, registered, ws[1..])
  }

  /** The verifications ws were left in the table; of two for one queue pair, either stays. */
  ghost predicate Noted(m: map<nat, Wc>, m': map<nat, Wc>, ws: seq<Wc>) {
    && m'.Keys == m.Keys + (set w | w in ws :: w.qp)
    && (forall qp :: qp in m' ==> m'[qp] in ws || (qp in m && m'[qp] == m[qp]))
    && (forall qp :: qp in m' && m'[qp] !in ws ==> forall w :: w in ws ==> w.qp != qp)
  }

  /** Every completion in hand went where it belongs, in order. */
  ghost predicate HandedOut(rd: Reader, sh: Shared, rd': Reader, sh': Shared) {
    var polls, qp, known, ws := rd.polls, rd.qp, sh.registered, rd.batch;
    && rd' == rd.(batch := [], mine := rd.mine + Bound(Mine, polls, qp, known, ws))
    && sh' == Shared(sh.queue, sh.stash + Bound(Stashed, polls, qp, known, ws), sh'.verified,
                     sh.handled + Bound(Handled, polls, qp, known, ws),
                     sh.dropped + Bound(Dropped, polls, qp, known, ws),
                     sh.received + Bound(Received, polls, qp, known, ws), known, sh.forgotten)
    && Noted(sh.verified, sh'.verified, Bound(Table, polls, qp, known, ws))
  }

  lemma NotedOne(m: map<nat, Wc>, m': map<nat, Wc>, w: Wc, ws: seq<Wc>)
    requires Noted(m[w.qp := w], m', ws)
    ensures Noted(m, m', [w] + ws)
  {
    assert m'.Keys == m.Keys + (set x | x in [w] + ws :: x.qp);
  }

  lemma Front(spot: Spot, polls: bool, qp: nat, known: set<nat>, ws: seq<Wc>, base: seq<Wc>)
    requires ws != []
    ensures base + Bound(spot, polls, qp, known, ws) ==
            base + (if GoesTo(spot, polls, qp, known, ws[0]) then [ws[0]] else [])
            + Bound(spot, polls, qp, known, ws[1..])
  {
    hide GoesTo;
  }

  lemma PlaceGoes(rd: Reader, sh: Shared)
    requires rd.batch != []
    ensures var (rd1, sh1) := Place(rd, sh);
            var w := rd.batch[0];
            var one := (spot: Spot) => if GoesTo(spot, rd.polls, rd.qp, sh.registered, w) then [w] else [];
            && rd1 == rd.(batch := rd.batch[1..], mine := rd.mine + one(Mine))
            && sh1 == Shared(sh.queue, sh.stash + one(Stashed), sh1.verified, sh.handled + one(Handled),
                             sh.dropped + one(Dropped), sh.received + one(Received), sh.registered, sh.forgotten)
            && sh1.verified == if one(Table) == [] then sh.verified else sh.verified[w.qp := w]
  {
    hide KindOf;
  }

  lemma HandOutOne(rd: Reader, sh: Shared, rd': Reader, sh': Shared)
    requires rd.batch != [] && HandedOut(Place(rd, sh).0, Place(rd, sh).1, rd', sh')
    ensures HandedOut(rd, sh, rd', sh')
  {
    hide KindOf, Noted, Bound;
    PlaceGoes(rd, sh);
    hide Place, GoesTo;
    var polls, qp, known, ws := rd.polls, rd.qp, sh.registered, rd.batch;
    Front(Mine, polls, qp, known, ws, rd.mine);
    Front(Stashed, polls, qp, known, ws, sh.stash);
    Front(Handled, polls, qp, known, ws, sh.handled);
    Front(Dropped, polls, qp, known, ws, sh.dropped);
    Front(Received, polls, qp, known, ws, sh.received);
    Front(Table, polls, qp, known, ws, []);
    if GoesTo(Table, polls, qp, known, ws[0]) {
      NotedOne(sh.verified, sh'.verified, ws[0], Bound(Table, polls, qp, known, ws[1..]));
      assert [] + [ws[0]] == [ws[0]];
    } else {
      assert [] + [] + Bound(Table, polls, qp, known, ws[1..]) == Bound(Table, polls, qp, known, ws[1..]);
    }
    assert [] + Bound(Table, polls, qp, known, ws) == Bound(Table, polls, qp, known, ws);
  }

  lemma NoneInHand(rd: Reader, sh: Shared)
    requires rd.batch == []
    ensures HandedOut(rd, sh, rd, sh)
  {
  }

  lemma {:induction false} GivesOut(s: State, r: nat) returns (steps: seq<Step>, e: State)
    requires r < |s.readers| && s.readers[r].pc == Giving
    ensures |steps| == |s.readers[r].batch| && forall i :: 0 <= i < |steps| ==> steps[i] == Give(r)
    ensures CanRun(s, steps) && After(s, steps) == e && |e.readers| == |s.readers|
    ensures e == State(e.sh, s.readers[r := e.readers[r]], s.produced)
    ensures HandedOut(s.readers[r], s.sh, e.readers[r], e.sh)
    decreases |s.readers[r].batch|
  {
    if s.readers[r].batch == [] {
      steps, e := [], s;
      NoneInHand(s.readers[r], s.sh);
    } else {
      var s1 := OneGiven(s, r);
      hide Enabled, Do, HandedOut, Place;
      var rest;
      rest, e := GivesOut(s1, r);
      steps := [Give(r)] + rest;
      assert steps[1..] == rest;
      HandOutOne(s.readers[r], s.sh, e.readers[r], e.sh);
    }
  }

  lemma OneGiven(s: State, r: nat) returns (s1: State)
    requires r < |s.readers| && s.readers[r].pc == Giving && s.readers[r].batch != []
    ensures Enabled(s, Give(r)) && Do(s, Give(r)) == s1
    ensures var (rd1, sh1) := Place(s.readers[r], s.sh); s1 == State(sh1, s.readers[r := rd1], s.produced)
    ensures s1.readers[r].pc == Giving && |s1.readers[r].batch| < |s.readers[r].batch|
  {
    hide KindOf;
    s1 := Do(s, Give(r));
  }

  lemma {:induction false} NeverBound(spot: Spot, polls: bool, qp: nat, known: set<nat>, ws: seq<Wc>)
    requires if polls then spot.Mine? || spot.Stashed? else spot.Handled? || spot.Dropped?
    ensures Bound(spot, polls, qp, known, ws) == []
    decreases |ws|
  {
    hide KindOf;
    if ws != [] {
      NeverBound(spot, polls, qp, known, ws[1..]);
    }
  }

  lemma {:induction false} Joined(s: State, a: seq<Step>, b: seq<Step>)
    requires CanRun(s, a) && CanRun(After(s, a), b)
    ensures CanRun(s, a + b) && After(s, a + b) == After(After(s, a), b)
    decreases |a|
  {
    hide Enabled, Do;
    if a == [] {
      assert a + b == b;
    } else {
      Joined(Do(s, a[0]), a[1..], b);
      assert (a + b)[0] == a[0] && (a + b)[1..] == a[1..] + b;
    }
  }

  lemma OneStep(s: State, step: Step)
    requires Enabled(s, step)
    ensures CanRun(s, [step]) && After(s, [step]) == Do(s, step)
  {
    hide Enabled, Do;
    assert [step][1..] == [];
    assert CanRun(Do(s, step), []);
  }

  lemma PollDraws(s: State, r: nat, max: nat, n: nat) returns (e: State)
    requires Is(s, r, true, Idle) && max > 0 && s.readers[r].batch == []
    requires n <= |s.sh.queue| && (if max < |s.sh.stash| then max else |s.sh.stash|) + n <= max
    ensures CanRun(s, [TakeStash(r, max), PollDraw(r, n)]) && After(s, [TakeStash(r, max), PollDraw(r, n)]) == e
    ensures var taken := if max < |s.sh.stash| then max else |s.sh.stash|;
            && e.produced == s.produced
            && e.readers == s.readers[r := s.readers[r].(pc := Giving, batch := s.sh.stash[..taken] + s.sh.queue[..n])]
            && e.sh == s.sh.(stash := s.sh.stash[taken..], queue := s.sh.queue[n..])
  {
    var taken := if max < |s.sh.stash| then max else |s.sh.stash|;
    var s1 := Do(s, TakeStash(r, max));
    assert s1.readers[r] == s.readers[r].(pc := TookStash(max), batch := s.sh.stash[..taken]);
    OneStep(s, TakeStash(r, max));
    OneStep(s1, PollDraw(r, n));
    e := Do(s1, PollDraw(r, n));
    hide Do, Enabled, CanRun, After;
    Joined(s, [TakeStash(r, max)], [PollDraw(r, n)]);
    assert [TakeStash(r, max)] + [PollDraw(r, n)] == [TakeStash(r, max), PollDraw(r, n)];
  }

  lemma PollTurn(s: State, r: nat, max: nat, n: nat) returns (steps: seq<Step>, e: State)
    requires Is(s, r, true, Idle) && max > 0 && s.readers[r].batch == [] && s.readers[r].mine == []
    requires n <= |s.sh.queue| && (if max < |s.sh.stash| then max else |s.sh.stash|) + n <= max
    ensures CanRun(s, steps) && After(s, steps) == e
    ensures Polled(s, e, r, if max < |s.sh.stash| then max else |s.sh.stash|, n)
  {
    var s1 := PollDraws(s, r, max, n);
    var rd1 := s1.readers[r];
    NeverBound(Mine, true, rd1.qp, s.sh.registered, rd1.batch);
    NeverBound(Stashed, true, rd1.qp, s.sh.registered, rd1.batch);
    hide Bound, Noted, CanRun, After;
    var gives, s2 := GivesOut(s1, r);
    assert s2.readers[r] == s.readers[r].(pc := Giving);
    e := PollReturns(s2, r);
    assert e.readers == s.readers;
    hide Do, Enabled;
    Joined(s1, gives, [PollReturn(r)]);
    Joined(s, [TakeStash(r, max), PollDraw(r, n)], gives + [PollReturn(r)]);
    steps := [TakeStash(r, max), PollDraw(r, n)] + (gives + [PollReturn(r)]);
  }

  lemma PollReturns(s: State, r: nat) returns (e: State)
    requires Is(s, r, true, Giving) && s.readers[r].batch == []
    ensures CanRun(s, [PollReturn(r)]) && After(s, [PollReturn(r)]) == e
    ensures e == s.(readers := s.readers[r := s.readers[r].(pc := Idle)])
  {
    OneStep(s, PollReturn(r));
    e := Do(s, PollReturn(r));
  }

  /** What poll() did with the first of the stash and of the queue. */
  ghost predicate Polled(s: State, e: State, r: nat, taken: nat, n: nat)
    requires r < |s.readers| && taken <= |s.sh.stash| && n <= |s.sh.queue|
  {
    var ws, known, qp := s.sh.stash[..taken] + s.sh.queue[..n], s.sh.registered, s.readers[r].qp;
    && e.produced == s.produced && e.readers == s.readers
    && e.sh == Shared(s.sh.queue[n..], s.sh.stash[taken..], e.sh.verified,
                      s.sh.handled + Bound(Handled, true, qp, known, ws),
                      s.sh.dropped + Bound(Dropped, true, qp, known, ws),
                      s.sh.received + Bound(Received, true, qp, known, ws), known, s.sh.forgotten)
    && Noted(s.sh.verified, e.sh.verified, Bound(Table, true, qp, known, ws))
  }

  /** A poll() that no other thread interrupts: it takes the stash first, then the queue, retires
      the transfers of registered connections in that order, and leaves its own state as it was. */
  lemma OnePoll(s0: State, before: seq<Step>, r: nat, max: nat, n: nat) returns (steps: seq<Step>, e: State)
    requires Init(s0) && CanRun(s0, before)
    requires var s := After(s0, before);
             && Is(s, r, true, Idle) && max > 0
             && n <= |s.sh.queue| && (if max < |s.sh.stash| then max else |s.sh.stash|) + n <= max
    ensures CanRun(After(s0, before), steps) && After(After(s0, before), steps) == e
    ensures var s := After(s0, before); Polled(s, e, r, if max < |s.sh.stash| then max else |s.sh.stash|, n)
  {
    StartsClean(s0);
    RunKeeps(s0, before);
    var s := After(s0, before);
    assert ReaderKinds(s.readers[r]);
    hide Inv, Init, Polled, CanRun, After;
    steps, e := PollTurn(s, r, max, n);
  }

  /** What a turn of verify_path() did with the first of the queue. */
  ghost predicate Turned(s: State, e: State, r: nat, n: nat)
    requires r < |s.readers| && n <= |s.sh.queue|
  {
    var ws, known, qp := s.sh.queue[..n], s.sh.registered, s.readers[r].qp;
    var mine := Bound(Mine, false, qp, known, ws);
    && e.produced == s.produced
    && e.readers == s.readers[r := s.readers[r].(pc := if mine == [] then Checking else Finished, answer := mine)]
    && e.sh == Shared(s.sh.queue[n..], s.sh.stash + Bound(Stashed, false, qp, known, ws), e.sh.verified,
                      s.sh.handled, s.sh.dropped,
                      s.sh.received + Bound(Received, false, qp, known, ws), known, s.sh.forgotten)
    && Noted(s.sh.verified, e.sh.verified, Bound(Table, false, qp, known, ws))
  }

  lemma VerifyTurns(s: State, r: nat) returns (e: State)
    requires Is(s, r, false, Giving) && s.readers[r].batch == [] && s.readers[r].answer == []
    ensures CanRun(s, [VerifyTurn(r)]) && After(s, [VerifyTurn(r)]) == e
    ensures var mine := s.readers[r].mine;
            e == s.(readers := s.readers[r := s.readers[r].(
              mine := [], pc := if mine == [] then Checking else Finished, answer := mine)])
  {
    OneStep(s, VerifyTurn(r));
    e := Do(s, VerifyTurn(r));
    assert [] + s.readers[r].mine == s.readers[r].mine;
  }

  lemma VerifyDraws(s: State, r: nat, n: nat) returns (e: State)
    requires Is(s, r, false, Drawing) && n <= 8 && n <= |s.sh.queue| && s.readers[r].batch == []
    ensures CanRun(s, [VerifyDraw(r, n)]) && After(s, [VerifyDraw(r, n)]) == e
    ensures e == State(s.sh.(queue := s.sh.queue[n..]),
                       s.readers[r := s.readers[r].(pc := Giving, batch := s.sh.queue[..n])], s.produced)
  {
    OneStep(s, VerifyDraw(r, n));
    e := Do(s, VerifyDraw(r, n));
    assert [] + s.sh.queue[..n] == s.sh.queue[..n];
  }

  lemma DrawTurn(s: State, r: nat, n: nat) returns (steps: seq<Step>, e: State)
    requires Is(s, r, false, Drawing) && n <= 8 && n <= |s.sh.queue|
    requires s.readers[r].batch == [] && s.readers[r].mine == [] && s.readers[r].answer == []
    ensures CanRun(s, steps) && After(s, steps) == e && Turned(s, e, r, n)
  {
    var s1 := VerifyDraws(s, r, n);
    var rd1 := s1.readers[r];
    NeverBound(Handled, false, rd1.qp, s.sh.registered, rd1.batch);
    NeverBound(Dropped, false, rd1.qp, s.sh.registered, rd1.batch);
    hide Bound, Noted, CanRun, After, Do, Enabled;
    var gives, s2 := GivesOut(s1, r);
    e := VerifyTurns(s2, r);
    var mine := Bound(Mine, false, rd1.qp, s.sh.registered, rd1.batch);
    assert s2.readers[r].mine == mine;
    assert e.readers[r] == s.readers[r].(pc := if mine == [] then Checking else Finished, answer := mine);
    assert e.readers == s.readers[r := e.readers[r]];
    Joined(s1, gives, [VerifyTurn(r)]);
    Joined(s, [VerifyDraw(r, n)], gives + [VerifyTurn(r)]);
    steps := [VerifyDraw(r, n)] + (gives + [VerifyTurn(r)]);
  }

  /** A turn of verify_path() that no other thread interrupts: answered from the table if its own
      completion waits there; else it draws up to eight, sets transfers aside in order, leaves
      other connections' verifications in the table, and is answered iff its own was among them. */
  lemma OneVerifyTurn(s0: State, before: seq<Step>, r: nat, n: nat) returns (steps: seq<Step>, e: State)
    requires Init(s0) && CanRun(s0, before)
    requires var s := After(s0, before); Is(s, r, false, Checking) && n <= 8 && n <= |s.sh.queue|
    ensures CanRun(After(s0, before), steps) && After(After(s0, before), steps) == e
    ensures var s := After(s0, before);
            var rd := s.readers[r];
            if rd.qp in s.sh.verified then
              e == State(s.sh.(verified := s.sh.verified - {rd.qp}),
                         s.readers[r := rd.(pc := Finished, answer := [s.sh.verified[rd.qp]])], s.produced)
            else Turned(s, e, r, n)
  {
    StartsClean(s0);
    RunKeeps(s0, before);
    var s := After(s0, before);
    assert ReaderKinds(s.readers[r]);
    hide Inv, Init, CanRun, After;
    var s1 := LooksUp(s, r);
    hide Bound, Noted, Do, Enabled;
    if s.readers[r].qp in s.sh.verified {
      steps, e := [LookUp(r)], s1;
    } else {
      var more;
      more, e := DrawTurn(s1, r, n);
      assert e.readers == s.readers[r := e.readers[r]];
      Joined(s, [LookUp(r)], more);
      steps := [LookUp(r)] + more;
    }
  }

  lemma LooksUp(s: State, r: nat) returns (e: State)
    requires Is(s, r, false, Checking) && s.readers[r].answer == []
    ensures CanRun(s, [LookUp(r)]) && After(s, [LookUp(r)]) == e
    ensures var rd := s.readers[r];
            e == if rd.qp in s.sh.verified then
              State(s.sh.(verified := s.sh.verified - {rd.qp}),
                    s.readers[r := rd.(pc := Finished, answer := [s.sh.verified[rd.qp]])], s.produced)
            else s.(readers := s.readers[r := rd.(pc := Drawing)])
  {
    OneStep(s, LookUp(r));
    e := Do(s, LookUp(r));
    var rd := s.readers[r];
    assert rd.qp in s.sh.verified ==> [] + [s.sh.verified[rd.qp]] == [s.sh.verified[rd.qp]];
  }

  /** A verify_path() is answered at most once. */
  lemma AnsweredOnce(s: State, steps: seq<Step>, r: nat)
    requires Init(s) && CanRun(s, steps) && r < |After(s, steps).readers|
    ensures |After(s, steps).readers[r].answer| <= 1
  {
    StartsClean(s);
    RunKeeps(s, steps);
    var e := After(s, steps);
    var answer := e.readers[r].answer;
    assert ReaderKinds(e.readers[r]);
    hide CanRun, After, KindOf, ProducedOnce, Init, SharedKinds, InShared;
    if |answer| > 1 {
      var x, y := answer[0], answer[1];
      assert answer == [x] + ([y] + answer[2..]);
      WithReadersHolds(e.readers, r, x);
      WithReadersHolds(e.readers, r, y);
      assert multiset(e.produced)[x] >= multiset(answer)[x] && multiset(e.produced)[y] >= multiset(answer)[y];
      Elsewhere(e.sh, e.produced, x, y);
    }
  }
}
