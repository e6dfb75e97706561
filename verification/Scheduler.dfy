/** Scheduling passes: each piece that waits may post up to a quantum, and the pass starts one
    further along each time. */
module Scheduler {
  import opened Status

  datatype Op = Op(id: nat, length: nat)

  /** One lane's share of a request: what it has posted and what it has left. */
  datatype Piece = Piece(name: nat, posted: seq<Op>, ops: seq<Op>)

  datatype Answer = Answer(accepted: nat, status: Status)

  /** What a turn meets: whether the request is being given up, the state of its dependencies, and
      what the provider answers. */
  datatype Met = Met(abandoning: bool, dependencies: Status, answer: Answer)

  datatype Outcome = StillWaiting | Finished | GaveUp

  function Sum(ops: seq<Op>): nat {
    if ops == [] then 0 else Sum(ops[..|ops| - 1]) + ops[|ops| - 1].length
  }

  lemma SumAppend(ops: seq<Op>, n: nat)
    requires n < |ops|
    ensures Sum(ops[..n + 1]) == Sum(ops[..n]) + ops[n].length
  {
    assert ops[..n + 1][..n] == ops[..n];
  }

  lemma {:induction false} SumGrows(ops: seq<Op>, i: nat, j: nat)
    requires i <= j <= |ops|
    ensures Sum(ops[..i]) <= Sum(ops[..j])
    decreases j - i
  {
    if i < j {
      SumAppend(ops, j - 1);
      SumGrows(ops, i, j - 1);
    }
  }

  /** take whole operations are offered: all that fit the quantum, but no fewer than one. */
  ghost predicate IsSlice(ops: seq<Op>, quantum: nat, take: nat) {
    && take <= |ops| && (ops != [] ==> take > 0)
    && (Sum(ops[..take]) <= quantum || take <= 1)
    && (take < |ops| ==> Sum(ops[..take + 1]) > quantum)
  }

  /** There is only one such number. */
  lemma SliceUnique(ops: seq<Op>, quantum: nat, a: nat, b: nat)
    requires IsSlice(ops, quantum, a) && IsSlice(ops, quantum, b)
    ensures a == b
  {
    if a < b {
      SumGrows(ops, a + 1, b);
    } else if b < a {
      SumGrows(ops, b + 1, a);
    }
  }

  method CountSlice(ops: seq<Op>, quantum: nat) returns (take: nat)
    ensures IsSlice(ops, quantum, take)
  {
    take := 0;
    var bytes := 0;
    while take < |ops|
      invariant take <= |ops| && bytes == Sum(ops[..take])
      invariant bytes <= quantum || take <= 1
    {
      SumAppend(ops, take);
      if take > 0 && bytes + ops[take].length > quantum { break; }
      bytes := bytes + ops[take].length;
      take := take + 1;
    }
  }

  ghost function SliceSize(ops: seq<Op>, quantum: nat): (take: nat)
    ensures IsSlice(ops, quantum, take)
  {
    SliceExists(ops, quantum);
    var take :| IsSlice(ops, quantum, take);
    take
  }

  lemma SliceExists(ops: seq<Op>, quantum: nat)
    ensures exists take :: IsSlice(ops, quantum, take)
  {
    var take := 0;
    while take < |ops|
      invariant take <= |ops| && (Sum(ops[..take]) <= quantum || take <= 1)
    {
      SumAppend(ops, take);
      if take > 0 && Sum(ops[..take + 1]) > quantum { break; }
      take := take + 1;
    }
    assert IsSlice(ops, quantum, take);
  }

  /** A provider takes a prefix of what it is offered, and says kOk only for all of it or with
      nothing short; anything short that is not back-pressure gives the piece up. */
  ghost function Turn(p: Piece, quantum: nat, met: Met): (Piece, Outcome)
    requires met.answer.accepted <= SliceSize(p.ops, quantum)
  {
    if !met.abandoning && met.dependencies == WouldBlock then (p, StillWaiting)
    else if p.ops == [] then (p, Finished)
    else if met.abandoning || met.dependencies != Ok then (p.(ops := []), GaveUp)
    else
      var a := met.answer.accepted;
      var p' := Piece(p.name, p.posted + p.ops[..a], p.ops[a..]);
      if a < SliceSize(p.ops, quantum) then
        if met.answer.status == WouldBlock then (p', StillWaiting) else (p'.(ops := []), GaveUp)
      else (p', if p'.ops == [] then Finished else StillWaiting)
  }

  /** One turn of the pass, as drain_pending and post_ops take it. */
  method TakeTurn(p: Piece, quantum: nat, met: Met) returns (p': Piece, outcome: Outcome)
    requires met.answer.accepted <= SliceSize(p.ops, quantum)
    ensures (p', outcome) == Turn(p, quantum, met)
    ensures met.abandoning || (met.dependencies != Ok && met.dependencies != WouldBlock) ==>
              p' == p.(ops := []) && outcome == if p.ops == [] then Finished else GaveUp
    ensures !met.abandoning && met.dependencies == WouldBlock ==> p' == p && outcome == StillWaiting
    ensures !met.abandoning && met.dependencies == Ok ==>
              && p'.name == p.name && p'.posted == p.posted + p.ops[..met.answer.accepted]
              && (outcome == GaveUp <==>
                    met.answer.accepted < SliceSize(p.ops, quantum) && met.answer.status != WouldBlock)
              && (outcome == Finished <==> met.answer.accepted == |p.ops|)
              && p'.ops == if outcome == GaveUp then [] else p.ops[met.answer.accepted..]
  {
    p' := p;
    var abandoning := met.abandoning;
    if !abandoning {
      if met.dependencies == WouldBlock { return p, StillWaiting; }
      if met.dependencies != Ok { abandoning := true; } // noted on the request
    }
    if p.ops == [] { return p, Finished; }
    if abandoning { return p.(ops := []), GaveUp; }
    var take := CountSlice(p.ops, quantum);
    SliceUnique(p.ops, quantum, take, SliceSize(p.ops, quantum));
    var accepted := met.answer.accepted;
    p' := Piece(p.name, p.posted + p.ops[..accepted], p.ops[accepted..]);
    if accepted < take && met.answer.status == WouldBlock { return p', StillWaiting; }
    if accepted == take {
      if p'.ops != [] { return p', StillWaiting; }
      return p', Finished;
    }
    return p'.(ops := []), GaveUp;
  }

  /** A turn keeps posted followed by remaining; posts at most a quantum or a single operation; and
      what is left strictly shrinks whenever the provider takes anything. Only a piece that is
      given up loses work, and then only work it had not posted. */
  lemma TurnKeeps(p: Piece, quantum: nat, met: Met)
    requires met.answer.accepted <= SliceSize(p.ops, quantum)
    ensures var (p', outcome) := Turn(p, quantum, met);
            && p.posted <= p'.posted
            && p'.posted <= p.posted + p.ops
            && (outcome != GaveUp ==> p'.posted + p'.ops == p.posted + p.ops)
            && (outcome == Finished ==> p'.ops == [])
            && (outcome == StillWaiting && p.ops != [] ==> p'.ops != [])
            && (var sent := p'.posted[|p.posted|..]; Sum(sent) <= quantum || |sent| <= 1)
            && |p'.posted| + |p'.ops| <= |p.posted| + |p.ops|
            && (|p'.posted| > |p.posted| ==> |p'.ops| < |p.ops|)
  {
    var (p', outcome) := Turn(p, quantum, met);
    var a := met.answer.accepted;
    if p'.posted != p.posted {
      assert p'.posted[|p.posted|..] == p.ops[..a];
      SumGrows(p.ops, a, SliceSize(p.ops, quantum));
      assert p.posted + p.ops == (p.posted + p.ops[..a]) + p.ops[a..];
    } else {
      assert p'.posted[|p.posted|..] == [];
      assert p.posted + p.ops == (p.posted + p.ops[..a]) + p.ops[a..];
    }
  }

  /** What a turn does, by what it meets. A request being given up, or with a dependency that failed,
      posts nothing more and holds nothing back; one that waits for a dependency is left alone;
      otherwise exactly what the provider took is posted, and the rest is given up exactly if the
      provider fell short for any other reason than back-pressure. */
  lemma TurnMeans(p: Piece, quantum: nat, met: Met)
    requires met.answer.accepted <= SliceSize(p.ops, quantum)
    ensures var (p', outcome) := Turn(p, quantum, met);
            var a := met.answer.accepted;
            && p'.name == p.name
            && (met.abandoning || (met.dependencies != Ok && met.dependencies != WouldBlock) ==>
                  p'.posted == p.posted && p'.ops == [] && outcome == if p.ops == [] then Finished else GaveUp)
            && (!met.abandoning && met.dependencies == WouldBlock ==> p' == p && outcome == StillWaiting)
            && (!met.abandoning && met.dependencies == Ok ==>
                  && p'.posted == p.posted + p.ops[..a]
                  && (outcome == GaveUp <==> a < SliceSize(p.ops, quantum) && met.answer.status != WouldBlock)
                  && (outcome == Finished <==> a == |p.ops|)
                  && p'.ops == if outcome == GaveUp then [] else p.ops[a..])
  {
    SumGrows(p.ops, 0, 0);
    assert p.ops == [] ==> p.posted + p.ops[..0] == p.posted;
  }

  // ---------------- a piece over many passes ----------------

  ghost predicate CanTake(p: Piece, quantum: nat, mets: seq<Met>)
    decreases |mets|
  {
    mets == [] ||
    (mets[0].answer.accepted <= SliceSize(p.ops, quantum) &&
     (Turn(p, quantum, mets[0]).1 == StillWaiting ==> CanTake(Turn(p, quantum, mets[0]).0, quantum, mets[1..])))
  }

  /** Turns until the piece stops waiting. */
  ghost function Turns(p: Piece, quantum: nat, mets: seq<Met>): (Piece, Outcome)
    requires CanTake(p, quantum, mets)
    decreases |mets|
  {
    if mets == [] then (p, StillWaiting)
    else
      var (p', outcome) := Turn(p, quantum, mets[0]);
      if outcome == StillWaiting then Turns(p', quantum, mets[1..]) else (p', outcome)
  }

  /** Through any number of passes a piece that is not given up has posted a first part of its
      operations, in order, and holds the rest; once finished it has posted all of them. */
  lemma {:induction false} NoWorkLost(p: Piece, quantum: nat, mets: seq<Met>)
    requires CanTake(p, quantum, mets)
    ensures var (e, outcome) := Turns(p, quantum, mets);
            && p.posted <= e.posted && e.posted <= p.posted + p.ops
            && (outcome != GaveUp ==> e.posted + e.ops == p.posted + p.ops)
            && (outcome == Finished ==> e.posted == p.posted + p.ops)
    decreases |mets|
  {
    hide Turn;
    if mets != [] {
      TurnKeeps(p, quantum, mets[0]);
      var (p', outcome) := Turn(p, quantum, mets[0]);
      if outcome == StillWaiting {
        NoWorkLost(p', quantum, mets[1..]);
      } else {
        assert outcome == Finished ==> p'.posted + p'.ops == p'.posted;
      }
    }
  }

  lemma {:induction false} TurnsSplit(p: Piece, quantum: nat, mets: seq<Met>, k: nat)
    requires CanTake(p, quantum, mets) && k <= |mets|
    ensures CanTake(p, quantum, mets[..k])
    ensures var (e, outcome) := Turns(p, quantum, mets[..k]);
            if outcome == StillWaiting then
              CanTake(e, quantum, mets[k..]) && Turns(p, quantum, mets) == Turns(e, quantum, mets[k..])
            else Turns(p, quantum, mets) == (e, outcome)
    decreases k
  {
    hide Turn;
    if k == 0 {
      assert mets[0..] == mets && mets[..0] == [];
    } else {
      assert mets[..k][0] == mets[0] && mets[..k][1..] == mets[1..][..k - 1] && mets[1..][k - 1..] == mets[k..];
      if Turn(p, quantum, mets[0]).1 == StillWaiting {
        TurnsSplit(Turn(p, quantum, mets[0]).0, quantum, mets[1..], k - 1);
      }
    }
  }

  /** From the first pass that meets the request being given up, nothing more of it is posted, and its
      pieces stop waiting in that pass. */
  lemma AbandonedPostsNothing(p: Piece, quantum: nat, mets: seq<Met>, k: nat)
    requires CanTake(p, quantum, mets) && k < |mets| && mets[k].abandoning
    ensures CanTake(p, quantum, mets[..k])
    ensures Turns(p, quantum, mets).0.posted == Turns(p, quantum, mets[..k]).0.posted
    ensures Turns(p, quantum, mets).0.ops == [] && Turns(p, quantum, mets).1 != StillWaiting
  {
    hide Turn;
    TurnsSplit(p, quantum, mets, k);
    var (e, outcome) := Turns(p, quantum, mets[..k]);
    if outcome == StillWaiting {
      TurnMeans(e, quantum, mets[k]);
      assert mets[k..][0] == mets[k];
    } else {
      StoppedIsEmpty(p, quantum, mets[..k]);
    }
  }

  lemma {:induction false} StoppedIsEmpty(p: Piece, quantum: nat, mets: seq<Met>)
    requires CanTake(p, quantum, mets) && Turns(p, quantum, mets).1 != StillWaiting
    ensures Turns(p, quantum, mets).0.ops == []
    decreases |mets|
  {
    hide Turn;
    if mets != [] {
      TurnMeans(p, quantum, mets[0]);
      if Turn(p, quantum, mets[0]).1 == StillWaiting {
        StoppedIsEmpty(Turn(p, quantum, mets[0]).0, quantum, mets[1..]);
      }
    }
  }

  /** Whenever the provider takes less than it was offered, it is back-pressure. */
  ghost predicate OnlyBackPressure(p: Piece, quantum: nat, mets: seq<Met>)
    requires CanTake(p, quantum, mets)
    decreases |mets|
  {
    mets == [] ||
    ((mets[0].answer.accepted < SliceSize(p.ops, quantum) ==> mets[0].answer.status == WouldBlock) &&
     (Turn(p, quantum, mets[0]).1 == StillWaiting ==>
      OnlyBackPressure(Turn(p, quantum, mets[0]).0, quantum, mets[1..])))
  }

  /** A piece whose every turn gets something posted stops waiting within as many turns as it has
      operations, and finishes if the provider only ever falls short for back-pressure. */
  lemma {:induction false} ProgressEnds(p: Piece, quantum: nat, mets: seq<Met>)
    requires CanTake(p, quantum, mets) && 0 < |p.ops| <= |mets|
    requires forall i :: 0 <= i < |mets| ==>
               !mets[i].abandoning && mets[i].dependencies == Ok && mets[i].answer.accepted > 0
    ensures Turns(p, quantum, mets).1 != StillWaiting
    ensures OnlyBackPressure(p, quantum, mets) ==> Turns(p, quantum, mets).1 == Finished
    decreases |mets|
  {
    TurnKeeps(p, quantum, mets[0]);
    var (p', outcome) := Turn(p, quantum, mets[0]);
    if outcome == StillWaiting {
      ProgressEnds(p', quantum, mets[1..]);
    }
  }

  // ---------------- a pass ----------------

  function Rotate<T>(s: seq<T>, c: nat): (r: seq<T>)
    ensures |r| == |s|
  {
    if c >= |s| then s else s[c..] + s[..c]
  }

  /** No provider accepts more than it is offered. */
  ghost predicate CanMeet(turn: seq<Piece>, quantum: nat, mets: seq<Met>) {
    && |mets| == |turn|
    && forall i :: 0 <= i < |turn| ==> mets[i].answer.accepted <= SliceSize(turn[i].ops, quantum)
  }

  /** Who is still waiting after a pass over turn, in the order of the pass. */
  ghost function Waiting(turn: seq<Piece>, quantum: nat, mets: seq<Met>): seq<Piece>
    requires CanMeet(turn, quantum, mets)
    decreases |turn|
  {
    if turn == [] then []
    else
      var n := |turn| - 1;
      var (p, outcome) := Turn(turn[n], quantum, mets[n]);
      var before := Waiting(turn[..n], quantum, mets[..n]);
      if outcome == StillWaiting then before + [p] else before
  }

  lemma WaitingNone(quantum: nat)
    ensures Waiting([], quantum, []) == []
  {
  }

  lemma WaitingNext(turn: seq<Piece>, quantum: nat, mets: seq<Met>, i: nat)
    requires CanMeet(turn, quantum, mets)
    requires i < |turn|
    ensures var (p, outcome) := Turn(turn[i], quantum, mets[i]);
            var before := Waiting(turn[..i], quantum, mets[..i]);
            Waiting(turn[..i + 1], quantum, mets[..i + 1]) == if outcome == StillWaiting then before + [p] else before
  {
    hide Turn, IsSlice;
    assert turn[..i + 1][..i] == turn[..i] && mets[..i + 1][..i] == mets[..i];
  }

  /** The queue between two passes. */
  datatype Queue = Queue(pending: seq<Piece>, cursor: nat)

  /** What a pass meets, turn by turn, and what other threads queue while the turns are taken. */
  datatype Pass = Pass(quantum: nat, mets: seq<Met>, arrived: seq<Piece>)

  ghost predicate CanPass(q: Queue, p: Pass) {
    && CanMeet(Rotate(q.pending, q.cursor), p.quantum, p.mets)
    && (q.pending == [] ==> p.arrived == [])
  }

  /** One pass, over a queue rotated to the cursor. What arrived goes ahead of what still waits. */
  ghost function AfterPass(q: Queue, p: Pass): Queue
    requires CanPass(q, p)
  {
    if q.pending == [] then q
    else Queue(p.arrived + Waiting(Rotate(q.pending, q.cursor), p.quantum, p.mets), if |q.pending| > 1 then 1 else 0)
  }

  class Passes {
    var pending: seq<Piece>
    var cursor: nat

    ghost function View(): Queue
      reads this
    {
      Queue(pending, cursor)
    }

    constructor ()
      ensures View() == Queue([], 0)
    {
      pending, cursor := [], 0;
    }

    /** drain_pending. */
    method DrainPending(p: Pass)
      requires CanPass(View(), p)
      modifies this
      ensures View() == AfterPass(old(View()), p)
    {
      hide Turn, IsSlice, Waiting;
      WaitingNone(p.quantum);
      if pending == [] { return; }
      var n := |pending|;
      if cursor >= n { cursor := 0; }
      var turn := pending[cursor..] + pending[..cursor];
      assert turn == Rotate(old(pending), old(cursor));
      pending := [];
      cursor := if n > 1 then 1 else 0;
      var waiting := [];
      for i := 0 to |turn|
        invariant waiting == Waiting(turn[..i], p.quantum, p.mets[..i])
        invariant pending == [] && cursor == if n > 1 then 1 else 0
      {
        WaitingNext(turn, p.quantum, p.mets, i);
        var next, outcome := TakeTurn(turn[i], p.quantum, p.mets[i]);
        if outcome == StillWaiting { waiting := waiting + [next]; }
      }
      assert turn[..|turn|] == turn && p.mets[..|turn|] == p.mets;
      pending := pending + p.arrived;
      pending := pending + waiting;
    }
  }

  function Names(ps: seq<Piece>): (ns: seq<nat>)
    ensures |ns| == |ps| && forall i :: 0 <= i < |ps| ==> ns[i] == ps[i].name
  {
    seq(|ps|, i requires 0 <= i < |ps| => ps[i].name)
  }

  /** A pass in which everybody goes on waiting only rotates the queue. */
  lemma {:induction false} AllWait(turn: seq<Piece>, quantum: nat, mets: seq<Met>)
    requires CanMeet(turn, quantum, mets)
    requires forall i :: 0 <= i < |turn| ==> Turn(turn[i], quantum, mets[i]).1 == StillWaiting
    ensures Names(Waiting(turn, quantum, mets)) == Names(turn)
    decreases |turn|
  {
    if turn != [] {
      var n := |turn| - 1;
      AllWait(turn[..n], quantum, mets[..n]);
      var w := Waiting(turn[..n], quantum, mets[..n]);
      assert |w| == |Names(w)| == n;
      assert forall i :: 0 <= i < n ==> w[i].name == Names(w)[i] == turn[..n][i].name;
    }
  }

  /** The queue and the cursor over passes in which everybody goes on waiting. */
  function QueueAfter(names: seq<nat>, cursor: nat, passes: nat): (seq<nat>, nat) {
    if passes == 0 then (names, cursor)
    else
      var (q, c) := QueueAfter(names, cursor, passes - 1);
      (Rotate(q, c), if |q| > 1 then 1 else 0)
  }

  /** Who goes first in a pass. */
  function First(names: seq<nat>, cursor: nat, pass: nat): nat
    requires names != []
  {
    var (q, c) := QueueAfter(names, cursor, pass);
    if q != [] then Rotate(q, c)[0] else 0
  }

  lemma RotateRotate(s: seq<nat>, c: nat)
    requires c < |s|
    ensures Rotate(Rotate(s, c), if |s| > 1 then 1 else 0) == Rotate(s, if c + 1 < |s| then c + 1 else 0)
  {
  }

  /** After each pass the queue has moved on by one. */
  lemma {:induction false} QueueMoves(names: seq<nat>, cursor: nat, passes: nat)
    requires names != [] && passes < |names|
    ensures var start := if cursor >= |names| then 0 else cursor;
            var at := if start + passes < |names| then start + passes else start + passes - |names|;
            var (q, c) := QueueAfter(names, cursor, passes);
            |q| == |names| && Rotate(q, c) == Rotate(names, at)
    decreases passes
  {
    hide Rotate;
    if passes > 0 {
      QueueMoves(names, cursor, passes - 1);
      var start := if cursor >= |names| then 0 else cursor;
      var at := if start + passes - 1 < |names| then start + passes - 1 else start + passes - 1 - |names|;
      RotateRotate(names, at);
    } else {
      if cursor >= |names| { NoRotation(names, cursor); }
    }
  }

  lemma NoRotation(s: seq<nat>, c: nat)
    requires c >= |s|
    ensures Rotate(s, c) == Rotate(s, 0)
  {
  }

  /** In as many passes as there are names, each goes first exactly once. */
  lemma NamesGoFirstOnce(names: seq<nat>, cursor: nat, i: nat) returns (pass: nat)
    requires i < |names| && forall x, y :: 0 <= x < y < |names| ==> names[x] != names[y]
    ensures pass < |names| && First(names, cursor, pass) == names[i]
    ensures forall other :: 0 <= other < |names| && First(names, cursor, other) == names[i] ==> other == pass
  {
    var n := |names|;
    var start := if cursor >= n then 0 else cursor;
    pass := if start <= i then i - start else i + n - start;
    forall other | 0 <= other < n
      ensures First(names, cursor, other) == names[if start + other < n then start + other else start + other - n]
    {
      QueueMoves(names, cursor, other);
    }
  }

  // ---------------- runs of passes ----------------

  /** The queue before pass k of a run. */
  ghost function QueueAt(q: Queue, ps: seq<Pass>, k: nat): Queue
    requires k <= |ps|
  {
    if k == 0 then q
    else
      var before := QueueAt(q, ps, k - 1);
      if CanPass(before, ps[k - 1]) then AfterPass(before, ps[k - 1]) else before
  }

  /** Who goes first in the next pass. */
  function FirstOf(q: Queue): nat
    requires q.pending != []
  {
    Rotate(q.pending, q.cursor)[0].name
  }

  /** Nobody joins during the pass and everybody goes on waiting. */
  ghost predicate Undisturbed(q: Queue, p: Pass) {
    && CanPass(q, p) && p.arrived == []
    && forall i :: 0 <= i < |q.pending| ==> Turn(Rotate(q.pending, q.cursor)[i], p.quantum, p.mets[i]).1 == StillWaiting
  }

  lemma RotateNames(ps: seq<Piece>, c: nat)
    ensures Names(Rotate(ps, c)) == Rotate(Names(ps), c)
  {
  }

  lemma {:induction false} UndisturbedRun(q: Queue, ps: seq<Pass>, k: nat)
    requires q.pending != [] && k <= |ps|
    requires forall j {:trigger ps[j]} :: 0 <= j < k ==> Undisturbed(QueueAt(q, ps, j), ps[j])
    ensures (Names(QueueAt(q, ps, k).pending), QueueAt(q, ps, k).cursor) == QueueAfter(Names(q.pending), q.cursor, k)
    ensures |QueueAt(q, ps, k).pending| == |q.pending|
  {
    hide Turn, Rotate, Waiting;
    if k > 0 {
      UndisturbedRun(q, ps, k - 1);
      var before, p := QueueAt(q, ps, k - 1), ps[k - 1];
      assert Undisturbed(before, p);
      AllWait(Rotate(before.pending, before.cursor), p.quantum, p.mets);
      RotateNames(before.pending, before.cursor);
      var w := Waiting(Rotate(before.pending, before.cursor), p.quantum, p.mets);
      assert |w| == |Names(w)| && [] + w == w;
    }
  }

  /** Over any n passes that nobody joins and in which n pieces go on waiting, each of them goes
      first exactly once. */
  lemma EachGoesFirstOnce(q: Queue, ps: seq<Pass>, i: nat) returns (pass: nat)
    requires i < |q.pending| == |ps| && DistinctNames(q.pending)
    requires forall k {:trigger ps[k]} :: 0 <= k < |ps| ==> Undisturbed(QueueAt(q, ps, k), ps[k])
    ensures pass < |ps| && QueueAt(q, ps, pass).pending != [] && FirstOf(QueueAt(q, ps, pass)) == q.pending[i].name
    ensures forall k :: 0 <= k < |ps| && QueueAt(q, ps, k).pending != [] ==>
              FirstOf(QueueAt(q, ps, k)) == q.pending[i].name ==> k == pass
  {
    hide Undisturbed, QueueAt;
    pass := NamesGoFirstOnce(Names(q.pending), q.cursor, i);
    forall k | 0 <= k < |ps|
      ensures QueueAt(q, ps, k).pending != [] && FirstOf(QueueAt(q, ps, k)) == First(Names(q.pending), q.cursor, k)
    {
      UndisturbedRun(q, ps, k);
      RotateNames(QueueAt(q, ps, k).pending, QueueAt(q, ps, k).cursor);
    }
  }

  lemma {:induction false} FirstWaits(turn: seq<Piece>, quantum: nat, mets: seq<Met>)
    requires CanMeet(turn, quantum, mets)
    requires turn != [] && Turn(turn[0], quantum, mets[0]).1 == StillWaiting
    ensures var w := Waiting(turn, quantum, mets); w != [] && w[0].name == turn[0].name
    decreases |turn|
  {
    if |turn| > 1 {
      FirstWaits(turn[..|turn| - 1], quantum, mets[..|turn| - 1]);
    } else {
      assert turn[..0] == [] && Waiting(turn[..0], quantum, mets[..0]) == [];
    }
  }

  ghost predicate DistinctNames(ps: seq<Piece>) {
    forall x, y :: 0 <= x < y < |ps| ==> ps[x].name != ps[y].name
  }

  /** Nobody but the first goes on waiting. */
  ghost predicate OthersLeave(turn: seq<Piece>, quantum: nat, mets: seq<Met>)
    requires CanMeet(turn, quantum, mets)
  {
    forall i :: 1 <= i < |turn| ==> Turn(turn[i], quantum, mets[i]).1 != StillWaiting
  }

  /** Who waits was in the pass, under the same name, and in the same order. */
  lemma {:induction false} WaitingFrom(turn: seq<Piece>, quantum: nat, mets: seq<Met>)
    requires CanMeet(turn, quantum, mets)
    requires DistinctNames(turn)
    ensures var w := Waiting(turn, quantum, mets);
            DistinctNames(w) && forall k :: 0 <= k < |w| ==> exists i :: 0 <= i < |turn| && turn[i].name == w[k].name
    decreases |turn|
  {
    if turn != [] {
      var n := |turn| - 1;
      WaitingFrom(turn[..n], quantum, mets[..n]);
      var before, w := Waiting(turn[..n], quantum, mets[..n]), Waiting(turn, quantum, mets);
      assert Turn(turn[n], quantum, mets[n]).0.name == turn[n].name;
      hide Turn, Waiting;
      forall k | 0 <= k < |before| ensures exists i :: 0 <= i < n && turn[i].name == before[k].name {
        var i :| 0 <= i < |turn[..n]| && turn[..n][i].name == before[k].name;
        assert turn[i].name == before[k].name;
      }
      forall k | 0 <= k < |w| ensures exists i :: 0 <= i < |turn| && turn[i].name == w[k].name {
        if k < |before| {
          var i :| 0 <= i < n && turn[i].name == before[k].name;
          assert turn[i].name == w[k].name;
        } else {
          assert turn[n].name == w[k].name;
        }
      }
    }
  }

  lemma {:induction false} AloneIff(turn: seq<Piece>, quantum: nat, mets: seq<Met>)
    requires CanMeet(turn, quantum, mets)
    requires turn != [] && Turn(turn[0], quantum, mets[0]).1 == StillWaiting
    ensures |Waiting(turn, quantum, mets)| == 1 <==> OthersLeave(turn, quantum, mets)
    decreases |turn|
  {
    hide Turn;
    var n := |turn| - 1;
    if n == 0 {
      assert Waiting(turn[..0], quantum, mets[..0]) == [];
    } else {
      AloneIff(turn[..n], quantum, mets[..n]);
      FirstWaits(turn[..n], quantum, mets[..n]);
    }
  }

  lemma RotatedNames(ps: seq<Piece>, c: nat, others: seq<Piece>)
    requires DistinctNames(ps + others)
    ensures DistinctNames(Rotate(ps, c)) && DistinctNames(others)
    ensures forall i, k :: 0 <= i < |ps| && 0 <= k < |others| ==> Rotate(ps, c)[i].name != others[k].name
  {
    var all := ps + others;
    assert forall i :: 0 <= i < |ps| ==> all[i] == ps[i];
    assert forall k :: 0 <= k < |others| ==> all[|ps| + k] == others[k];
  }

  /** A piece that was first and goes on waiting is first again in the next pass exactly if: after a
      pass over more than one piece, one piece arrived, or none did and nobody else goes on waiting;
      after a pass over it alone, none arrived. */
  lemma FirstAgainIff(q: Queue, p: Pass)
    requires CanPass(q, p) && q.pending != [] && DistinctNames(q.pending + p.arrived)
    requires Turn(Rotate(q.pending, q.cursor)[0], p.quantum, p.mets[0]).1 == StillWaiting
    ensures AfterPass(q, p).pending != []
    ensures FirstOf(AfterPass(q, p)) == FirstOf(q) <==>
              || (|p.arrived| == 0 && (|q.pending| > 1 ==> OthersLeave(Rotate(q.pending, q.cursor), p.quantum, p.mets)))
              || (|p.arrived| == 1 && |q.pending| > 1)
  {
    var turn := Rotate(q.pending, q.cursor);
    RotatedNames(q.pending, q.cursor, p.arrived);
    FirstWaits(turn, p.quantum, p.mets);
    AloneIff(turn, p.quantum, p.mets);
    WaitingFrom(turn, p.quantum, p.mets);
    hide Waiting, Turn, OthersLeave, CanPass;
    var w := Waiting(turn, p.quantum, p.mets);
    var after := AfterPass(q, p);
    assert after.pending == p.arrived + w && after.pending[|p.arrived|].name == FirstOf(q);
    var at := if after.cursor >= |after.pending| then 0 else after.cursor;
    assert FirstOf(after) == after.pending[at].name;
    if at < |p.arrived| {
      assert p.arrived[at].name != turn[0].name;
    } else if at > |p.arrived| {
      assert w[at - |p.arrived|].name != w[0].name;
    }
  }

  /** Everybody waits for its dependencies, and one piece arrives. */
  function Stalled(n: nat, newcomer: Piece): Pass {
    Pass(0, seq(n, _ => Met(false, WouldBlock, Answer(0, Ok))), [newcomer])
  }

  lemma {:induction false} StalledKeeps(turn: seq<Piece>, quantum: nat, mets: seq<Met>)
    requires |mets| == |turn| && forall i :: 0 <= i < |turn| ==> mets[i] == Met(false, WouldBlock, Answer(0, Ok))
    ensures Waiting(turn, quantum, mets) == turn
    decreases |turn|
  {
    if turn != [] {
      StalledKeeps(turn[..|turn| - 1], quantum, mets[..|turn| - 1]);
    }
  }

  /** name goes first in every pass of the run and in the one after it. */
  ghost predicate AlwaysFirst(q: Queue, ps: seq<Pass>, name: nat)
    decreases |ps|
  {
    && q.pending != [] && FirstOf(q) == name
    && (ps != [] ==> CanPass(q, ps[0]) && |ps[0].arrived| == 1 && AlwaysFirst(AfterPass(q, ps[0]), ps[1..], name))
  }

  /** From any queue of two or more pieces, one new piece arriving in each pass keeps whoever is
      first in front for as many passes as there are new pieces, ahead of everyone who was waiting
      with it. */
  lemma {:induction false} OneArrivalPerPassPinsTheFirst(q: Queue, ns: seq<Piece>) returns (ps: seq<Pass>)
    requires |q.pending| > 1 && DistinctNames(q.pending + ns)
    ensures |ps| == |ns| && AlwaysFirst(q, ps, FirstOf(q))
    ensures forall i :: 0 <= i < |ns| ==> ps[i].arrived == [ns[i]]
    decreases |ns|
  {
    if ns == [] {
      ps := [];
    } else {
      var p := Stalled(|q.pending|, ns[0]);
      var turn := Rotate(q.pending, q.cursor);
      assert CanPass(q, p);
      StalledKeeps(turn, 0, p.mets);
      var after := AfterPass(q, p);
      assert after == Queue([ns[0]] + turn, 1);
      assert FirstOf(after) == turn[0].name;
      StillDistinct(q.pending, q.cursor, ns);
      var rest := OneArrivalPerPassPinsTheFirst(after, ns[1..]);
      ps := [p] + rest;
      assert ps[1..] == rest;
      assert forall i :: 0 < i < |ns| ==> ps[i] == rest[i - 1] && ns[i] == ns[1..][i - 1];
    }
  }

  lemma StillDistinct(ps: seq<Piece>, c: nat, ns: seq<Piece>)
    requires ns != [] && DistinctNames(ps + ns)
    ensures DistinctNames(([ns[0]] + Rotate(ps, c)) + ns[1..])
  {
    RotatedNames(ps, c, ns);
    var turn := Rotate(ps, c);
    var all := ([ns[0]] + turn) + ns[1..];
    assert all[0] == ns[0];
    assert forall i :: 1 <= i <= |turn| ==> all[i] == turn[i - 1];
    assert forall i :: |turn| < i < |all| ==> all[i] == ns[i - |turn|];
  }
}
