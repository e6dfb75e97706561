/** The engine around its requests: admission and its bound, the counters, the queue behind
    poll_completions, deregistration and close(). Each step is one hold of the engine's lock,
    or one step of one request's life; any number of callers run at once. */
module Engine {
  import opened Request
  import opened Lifecycle
  import opened LifecycleInvariant
  import LifecycleTheorems

  datatype Stats = Stats(accepted: nat, succeeded: nat, failed: nat, cancelled: nat)

  /** Finished requests: waiting for poll_completions, given out by it, pushed out by its depth. */
  datatype Finished = Finished(completed: seq<nat>, handed: seq<nat>, dropped: seq<nat>)

  /** What close() and deregister_memory() have set and promised. */
  datatype Gates = Gates(closed: bool, closeReturned: bool, retired: set<nat>, deregistered: set<nat>)

  datatype Engine = Engine(
    reqs: map<nat, Life>,          // every request ever admitted
    regions: map<nat, set<nat>>,   // the regions each one holds
    checked: set<nat>,             // submissions between the bound check and the insertion
    gates: Gates,
    stats: Stats,
    finished: Finished)

  const FRESH := Engine(map[], map[], {}, Gates(false, false, {}, {}), Stats(0, 0, 0, 0), Finished([], [], []))

  datatype Limits = Limits(maxInflight: nat, completionDepth: nat)

  datatype Step =
    | CheckBound(id: nat)
    | GiveUp(id: nat)
    | Insert(id: nat, laneOf: seq<nat>, up: seq<bool>, held: set<nat>)
    | Within(id: nat, s: Lifecycle.Step)
    | Poll(n: nat)
    | SetClosed
    | CloseReturns
    | Retire(region: nat)
    | Deregister(region: nat)

  predicate IsInFlight(l: Life) { InFlight(l.fate) }

  predicate IsCountedIn(l: Life) { !l.submission.Admitted? }

  /** Past the point where the ending was counted. */
  predicate IsCounted(d: Ender) { d.Finalizing? || d.Publishing? || d.Ended? }

  predicate IsSuccess(l: Life) { IsCounted(l.fate.ender) && l.fate.ender.e.EndSuccess? }

  predicate IsFailure(l: Life) {
    IsCounted(l.fate.ender) && (l.fate.ender.e.EndFailure? || l.fate.ender.e.EndStranded?)
  }

  predicate IsCancelled(l: Life) { IsCounted(l.fate.ender) && l.fate.ender.e.EndCancel? }

  predicate IsEnded(l: Life) { l.fate.ender.Ended? }

  /** The requests whose life satisfies p. */
  ghost function Where(reqs: map<nat, Life>, p: Life -> bool): set<nat> {
    set id | id in reqs && p(reqs[id])
  }

  ghost function Inflight(e: Engine): set<nat> {
    Where(e.reqs, IsInFlight)
  }

  ghost predicate Enabled(m: Limits, e: Engine, s: Step) {
    match s
    case CheckBound(id) => id !in e.checked && id !in e.reqs && |Inflight(e)| < m.maxInflight && !e.gates.closed
    case GiveUp(id) => id in e.checked
    case Insert(id, laneOf, up, held) =>
      && id in e.checked && id !in e.reqs && WellPlanned(laneOf, |up|)
      && !e.gates.closed && held !! e.gates.retired
    case Within(id, s) => id in e.reqs && Lifecycle.Enabled(e.reqs[id], s)
    case Poll(n) => n <= |e.finished.completed|
    case SetClosed => true
    case CloseReturns => e.gates.closed && Inflight(e) == {}
    case Retire(region) => true
    case Deregister(region) =>
      region in e.gates.retired && forall id :: id in Inflight(e) && id in e.regions ==> region !in e.regions[id]
  }

  function Tally(t: Stats, l: Life, s: Lifecycle.Step): Stats {
    if s.CountIn? then t.(accepted := t.accepted + 1)
    else if s.CountEnding? && l.fate.ender.Counting? then
      match l.fate.ender.e
      case EndSuccess => t.(succeeded := t.succeeded + 1)
      case EndFailure => t.(failed := t.failed + 1)
      case EndStranded => t.(failed := t.failed + 1)
      case EndCancel => t.(cancelled := t.cancelled + 1)
    else t
  }

  /** keep_completed_locked: past the depth the oldest goes, and with no depth the new one. */
  function Keep(depth: nat, f: Finished, id: nat): Finished {
    if depth == 0 then f.(dropped := f.dropped + [id])
    else
      var q := f.completed + [id];
      if |q| <= depth then f.(completed := q)
      else f.(completed := q[1..], dropped := f.dropped + [q[0]])
  }

  function HandOut(f: Finished, n: nat): Finished
    requires n <= |f.completed|
  {
    f.(handed := f.handed + f.completed[..n], completed := f.completed[n..])
  }

  ghost function Do(m: Limits, e: Engine, s: Step): Engine
    requires Enabled(m, e, s)
  {
    match s
    case CheckBound(id) => e.(checked := e.checked + {id})
    case GiveUp(id) => e.(checked := e.checked - {id})
    case Insert(id, laneOf, up, held) =>
      e.(checked := e.checked - {id}, reqs := e.reqs[id := Admit(laneOf, up)], regions := e.regions[id := held])
    case Within(id, s) =>
      e.(reqs := e.reqs[id := Lifecycle.Do(e.reqs[id], s)],
         stats := Tally(e.stats, e.reqs[id], s),
         finished := if s.Publish? then Keep(m.completionDepth, e.finished, id) else e.finished)
    case Poll(n) => e.(finished := HandOut(e.finished, n))
    case SetClosed => e.(gates := e.gates.(closed := true))
    case CloseReturns => e.(gates := e.gates.(closeReturned := true))
    case Retire(region) => e.(gates := e.gates.(retired := e.gates.retired + {region}))
    case Deregister(region) => e.(gates := e.gates.(deregistered := e.gates.deregistered + {region}))
  }

  // ---------------- the invariant ----------------

  ghost predicate LivesInv(reqs: map<nat, Life>) {
    forall id :: id in reqs ==> Inv(reqs[id])
  }

  ghost predicate StatsInv(reqs: map<nat, Life>, t: Stats) {
    && t.accepted == |Where(reqs, IsCountedIn)|
    && t.succeeded == |Where(reqs, IsSuccess)|
    && t.failed == |Where(reqs, IsFailure)|
    && t.cancelled == |Where(reqs, IsCancelled)|
  }

  function All(f: Finished): multiset<nat> {
    multiset(f.completed) + multiset(f.handed) + multiset(f.dropped)
  }

  /** Every request that was published, and no other, is exactly once among those waiting for
      poll_completions, given out by it, or pushed out. */
  ghost predicate FinishedInv(depth: nat, f: Finished, ended: set<nat>) {
    |f.completed| <= depth && All(f) == multiset(ended)
  }

  ghost predicate GatesInv(g: Gates, inflight: set<nat>, regions: map<nat, set<nat>>) {
    && (g.closeReturned ==> g.closed && inflight == {})
    && g.deregistered <= g.retired
    && (forall id, r :: id in inflight && id in regions && r in g.deregistered ==> r !in regions[id])
  }

  ghost predicate EngineInv(m: Limits, e: Engine) {
    && e.regions.Keys == e.reqs.Keys
    && LivesInv(e.reqs)
    && StatsInv(e.reqs, e.stats)
    && FinishedInv(m.completionDepth, e.finished, Where(e.reqs, IsEnded))
    && GatesInv(e.gates, Where(e.reqs, IsInFlight), e.regions)
  }

  lemma WhereUpdate(reqs: map<nat, Life>, id: nat, l: Life, p: Life -> bool)
    ensures var was := id in reqs && p(reqs[id]);
            && (p(l) == was ==> Where(reqs[id := l], p) == Where(reqs, p))
            && (p(l) && !was ==> Where(reqs[id := l], p) == Where(reqs, p) + {id} && id !in Where(reqs, p))
            && (!p(l) && was ==> Where(reqs[id := l], p) == Where(reqs, p) - {id})
  {
  }

  /** What one step of a request's life does to the ways the engine counts it. */
  predicate CountsStep(l: Life, l': Life, s: Lifecycle.Step) {
    && (IsInFlight(l') ==> IsInFlight(l))
    && (s.CountIn? ==> !IsCountedIn(l) && IsCountedIn(l'))
    && (!s.CountIn? ==> IsCountedIn(l') == IsCountedIn(l))
    && (s.CountEnding? ==> l.fate.ender.Counting? && l'.fate.ender == Finalizing(l.fate.ender.e))
    && (!s.CountEnding? ==>
          IsSuccess(l') == IsSuccess(l) && IsFailure(l') == IsFailure(l) && IsCancelled(l') == IsCancelled(l))
    && (s.Publish? ==> !IsEnded(l) && IsEnded(l'))
    && (!s.Publish? ==> IsEnded(l') == IsEnded(l))
  }

  lemma StepCounts(l: Life, s: Lifecycle.Step)
    requires Lifecycle.Enabled(l, s)
    ensures CountsStep(l, Lifecycle.Do(l, s), s)
  {
    hide CountsStep, Lifecycle.Do, Lifecycle.Enabled;
    if OnAPiece(s) { PieceCounts(l, s); } else { OtherCounts(l, s); }
  }

  /** Steps of a thread holding a piece, before it claims. */
  predicate OnAPiece(s: Lifecycle.Step) {
    s.DependencyFailed? || s.CheckAbandoned? || s.StartPosting? || s.TransportAccepts? || s.Credit? || s.NoteBroken?
    || s.StartDraining? || s.FinishPart? || s.CheckLast? || s.Seal? || s.TransportReports? || s.LookUp?
      || s.CountCompletion?
  }

  lemma PieceCounts(l: Life, s: Lifecycle.Step)
    requires Lifecycle.Enabled(l, s) && OnAPiece(s)
    ensures CountsStep(l, Lifecycle.Do(l, s), s)
  {
    var l' := Lifecycle.Do(l, s);
    assert l'.fate == l.fate && l'.submission == l.submission;
  }

  lemma OtherCounts(l: Life, s: Lifecycle.Step)
    requires Lifecycle.Enabled(l, s) && !OnAPiece(s)
    ensures CountsStep(l, Lifecycle.Do(l, s), s)
  {
  }

  lemma WithinStats(reqs: map<nat, Life>, t: Stats, id: nat, l': Life, s: Lifecycle.Step)
    requires id in reqs && CountsStep(reqs[id], l', s) && StatsInv(reqs, t)
    ensures StatsInv(reqs[id := l'], Tally(t, reqs[id], s))
  {
    hide Where;
    WhereUpdate(reqs, id, l', IsCountedIn);
    WhereUpdate(reqs, id, l', IsSuccess);
    WhereUpdate(reqs, id, l', IsFailure);
    WhereUpdate(reqs, id, l', IsCancelled);
  }

  lemma KeepAdds(depth: nat, f: Finished, ended: set<nat>, id: nat)
    requires FinishedInv(depth, f, ended) && id !in ended
    ensures FinishedInv(depth, Keep(depth, f, id), ended + {id})
  {
    hide All;
    KeepAll(depth, f, id);
    assert multiset(ended + {id}) == multiset(ended) + multiset{id};
  }

  lemma KeepAll(depth: nat, f: Finished, id: nat)
    ensures All(Keep(depth, f, id)) == All(f) + multiset{id}
  {
    var q := f.completed + [id];
    if depth == 0 {
      Appended(f.dropped, id);
    } else if |q| <= depth {
      Appended(f.completed, id);
    } else {
      Appended(f.completed, id);
      Appended(f.dropped, q[0]);
      HeadOut(q);
      hide All;
      Pushed(f, q, id);
    }
  }

  lemma Pushed(f: Finished, q: seq<nat>, id: nat)
    requires q != [] && multiset(q) == multiset(f.completed) + multiset{id}
    requires multiset(q) == multiset{q[0]} + multiset(q[1..])
    requires multiset(f.dropped + [q[0]]) == multiset(f.dropped) + multiset{q[0]}
    ensures All(f.(completed := q[1..], dropped := f.dropped + [q[0]])) == All(f) + multiset{id}
  {
    var g := f.(completed := q[1..], dropped := f.dropped + [q[0]]);
    forall x ensures All(g)[x] == (All(f) + multiset{id})[x] {
      assert multiset(q)[x] == (multiset{q[0]} + multiset(q[1..]))[x];
    }
  }

  lemma Appended(s: seq<nat>, x: nat)
    ensures multiset(s + [x]) == multiset(s) + multiset{x}
  {
  }

  lemma HeadOut(s: seq<nat>)
    requires s != []
    ensures multiset(s) == multiset{s[0]} + multiset(s[1..])
  {
    assert s == [s[0]] + s[1..];
  }

  lemma WithinGates(g: Gates, inflight: set<nat>, inflight': set<nat>, regions: map<nat, set<nat>>)
    requires GatesInv(g, inflight, regions) && inflight' <= inflight
    ensures GatesInv(g, inflight', regions)
  {
  }

  lemma WithinKeeps(m: Limits, e: Engine, id: nat, s: Lifecycle.Step)
    requires EngineInv(m, e) && Enabled(m, e, Within(id, s))
    ensures EngineInv(m, Do(m, e, Within(id, s)))
  {
    hide Lifecycle.Enabled, Lifecycle.Do, Inv, StatsInv, FinishedInv, GatesInv, Where, Tally, Keep;
    var l' := Lifecycle.Do(e.reqs[id], s);
    StepKeepsInv(e.reqs[id], s);
    StepCounts(e.reqs[id], s);
    WithinStats(e.reqs, e.stats, id, l', s);
    WhereUpdate(e.reqs, id, l', IsEnded);
    WhereUpdate(e.reqs, id, l', IsInFlight);
    if s.Publish? { KeepAdds(m.completionDepth, e.finished, Where(e.reqs, IsEnded), id); }
    WithinGates(e.gates, Where(e.reqs, IsInFlight), Where(e.reqs[id := l'], IsInFlight), e.regions);
  }

  lemma InsertGates(g: Gates, inflight: set<nat>, regions: map<nat, set<nat>>, id: nat, held: set<nat>)
    requires GatesInv(g, inflight, regions) && id !in inflight && !g.closed && held !! g.retired
    ensures GatesInv(g, inflight + {id}, regions[id := held])
  {
  }

  lemma InsertKeeps(m: Limits, e: Engine, id: nat, laneOf: seq<nat>, up: seq<bool>, held: set<nat>)
    requires EngineInv(m, e) && Enabled(m, e, Insert(id, laneOf, up, held))
    ensures EngineInv(m, Do(m, e, Insert(id, laneOf, up, held)))
  {
    hide Inv, FinishedInv, GatesInv, StatsInv, Where;
    LifecycleTheorems.AdmitInv(laneOf, up);
    var l := Admit(laneOf, up);
    InsertStats(e.reqs, e.stats, id, l);
    WhereUpdate(e.reqs, id, l, IsEnded);
    WhereUpdate(e.reqs, id, l, IsInFlight);
    InsertGates(e.gates, Where(e.reqs, IsInFlight), e.regions, id, held);
  }

  lemma InsertStats(reqs: map<nat, Life>, t: Stats, id: nat, l: Life)
    requires StatsInv(reqs, t) && id !in reqs && l.submission.Admitted? && l.fate.ender.Nobody?
    ensures StatsInv(reqs[id := l], t)
  {
    hide Where;
    WhereUpdate(reqs, id, l, IsCountedIn);
    WhereUpdate(reqs, id, l, IsSuccess);
    WhereUpdate(reqs, id, l, IsFailure);
    WhereUpdate(reqs, id, l, IsCancelled);
  }

  lemma HandOutKeeps(depth: nat, f: Finished, ended: set<nat>, n: nat)
    requires FinishedInv(depth, f, ended) && n <= |f.completed|
    ensures FinishedInv(depth, HandOut(f, n), ended)
  {
    assert f.completed == f.completed[..n] + f.completed[n..];
  }

  lemma GatesKeep(e: Engine, m: Limits, s: Step)
    requires GatesInv(e.gates, Inflight(e), e.regions) && Enabled(m, e, s)
    requires s.SetClosed? || s.CloseReturns? || s.Retire? || s.Deregister?
    ensures GatesInv(Do(m, e, s).gates, Inflight(e), e.regions)
  {
    hide Lifecycle.Enabled, Lifecycle.Do, Where, Admit, WellPlanned;
  }

  lemma StepKeeps(m: Limits, e: Engine, s: Step)
    requires EngineInv(m, e) && Enabled(m, e, s)
    ensures EngineInv(m, Do(m, e, s))
  {
    hide Inv, LivesInv, StatsInv, FinishedInv, GatesInv, Where, Lifecycle.Enabled, Lifecycle.Do, Admit, WellPlanned,
      Tally, Keep, HandOut;
    match s
    case Within(id, s) => WithinKeeps(m, e, id, s);
    case Insert(id, laneOf, up, held) => InsertKeeps(m, e, id, laneOf, up, held);
    case Poll(n) => HandOutKeeps(m.completionDepth, e.finished, Where(e.reqs, IsEnded), n);
    case CheckBound(_) =>
    case GiveUp(_) =>
    case _ => GatesKeep(e, m, s);
  }

  // ---------------- every run ----------------

  ghost predicate CanRun(m: Limits, e: Engine, steps: seq<Step>)
    decreases |steps|
  {
    steps == [] || (Enabled(m, e, steps[0]) && CanRun(m, Do(m, e, steps[0]), steps[1..]))
  }

  ghost function After(m: Limits, e: Engine, steps: seq<Step>): Engine
    requires CanRun(m, e, steps)
    decreases |steps|
  {
    if steps == [] then e else After(m, Do(m, e, steps[0]), steps[1..])
  }

  lemma {:induction false} RunKeeps(m: Limits, e: Engine, steps: seq<Step>)
    requires EngineInv(m, e) && CanRun(m, e, steps)
    ensures EngineInv(m, After(m, e, steps))
    decreases |steps|
  {
    hide EngineInv, Enabled, Do;
    if steps != [] {
      StepKeeps(m, e, steps[0]);
      RunKeeps(m, Do(m, e, steps[0]), steps[1..]);
    }
  }

  lemma FreshInv(m: Limits)
    ensures EngineInv(m, FRESH)
  {
    assert Where(map[], IsEnded) == {};
  }

  /** No thread is in the middle of admitting or ending a request. */
  ghost predicate Quiescent(reqs: map<nat, Life>) {
    forall id :: id in reqs ==> IsCountedIn(reqs[id]) && (IsInFlight(reqs[id]) || IsEnded(reqs[id]))
  }

  lemma Partition(reqs: map<nat, Life>)
    requires Quiescent(reqs)
    ensures var a, b, c, d := Where(reqs, IsSuccess), Where(reqs, IsFailure), Where(reqs, IsCancelled),
            Where(reqs, IsInFlight);
            && Where(reqs, IsCountedIn) == a + b + c + d
            && a !! b && (a + b) !! c && (a + b + c) !! d
  {
    forall id | id in reqs
      ensures IsCountedIn(reqs[id])
      ensures IsSuccess(reqs[id]) || IsFailure(reqs[id]) || IsCancelled(reqs[id]) || IsInFlight(reqs[id])
    {
    }
  }

  lemma Balance(reqs: map<nat, Life>, t: Stats)
    requires StatsInv(reqs, t) && Quiescent(reqs)
    ensures t.accepted == t.succeeded + t.failed + t.cancelled + |Where(reqs, IsInFlight)|
  {
    hide Where, Quiescent;
    Partition(reqs);
    SumOfDisjoint(Where(reqs, IsSuccess), Where(reqs, IsFailure), Where(reqs, IsCancelled), Where(reqs, IsInFlight));
  }

  lemma SumOfDisjoint(a: set<nat>, b: set<nat>, c: set<nat>, d: set<nat>)
    requires a !! b && (a + b) !! c && (a + b + c) !! d
    ensures |a + b + c + d| == |a| + |b| + |c| + |d|
  {
  }

  /** At quiescent points of every run, what was accepted is what succeeded, failed or was
      cancelled, plus what is in flight. */
  lemma CountersBalance(m: Limits, steps: seq<Step>)
    requires CanRun(m, FRESH, steps) && Quiescent(After(m, FRESH, steps).reqs)
    ensures var e := After(m, FRESH, steps);
            e.stats.accepted == e.stats.succeeded + e.stats.failed + e.stats.cancelled + |Inflight(e)|
  {
    FreshInv(m);
    RunKeeps(m, FRESH, steps);
    hide Inv, StatsInv, FinishedInv, GatesInv, CanRun, After;
    Balance(After(m, FRESH, steps).reqs, After(m, FRESH, steps).stats);
  }

  /** Every request that was published is waiting for poll_completions, was handed out by it or was
      pushed out, exactly once in all, and no other request is; what was handed out has ended. */
  lemma HandedOutOnce(m: Limits, steps: seq<Step>, id: nat)
    requires CanRun(m, FRESH, steps)
    ensures var e := After(m, FRESH, steps);
            && All(e.finished)[id] == (if id in e.reqs && IsEnded(e.reqs[id]) then 1 else 0)
            && multiset(e.finished.handed)[id] <= 1
            && (id in e.finished.handed ==> id in e.reqs && Terminal(e.reqs[id].req))
  {
    FreshInv(m);
    RunKeeps(m, FRESH, steps);
    var e := After(m, FRESH, steps);
    hide StatsInv, GatesInv, CanRun, After;
    assert All(e.finished)[id] <= 1;
    if id in e.finished.handed {
      assert id in multiset(e.finished.handed) && id in All(e.finished);
      assert Inv(e.reqs[id]);
    }
  }

  /** Once some close() has returned kOk nothing is in flight, nothing is admitted, and no live
      connection holds or can be given work of any request, however the run goes on. */
  lemma ClosedForGood(m: Limits, steps: seq<Step>, more: seq<Step>)
    requires CanRun(m, FRESH, steps) && After(m, FRESH, steps).gates.closeReturned
    requires CanRun(m, After(m, FRESH, steps), more)
    ensures var e := After(m, After(m, FRESH, steps), more);
            && Inflight(e) == {} && e.reqs.Keys == After(m, FRESH, steps).reqs.Keys
            && forall id :: id in e.reqs ==> !LifecycleTheorems.MayMoveBytes(e.reqs[id])
  {
    FreshInv(m);
    RunKeeps(m, FRESH, steps);
    ClosedStays(m, After(m, FRESH, steps), more);
    RunKeeps(m, After(m, FRESH, steps), more);
    LandedAreStill(m, After(m, After(m, FRESH, steps), more));
  }

  /** A request that is not in flight has nothing on a live connection. */
  lemma LandedAreStill(m: Limits, e: Engine)
    requires EngineInv(m, e)
    ensures forall id :: id in e.reqs && id !in Inflight(e) ==> !LifecycleTheorems.MayMoveBytes(e.reqs[id])
  {
    hide Inv, StatsInv, FinishedInv, GatesInv, LifecycleTheorems.MayMoveBytes;
    forall id | id in e.reqs && id !in Inflight(e) ensures !LifecycleTheorems.MayMoveBytes(e.reqs[id]) {
      LifecycleTheorems.ClaimedIsStill(e.reqs[id]);
    }
  }

  lemma {:induction false} ClosedStays(m: Limits, e: Engine, more: seq<Step>)
    requires EngineInv(m, e) && e.gates.closeReturned && CanRun(m, e, more)
    ensures Inflight(After(m, e, more)) == {} && After(m, e, more).reqs.Keys == e.reqs.Keys
    decreases |more|
  {
    hide LivesInv, StatsInv, FinishedInv, Where, Lifecycle.Enabled, Lifecycle.Do;
    if more != [] {
      StepKeeps(m, e, more[0]);
      assert Do(m, e, more[0]).reqs.Keys == e.reqs.Keys;
      ClosedStays(m, Do(m, e, more[0]), more[1..]);
    }
  }

  /** Once some deregister_memory() has returned kOk, no request in flight holds that region, and no
      live connection holds or can be given work of a request that used it, now or later. */
  lemma DeregisteredForGood(m: Limits, steps: seq<Step>, more: seq<Step>, region: nat)
    requires CanRun(m, FRESH, steps) && region in After(m, FRESH, steps).gates.deregistered
    requires CanRun(m, After(m, FRESH, steps), more)
    ensures var e := After(m, After(m, FRESH, steps), more);
            && (forall id :: id in Inflight(e) ==> id in e.regions && region !in e.regions[id])
            && (forall id :: id in e.reqs && id in e.regions && region in e.regions[id] ==>
                  !LifecycleTheorems.MayMoveBytes(e.reqs[id]))
  {
    FreshInv(m);
    RunKeeps(m, FRESH, steps);
    DeregisteredStays(m, After(m, FRESH, steps), more, region);
    RunKeeps(m, After(m, FRESH, steps), more);
    LandedAreStill(m, After(m, After(m, FRESH, steps), more));
    hide LifecycleTheorems.MayMoveBytes;
  }

  lemma {:induction false} DeregisteredStays(m: Limits, e: Engine, more: seq<Step>, region: nat)
    requires EngineInv(m, e) && region in e.gates.deregistered && CanRun(m, e, more)
    ensures var e' := After(m, e, more);
            forall id :: id in Inflight(e') ==> id in e'.regions && region !in e'.regions[id]
    decreases |more|
  {
    hide LivesInv, StatsInv, FinishedInv, Lifecycle.Enabled, Lifecycle.Do;
    if more == [] {
      assert forall id :: id in Inflight(e) ==> id in e.reqs;
    } else {
      StepKeeps(m, e, more[0]);
      DeregisteredStays(m, Do(m, e, more[0]), more[1..], region);
      assert After(m, e, more) == After(m, Do(m, e, more[0]), more[1..]);
    }
  }

  // ---------------- the bound on requests in flight ----------------

  /** At most t submissions are between the check and the insertion at any point of the run. */
  ghost predicate AtMostAtOnce(m: Limits, e: Engine, steps: seq<Step>, t: nat)
    requires CanRun(m, e, steps)
    decreases |steps|
  {
    |e.checked| <= t && (steps == [] || AtMostAtOnce(m, Do(m, e, steps[0]), steps[1..], t))
  }

  /** The check and the insertion are separate lock holds, so with t callers submitting at once
      the bound can be passed, and by no more than t - 1. */
  lemma {:induction false} BoundHolds(m: Limits, e: Engine, steps: seq<Step>, t: nat)
    requires m.maxInflight > 0 && t > 0 && CanRun(m, e, steps) && AtMostAtOnce(m, e, steps, t)
    requires |Inflight(e)| + |e.checked| <= m.maxInflight - 1 + t
    ensures |Inflight(After(m, e, steps))| <= m.maxInflight - 1 + t
    decreases |steps|
  {
    hide Lifecycle.Enabled, Lifecycle.Do, Where, WellPlanned, Tally, Keep;
    if steps != [] {
      var e' := Do(m, e, steps[0]);
      BoundStep(m, e, steps[0], t);
      BoundHolds(m, e', steps[1..], t);
    }
  }

  lemma BoundStep(m: Limits, e: Engine, s: Step, t: nat)
    requires m.maxInflight > 0 && Enabled(m, e, s) && |Do(m, e, s).checked| <= t
    requires |Inflight(e)| + |e.checked| <= m.maxInflight - 1 + t
    ensures var e' := Do(m, e, s); |Inflight(e')| + |e'.checked| <= m.maxInflight - 1 + t
  {
    hide Lifecycle.Enabled, Lifecycle.Do, Where, WellPlanned, Tally, Keep;
    match s
    case Within(id, s) =>
      StepCounts(e.reqs[id], s);
      WhereUpdate(e.reqs, id, Lifecycle.Do(e.reqs[id], s), IsInFlight);
      SubsetSize(Inflight(Do(m, e, Within(id, s))), Inflight(e));
    case Insert(id, laneOf, up, held) =>
      WhereUpdate(e.reqs, id, Admit(laneOf, up), IsInFlight);
    case _ =>
  }

  /** One caller at a time is held to exactly max_inflight_requests. */
  lemma BoundIsExactForOneCaller(m: Limits, steps: seq<Step>)
    requires m.maxInflight > 0 && CanRun(m, FRESH, steps) && AtMostAtOnce(m, FRESH, steps, 1)
    ensures |Inflight(After(m, FRESH, steps))| <= m.maxInflight
  {
    assert Inflight(FRESH) == {};
    BoundHolds(m, FRESH, steps, 1);
  }

  // How far t callers at once can take it.

  function Ids(from: nat, n: nat): (s: set<nat>)
    ensures |s| == n && forall x :: x in s <==> from <= x < from + n
    decreases n
  {
    if n == 0 then {} else {from} + Ids(from + 1, n - 1)
  }

  const ONE_LANE: Insertion := Insertion([0], [true])

  datatype Insertion = Insertion(laneOf: seq<nat>, up: seq<bool>)

  lemma OneLanePlanned()
    ensures WellPlanned(ONE_LANE.laneOf, |ONE_LANE.up|)
  {
    assert Used([0], 0) by { assert [0][0] == 0; }
  }

  /** Requests 0..inserted are in flight, the next waiting submissions are past the check. */
  ghost function Crowd(inserted: nat, waiting: nat): Engine {
    OneLanePlanned();
    FRESH.(reqs := Alike(inserted, Admit(ONE_LANE.laneOf, ONE_LANE.up)), regions := Alike(inserted, {}),
           checked := Ids(inserted, waiting))
  }

  function Alike<V>(n: nat, v: V): (m: map<nat, V>)
    ensures forall x :: x in m <==> 0 <= x < n
    ensures forall x :: x in m ==> m[x] == v
  {
    if n == 0 then map[] else Alike(n - 1, v)[n - 1 := v]
  }

  lemma CrowdInFlight(inserted: nat, waiting: nat)
    ensures Inflight(Crowd(inserted, waiting)) == Ids(0, inserted)
  {
    OneLanePlanned();
    assert IsInFlight(Admit(ONE_LANE.laneOf, ONE_LANE.up));
  }

  /** A run with at most t submissions at once leads to e. */
  ghost predicate Reaches(m: Limits, t: nat, e: Engine) {
    exists steps :: CanRun(m, FRESH, steps) && AtMostAtOnce(m, FRESH, steps, t) && After(m, FRESH, steps) == e
  }

  lemma {:induction false} RunExtends(m: Limits, e: Engine, steps: seq<Step>, s: Step, t: nat)
    requires CanRun(m, e, steps) && AtMostAtOnce(m, e, steps, t) && Enabled(m, After(m, e, steps), s)
    requires |Do(m, After(m, e, steps), s).checked| <= t
    ensures CanRun(m, e, steps + [s]) && AtMostAtOnce(m, e, steps + [s], t)
    ensures After(m, e, steps + [s]) == Do(m, After(m, e, steps), s)
    decreases |steps|
  {
    hide Enabled, Do;
    if steps == [] {
      var e' := Do(m, e, s);
      assert steps + [s] == [s] && [s][1..] == [];
      assert CanRun(m, e', []) && After(m, e', []) == e' && AtMostAtOnce(m, e', [], t);
    } else {
      RunExtends(m, Do(m, e, steps[0]), steps[1..], s, t);
      assert (steps + [s])[1..] == steps[1..] + [s];
    }
  }

  lemma ReachesStep(m: Limits, t: nat, e: Engine, s: Step, e': Engine)
    requires Reaches(m, t, e) && Enabled(m, e, s) && Do(m, e, s) == e' && |e'.checked| <= t
    ensures Reaches(m, t, e')
  {
    hide Enabled, Do;
    var steps :| CanRun(m, FRESH, steps) && AtMostAtOnce(m, FRESH, steps, t) && After(m, FRESH, steps) == e;
    RunExtends(m, FRESH, steps, s, t);
  }

  lemma OneChecks(m: Limits, t: nat, inserted: nat, waiting: nat)
    requires Reaches(m, t, Crowd(inserted, waiting)) && inserted < m.maxInflight && waiting < t
    ensures Reaches(m, t, Crowd(inserted, waiting + 1))
  {
    CrowdCheck(m, inserted, waiting);
    hide Reaches, Crowd, Do, Enabled;
    ReachesStep(m, t, Crowd(inserted, waiting), CheckBound(inserted + waiting), Crowd(inserted, waiting + 1));
  }

  lemma CrowdCheck(m: Limits, inserted: nat, waiting: nat)
    requires inserted < m.maxInflight
    ensures var e, s := Crowd(inserted, waiting), CheckBound(inserted + waiting);
            Enabled(m, e, s) && Do(m, e, s) == Crowd(inserted, waiting + 1)
    ensures |Crowd(inserted, waiting + 1).checked| == waiting + 1
  {
    hide WellPlanned, Admit, Lifecycle.Enabled, Lifecycle.Do, Where, Inflight, Tally, Keep, HandOut, Ids, Alike;
    CrowdInFlight(inserted, waiting);
    IdsMore(inserted, waiting);
  }

  lemma IdsMore(from: nat, n: nat)
    ensures Ids(from, n) + {from + n} == Ids(from, n + 1)
  {
  }

  lemma OneIsInserted(m: Limits, t: nat, inserted: nat, waiting: nat)
    requires Reaches(m, t, Crowd(inserted, waiting)) && 0 < waiting <= t
    ensures Reaches(m, t, Crowd(inserted + 1, waiting - 1))
  {
    CrowdInsert(m, inserted, waiting);
    hide Reaches, Crowd, Do, Enabled;
    ReachesStep(m, t, Crowd(inserted, waiting), Insert(inserted, ONE_LANE.laneOf, ONE_LANE.up, {}),
                Crowd(inserted + 1, waiting - 1));
  }

  lemma CrowdInsert(m: Limits, inserted: nat, waiting: nat)
    requires waiting > 0
    ensures var e, s := Crowd(inserted, waiting), Insert(inserted, ONE_LANE.laneOf, ONE_LANE.up, {});
            Enabled(m, e, s) && Do(m, e, s) == Crowd(inserted + 1, waiting - 1)
    ensures |Crowd(inserted + 1, waiting - 1).checked| == waiting - 1
  {
    hide WellPlanned, Admit, Lifecycle.Enabled, Lifecycle.Do, Where, Tally, Keep, HandOut;
    OneLanePlanned();
    assert Ids(inserted, waiting) - {inserted} == Ids(inserted + 1, waiting - 1);
  }

  lemma RunTo(m: Limits, t: nat, e: Engine) returns (steps: seq<Step>)
    requires Reaches(m, t, e)
    ensures CanRun(m, FRESH, steps) && AtMostAtOnce(m, FRESH, steps, t) && After(m, FRESH, steps) == e
  {
    steps :| CanRun(m, FRESH, steps) && AtMostAtOnce(m, FRESH, steps, t) && After(m, FRESH, steps) == e;
  }

  lemma {:induction false} ManyCheck(m: Limits, t: nat, inserted: nat, waiting: nat)
    requires Reaches(m, t, Crowd(inserted, 0)) && inserted < m.maxInflight && waiting <= t
    ensures Reaches(m, t, Crowd(inserted, waiting))
  {
    hide Reaches, Crowd;
    if waiting > 0 {
      ManyCheck(m, t, inserted, waiting - 1);
      OneChecks(m, t, inserted, waiting - 1);
    }
  }

  lemma {:induction false} ManyInserted(m: Limits, t: nat, inserted: nat, waiting: nat)
    requires Reaches(m, t, Crowd(inserted, waiting)) && waiting <= t
    ensures Reaches(m, t, Crowd(inserted + waiting, 0))
    decreases waiting
  {
    hide Reaches, Crowd;
    if waiting > 0 {
      OneIsInserted(m, t, inserted, waiting);
      ManyInserted(m, t, inserted + 1, waiting - 1);
    }
  }

  lemma {:induction false} OneByOne(m: Limits, t: nat, n: nat)
    requires n <= m.maxInflight && t > 0
    ensures Reaches(m, t, Crowd(n, 0))
  {
    hide Reaches, Crowd;
    if n == 0 {
      FreshCrowd(m, t);
    } else {
      OneByOne(m, t, n - 1);
      OneChecks(m, t, n - 1, 0);
      OneIsInserted(m, t, n - 1, 1);
    }
  }

  lemma FreshCrowd(m: Limits, t: nat)
    ensures Reaches(m, t, Crowd(0, 0))
  {
    assert Crowd(0, 0) == FRESH;
    assert CanRun(m, FRESH, []) && After(m, FRESH, []) == FRESH && AtMostAtOnce(m, FRESH, [], t);
  }

  /** For every bound and every number of callers the furthest point is reached: all but one place
      taken, t callers let through the check, t requests inserted. */
  lemma CallersPassTheBound(m: Limits, t: nat) returns (steps: seq<Step>)
    requires m.maxInflight > 0 && t > 0
    ensures CanRun(m, FRESH, steps) && AtMostAtOnce(m, FRESH, steps, t)
    ensures |Inflight(After(m, FRESH, steps))| == m.maxInflight - 1 + t
  {
    hide *;
    OneByOne(m, t, m.maxInflight - 1);
    ManyCheck(m, t, m.maxInflight - 1, t);
    ManyInserted(m, t, m.maxInflight - 1, t);
    CrowdInFlight(m.maxInflight - 1 + t, 0);
    steps := RunTo(m, t, Crowd(m.maxInflight - 1 + t, 0));
  }

  ghost predicate KeepsBound(m: Limits, steps: seq<Step>, t: nat) {
    CanRun(m, FRESH, steps) && AtMostAtOnce(m, FRESH, steps, t) ==> |Inflight(After(m, FRESH, steps))| <= m.maxInflight
  }

  /** So every run with at most t submissions at once keeps to max_inflight_requests exactly if t
      is one. */
  lemma BoundKeptIffOneAtATime(m: Limits, t: nat)
    requires m.maxInflight > 0 && t > 0
    ensures (forall steps :: KeepsBound(m, steps, t)) <==> t == 1
  {
    hide CanRun, AtMostAtOnce, After;
    if t == 1 {
      forall steps ensures KeepsBound(m, steps, t) {
        if CanRun(m, FRESH, steps) && AtMostAtOnce(m, FRESH, steps, t) {
          BoundIsExactForOneCaller(m, steps);
        }
      }
    } else {
      var steps := CallersPassTheBound(m, t);
      assert !KeepsBound(m, steps, t);
    }
  }
}
