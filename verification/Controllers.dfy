/** The congestion controller of a transport: none, a fixed window, or TIMELY, behind one interface. */
module Controllers {
  import C = Congestion
  import T = Timely

  datatype Ctl = Plain(budget: C.Budget) | Adaptive(p: T.Params, write: T.Dir, read: T.Dir)

  function DirOf(c: Ctl, d: C.Direction): T.Dir
    requires c.Adaptive?
  {
    if d.WriteDir? then c.write else c.read
  }

  function SetDir(c: Ctl, d: C.Direction, x: T.Dir): Ctl
    requires c.Adaptive?
  {
    if d.WriteDir? then c.(write := x) else c.(read := x)
  }

  /** Bytes claimed and not given back, per direction. */
  function Used(c: Ctl, d: C.Direction): nat {
    if c.Plain? then C.Used(c.budget, d) else DirOf(c, d).inflight
  }

  /** What may be in flight in a direction at this moment; None without a limit. */
  function WindowOf(c: Ctl, d: C.Direction): T.Option<nat> {
    if c.Plain? then if c.budget.limit.Window? then T.Some(c.budget.limit.bytes) else T.None
    else T.Some(T.Window(DirOf(c, d)))
  }

  predicate Allows(c: Ctl, d: C.Direction, bytes: nat, now: int) {
    if c.Plain? then C.Allows(c.budget, d, bytes) else T.Judge(DirOf(c, d), bytes, now) == T.Allowed
  }

  /** Rates to divide by. */
  ghost predicate Running(c: Ctl) {
    c.Adaptive? ==> T.Sane(c.p) && c.write.rate > 0.0 && c.read.rate > 0.0
  }

  ghost function Claim(c: Ctl, d: C.Direction, bytes: nat, now: int): Ctl
    requires Running(c)
  {
    if c.Plain? then Plain(C.Claim(c.budget, d, bytes)) else SetDir(c, d, T.Posted(DirOf(c, d), bytes, now))
  }

  function Release(c: Ctl, d: C.Direction, bytes: nat): Ctl {
    if c.Plain? then Plain(C.Release(c.budget, d, bytes)) else SetDir(c, d, T.Released(DirOf(c, d), bytes))
  }

  function Feedback(c: Ctl, d: C.Direction, bytes: nat, rtt: int, now: int): Ctl {
    if c.Plain? then Plain(C.Release(c.budget, d, bytes))
    else SetDir(c, d, T.Updated(c.p, T.Released(DirOf(c, d), bytes), rtt, now))
  }

  /** Same kind of controller, same fixed limit. */
  predicate SameKind(c: Ctl, c': Ctl) {
    c.Plain? == c'.Plain? && (c.Plain? ==> c'.budget.limit == c.budget.limit)
  }

  /** What the accounting needs of a claim: it counts, in its direction, and nothing else does. */
  lemma ClaimCounts(c: Ctl, d: C.Direction, bytes: nat, now: int)
    requires Running(c)
    ensures var c' := Claim(c, d, bytes, now);
            && Running(c') && SameKind(c, c')
            && Used(c', d) == Used(c, d) + bytes && forall o :: o != d ==> Used(c', o) == Used(c, o)
  {
    hide T.Gap;
  }

  lemma ReleaseCounts(c: Ctl, d: C.Direction, bytes: nat)
    requires Running(c)
    ensures var c' := Release(c, d, bytes);
            && Running(c') && SameKind(c, c')
            && Used(c', d) == Used(c, d) - (if bytes < Used(c, d) then bytes else Used(c, d))
            && forall o :: o != d ==> Used(c', o) == Used(c, o)
  {
  }

  lemma FeedbackCounts(c: Ctl, d: C.Direction, bytes: nat, rtt: int, now: int)
    requires Running(c)
    ensures var c' := Feedback(c, d, bytes, rtt, now);
            && Running(c') && SameKind(c, c')
            && Used(c', d) == Used(c, d) - (if bytes < Used(c, d) then bytes else Used(c, d))
            && forall o :: o != d ==> Used(c', o) == Used(c, o)
  {
    if c.Adaptive? {
      var r := T.Released(DirOf(c, d), bytes);
      T.Reaction(c.p, r, rtt, now);
      hide T.Steered, T.Smoothed, T.Rounds, T.Us, T.Clamp, T.Gradient;
    }
  }

  /** An operation is let through exactly if its time has come and it fits the window of that moment,
      or nothing is in flight. */
  lemma AllowsMeans(c: Ctl, d: C.Direction, bytes: nat, now: int)
    ensures Allows(c, d, bytes, now) <==>
              && (c.Adaptive? ==> now >= DirOf(c, d).nextSend)
              && (WindowOf(c, d).Some? ==> Used(c, d) + bytes <= WindowOf(c, d).value || Used(c, d) == 0)
  {
    hide T.Window;
  }

  /** One of the two kinds of object. */
  class Controller {
    const fixed: C.WindowController?
    const write: T.TimelyController?
    const read: T.TimelyController?

    ghost predicate Shape() {
      || (fixed != null && write == null && read == null)
      || (fixed == null && write != null && read != null && write != read && write.p == read.p)
    }

    ghost function Repr(): set<object> {
      if fixed != null then {fixed} else (if write != null then {write} else {}) + (if read != null then {read} else {})
    }

    ghost function View(): Ctl
      requires Shape()
      reads Repr()
    {
      if fixed != null then Plain(fixed.View()) else Adaptive(write.p, write.View(), read.View())
    }

    ghost predicate Valid()
      reads Repr()
    {
      Shape() && Running(View())
    }

    constructor Window(limit: C.Limit)
      ensures Valid() && fresh(Repr()) && View() == Plain(C.Budget(limit, 0, 0))
    {
      fixed := new C.WindowController(limit);
      write, read := null, null;
    }

    constructor Timely(p: T.Params, now: int)
      requires T.Sane(p) && p.additive > 0.0
      ensures Valid() && fresh(Repr()) && View().Adaptive? && View().p == p
      ensures forall d :: Used(View(), d) == 0 && DirOf(View(), d).rate == p.additive * 10.0
    {
      fixed := null;
      write := new T.TimelyController(p, now);
      read := new T.TimelyController(p, now);
    }

    method Allow(d: C.Direction, bytes: nat, now: int) returns (ok: bool)
      requires Valid()
      ensures ok == Allows(View(), d, bytes, now)
    {
      if fixed != null {
        ok := fixed.Allow(d, bytes);
      } else {
        var v;
        if d.WriteDir? { v := write.Allow(bytes, now); } else { v := read.Allow(bytes, now); }
        ok := v == T.Allowed;
      }
    }

    method OnPost(d: C.Direction, bytes: nat, now: int)
      requires Valid()
      modifies Repr()
      ensures Valid() && View() == Claim(old(View()), d, bytes, now)
    {
      ClaimCounts(View(), d, bytes, now);
      hide T.Posted, C.Claim;
      if fixed != null { fixed.OnPost(d, bytes); }
      else if d.WriteDir? { write.OnPost(bytes, now); } else { read.OnPost(bytes, now); }
    }

    method OnError(d: C.Direction, bytes: nat)
      requires Valid()
      modifies Repr()
      ensures Valid() && View() == Release(old(View()), d, bytes)
    {
      ReleaseCounts(View(), d, bytes);
      hide C.Release, T.Released;
      if fixed != null { fixed.OnRelease(d, bytes); }
      else if d.WriteDir? { write.OnError(bytes); } else { read.OnError(bytes); }
    }

    method OnFeedback(d: C.Direction, bytes: nat, rtt: int, now: int)
      requires Valid()
      modifies Repr()
      ensures Valid() && View() == Feedback(old(View()), d, bytes, rtt, now)
    {
      FeedbackCounts(View(), d, bytes, rtt, now);
      hide C.Release, T.Released, T.Updated;
      if fixed != null { fixed.OnRelease(d, bytes); }
      else if d.WriteDir? { write.OnFeedback(bytes, rtt, now); } else { read.OnFeedback(bytes, rtt, now); }
    }
  }
}
