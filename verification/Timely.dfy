/** The adaptive controller, one direction of it: a rate that follows the delay gradient, a window
    the rate implies, and a next send time that paces posts. Rates are bytes per second, times
    nanoseconds; arithmetic on rates is exact. */
module Timely {
  import C = Congestion

  datatype Params = Params(
    lowUs: nat, highUs: nat, beta: real, additive: real, alpha: real, minRate: real, maxRate: real)

  /** What make_cc_timely is given when nothing else is said. */
  const DEFAULTS := Params(50, 500, 0.008, 10000000.0, 0.3, 1000000.0, 12500000000.0)

  ghost predicate Sane(p: Params) {
    0.0 < p.minRate <= p.maxRate && p.additive >= 0.0 && 0.0 <= p.beta <= 1.0
  }

  datatype Option<T> = None | Some(value: T)

  datatype Dir = Dir(
    inflight: nat,
    rate: real,
    minDelay: Option<nat>,   // smallest delay seen
    prevDelay: Option<nat>,
    avgDiffUs: real,
    nextSend: int,
    lastUpdate: Option<int>)

  datatype Verdict = Allowed | Paced | OverBudget

  const NS: real := 1000000000.0
  const WINDOW_FLOOR := 0x1_0000

  function BaseNs(d: Dir): real {
    match d.minDelay
    case None => 1000000.0
    case Some(delay) => delay as real
  }

  function Window(d: Dir): (w: nat)
    ensures w >= WINDOW_FLOOR
  {
    var bytes := (d.rate * BaseNs(d) / NS).Floor;
    if bytes < WINDOW_FLOOR then WINDOW_FLOOR else bytes
  }

  function Judge(d: Dir, bytes: nat, now: int): Verdict {
    if now < d.nextSend then Paced
    else if d.inflight + bytes <= Window(d) then Allowed
    else if bytes > Window(d) && d.inflight == 0 then Allowed
    else OverBudget
  }

  /** How long bytes take at a rate, in whole nanoseconds. */
  function Gap(bytes: nat, rate: real): int
    requires rate > 0.0
  {
    (bytes as real / rate * NS).Floor
  }

  function Posted(d: Dir, bytes: nat, now: int): Dir
    requires d.rate > 0.0
  {
    d.(inflight := d.inflight + bytes,
       nextSend := (if now > d.nextSend then now else d.nextSend) + Gap(bytes, d.rate))
  }

  function Released(d: Dir, bytes: nat): Dir {
    d.(inflight := d.inflight - (if bytes < d.inflight then bytes else d.inflight))
  }

  /** Round trips since the rate last moved. */
  function Rounds(d: Dir, now: int): (r: real)
    ensures 0.0 <= r <= 64.0
  {
    match d.lastUpdate
    case None => 1.0
    case Some(last) =>
      if BaseNs(d) <= 0.0 then 1.0
      else if now <= last then 0.0
      else
        RoundsPositive(now - last, BaseNs(d));
        var r := (now - last) as real / BaseNs(d);
        if r > 64.0 then 64.0 else r
  }

  lemma RoundsPositive(dt: int, base: real)
    requires dt > 0 && base > 0.0
    ensures dt as real / base >= 0.0
  {
  }

  function Clamp(p: Params, rate: real): real {
    var r := if rate < p.minRate then p.minRate else rate;
    if r > p.maxRate then p.maxRate else r
  }

  function Grown(p: Params, rate: real, rounds: real): real {
    rate + p.additive * rounds
  }

  /** In proportion to how far a delay overshoots. */
  function BackedOff(p: Params, rate: real, sampleUs: real): real
    requires sampleUs > 0.0
  {
    rate * (1.0 - p.beta * (1.0 - p.highUs as real / sampleUs))
  }

  function Slowed(p: Params, rate: real, gradient: real): real {
    rate * (1.0 - p.beta * gradient)
  }

  function Gradient(avgUs: real, minUs: real): real {
    avgUs / (if minUs > 0.0 then minUs else 1.0)
  }

  function Smoothed(p: Params, avgUs: real, diffUs: real): real {
    (1.0 - p.alpha) * avgUs + p.alpha * diffUs
  }

  function Us(ns: int): real {
    ns as real / 1000.0
  }

  /** Where the rate goes, before it is clamped. avgUs is the smoothed change of delay. */
  function Steered(p: Params, rate: real, avgUs: real, minUs: real, sampleUs: real, rounds: real): real
    requires sampleUs > 0.0
  {
    if sampleUs < p.lowUs as real then Grown(p, rate, rounds)
    else if sampleUs > p.highUs as real then BackedOff(p, rate, sampleUs)
    else if Gradient(avgUs, minUs) <= 0.0 then Grown(p, rate, rounds)
    else Slowed(p, rate, Gradient(avgUs, minUs))
  }

  function Updated(p: Params, d: Dir, rtt: int, now: int): Dir {
    if rtt <= 0 then d
    else
      var least := if d.minDelay.None? || rtt < d.minDelay.value then rtt else d.minDelay.value;
      var d1 := d.(minDelay := Some(least));
      var d2 := d1.(lastUpdate := Some(now), prevDelay := Some(rtt));
      if d.prevDelay.None? then d2
      else
        var avg := Smoothed(p, d.avgDiffUs, Us(rtt - d.prevDelay.value));
        d2.(avgDiffUs := avg, rate := Clamp(p, Steered(p, d.rate, avg, Us(least), Us(rtt), Rounds(d1, now))))
  }

  class TimelyController {
    const p: Params
    var inflight: nat
    var rate: real
    var minDelay: Option<nat>
    var prevDelay: Option<nat>
    var avgDiffUs: real
    var nextSend: int
    var lastUpdate: Option<int>

    function View(): Dir
      reads this
    {
      Dir(inflight, rate, minDelay, prevDelay, avgDiffUs, nextSend, lastUpdate)
    }

    constructor (p: Params, now: int)
      ensures this.p == p && View() == Dir(0, p.additive * 10.0, None, None, 0.0, now, None)
    {
      this.p := p;
      inflight, rate, minDelay, prevDelay := 0, p.additive * 10.0, None, None;
      avgDiffUs, nextSend, lastUpdate := 0.0, now, None;
    }

    method WindowLocked() returns (w: nat)
      ensures w == Window(View())
    {
      var base := if minDelay == None then 1000000.0 else minDelay.value as real;
      var bytes := (rate * base / NS).Floor;
      w := if bytes < WINDOW_FLOOR then WINDOW_FLOOR else bytes;
    }

    method Allow(bytes: nat, now: int) returns (v: Verdict)
      ensures v == Judge(View(), bytes, now)
    {
      if now < nextSend { return Paced; }
      var window := WindowLocked();
      if inflight + bytes <= window { return Allowed; }
      if bytes > window && inflight == 0 { return Allowed; }
      v := OverBudget;
    }

    method OnPost(bytes: nat, now: int)
      requires rate > 0.0
      modifies this
      ensures View() == Posted(old(View()), bytes, now)
    {
      inflight := inflight + bytes;
      var seconds := bytes as real / rate;
      var gap := (seconds * NS).Floor;
      var base := if now > nextSend then now else nextSend;
      nextSend := base + gap;
    }

    method ReleaseLocked(bytes: nat)
      modifies this
      ensures View() == Released(old(View()), bytes)
    {
      inflight := inflight - (if bytes < inflight then bytes else inflight);
    }

    method OnError(bytes: nat)
      modifies this
      ensures View() == Released(old(View()), bytes)
    {
      ReleaseLocked(bytes);
    }

    method OnFeedback(bytes: nat, rtt: int, now: int)
      modifies this
      ensures View() == Updated(p, Released(old(View()), bytes), rtt, now)
    {
      ReleaseLocked(bytes);
      UpdateRate(rtt, now);
    }

    method UpdateRate(rtt: int, now: int)
      modifies this
      ensures View() == Updated(p, old(View()), rtt, now)
      ensures rtt <= 0 ==> View() == old(View())
      ensures rtt > 0 ==>
                && prevDelay == Some(rtt) && lastUpdate == Some(now)
                && minDelay == (if old(minDelay).Some? && old(minDelay).value <= rtt then old(minDelay) else Some(rtt))
                && (old(prevDelay).None? ==> rate == old(rate) && avgDiffUs == old(avgDiffUs))
    {
      hide Grown, BackedOff, Slowed, Gradient, Smoothed, Rounds, Us;
      UsPositive(rtt);
      if rtt <= 0 { return; }
      if minDelay == None || rtt < minDelay.value { minDelay := Some(rtt); }
      var rounds := Rounds(View(), now);
      lastUpdate := Some(now);
      var sampleUs := Us(rtt);
      if prevDelay == None {
        prevDelay := Some(rtt);
        return;
      }
      var diffUs := Us(rtt - prevDelay.value);
      prevDelay := Some(rtt);
      avgDiffUs := Smoothed(p, avgDiffUs, diffUs);
      var newRate := rate;
      if sampleUs < p.lowUs as real {
        newRate := Grown(p, newRate, rounds);
      } else if sampleUs > p.highUs as real {
        newRate := BackedOff(p, newRate, sampleUs);
      } else {
        var gradient := Gradient(avgDiffUs, Us(minDelay.value));
        if gradient <= 0.0 {
          newRate := Grown(p, newRate, rounds);
        } else {
          newRate := Slowed(p, newRate, gradient);
        }
      }
      if newRate < p.minRate { newRate := p.minRate; }
      if newRate > p.maxRate { newRate := p.maxRate; }
      rate := newRate;
    }
  }

  lemma UsPositive(ns: int)
    ensures ns > 0 <==> Us(ns) > 0.0
  {
  }

  // ---------------- how the rate reacts ----------------

  lemma GrowsOnly(p: Params, rate: real, rounds: real)
    requires Sane(p) && rounds >= 0.0
    ensures Grown(p, rate, rounds) >= rate
  {
    assert p.additive * rounds >= 0.0;
  }

  lemma Shrinks(rate: real, cut: real)
    requires rate >= 0.0 && cut >= 0.0
    ensures rate * (1.0 - cut) <= rate
  {
    assert rate * cut >= 0.0;
    assert rate * (1.0 - cut) == rate - rate * cut;
  }

  lemma BacksOff(p: Params, rate: real, sampleUs: real)
    requires Sane(p) && rate >= 0.0 && sampleUs > p.highUs as real && sampleUs > 0.0
    ensures BackedOff(p, rate, sampleUs) <= rate
  {
    var over := 1.0 - p.highUs as real / sampleUs;
    DivideDown(p.highUs as real, 1.0, sampleUs);
    assert p.beta * over >= 0.0;
    Shrinks(rate, p.beta * over);
  }

  lemma Slows(p: Params, rate: real, gradient: real)
    requires Sane(p) && rate >= 0.0 && gradient > 0.0
    ensures Slowed(p, rate, gradient) <= rate
  {
    assert p.beta * gradient >= 0.0;
    Shrinks(rate, p.beta * gradient);
  }

  ghost predicate InRange(p: Params, d: Dir) {
    p.minRate <= d.rate <= p.maxRate
  }

  /** An update that moves the rate leaves it in range wherever it was; below the low threshold it
      never falls, above the high one it never rises, and in between it goes with the sign of the
      smoothed gradient. A first sample, or none, changes no rate. */
  lemma Reaction(p: Params, d: Dir, rtt: int, now: int)
    requires Sane(p)
    ensures var e := Updated(p, d, rtt, now);
            && (rtt <= 0 || d.prevDelay.None? ==> e.rate == d.rate)
            && (rtt > 0 && d.prevDelay.Some? ==> InRange(p, e))
            && (InRange(p, d) ==> InRange(p, e))
            && (InRange(p, d) && rtt > 0 && Us(rtt) < p.lowUs as real ==> e.rate >= d.rate)
            && (InRange(p, d) && Us(rtt) >= p.lowUs as real && Us(rtt) > p.highUs as real ==> e.rate <= d.rate)
            && (InRange(p, d) && rtt > 0 && p.lowUs as real <= Us(rtt) <= p.highUs as real ==>
                  if e.minDelay.Some? && Gradient(e.avgDiffUs, Us(e.minDelay.value)) <= 0.0
                  then e.rate >= d.rate
                  else e.rate <= d.rate)
  {
    hide Grown, BackedOff, Slowed, Gradient, Smoothed, Rounds, Us;
    UsPositive(rtt);
    if rtt > 0 && d.prevDelay.Some? {
      var e := Updated(p, d, rtt, now);
      var rounds := Rounds(d.(minDelay := e.minDelay), now);
      GrowsOnly(p, d.rate, rounds);
      if d.rate >= 0.0 {
        if Us(rtt) > p.highUs as real {
          BacksOff(p, d.rate, Us(rtt));
        }
        var g := Gradient(e.avgDiffUs, Us(e.minDelay.value));
        if g > 0.0 {
          Slows(p, d.rate, g);
        }
      }
    }
  }

  /** The increase is per round trip: r is the time since the last update over the least delay, at
      most 64; one without an update before, none if the clock did not move on. */
  ghost predicate IsRounds(last: Option<int>, least: nat, now: int, r: real) {
    && (last.None? ==> r == 1.0)
    && (last.Some? && now <= last.value ==> r == 0.0)
    && (last.Some? && now > last.value && now - last.value >= 64 * least ==> r == 64.0)
    && (last.Some? && last.value < now < last.value + 64 * least ==> r == (now - last.value) as real / least as real)
  }

  lemma RoundsAre(d: Dir, now: int)
    requires d.minDelay.Some? && d.minDelay.value > 0
    ensures IsRounds(d.lastUpdate, d.minDelay.value, now, Rounds(d, now))
  {
    var m := d.minDelay.value as real;
    if d.lastUpdate.Some? && now > d.lastUpdate.value {
      var dt := (now - d.lastUpdate.value) as real;
      if dt >= 64.0 * m {
        assert dt / m >= 64.0 by { DivideUp(dt, 64.0, m); }
      } else {
        assert dt / m <= 64.0 by { DivideDown(dt, 64.0, m); }
      }
    }
  }

  lemma DivideUp(a: real, k: real, m: real)
    requires m > 0.0 && a >= k * m
    ensures a / m >= k
  {
    assert (a / m - k) * m == a - k * m;
  }

  lemma DivideDown(a: real, k: real, m: real)
    requires m > 0.0 && a < k * m
    ensures a / m <= k
  {
    assert (k - a / m) * m == k * m - a;
  }

  ghost predicate IsClamped(p: Params, x: real, rate: real) {
    && (x < p.minRate ==> rate == p.minRate)
    && (x > p.maxRate ==> rate == p.maxRate)
    && (p.minRate <= x <= p.maxRate ==> rate == x)
  }

  /** What a sample leaves behind. Delays are nanoseconds, averages microseconds. */
  lemma SampleIsRemembered(p: Params, d: Dir, rtt: int, now: int)
    ensures rtt <= 0 ==> Updated(p, d, rtt, now) == d
    ensures rtt > 0 ==>
              var e := Updated(p, d, rtt, now);
              && e.inflight == d.inflight && e.nextSend == d.nextSend
              && e.prevDelay == Some(rtt) && e.lastUpdate == Some(now) && e.minDelay.Some?
              && e.minDelay.value == (if d.minDelay.Some? && d.minDelay.value <= rtt then d.minDelay.value else rtt)
              && (d.prevDelay.None? ==> e.rate == d.rate && e.avgDiffUs == d.avgDiffUs)
              && (d.prevDelay.Some? ==>
                    e.avgDiffUs ==
                    (1.0 - p.alpha) * d.avgDiffUs + p.alpha * ((rtt - d.prevDelay.value) as real / 1000.0))
  {
    hide Steered, Rounds, Clamp;
  }

  lemma UsOrder(ns: int, us: nat)
    ensures Us(ns) < us as real <==> ns < 1000 * us
    ensures Us(ns) > us as real <==> ns > 1000 * us
  {
  }

  lemma GradientSign(avg: real, ns: nat)
    requires ns > 0
    ensures Gradient(avg, Us(ns)) == avg / (ns as real / 1000.0)
    ensures Gradient(avg, Us(ns)) <= 0.0 <==> avg <= 0.0
  {
    var m := ns as real / 1000.0;
    assert avg / m * m == avg;
  }

  lemma Clamps(p: Params, x: real)
    requires Sane(p)
    ensures IsClamped(p, x, Clamp(p, x))
  {
  }

  /** Below the low threshold, or up to the high one while the delay does not rise, the rate gains the
      increment once for each round trip since the last sample. */
  lemma RateGrows(p: Params, d: Dir, rtt: int, now: int) returns (r: real)
    requires Sane(p) && rtt > 0 && d.prevDelay.Some? && (d.minDelay.Some? ==> d.minDelay.value > 0)
    requires rtt < 1000 * p.lowUs || (rtt <= 1000 * p.highUs && Updated(p, d, rtt, now).avgDiffUs <= 0.0)
    ensures var e := Updated(p, d, rtt, now);
            && e.minDelay.Some? && IsRounds(d.lastUpdate, e.minDelay.value, now, r)
            && IsClamped(p, d.rate + p.additive * r, e.rate)
  {
    hide *;
    var e := Updated(p, d, rtt, now);
    SampleIsRemembered(p, d, rtt, now);
    Steers(p, d, rtt, now);
    var d1 := d.(minDelay := e.minDelay);
    r := Rounds(d1, now);
    RoundsAre(d1, now);
    UsOrder(rtt, p.lowUs);
    UsOrder(rtt, p.highUs);
    GradientSign(e.avgDiffUs, e.minDelay.value);
    SteersUp(p, d.rate, e.avgDiffUs, Us(e.minDelay.value), Us(rtt), r);
    Clamps(p, d.rate + p.additive * r);
  }

  lemma Steers(p: Params, d: Dir, rtt: int, now: int)
    requires rtt > 0 && d.prevDelay.Some?
    ensures var e := Updated(p, d, rtt, now);
            && Us(rtt) > 0.0 && e.minDelay.Some?
            && e.rate == Clamp(p, Steered(p, d.rate, e.avgDiffUs, Us(e.minDelay.value), Us(rtt),
                                          Rounds(d.(minDelay := e.minDelay), now)))
  {
    UsPositive(rtt);
    hide Rounds, Steered, Clamp, Smoothed, Us;
  }

  lemma SteersUp(p: Params, rate: real, avgUs: real, minUs: real, sampleUs: real, r: real)
    requires sampleUs > 0.0
    requires sampleUs < p.lowUs as real || (sampleUs <= p.highUs as real && Gradient(avgUs, minUs) <= 0.0)
    ensures Steered(p, rate, avgUs, minUs, sampleUs, r) == rate + p.additive * r
  {
    hide Gradient;
  }

  /** Above the high threshold it loses in proportion to how far the delay overshoots. */
  lemma RateBacksOff(p: Params, d: Dir, rtt: int, now: int) returns (x: real)
    requires Sane(p) && d.prevDelay.Some? && rtt > 0 && rtt >= 1000 * p.lowUs && rtt > 1000 * p.highUs
    ensures x == d.rate * (1.0 - p.beta * (1.0 - p.highUs as real / (rtt as real / 1000.0)))
    ensures IsClamped(p, x, Updated(p, d, rtt, now).rate)
  {
    hide *;
    var e := Updated(p, d, rtt, now);
    Steers(p, d, rtt, now);
    UsOrder(rtt, p.lowUs);
    UsOrder(rtt, p.highUs);
    var m, r := Us(e.minDelay.value), Rounds(d.(minDelay := e.minDelay), now);
    x := SteersDown(p, d.rate, e.avgDiffUs, m, rtt, r);
    Clamps(p, x);
  }

  lemma SteersDown(p: Params, rate: real, avgUs: real, minUs: real, rtt: int, r: real) returns (x: real)
    requires rtt > 0 && Us(rtt) > 0.0 && Us(rtt) >= p.lowUs as real && Us(rtt) > p.highUs as real
    ensures x == rate * (1.0 - p.beta * (1.0 - p.highUs as real / (rtt as real / 1000.0)))
    ensures Steered(p, rate, avgUs, minUs, Us(rtt), r) == x
  {
    hide Grown, Slowed, Gradient;
    x := rate * (1.0 - p.beta * (1.0 - p.highUs as real / (rtt as real / 1000.0)));
  }

  /** Between the thresholds, while the delay rises, it loses in proportion to the rise over the least
      delay. */
  lemma RateSlows(p: Params, d: Dir, rtt: int, now: int) returns (x: real)
    requires Sane(p) && d.prevDelay.Some? && rtt > 0 && (d.minDelay.Some? ==> d.minDelay.value > 0)
    requires 1000 * p.lowUs <= rtt <= 1000 * p.highUs && Updated(p, d, rtt, now).avgDiffUs > 0.0
    ensures var e := Updated(p, d, rtt, now);
            && e.minDelay.Some? && e.minDelay.value > 0 && IsClamped(p, x, e.rate)
            && x == d.rate * (1.0 - p.beta * (e.avgDiffUs / (e.minDelay.value as real / 1000.0)))
  {
    hide *;
    var e := Updated(p, d, rtt, now);
    SampleIsRemembered(p, d, rtt, now);
    Steers(p, d, rtt, now);
    UsOrder(rtt, p.lowUs);
    UsOrder(rtt, p.highUs);
    GradientSign(e.avgDiffUs, e.minDelay.value);
    var r := Rounds(d.(minDelay := e.minDelay), now);
    x := SteersSlower(p, d.rate, e.avgDiffUs, e.minDelay.value, Us(rtt), r);
    Clamps(p, x);
  }

  lemma SteersSlower(p: Params, rate: real, avgUs: real, least: nat, sampleUs: real, r: real) returns (x: real)
    requires sampleUs > 0.0 && p.lowUs as real <= sampleUs <= p.highUs as real && least > 0 && avgUs > 0.0
    ensures x == rate * (1.0 - p.beta * (avgUs / (least as real / 1000.0)))
    ensures Steered(p, rate, avgUs, Us(least), sampleUs, r) == x
  {
    GradientSign(avgUs, least);
    hide Gradient, Us, Grown, BackedOff;
    var g := avgUs / (least as real / 1000.0);
    x := rate * (1.0 - p.beta * g);
  }

  // ---------------- over any run ----------------

  /** A claim, or the end of the i-th one still outstanding. Claims need not have been allowed. */
  datatype Step = Post(bytes: nat, now: int) | Feedback(i: nat, rtt: int, now: int) | Failure(i: nat)

  /** since is when the first post was made; sent and posts count what was posted; claimed is what
      is outstanding. */
  datatype Run = Run(d: Dir, since: Option<int>, sent: nat, posts: nat, claimed: seq<nat>)

  ghost predicate Enabled(r: Run, s: Step) {
    r.d.rate > 0.0 &&
    match s
    case Post(_, _) => true
    case Feedback(i, _, _) => i < |r.claimed|
    case Failure(i) => i < |r.claimed|
  }

  function Without(s: seq<nat>, i: nat): seq<nat>
    requires i < |s|
  {
    s[..i] + s[i + 1..]
  }

  ghost function Do(p: Params, r: Run, s: Step): Run
    requires Enabled(r, s)
  {
    match s
    case Post(bytes, now) =>
      Run(Posted(r.d, bytes, now), if r.since.None? then Some(now) else r.since, r.sent + bytes, r.posts + 1,
          r.claimed + [bytes])
    case Feedback(i, rtt, now) =>
      r.(d := Updated(p, Released(r.d, r.claimed[i]), rtt, now), claimed := Without(r.claimed, i))
    case Failure(i) => r.(d := Released(r.d, r.claimed[i]), claimed := Without(r.claimed, i))
  }

  /** The bytes posted so far take until the next send time at the highest rate, up to a
      nanosecond lost per post. */
  ghost predicate PacedUpTo(p: Params, r: Run, when: int) {
    r.since.Some? && r.sent as real * NS <= p.maxRate * (when - r.since.value + r.posts) as real
  }

  ghost predicate Inv(p: Params, r: Run) {
    && InRange(p, r.d)
    && (r.since.None? ==> r.sent == 0 && r.posts == 0)
    && (r.since.Some? ==> PacedUpTo(p, r, r.d.nextSend))
    && r.d.inflight == C.Sum(r.claimed)
  }

  lemma GapCovers(p: Params, bytes: nat, rate: real)
    requires Sane(p) && p.minRate <= rate <= p.maxRate
    ensures bytes as real * NS <= p.maxRate * (Gap(bytes, rate) + 1) as real && Gap(bytes, rate) >= 0
  {
    var t := bytes as real / rate * NS;
    var g := Gap(bytes, rate);
    assert t >= 0.0;
    assert g as real <= t < g as real + 1.0;
    assert g >= 0;
    assert (g + 1) as real == g as real + 1.0;
    assert t * rate == bytes as real * NS;
    Covers(bytes as real * NS, rate, p.maxRate, t, (g + 1) as real);
  }

  lemma Covers(b: real, rate: real, max: real, t: real, g: real)
    requires t * rate == b && 0.0 <= t <= g && 0.0 < rate <= max
    ensures b <= max * g
  {
    assert t * rate <= g * rate;
    assert g * rate <= g * max;
  }

  lemma AddTime(max: real, sent: nat, t: int, bytes: nat, g: int)
    requires max > 0.0 && sent as real * NS <= max * t as real && bytes as real * NS <= max * g as real
    ensures (sent + bytes) as real * NS <= max * (t + g) as real
  {
    assert (sent + bytes) as real * NS == sent as real * NS + bytes as real * NS;
    assert max * (t + g) as real == max * t as real + max * g as real;
  }

  lemma LaterIsFine(max: real, sent: nat, t: int, t': int)
    requires max > 0.0 && sent as real * NS <= max * t as real && t <= t'
    ensures sent as real * NS <= max * t' as real
  {
    assert max * (t' - t) as real >= 0.0;
    assert max * t' as real == max * t as real + max * (t' - t) as real;
  }

  lemma PostPaced(p: Params, r: Run, bytes: nat, now: int)
    requires Sane(p) && InRange(p, r.d)
    requires if r.since.Some? then PacedUpTo(p, r, r.d.nextSend) else r.sent == 0 && r.posts == 0
    ensures var e := Do(p, r, Post(bytes, now)); PacedUpTo(p, e, e.d.nextSend)
  {
    hide Gap;
    var e := Do(p, r, Post(bytes, now));
    var g := Gap(bytes, r.d.rate);
    GapCovers(p, bytes, r.d.rate);
    var since := e.since.value;
    var t := if r.since.Some? then r.d.nextSend - since + r.posts else 0;
    assert e.d.nextSend - since + e.posts >= t + (g + 1);
    PacedMore(p, r.sent, t, bytes, g, e.d.nextSend - since + e.posts);
  }

  lemma PacedMore(p: Params, sent: nat, t: int, bytes: nat, g: int, t': int)
    requires Sane(p) && sent as real * NS <= p.maxRate * t as real
    requires bytes as real * NS <= p.maxRate * (g + 1) as real && t + (g + 1) <= t'
    ensures (sent + bytes) as real * NS <= p.maxRate * t' as real
  {
    AddTime(p.maxRate, sent, t, bytes, g + 1);
    LaterIsFine(p.maxRate, sent + bytes, t + (g + 1), t');
  }

  lemma PostKeeps(p: Params, r: Run, bytes: nat, now: int)
    requires Sane(p) && Inv(p, r)
    ensures Inv(p, Do(p, r, Post(bytes, now)))
  {
    hide Gap, C.Sum, PacedUpTo;
    PostPaced(p, r, bytes, now);
    C.SumAppend(r.claimed, bytes);
  }

  lemma StepKeeps(p: Params, r: Run, s: Step)
    requires Sane(p) && Inv(p, r) && Enabled(r, s)
    ensures Inv(p, Do(p, r, s))
  {
    hide PacedUpTo, Posted, Gradient, Us, C.Sum, Updated;
    match s
    case Post(bytes, now) => PostKeeps(p, r, bytes, now);
    case Feedback(i, rtt, now) =>
      Reaction(p, Released(r.d, r.claimed[i]), rtt, now);
      PacingUntouched(p, r, s);
      C.SumRemove(r.claimed, i);
    case Failure(i) =>
      PacingUntouched(p, r, s);
      C.SumRemove(r.claimed, i);
  }

  lemma PacingUntouched(p: Params, r: Run, s: Step)
    requires Enabled(r, s) && !s.Post?
    ensures var e := Do(p, r, s);
            && e.d.nextSend == r.d.nextSend && e.since == r.since && e.sent == r.sent && e.posts == r.posts
            && e.d.inflight == Released(r.d, r.claimed[s.i]).inflight
            && (PacedUpTo(p, r, r.d.nextSend) ==> PacedUpTo(p, e, e.d.nextSend))
  {
    hide Clamp, Steered, Smoothed, Rounds, Us;
  }

  ghost predicate CanRun(p: Params, r: Run, steps: seq<Step>)
    decreases |steps|
  {
    steps == [] || (Enabled(r, steps[0]) && CanRun(p, Do(p, r, steps[0]), steps[1..]))
  }

  ghost function After(p: Params, r: Run, steps: seq<Step>): Run
    requires CanRun(p, r, steps)
    decreases |steps|
  {
    if steps == [] then r else After(p, Do(p, r, steps[0]), steps[1..])
  }

  lemma {:induction false} RunKeeps(p: Params, r: Run, steps: seq<Step>)
    requires Sane(p) && Inv(p, r) && CanRun(p, r, steps)
    ensures Inv(p, After(p, r, steps))
    decreases |steps|
  {
    hide Inv, Do, Enabled;
    if steps != [] {
      StepKeeps(p, r, steps[0]);
      RunKeeps(p, Do(p, r, steps[0]), steps[1..]);
    }
  }

  function Fresh(p: Params, now: int): Run {
    Run(Dir(0, p.additive * 10.0, None, None, 0.0, now, None), None, 0, 0, [])
  }

  lemma FreshInv(p: Params, now: int)
    requires Sane(p) && p.minRate <= p.additive * 10.0 <= p.maxRate
    ensures Inv(p, Fresh(p, now))
  {
  }

  // ---------------- what a run remembers ----------------

  function SampleOf(s: Step): seq<nat> {
    if s.Feedback? && s.rtt > 0 then [s.rtt] else []
  }

  /** The delays measured, in order. */
  function Samples(steps: seq<Step>): seq<nat> {
    if steps == [] then [] else SampleOf(steps[0]) + Samples(steps[1..])
  }

  /** The differences of successive samples, in microseconds, each weighing alpha against all before. */
  function Average(alpha: real, ss: seq<nat>): real {
    if |ss| < 2 then 0.0
    else
      var n := |ss| - 1;
      (1.0 - alpha) * Average(alpha, ss[..n]) + alpha * ((ss[n] as int - ss[n - 1] as int) as real / 1000.0)
  }

  predicate IsLeast(least: Option<nat>, ss: seq<nat>) {
    if ss == [] then least.None? else least.Some? && least.value in ss && forall x :: x in ss ==> least.value <= x
  }

  ghost predicate Remembers(p: Params, d: Dir, ss: seq<nat>) {
    && (forall x :: x in ss ==> x > 0)
    && IsLeast(d.minDelay, ss) && d.avgDiffUs == Average(p.alpha, ss)
    && d.prevDelay == if ss == [] then None else Some(ss[|ss| - 1])
  }

  lemma AverageNext(alpha: real, ss: seq<nat>, x: nat)
    ensures Average(alpha, ss + [x]) ==
            if ss == [] then 0.0
            else (1.0 - alpha) * Average(alpha, ss) + alpha * ((x as int - ss[|ss| - 1] as int) as real / 1000.0)
  {
    assert (ss + [x])[..|ss|] == ss;
  }

  lemma LeastNext(least: Option<nat>, ss: seq<nat>, x: nat)
    requires IsLeast(least, ss)
    ensures IsLeast(Some(if least.Some? && least.value <= x then least.value else x), ss + [x])
  {
    forall y | y in ss + [x] ensures y in ss || y == x {
    }
    assert (ss + [x])[|ss|] == x;
  }

  lemma RemembersNext(p: Params, d: Dir, ss: seq<nat>, rtt: int, now: int)
    requires Remembers(p, d, ss) && rtt > 0
    ensures Remembers(p, Updated(p, d, rtt, now), ss + [rtt])
  {
    SampleIsRemembered(p, d, rtt, now);
    AverageNext(p.alpha, ss, rtt);
    LeastNext(d.minDelay, ss, rtt);
    hide Updated, Average, IsLeast;
  }

  lemma RemembersStep(p: Params, r: Run, ss: seq<nat>, s: Step)
    requires Remembers(p, r.d, ss) && Enabled(r, s)
    ensures Remembers(p, Do(p, r, s).d, ss + SampleOf(s))
  {
    hide Gap, Average, IsLeast, Updated;
    assert ss + [] == ss;
    if s.Feedback? {
      var d := Released(r.d, r.claimed[s.i]);
      if s.rtt > 0 {
        RemembersNext(p, d, ss, s.rtt, s.now);
      } else {
        SampleIsRemembered(p, d, s.rtt, s.now);
      }
    }
  }

  lemma {:induction false} RunRemembers(p: Params, r: Run, ss: seq<nat>, steps: seq<Step>)
    requires Remembers(p, r.d, ss) && CanRun(p, r, steps)
    ensures Remembers(p, After(p, r, steps).d, ss + Samples(steps))
    decreases |steps|
  {
    hide Remembers, Enabled, Do;
    if steps == [] {
      assert ss + [] == ss;
    } else {
      RemembersStep(p, r, ss, steps[0]);
      RunRemembers(p, Do(p, r, steps[0]), ss + SampleOf(steps[0]), steps[1..]);
      assert (ss + SampleOf(steps[0])) + Samples(steps[1..]) == ss + Samples(steps);
    }
  }

  /** Over any run the least delay is the least of the positive samples, and the average is that of
      their successive differences. */
  lemma SamplesAreRemembered(p: Params, start: int, steps: seq<Step>)
    requires CanRun(p, Fresh(p, start), steps)
    ensures var e, ss := After(p, Fresh(p, start), steps).d, Samples(steps);
            && IsLeast(e.minDelay, ss) && e.avgDiffUs == Average(p.alpha, ss)
            && e.prevDelay == (if ss == [] then None else Some(ss[|ss| - 1]))
  {
    RunRemembers(p, Fresh(p, start), [], steps);
    assert [] + Samples(steps) == Samples(steps);
    hide CanRun, After, Samples, Average, IsLeast;
  }

  /** The window is what the rate moves in the least delay, a millisecond without one, in whole bytes
      and never below 64 KiB. */
  lemma WindowMeans(d: Dir) returns (bytes: real)
    ensures bytes == d.rate * (if d.minDelay.Some? then d.minDelay.value as real else 1000000.0) / 1000000000.0
    ensures if bytes < 65536.0 then Window(d) == 65536 else Window(d) as real <= bytes < (Window(d) + 1) as real
  {
    var base := if d.minDelay.Some? then d.minDelay.value as real else 1000000.0;
    bytes := d.rate * base / 1000000000.0;
    FloorIs(bytes);
  }

  lemma FloorIs(x: real)
    ensures x.Floor as real <= x < (x.Floor + 1) as real
    ensures x < 65536.0 <==> x.Floor < 65536
  {
  }

  // ---------------- ramping up ----------------

  /** Every sample lies between the least delay m and the low threshold, and each comes one least
      delay after the one before, the first after t. */
  predicate Steady(steps: seq<Step>, m: nat, lowUs: nat, t: int)
    decreases |steps|
  {
    steps == [] ||
    (if steps[0].Feedback? then
       m <= steps[0].rtt < 1000 * lowUs && steps[0].now == t + m && Steady(steps[1..], m, lowUs, t + m)
     else Steady(steps[1..], m, lowUs, t))
  }

  function Feedbacks(steps: seq<Step>): nat {
    if steps == [] then 0 else (if steps[0].Feedback? then 1 else 0) + Feedbacks(steps[1..])
  }

  function Capped(rate: real, max: real): real {
    if rate > max then max else rate
  }

  ghost predicate Ready(p: Params, d: Dir, m: nat, t: int) {
    InRange(p, d) && d.minDelay == Some(m) && d.prevDelay.Some? && d.lastUpdate == Some(t)
  }

  lemma OneRoundUp(p: Params, d: Dir, m: nat, t: int, rtt: int)
    requires Sane(p) && Ready(p, d, m, t) && m > 0 && m <= rtt < 1000 * p.lowUs
    ensures var e := Updated(p, d, rtt, t + m);
            Ready(p, e, m, t + m) && e.rate == Capped(d.rate + p.additive, p.maxRate)
  {
    SampleIsRemembered(p, d, rtt, t + m);
    var r := RateGrows(p, d, rtt, t + m);
    OneRound(m, t, r);
    assert p.additive * r == p.additive;
    hide Updated;
  }

  lemma OneRound(m: nat, t: int, r: real)
    requires m > 0 && IsRounds(Some(t), m, t + m, r)
    ensures r == 1.0
  {
    RoundsOver(t, m, m, r);
    hide *;
    WholeOnce(m as real);
  }

  lemma RoundsOver(t: int, m: nat, dt: nat, r: real)
    requires 0 < dt < 64 * m && IsRounds(Some(t), m, t + dt, r)
    ensures r == dt as real / m as real
  {
    assert t + dt - t == dt;
  }

  lemma WholeOnce(m: real)
    requires m > 0.0
    ensures m / m == 1.0
  {
  }

  lemma QuietSteps(p: Params, r: Run, s: Step, m: nat, t: int)
    requires Enabled(r, s) && !s.Feedback? && Ready(p, r.d, m, t)
    ensures Ready(p, Do(p, r, s).d, m, t) && Do(p, r, s).d.rate == r.d.rate
  {
    hide Gap;
  }

  lemma RoundUp(p: Params, r: Run, s: Step, m: nat, t: int)
    requires Sane(p) && Enabled(r, s) && s.Feedback? && Ready(p, r.d, m, t) && m > 0
    requires m <= s.rtt < 1000 * p.lowUs && s.now == t + m
    ensures Ready(p, Do(p, r, s).d, m, t + m) && Do(p, r, s).d.rate == Capped(r.d.rate + p.additive, p.maxRate)
  {
    hide Updated;
    OneRoundUp(p, Released(r.d, r.claimed[s.i]), m, t, s.rtt);
  }

  function Gain(a: real, n: nat): real {
    a * n as real
  }

  lemma {:induction false} RampsUpBy(p: Params, r: Run, steps: seq<Step>, m: nat, t: int)
    requires Sane(p) && CanRun(p, r, steps) && Ready(p, r.d, m, t) && m > 0 && Steady(steps, m, p.lowUs, t)
    ensures After(p, r, steps).d.rate == Capped(r.d.rate + Gain(p.additive, Feedbacks(steps)), p.maxRate)
    decreases |steps|
  {
    hide Enabled, Do, Ready, Gain, Capped;
    if steps == [] {
      ReadyInRange(p, r.d, m, t);
    } else if steps[0].Feedback? {
      RoundUp(p, r, steps[0], m, t);
      RampsUpBy(p, Do(p, r, steps[0]), steps[1..], m, t + m);
      CapsAddUp(r.d.rate, p.additive, Feedbacks(steps[1..]), p.maxRate);
    } else {
      QuietSteps(p, r, steps[0], m, t);
      RampsUpBy(p, Do(p, r, steps[0]), steps[1..], m, t);
    }
  }

  /** With every sample below the low threshold and one least delay apart, n of them raise the rate by
      n increments, up to the highest rate, whatever is posted or fails in between. */
  lemma RampsUp(p: Params, r: Run, steps: seq<Step>, m: nat, t: int) returns (x: real)
    requires Sane(p) && CanRun(p, r, steps) && Ready(p, r.d, m, t) && m > 0 && Steady(steps, m, p.lowUs, t)
    ensures x == r.d.rate + p.additive * Feedbacks(steps) as real
    ensures After(p, r, steps).d.rate == if x > p.maxRate then p.maxRate else x
  {
    hide *;
    RampsUpBy(p, r, steps, m, t);
    x := CappedIs(r.d.rate, p.additive, Feedbacks(steps), p.maxRate);
  }

  lemma CappedIs(rate: real, a: real, n: nat, max: real) returns (x: real)
    ensures x == rate + a * n as real
    ensures Capped(rate + Gain(a, n), max) == if x > max then max else x
  {
    x := rate + Gain(a, n);
  }

  lemma ReadyInRange(p: Params, d: Dir, m: nat, t: int)
    requires Ready(p, d, m, t)
    ensures Capped(d.rate + Gain(p.additive, 0), p.maxRate) == d.rate
  {
    assert p.additive * 0.0 == 0.0;
  }

  lemma CapsAddUp(rate: real, a: real, n: nat, max: real)
    requires a >= 0.0
    ensures Capped(Capped(rate + a, max) + Gain(a, n), max) == Capped(rate + Gain(a, 1 + n), max)
  {
    assert a * (1 + n) as real == a + a * n as real;
    assert a * n as real >= 0.0;
  }

  // ---------------- pacing ----------------

  /** A post claims its bytes and moves the next send time on, from now or from where it was, by the
      nanoseconds they take at the rate. */
  lemma PostIs(d: Dir, bytes: nat, now: int)
    requires d.rate > 0.0
    ensures var e := Posted(d, bytes, now);
            var gap := e.nextSend - (if now > d.nextSend then now else d.nextSend);
            && gap as real <= bytes as real / d.rate * 1000000000.0 < (gap + 1) as real
            && e == d.(inflight := d.inflight + bytes, nextSend := e.nextSend)
  {
  }

  /** The latest time anything was posted, from start on. */
  function Latest(start: int, steps: seq<Step>): int
    decreases |steps|
  {
    if steps == [] then start
    else Latest(if steps[0].Post? && steps[0].now > start then steps[0].now else start, steps[1..])
  }

  ghost predicate HeldAtMost(p: Params, r: Run, latest: int) {
    p.minRate * (r.d.nextSend - latest) as real <= r.sent as real * NS
  }

  lemma GapAtMost(p: Params, bytes: nat, rate: real)
    requires Sane(p) && p.minRate <= rate
    ensures p.minRate * Gap(bytes, rate) as real <= bytes as real * NS
  {
    var t := bytes as real / rate * NS;
    var g := Gap(bytes, rate);
    assert t * rate == bytes as real * NS;
    assert g as real <= t && t >= 0.0;
    assert p.minRate * g as real <= p.minRate * t;
    assert p.minRate * t <= rate * t;
  }

  lemma HeldStep(p: Params, r: Run, s: Step, latest: int)
    requires Sane(p) && InRange(p, r.d) && Enabled(r, s) && HeldAtMost(p, r, latest)
    ensures HeldAtMost(p, Do(p, r, s), if s.Post? && s.now > latest then s.now else latest)
  {
    hide Gap, NS, Updated;
    if s.Post? {
      var g := Gap(s.bytes, r.d.rate);
      GapAtMost(p, s.bytes, r.d.rate);
      var latest' := if s.now > latest then s.now else latest;
      var e := Do(p, r, s);
      HeldMore(p.minRate, r.d.nextSend - latest, r.sent, e.d.nextSend - latest' - g, g, s.bytes);
      assert e.d.nextSend - latest' == (e.d.nextSend - latest' - g) + g;
    } else {
      PacingUntouched(p, r, s);
    }
  }

  lemma HeldMore(min: real, held: int, sent: nat, x: int, g: int, bytes: nat)
    requires min > 0.0 && min * held as real <= sent as real * NS && min * g as real <= bytes as real * NS
    requires x <= held || x <= 0
    ensures min * (x + g) as real <= (sent + bytes) as real * NS
  {
    assert min * (x + g) as real == min * x as real + min * g as real;
    assert (sent + bytes) as real * NS == sent as real * NS + bytes as real * NS;
    if x <= held {
      assert min * x as real <= min * held as real;
    } else {
      assert min * x as real <= 0.0;
    }
  }

  lemma {:induction false} RunHeld(p: Params, r: Run, steps: seq<Step>, latest: int)
    requires Sane(p) && Inv(p, r) && CanRun(p, r, steps) && HeldAtMost(p, r, latest)
    ensures HeldAtMost(p, After(p, r, steps), Latest(latest, steps))
    decreases |steps|
  {
    hide HeldAtMost, Enabled, Do, PacedUpTo, C.Sum;
    if steps != [] {
      StepKeeps(p, r, steps[0]);
      HeldStep(p, r, steps[0], latest);
      var now := if steps[0].Post? && steps[0].now > latest then steps[0].now else latest;
      RunHeld(p, Do(p, r, steps[0]), steps[1..], now);
    }
  }

  /** Pacing never holds a post back for longer than everything posted so far takes at the lowest rate,
      counted from the last post. */
  lemma PacingLetsGo(p: Params, start: int, steps: seq<Step>)
    requires Sane(p) && p.minRate <= p.additive * 10.0 <= p.maxRate && CanRun(p, Fresh(p, start), steps)
    ensures var e := After(p, Fresh(p, start), steps);
            p.minRate * (e.d.nextSend - Latest(start, steps)) as real <= e.sent as real * NS
  {
    hide *;
    FreshInv(p, start);
    FreshHeld(p, start);
    RunHeld(p, Fresh(p, start), steps, start);
    HeldMeans(p, After(p, Fresh(p, start), steps), Latest(start, steps));
  }

  lemma FreshHeld(p: Params, start: int)
    ensures HeldAtMost(p, Fresh(p, start), start)
  {
    assert p.minRate * 0.0 == 0.0;
  }

  lemma HeldMeans(p: Params, r: Run, latest: int)
    requires HeldAtMost(p, r, latest)
    ensures p.minRate * (r.d.nextSend - latest) as real <= r.sent as real * NS
  {
  }

  /** From a start in range the rate stays there for good; the window never closes; and whenever a
      post is allowed, everything posted before it fits the highest rate over the time since the
      first post, but for a nanosecond each. */
  lemma PacingHolds(p: Params, start: int, steps: seq<Step>, bytes: nat, now: int)
    requires Sane(p) && p.minRate <= p.additive * 10.0 <= p.maxRate && CanRun(p, Fresh(p, start), steps)
    ensures var e := After(p, Fresh(p, start), steps);
            && InRange(p, e.d) && Window(e.d) >= WINDOW_FLOOR
            && (Judge(e.d, bytes, now) == Allowed && e.since.Some? ==> PacedUpTo(p, e, now))
  {
    FreshInv(p, start);
    RunKeeps(p, Fresh(p, start), steps);
    var e := After(p, Fresh(p, start), steps);
    if Judge(e.d, bytes, now) == Allowed && e.since.Some? {
      LaterIsFine(p.maxRate, e.sent, e.d.nextSend - e.since.value + e.posts, now - e.since.value + e.posts);
    }
  }

  /** The default parameters start in range. */
  lemma DefaultsStartInRange()
    ensures Sane(DEFAULTS) && DEFAULTS.minRate <= DEFAULTS.additive * 10.0 <= DEFAULTS.maxRate
  {
  }

  /** Over any run of claims, feedback and failures the counter is exactly what is outstanding, and a
      post is allowed exactly if its time has come and what is outstanding with it fits the window
      of that moment, or nothing is outstanding before it. */
  lemma WindowHolds(p: Params, start: int, steps: seq<Step>, bytes: nat, now: int)
    requires Sane(p) && p.minRate <= p.additive * 10.0 <= p.maxRate && CanRun(p, Fresh(p, start), steps)
    ensures var e := After(p, Fresh(p, start), steps);
            && e.d.inflight == C.Sum(e.claimed)
            && (Judge(e.d, bytes, now) == Allowed <==>
                  now >= e.d.nextSend && (C.Sum(e.claimed + [bytes]) <= Window(e.d) || C.Sum(e.claimed) == 0))
            && (Judge(e.d, bytes, now) == Paced <==> now < e.d.nextSend)
  {
    FreshInv(p, start);
    RunKeeps(p, Fresh(p, start), steps);
    C.SumAppend(After(p, Fresh(p, start), steps).claimed, bytes);
    hide Window, C.Sum;
  }
}
