/** Reusing registrations. A registration lives as long as anything refers to it - a handle, the
    cache, or a thread on its way to making a handle or clearing what it evicted - and its keys go
    back to the providers when the last reference does. Steps are lock holds and single reference
    drops. */
module RegCache {
  const REMOTE: bv32 := 12 // read 4, write 8

  datatype Want = Want(addr: nat, length: nat, device: nat, access: bv32)

  datatype Reg = Reg(base: nat, length: nat, device: nat, access: bv32, keys: seq<nat>)

  function Covers(r: Reg, w: Want): bool {
    && r.device == w.device
    && w.access & !r.access == 0
    && w.access & REMOTE == r.access & REMOTE
    && r.base <= w.addr
    && w.addr - r.base <= r.length
    && w.length <= r.length - (w.addr - r.base)
  }

  /** right is one access flag. */
  predicate Grants(access: bv32, right: bv32) {
    access & right != 0
  }

  /** Covering is: the same device, every byte inside, every right asked for held, and a peer able to
      do exactly what was asked for. */
  lemma CoversIff(r: Reg, w: Want)
    requires w.access <= 15 && r.access <= 15
    ensures Covers(r, w) <==>
              && r.device == w.device && r.base <= w.addr && w.addr + w.length <= r.base + r.length
              && (Grants(w.access, 1) ==> Grants(r.access, 1)) && (Grants(w.access, 2) ==> Grants(r.access, 2))
              && (Grants(w.access, 4) <==> Grants(r.access, 4)) && (Grants(w.access, 8) <==> Grants(r.access, 8))
  {
    RightsIff(w.access, r.access);
  }

  lemma RightsIff(w: bv32, h: bv32)
    requires w <= 15 && h <= 15
    ensures w & !h == 0 && w & REMOTE == h & REMOTE <==>
              && (Grants(w, 1) ==> Grants(h, 1)) && (Grants(w, 2) ==> Grants(h, 2))
              && (Grants(w, 4) <==> Grants(h, 4)) && (Grants(w, 8) <==> Grants(h, 8))
  {
  }

  /** Whatever other flags there are, covering means that. */
  lemma CoversMeans(r: Reg, w: Want, right: bv32)
    requires Covers(r, w)
    ensures r.device == w.device && r.base <= w.addr && w.addr + w.length <= r.base + r.length
    ensures Grants(w.access, right) && (right == 1 || right == 2 || right == 4 || right == 8) ==>
            Grants(r.access, right)
    ensures right == 4 || right == 8 ==> (Grants(w.access, right) <==> Grants(r.access, right))
  {
    RightsMean(w.access, r.access, right);
  }

  lemma RightsMean(w: bv32, h: bv32, right: bv32)
    requires w & !h == 0 && w & REMOTE == h & REMOTE
    ensures Grants(w, right) && (right == 1 || right == 2 || right == 4 || right == 8) ==> Grants(h, right)
    ensures right == 4 || right == 8 ==> (Grants(w, right) <==> Grants(h, right))
  {
  }

  /** What refers to a registration. created: made by this thread and not cached yet. */
  datatype Kind = InCache | InHand(want: Want, created: bool) | Doomed | InHandle(want: Want)

  datatype Ref = Ref(reg: nat, kind: Kind)

  datatype State = State(
    regs: map<nat, Reg>,       // every registration ever made
    refs: map<nat, Ref>,       // the references there are
    cache: seq<nat>,           // reg_cache_, as references
    released: seq<nat>,        // registrations whose deleter has run, in order
    deregistered: seq<nat>,    // the provider keys given back, in order
    nextReg: nat,
    nextRef: nat)

  const START := State(map[], map[], [], [], [], 0, 0)

  /** use_count() == 1. */
  predicate Sole(refs: map<nat, Ref>, k: nat)
    requires k in refs
  {
    forall j :: j in refs && refs[j].reg == refs[k].reg ==> j == k
  }

  ghost predicate CacheHeld(refs: map<nat, Ref>, cache: seq<nat>) {
    && (forall i :: 0 <= i < |cache| ==> cache[i] in refs && refs[cache[i]].kind == InCache)
    && (forall i, j :: 0 <= i < j < |cache| ==> cache[i] != cache[j])
  }

  /** The first entry that is not in use. */
  function FirstSole(refs: map<nat, Ref>, cache: seq<nat>, from: nat): (i: nat)
    requires from <= |cache| && forall n :: 0 <= n < |cache| ==> cache[n] in refs
    ensures from <= i <= |cache| && (i < |cache| ==> Sole(refs, cache[i]))
    ensures forall n :: from <= n < i ==> !Sole(refs, cache[n])
    decreases |cache| - from
  {
    if from == |cache| then from else if Sole(refs, cache[from]) then from else FirstSole(refs, cache, from + 1)
  }

  function Without(cache: seq<nat>, i: nat): seq<nat>
    requires i < |cache|
  {
    cache[..i] + cache[i + 1..]
  }

  function Doom(refs: map<nat, Ref>, k: nat): map<nat, Ref>
    requires k in refs
  {
    refs[k := refs[k].(kind := Doomed)]
  }

  /** Over the bound, entries nothing else holds go, first ones first; if all are in use the bound
      gives way. */
  function Evict(refs: map<nat, Ref>, cache: seq<nat>, bound: nat): (map<nat, Ref>, seq<nat>)
    requires forall n :: 0 <= n < |cache| ==> cache[n] in refs
    decreases |cache|
  {
    if |cache| <= bound then (refs, cache)
    else
      var i := FirstSole(refs, cache, 0);
      if i == |cache| then (refs, cache) else Evict(Doom(refs, cache[i]), Without(cache, i), bound)
  }

  /** The loop of cache_registration, under its lock. */
  method EvictOver(refs0: map<nat, Ref>, cache0: seq<nat>, bound: nat) returns (refs: map<nat, Ref>, cache: seq<nat>)
    requires forall n :: 0 <= n < |cache0| ==> cache0[n] in refs0
    ensures (refs, cache) == Evict(refs0, cache0, bound)
    ensures |cache0| <= bound ==> (refs, cache) == (refs0, cache0)
    ensures CacheHeld(refs0, cache0) && |cache0| > bound ==>
              cache == Spared(refs0, cache0, |cache0| - bound) && OnlyDoomed(refs0, cache0, refs, cache)
  {
    if CacheHeld(refs0, cache0) {
      EvictsTheExcess(refs0, cache0, bound);
    }
    refs, cache := refs0, cache0;
    while |cache| > bound
      invariant forall n :: 0 <= n < |cache| ==> cache[n] in refs
      invariant Evict(refs, cache, bound) == Evict(refs0, cache0, bound)
      decreases |cache|
    {
      var dropped := false;
      var i := 0;
      while i < |cache|
        invariant 0 <= i <= |cache| && !dropped
        invariant FirstSole(refs, cache, 0) == FirstSole(refs, cache, i)
      {
        if Sole(refs, cache[i]) {
          dropped := true;
          break;
        }
        i := i + 1;
      }
      if !dropped { return; }
      refs, cache := Doom(refs, cache[i]), Without(cache, i);
    }
  }

  /** The first cached registration that covers, or none. */
  method FindRegistration(regs: map<nat, Reg>, refs: map<nat, Ref>, cache: seq<nat>, w: Want) returns (at: nat)
    requires forall n :: 0 <= n < |cache| ==> cache[n] in refs && refs[cache[n]].reg in regs
    ensures at <= |cache|
    ensures at < |cache| ==> Covers(regs[refs[cache[at]].reg], w)
    ensures forall n :: 0 <= n < at ==> !Covers(regs[refs[cache[n]].reg], w)
  {
    at := 0;
    while at < |cache|
      invariant at <= |cache| && forall n :: 0 <= n < at ==> !Covers(regs[refs[cache[n]].reg], w)
    {
      if Covers(regs[refs[cache[at]].reg], w) { return; }
      at := at + 1;
    }
  }

  // ---------------- steps ----------------

  datatype Step =
    | Find(at: nat, want: Want)               // find_registration took the at-th entry
    | Create(want: Want, keys: seq<nat>)      // every provider that took it minted a key
    | Cache(k: nat, bound: nat)
    | MakeHandle(k: nat)
    | Drop(k: nat)                            // a handle, a local or an evicted reference goes
    | ReleaseCached

  ghost predicate FreshKeys(regs: map<nat, Reg>, keys: seq<nat>) {
    && keys != []
    && (forall i, j :: 0 <= i < j < |keys| ==> keys[i] != keys[j])
    && (forall r :: r in regs ==> forall i :: 0 <= i < |keys| ==> keys[i] !in regs[r].keys)
  }

  ghost predicate Enabled(s: State, step: Step) {
    match step
    case Find(at, w) =>
      at < |s.cache| && s.cache[at] in s.refs && s.refs[s.cache[at]].reg in s.regs
      && Covers(s.regs[s.refs[s.cache[at]].reg], w)
    case Create(w, keys) => FreshKeys(s.regs, keys)
    case Cache(k, _) => k in s.refs && s.refs[k].kind.InHand? && s.refs[k].kind.created && CacheHeld(s.refs, s.cache)
    case MakeHandle(k) => k in s.refs && s.refs[k].kind.InHand?
    case Drop(k) => k in s.refs && !s.refs[k].kind.InCache? && s.refs[k].reg in s.regs
    case ReleaseCached => CacheHeld(s.refs, s.cache)
  }

  function Added(s: State, r: Ref): State {
    s.(refs := s.refs[s.nextRef := r], nextRef := s.nextRef + 1)
  }

  /** A reference goes, and the registration with it if it was the last. */
  function Dropped(s: State, k: nat): State
    requires k in s.refs && s.refs[k].reg in s.regs
  {
    var r := s.refs[k].reg;
    var t := s.(refs := s.refs - {k});
    if Sole(s.refs, k) then t.(released := s.released + [r], deregistered := s.deregistered + s.regs[r].keys) else t
  }

  ghost function Cached(s: State, k: nat, bound: nat): State
    requires k in s.refs && s.refs[k].kind.InHand? && CacheHeld(s.refs, s.cache)
  {
    var noted := s.refs[k := s.refs[k].(kind := InHand(s.refs[k].kind.want, false))];
    var refs := noted[s.nextRef := Ref(s.refs[k].reg, InCache)];
    var (refs', cache') := Evict(refs, s.cache + [s.nextRef], bound);
    s.(refs := refs', cache := cache', nextRef := s.nextRef + 1)
  }

  ghost function Do(s: State, step: Step): State
    requires Enabled(s, step)
  {
    match step
    case Find(at, w) => Added(s, Ref(s.refs[s.cache[at]].reg, InHand(w, false)))
    case Create(w, keys) =>
      Added(s.(regs := s.regs[s.nextReg := Reg(w.addr, w.length, w.device, w.access, keys)], nextReg := s.nextReg + 1),
            Ref(s.nextReg, InHand(w, true)))
    case Cache(k, bound) => Cached(s, k, bound)
    case MakeHandle(k) => s.(refs := s.refs[k := Ref(s.refs[k].reg, InHandle(s.refs[k].kind.want))])
    case Drop(k) => Dropped(s, k)
    case ReleaseCached =>
      var (refs, cache) := Evict(s.refs, s.cache, 0);
      s.(refs := refs, cache := cache)
  }

  // ---------------- the invariant ----------------

  ghost predicate Counted(s: State) {
    && (forall k :: k in s.refs ==> k < s.nextRef && s.refs[k].reg in s.regs)
    && (forall r :: r in s.regs ==> r < s.nextReg)
  }

  /** A registration is released exactly when nothing refers to it. */
  ghost predicate LiveWhileHeld(regs: map<nat, Reg>, refs: map<nat, Ref>, released: seq<nat>) {
    && (forall k :: k in refs ==> refs[k].reg !in released)
    && (forall r :: r in regs && r !in released ==> exists k :: k in refs && refs[k].reg == r)
    && (forall i :: 0 <= i < |released| ==> released[i] in regs)
    && (forall i, j :: 0 <= i < j < |released| ==> released[i] != released[j])
  }

  ghost predicate WantsCovered(regs: map<nat, Reg>, refs: map<nat, Ref>) {
    forall k :: k in refs && refs[k].reg in regs ==>
      match refs[k].kind
      case InHand(w, _) => Covers(regs[refs[k].reg], w)
      case InHandle(w) => Covers(regs[refs[k].reg], w)
      case _ => true
  }

  ghost predicate KeysApart(regs: map<nat, Reg>) {
    && (forall r, q, x :: r in regs && q in regs && r != q && x in regs[r].keys ==> x !in regs[q].keys)
    && (forall r :: r in regs ==> forall i, j :: 0 <= i < j < |regs[r].keys| ==> regs[r].keys[i] != regs[r].keys[j])
  }

  ghost function AllKeys(regs: map<nat, Reg>, released: seq<nat>): seq<nat>
    requires forall i :: 0 <= i < |released| ==> released[i] in regs
  {
    if released == [] then []
    else AllKeys(regs, released[..|released| - 1]) + regs[released[|released| - 1]].keys
  }

  ghost predicate Inv(s: State) {
    && Counted(s) && LiveWhileHeld(s.regs, s.refs, s.released) && WantsCovered(s.regs, s.refs)
    && CacheHeld(s.refs, s.cache) && KeysApart(s.regs)
    && s.deregistered == AllKeys(s.regs, s.released)
  }

  // ---------------- eviction ----------------

  /** after differs from before only in cache entries that became evicted ones, each of which
      nothing else held. */
  ghost predicate OnlyIdleEvicted(before: map<nat, Ref>, after: map<nat, Ref>) {
    && after.Keys == before.Keys
    && (forall k :: k in before ==> after[k].reg == before[k].reg)
    && (forall k :: k in before && after[k] != before[k] ==>
          before[k].kind == InCache && after[k].kind == Doomed && Sole(before, k))
  }

  /** Eviction touches nothing in use, and stops above the bound only when everything left is. */
  lemma {:induction false} EvictionSparesUsed(refs: map<nat, Ref>, cache: seq<nat>, bound: nat)
    requires CacheHeld(refs, cache)
    ensures var (refs', cache') := Evict(refs, cache, bound);
            && OnlyIdleEvicted(refs, refs') && CacheHeld(refs', cache')
            && (forall i :: 0 <= i < |cache'| ==> cache'[i] in cache)
            && (forall i :: 0 <= i < |cache| && !Sole(refs, cache[i]) ==> cache[i] in cache')
            && (|cache'| <= bound || forall i :: 0 <= i < |cache'| ==> !Sole(refs, cache'[i]))
    decreases |cache|
  {
    if |cache| > bound {
      var i := FirstSole(refs, cache, 0);
      if i < |cache| {
        var mid, left := Doom(refs, cache[i]), Without(cache, i);
        SoleStays(refs, mid);
        LeftHeld(refs, cache, i);
        EvictionSparesUsed(mid, left, bound);
        var (refs', cache') := Evict(mid, left, bound);
        forall n | 0 <= n < |cache| && !Sole(refs, cache[n]) ensures cache[n] in cache' {
          assert cache[n] in left by {
            assert n < i ==> left[n] == cache[n];
            assert n > i ==> left[n - 1] == cache[n];
          }
        }
        forall n | 0 <= n < |cache'| ensures cache'[n] in cache {
          assert cache'[n] in left;
        }
      }
    }
  }

  /** The first n entries nothing else holds taken out. */
  ghost function Spared(refs: map<nat, Ref>, cache: seq<nat>, n: nat): seq<nat>
    requires forall i :: 0 <= i < |cache| ==> cache[i] in refs
  {
    if cache == [] then []
    else if n > 0 && Sole(refs, cache[0]) then Spared(refs, cache[1..], n - 1)
    else [cache[0]] + Spared(refs, cache[1..], n)
  }

  lemma {:induction false} SparedAll(refs: map<nat, Ref>, cache: seq<nat>, n: nat)
    requires forall i :: 0 <= i < |cache| ==> cache[i] in refs
    requires n == 0 || forall i :: 0 <= i < |cache| ==> !Sole(refs, cache[i])
    ensures Spared(refs, cache, n) == cache
    decreases |cache|
  {
    hide Sole;
    if cache != [] {
      SparedAll(refs, cache[1..], n);
      assert [cache[0]] + cache[1..] == cache;
    }
  }

  lemma {:induction false} SparedSame(refs: map<nat, Ref>, refs': map<nat, Ref>, cache: seq<nat>, n: nat)
    requires forall i :: 0 <= i < |cache| ==> cache[i] in refs && cache[i] in refs'
    requires forall i :: 0 <= i < |cache| ==> Sole(refs, cache[i]) == Sole(refs', cache[i])
    ensures Spared(refs, cache, n) == Spared(refs', cache, n)
    decreases |cache|
  {
    hide Sole;
    if cache != [] {
      SparedSame(refs, refs', cache[1..], if n > 0 && Sole(refs, cache[0]) then n - 1 else n);
    }
  }

  lemma {:induction false} SparedFirst(refs: map<nat, Ref>, cache: seq<nat>, n: nat, i: nat)
    requires forall k :: 0 <= k < |cache| ==> cache[k] in refs
    requires n > 0 && i < |cache| && Sole(refs, cache[i]) && forall k :: 0 <= k < i ==> !Sole(refs, cache[k])
    ensures Spared(refs, cache, n) == Spared(refs, Without(cache, i), n - 1)
    decreases |cache|
  {
    hide Sole;
    if i == 0 {
      assert Without(cache, 0) == cache[1..];
    } else {
      SparedFirst(refs, cache[1..], n, i - 1);
      assert Without(cache, i)[1..] == Without(cache[1..], i - 1) && Without(cache, i)[0] == cache[0];
    }
  }

  lemma OneTaken(cache: seq<nat>, i: nat)
    requires i < |cache| && forall a, b :: 0 <= a < b < |cache| ==> cache[a] != cache[b]
    ensures cache[i] !in Without(cache, i)
    ensures forall x :: x in cache <==> x == cache[i] || x in Without(cache, i)
  {
    forall x | x in cache ensures x == cache[i] || x in Without(cache, i) {
      var n :| 0 <= n < |cache| && cache[n] == x;
      if n < i {
        assert Without(cache, i)[n] == x;
      } else if n > i {
        assert Without(cache, i)[n - 1] == x;
      }
    }
  }

  /** Exactly the entries that left the cache are on their way out. */
  ghost predicate OnlyDoomed(refs: map<nat, Ref>, cache: seq<nat>, refs': map<nat, Ref>, cache': seq<nat>) {
    && refs'.Keys == refs.Keys
    && forall k :: k in refs ==>
         refs'[k] == if k in cache && k !in cache' then refs[k].(kind := Doomed) else refs[k]
  }

  lemma OneMoreDoomed(refs: map<nat, Ref>, cache: seq<nat>, i: nat, refs': map<nat, Ref>, cache': seq<nat>)
    requires CacheHeld(refs, cache) && i < |cache| && (forall x :: x in cache' ==> x in Without(cache, i))
    requires OnlyDoomed(Doom(refs, cache[i]), Without(cache, i), refs', cache')
    ensures OnlyDoomed(refs, cache, refs', cache')
  {
    OneTaken(cache, i);
    hide Without;
  }

  lemma EvictsOne(refs: map<nat, Ref>, cache: seq<nat>, bound: nat, i: nat)
    requires CacheHeld(refs, cache) && |cache| > bound && i == FirstSole(refs, cache, 0) < |cache|
    ensures var mid, left := Doom(refs, cache[i]), Without(cache, i);
            && |left| == |cache| - 1 && CacheHeld(mid, left)
            && Evict(refs, cache, bound) == Evict(mid, left, bound)
            && Spared(refs, cache, |cache| - bound) == Spared(mid, left, |left| - bound)
  {
    hide Sole;
    var mid, left := Doom(refs, cache[i]), Without(cache, i);
    SoleStays(refs, mid);
    LeftHeld(refs, cache, i);
    SparedFirst(refs, cache, |cache| - bound, i);
    SparedSame(refs, mid, left, |left| - bound);
  }

  lemma EvictsNone(refs: map<nat, Ref>, cache: seq<nat>, bound: nat)
    requires CacheHeld(refs, cache) && (|cache| <= bound || FirstSole(refs, cache, 0) == |cache|)
    ensures Evict(refs, cache, bound) == (refs, cache)
    ensures cache == Spared(refs, cache, if |cache| > bound then |cache| - bound else 0)
    ensures OnlyDoomed(refs, cache, refs, cache)
  {
    hide Sole;
    SparedAll(refs, cache, if |cache| > bound then |cache| - bound else 0);
  }

  /** Eviction takes out exactly as many entries as the cache is over the bound, as far as there are
      entries nothing else holds, and of those the oldest; at or under the bound it takes none. */
  lemma {:induction false} EvictsTheExcess(refs: map<nat, Ref>, cache: seq<nat>, bound: nat)
    requires CacheHeld(refs, cache)
    ensures var (refs', cache') := Evict(refs, cache, bound);
            && cache' == Spared(refs, cache, if |cache| > bound then |cache| - bound else 0)
            && OnlyDoomed(refs, cache, refs', cache')
    decreases |cache|
  {
    hide Sole, Doom, Without, Spared, OnlyDoomed, Evict, FirstSole, OnlyIdleEvicted;
    if |cache| <= bound || FirstSole(refs, cache, 0) == |cache| {
      EvictsNone(refs, cache, bound);
    } else {
      var i := FirstSole(refs, cache, 0);
      EvictsOne(refs, cache, bound, i);
      var mid, left := Doom(refs, cache[i]), Without(cache, i);
      hide CacheHeld;
      EvictionSparesUsed(mid, left, bound);
      EvictsTheExcess(mid, left, bound);
      var (refs', cache') := Evict(mid, left, bound);
      OneMoreDoomed(refs, cache, i, refs', cache');
    }
  }

  lemma SoleStays(refs: map<nat, Ref>, refs': map<nat, Ref>)
    requires refs'.Keys == refs.Keys && forall k :: k in refs ==> refs'[k].reg == refs[k].reg
    ensures forall k :: k in refs ==> Sole(refs, k) == Sole(refs', k)
  {
    forall k | k in refs ensures Sole(refs, k) == Sole(refs', k) {
      if Sole(refs, k) {
        forall j | j in refs' && refs'[j].reg == refs'[k].reg ensures j == k {
        }
      }
      if Sole(refs', k) {
        forall j | j in refs && refs[j].reg == refs[k].reg ensures j == k {
        }
      }
    }
  }

  lemma LeftHeld(refs: map<nat, Ref>, cache: seq<nat>, i: nat)
    requires CacheHeld(refs, cache) && i < |cache|
    ensures CacheHeld(Doom(refs, cache[i]), Without(cache, i))
    ensures forall x :: x in Without(cache, i) ==> x in cache
  {
  }

  // ---------------- steps keep the invariant ----------------

  lemma SameRegs(regs: map<nat, Reg>, refs: map<nat, Ref>, refs': map<nat, Ref>, released: seq<nat>)
    requires LiveWhileHeld(regs, refs, released)
    requires refs'.Keys == refs.Keys && forall k :: k in refs ==> refs'[k].reg == refs[k].reg
    ensures LiveWhileHeld(regs, refs', released)
  {
    forall r | r in regs && r !in released ensures exists k :: k in refs' && refs'[k].reg == r {
      var k :| k in refs && refs[k].reg == r;
      assert refs'[k].reg == r;
    }
  }

  lemma AddedKeeps(regs: map<nat, Reg>, refs: map<nat, Ref>, released: seq<nat>, k: nat, ref: Ref)
    requires LiveWhileHeld(regs, refs, released) && k !in refs && ref.reg in regs && ref.reg !in released
    ensures LiveWhileHeld(regs, refs[k := ref], released)
  {
    var refs' := refs[k := ref];
    forall r | r in regs && r !in released ensures exists j :: j in refs' && refs'[j].reg == r {
      var j :| j in refs && refs[j].reg == r;
      assert refs'[j].reg == r;
    }
  }

  lemma FindKeeps(s: State, at: nat, w: Want)
    requires Inv(s) && Enabled(s, Find(at, w))
    ensures Inv(Do(s, Find(at, w)))
  {
    hide Covers, KeysApart, AllKeys;
    AddedKeeps(s.regs, s.refs, s.released, s.nextRef, Ref(s.refs[s.cache[at]].reg, InHand(w, false)));
  }

  lemma {:induction false} KeysStay(regs: map<nat, Reg>, regs': map<nat, Reg>, released: seq<nat>)
    requires forall i :: 0 <= i < |released| ==> released[i] in regs
    requires forall r :: r in regs ==> r in regs' && regs'[r] == regs[r]
    ensures AllKeys(regs', released) == AllKeys(regs, released)
    decreases |released|
  {
    if released != [] {
      KeysStay(regs, regs', released[..|released| - 1]);
    }
  }

  lemma CreateApart(regs: map<nat, Reg>, r: nat, g: Reg)
    requires KeysApart(regs) && r !in regs && FreshKeys(regs, g.keys)
    ensures KeysApart(regs[r := g])
  {
  }

  lemma CreateKeeps(s: State, w: Want, keys: seq<nat>)
    requires Inv(s) && Enabled(s, Create(w, keys))
    ensures Inv(Do(s, Create(w, keys)))
  {
    hide KeysApart, AllKeys, FreshKeys, Covers;
    var g := Reg(w.addr, w.length, w.device, w.access, keys);
    var regs' := s.regs[s.nextReg := g];
    assert s.nextReg !in s.regs;
    CreateApart(s.regs, s.nextReg, g);
    KeysStay(s.regs, regs', s.released);
    CoversItself(w, keys);
    NewReg(s.regs, s.refs, s.released, s.nextReg, g, s.nextRef, InHand(w, true));
  }

  lemma CoversItself(w: Want, keys: seq<nat>)
    ensures Covers(Reg(w.addr, w.length, w.device, w.access, keys), w)
  {
  }

  lemma NewReg(regs: map<nat, Reg>, refs: map<nat, Ref>, released: seq<nat>, r: nat, g: Reg, k: nat, kind: Kind)
    requires LiveWhileHeld(regs, refs, released) && r !in regs && k !in refs
    ensures LiveWhileHeld(regs[r := g], refs[k := Ref(r, kind)], released)
  {
    var refs' := refs[k := Ref(r, kind)];
    forall q | q in regs[r := g] && q !in released ensures exists j :: j in refs' && refs'[j].reg == q {
      if q == r {
        assert refs'[k].reg == q;
      } else {
        var j :| j in refs && refs[j].reg == q;
        assert refs'[j].reg == q;
      }
    }
  }

  /** Only kinds changed, and only between kinds that want no more. */
  lemma KindsKeep(s: State, refs: map<nat, Ref>, cache: seq<nat>)
    requires Inv(s) && CacheHeld(refs, cache)
    requires refs.Keys == s.refs.Keys && forall k :: k in refs ==> refs[k].reg == s.refs[k].reg
    requires WantsCovered(s.regs, refs)
    ensures Inv(s.(refs := refs, cache := cache))
  {
    hide KeysApart, AllKeys, Covers, WantsCovered, LiveWhileHeld;
    SameRegs(s.regs, s.refs, refs, s.released);
  }

  lemma EvictedWants(regs: map<nat, Reg>, before: map<nat, Ref>, after: map<nat, Ref>)
    requires WantsCovered(regs, before) && OnlyIdleEvicted(before, after)
    ensures WantsCovered(regs, after)
  {
    hide Covers, Sole;
  }

  lemma ReleaseKeeps(s: State)
    requires Inv(s)
    ensures Inv(Do(s, ReleaseCached))
  {
    hide Covers, Evict, KeysApart, AllKeys, LiveWhileHeld, WantsCovered;
    var (refs, cache) := Evict(s.refs, s.cache, 0);
    EvictionSparesUsed(s.refs, s.cache, 0);
    EvictedWants(s.regs, s.refs, refs);
    KindsKeep(s, refs, cache);
  }

  lemma CacheKeeps(s: State, k: nat, bound: nat)
    requires Inv(s) && Enabled(s, Cache(k, bound))
    ensures Inv(Do(s, Cache(k, bound)))
  {
    hide Covers, Evict, KeysApart, AllKeys, LiveWhileHeld;
    var noted := s.refs[k := s.refs[k].(kind := InHand(s.refs[k].kind.want, false))];
    KindsKeep(s, noted, s.cache);
    var s1 := s.(refs := noted);
    Unreleased(s, k);
    AddedKeeps(s.regs, noted, s.released, s.nextRef, Ref(s.refs[k].reg, InCache));
    var s2 := Added(s1, Ref(s.refs[k].reg, InCache)).(cache := s.cache + [s.nextRef]);
    assert Inv(s2);
    var (refs', cache') := Evict(s2.refs, s2.cache, bound);
    EvictionSparesUsed(s2.refs, s2.cache, bound);
    EvictedWants(s.regs, s2.refs, refs');
    KindsKeep(s2, refs', cache');
  }

  lemma Unreleased(s: State, k: nat)
    requires Inv(s) && k in s.refs
    ensures s.refs[k].reg in s.regs && s.refs[k].reg !in s.released
  {
  }

  lemma HandleKeeps(s: State, k: nat)
    requires Inv(s) && Enabled(s, MakeHandle(k))
    ensures Inv(Do(s, MakeHandle(k)))
  {
    hide Covers, KeysApart, AllKeys, LiveWhileHeld;
    KindsKeep(s, s.refs[k := Ref(s.refs[k].reg, InHandle(s.refs[k].kind.want))], s.cache);
  }

  lemma DropKeeps(s: State, k: nat)
    requires Inv(s) && Enabled(s, Drop(k))
    ensures Inv(Do(s, Drop(k)))
  {
    hide Covers, KeysApart, LiveWhileHeld, AllKeys, Sole, WantsCovered;
    var r := s.refs[k].reg;
    var refs := s.refs - {k};
    FewerWants(s.regs, s.refs, k);
    if Sole(s.refs, k) {
      OneMoreReleased(s, r);
      DropLast(s.regs, s.refs, s.released, k);
    } else {
      DropOne(s.regs, s.refs, s.released, k);
    }
  }

  lemma FewerWants(regs: map<nat, Reg>, refs: map<nat, Ref>, k: nat)
    requires WantsCovered(regs, refs)
    ensures WantsCovered(regs, refs - {k})
  {
    hide Covers;
  }

  lemma OneMoreReleased(s: State, r: nat)
    requires Inv(s) && r in s.regs
    ensures forall i :: 0 <= i < |s.released + [r]| ==> (s.released + [r])[i] in s.regs
    ensures AllKeys(s.regs, s.released + [r]) == AllKeys(s.regs, s.released) + s.regs[r].keys
  {
    assert (s.released + [r])[..|s.released|] == s.released;
  }

  lemma DropLast(regs: map<nat, Reg>, refs: map<nat, Ref>, released: seq<nat>, k: nat)
    requires LiveWhileHeld(regs, refs, released) && k in refs && Sole(refs, k) && refs[k].reg in regs
    ensures LiveWhileHeld(regs, refs - {k}, released + [refs[k].reg])
  {
    var refs', released' := refs - {k}, released + [refs[k].reg];
    forall r | r in regs && r !in released' ensures exists j :: j in refs' && refs'[j].reg == r {
      assert refs[k].reg in released' by {
        assert released'[|released|] == refs[k].reg;
      }
      forall i | 0 <= i < |released| ensures released[i] != r {
        assert released'[i] == released[i];
      }
      var j :| j in refs && refs[j].reg == r;
      assert j in refs' && refs'[j].reg == r;
    }
  }

  lemma DropOne(regs: map<nat, Reg>, refs: map<nat, Ref>, released: seq<nat>, k: nat)
    requires LiveWhileHeld(regs, refs, released) && k in refs && !Sole(refs, k)
    ensures LiveWhileHeld(regs, refs - {k}, released)
  {
    var refs' := refs - {k};
    var other :| other in refs && refs[other].reg == refs[k].reg && other != k;
    forall r | r in regs && r !in released ensures exists j :: j in refs' && refs'[j].reg == r {
      var j :| j in refs && refs[j].reg == r;
      if j == k {
        assert refs'[other].reg == r;
      } else {
        assert refs'[j].reg == r;
      }
    }
  }

  lemma StepKeeps(s: State, step: Step)
    requires Inv(s) && Enabled(s, step)
    ensures Inv(Do(s, step))
  {
    hide Inv, Do;
    match step
    case Find(at, w) => FindKeeps(s, at, w);
    case Create(w, keys) => CreateKeeps(s, w, keys);
    case Cache(k, bound) => CacheKeeps(s, k, bound);
    case MakeHandle(k) => HandleKeeps(s, k);
    case Drop(k) => DropKeeps(s, k);
    case ReleaseCached => ReleaseKeeps(s);
  }

  ghost predicate CanRun(s: State, steps: seq<Step>)
    decreases |steps|
  {
    steps == [] || (Enabled(s, steps[0]) && CanRun(Do(s, steps[0]), steps[1..]))
  }

  ghost function After(s: State, steps: seq<Step>): State
    requires CanRun(s, steps)
    decreases |steps|
  {
    if steps == [] then s else After(Do(s, steps[0]), steps[1..])
  }

  lemma {:induction false} RunKeeps(s: State, steps: seq<Step>)
    requires Inv(s) && CanRun(s, steps)
    ensures Inv(After(s, steps))
    decreases |steps|
  {
    hide Inv, Do, Enabled;
    if steps != [] {
      StepKeeps(s, steps[0]);
      RunKeeps(Do(s, steps[0]), steps[1..]);
    }
  }

  // ---------------- the theorems ----------------

  /** However registrations are shared, made, cached and evicted, a handle's registration has not
      been released and covers what the handle was registered for. */
  lemma HandlesAreCovered(steps: seq<Step>, k: nat)
    requires CanRun(START, steps) && k in After(START, steps).refs && After(START, steps).refs[k].kind.InHandle?
    ensures var e := After(START, steps);
            && e.refs[k].reg in e.regs && e.refs[k].reg !in e.released
            && Covers(e.regs[e.refs[k].reg], e.refs[k].kind.want)
  {
    hide Covers;
    RunKeeps(START, steps);
  }

  /** Registering what nothing cached covers ends in a handle on a new registration of exactly that. */
  lemma HandleIsMade(s: State, w: Want, keys: seq<nat>)
    requires FreshKeys(s.regs, keys)
    ensures var a := Do(s, Create(w, keys));
            && Enabled(a, MakeHandle(s.nextRef))
            && var b := Do(a, MakeHandle(s.nextRef));
               s.nextRef in b.refs && b.refs[s.nextRef] == Ref(s.nextReg, InHandle(w)) && s.nextReg in b.regs
               && b.regs[s.nextReg] == Reg(w.addr, w.length, w.device, w.access, keys)
  {
  }

  /** Releasing the cache leaves in it only what is in use, and the rest on its way out. */
  lemma CacheIsReleased(s: State)
    requires CacheHeld(s.refs, s.cache)
    ensures var e := Do(s, ReleaseCached);
            && (forall k :: k in e.cache ==> k in s.refs && !Sole(s.refs, k))
            && forall k :: k in s.cache && Sole(s.refs, k) ==> k in e.refs && e.refs[k].kind == Doomed
  {
    hide Sole, Evict;
    EvictsTheExcess(s.refs, s.cache, 0);
    EvictionSparesUsed(s.refs, s.cache, 0);
    var (refs, cache) := Evict(s.refs, s.cache, 0);
    forall k | k in cache ensures k in s.refs && !Sole(s.refs, k) {
      var n :| 0 <= n < |cache| && cache[n] == k;
    }
  }

  function Times(log: seq<nat>, x: nat): nat {
    if log == [] then 0 else Times(log[..|log| - 1], x) + (if log[|log| - 1] == x then 1 else 0)
  }

  lemma {:induction false} TimesConcat(a: seq<nat>, b: seq<nat>, x: nat)
    ensures Times(a + b, x) == Times(a, x) + Times(b, x)
    decreases |b|
  {
    if b == [] {
      assert a + b == a;
    } else {
      TimesConcat(a, b[..|b| - 1], x);
      assert (a + b)[..|a + b| - 1] == a + b[..|b| - 1];
    }
  }

  lemma {:induction false} TimesOnce(keys: seq<nat>, x: nat)
    requires forall i, j :: 0 <= i < j < |keys| ==> keys[i] != keys[j]
    ensures Times(keys, x) == if x in keys then 1 else 0
    decreases |keys|
  {
    if keys != [] {
      var n := |keys| - 1;
      TimesOnce(keys[..n], x);
      assert x in keys <==> x in keys[..n] || x == keys[n];
    }
  }

  lemma {:induction false} KeyTimes(regs: map<nat, Reg>, released: seq<nat>, r: nat, x: nat)
    requires KeysApart(regs) && r in regs && x in regs[r].keys
    requires (forall i :: 0 <= i < |released| ==> released[i] in regs)
    requires forall i, j :: 0 <= i < j < |released| ==> released[i] != released[j]
    ensures Times(AllKeys(regs, released), x) == if r in released then 1 else 0
    decreases |released|
  {
    if released != [] {
      var n := |released| - 1;
      var last := released[n];
      KeyTimes(regs, released[..n], r, x);
      TimesConcat(AllKeys(regs, released[..n]), regs[last].keys, x);
      TimesOnce(regs[last].keys, x);
      assert r in released <==> r in released[..n] || r == last;
      assert x in regs[last].keys <==> last == r;
    }
  }

  /** Every key a provider minted has been given back once if nothing refers to its registration
      any more, and not at all while something does. */
  lemma KeysGivenBackOnce(steps: seq<Step>, r: nat, x: nat)
    requires CanRun(START, steps) && r in After(START, steps).regs && x in After(START, steps).regs[r].keys
    ensures var e := After(START, steps);
            Times(e.deregistered, x) == if exists k :: k in e.refs && e.refs[k].reg == r then 0 else 1
  {
    hide Covers;
    RunKeeps(START, steps);
    var e := After(START, steps);
    KeyTimes(e.regs, e.released, r, x);
    if r in e.released {
      forall k | k in e.refs ensures e.refs[k].reg != r {
      }
    }
  }
}
