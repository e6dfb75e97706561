/** Sharing memory with a process next door. One side publishes regions under keys it never uses
    twice, the other maps them when it first needs them; a withdrawal asks it to let go and is
    acknowledged. Frames arrive in order. Steps are lock holds. */
module Ipc {
  import opened Status

  datatype Region = Region(base: nat, length: nat)

  datatype Frame = Publish(key: nat, region: Region) | Withdraw(key: nat)

  datatype Imported = Imported(region: Region, mapped: bool)

  /** How deregister_region came back. All but the last are kOk. */
  datatype Return = Acknowledged | NotConnected | FrameRefused | TimedOut

  /** The exporting side. */
  datatype Exporter = Exporter(
    nextKey: nat,
    regions: map<nat, Region>,   // everything ever registered
    exported: set<nat>,
    connected: bool,             // the socket is open
    everConnected: bool,
    waiting: map<nat, bool>,     // withdraw_acks_
    returned: map<nat, Return>)

  /** The importing side. */
  datatype Importer = Importer(imported: map<nat, Imported>, gone: bool)

  datatype State = State(
    ex: Exporter,
    im: Importer,
    sent: seq<Frame>,   // frames the exporter's outbox took, in order
    seen: nat,          // how many the importer has handled
    acks: seq<nat>,     // acknowledgements the importer's outbox took, in order
    acksSeen: nat)

  datatype Step =
    | Register(region: Region, taken: bool)  // taken: the outbox took the frame, if one is sent
    | Connect(published: seq<nat>)           // publish_all got this far
    | Lost                                   // the exporter finds the socket dead
    | Deregister(key: nat, taken: bool)
    | AckArrives
    | Returns(key: nat)
    | GivesUp(key: nat)
    | FrameArrives(taken: bool)              // taken: the outbox took the acknowledgement, if one is sent
    | MapKey(key: nat)                       // ensure_mapped
    | PeerGone                               // the importer drops everything

  function TakeFrame(im: Importer, f: Frame): Importer {
    match f
    case Publish(key, r) => im.(imported := im.imported[key := Imported(r, false)])
    case Withdraw(key) => im.(imported := im.imported - {key})
  }

  function Published(keys: seq<nat>, regions: map<nat, Region>): (fs: seq<Frame>)
    requires forall i :: 0 <= i < |keys| ==> keys[i] in regions
    ensures |fs| == |keys| && forall i :: 0 <= i < |keys| ==> fs[i] == Publish(keys[i], regions[keys[i]])
  {
    seq(|keys|, i requires 0 <= i < |keys| => Publish(keys[i], regions[keys[i]]))
  }

  ghost predicate Enabled(s: State, step: Step) {
    match step
    case Connect(keys) =>
      && !s.ex.everConnected
      && (forall i :: 0 <= i < |keys| ==> keys[i] in s.ex.exported && keys[i] in s.ex.regions)
      && (forall i, j :: 0 <= i < j < |keys| ==> keys[i] < keys[j])
    case Deregister(key, _) => key in s.ex.exported
    case AckArrives => s.ex.connected && s.acksSeen < |s.acks|
    case Returns(key) => key in s.ex.waiting && s.ex.waiting[key]
    case GivesUp(key) => key in s.ex.waiting
    case FrameArrives(_) => !s.im.gone && s.seen < |s.sent|
    case MapKey(key) => !s.im.gone && key in s.im.imported
    case _ => true
  }

  function Registered(ex: Exporter, r: Region, connected: bool): Exporter {
    ex.(nextKey := ex.nextKey + 1, regions := ex.regions[ex.nextKey := r], exported := ex.exported + {ex.nextKey},
        connected := connected)
  }

  function Deregistered(ex: Exporter, key: nat, taken: bool): Exporter {
    var e := ex.(exported := ex.exported - {key});
    if !ex.connected then e.(returned := e.returned[key := NotConnected])
    else if taken then e.(waiting := e.waiting[key := false])
    else e.(returned := e.returned[key := FrameRefused])
  }

  ghost function Do(s: State, step: Step): State
    requires Enabled(s, step)
  {
    match step
    case Register(r, taken) =>
      s.(ex := Registered(s.ex, r, s.ex.connected && taken),
         sent := if s.ex.connected && taken then s.sent + [Publish(s.ex.nextKey, r)] else s.sent)
    case Connect(keys) =>
      s.(ex := s.ex.(everConnected := true, connected := (set i | 0 <= i < |keys| :: keys[i]) == s.ex.exported),
         sent := s.sent + Published(keys, s.ex.regions))
    case Lost => s.(ex := s.ex.(connected := false))
    case Deregister(key, taken) =>
      s.(ex := Deregistered(s.ex, key, taken),
         sent := if s.ex.connected && taken then s.sent + [Withdraw(key)] else s.sent)
    case AckArrives =>
      var key := s.acks[s.acksSeen];
      s.(acksSeen := s.acksSeen + 1,
         ex := if key in s.ex.waiting then s.ex.(waiting := s.ex.waiting[key := true]) else s.ex)
    case Returns(key) =>
      s.(ex := s.ex.(waiting := s.ex.waiting - {key}, returned := s.ex.returned[key := Acknowledged]))
    case GivesUp(key) =>
      s.(ex := s.ex.(waiting := s.ex.waiting - {key}, returned := s.ex.returned[key := TimedOut]))
    case FrameArrives(taken) =>
      var f := s.sent[s.seen];
      s.(im := TakeFrame(s.im, f), seen := s.seen + 1,
         acks := if f.Withdraw? && taken then s.acks + [f.key] else s.acks)
    case MapKey(key) =>
      s.(im := s.im.(imported := s.im.imported[key := s.im.imported[key].(mapped := true)]))
    case PeerGone => s.(im := Importer(map[], true))
  }

  const START := State(Exporter(1, map[], {}, false, false, map[], map[]), Importer(map[], false), [], 0, [], 0)

  // ---------------- the invariant ----------------

  ghost predicate HasPublish(sent: seq<Frame>, key: nat) {
    exists i :: 0 <= i < |sent| && sent[i].Publish? && sent[i].key == key
  }

  ghost predicate HasWithdraw(sent: seq<Frame>, key: nat) {
    exists i :: 0 <= i < |sent| && sent[i] == Withdraw(key)
  }

  ghost predicate ExporterInv(ex: Exporter, sent: seq<Frame>) {
    && (forall k :: k in ex.regions ==> k < ex.nextKey)
    && ex.exported <= ex.regions.Keys && ex.waiting.Keys <= ex.regions.Keys && ex.returned.Keys <= ex.regions.Keys
    && ex.exported !! ex.waiting.Keys && ex.exported !! ex.returned.Keys && ex.waiting.Keys !! ex.returned.Keys
    && (ex.connected ==> ex.everConnected) && (!ex.everConnected ==> sent == [])
  }

  /** Frames name regions as they were registered; a key withdrawn is not exported any more and
      is not published again. */
  ghost predicate FramesInv(sent: seq<Frame>, regions: map<nat, Region>, exported: set<nat>, keyed: set<nat>) {
    && (forall i :: 0 <= i < |sent| ==> sent[i].key in regions)
    && (forall i :: 0 <= i < |sent| && sent[i].Publish? ==> sent[i].region == regions[sent[i].key])
    && (forall i :: 0 <= i < |sent| && sent[i].Withdraw? ==> sent[i].key !in exported && sent[i].key in keyed)
    && (forall i, j :: 0 <= i < j < |sent| && sent[i].Withdraw? ==> sent[j].key != sent[i].key)
  }

  /** The importer knows exactly what was published to it and not withdrawn, as registered. */
  ghost predicate ImporterInv(im: Importer, seenFrames: seq<Frame>, regions: map<nat, Region>) {
    && (im.gone ==> im.imported == map[])
    && (!im.gone ==> forall k :: k in im.imported <==> HasPublish(seenFrames, k) && !HasWithdraw(seenFrames, k))
    && (forall k :: k in im.imported ==> k in regions && im.imported[k].region == regions[k])
  }

  ghost predicate AcksInv(acks: seq<nat>, acksSeen: nat, ex: Exporter, seenFrames: seq<Frame>) {
    && acksSeen <= |acks|
    && (forall i :: 0 <= i < |acks| ==> HasWithdraw(seenFrames, acks[i]))
    && (forall k :: k in ex.waiting && ex.waiting[k] ==> HasWithdraw(seenFrames, k))
    && (forall k :: k in ex.returned && ex.returned[k] == Acknowledged ==> HasWithdraw(seenFrames, k))
  }

  /** Keys whose withdrawal was sent: being waited for, acknowledged or given up on. */
  ghost function Withdrawn(ex: Exporter): set<nat> {
    ex.waiting.Keys + (set k | k in ex.returned && (ex.returned[k] == Acknowledged || ex.returned[k] == TimedOut))
  }

  ghost predicate Inv(s: State) {
    && s.seen <= |s.sent|
    && ExporterInv(s.ex, s.sent)
    && FramesInv(s.sent, s.ex.regions, s.ex.exported, Withdrawn(s.ex))
    && ImporterInv(s.im, s.sent[..s.seen], s.ex.regions)
    && AcksInv(s.acks, s.acksSeen, s.ex, s.sent[..s.seen])
  }

  // ---------------- steps ----------------

  lemma PrefixStays(sent: seq<Frame>, more: seq<Frame>, n: nat)
    requires n <= |sent|
    ensures (sent + more)[..n] == sent[..n]
  {
  }

  lemma RegisterKeeps(s: State, r: Region, taken: bool)
    requires Inv(s)
    ensures Inv(Do(s, Register(r, taken)))
  {
    hide HasPublish, HasWithdraw;
    var ex, s' := s.ex, Do(s, Register(r, taken));
    assert ex.nextKey !in ex.regions;
    PrefixStays(s.sent, [Publish(ex.nextKey, r)], s.seen);
    assert Withdrawn(s'.ex) == Withdrawn(ex);
    RegisterFrames(s.sent, ex, r);
    assert AcksInv(s'.acks, s'.acksSeen, s'.ex, s'.sent[..s'.seen]);
  }

  lemma RegisterFrames(sent: seq<Frame>, ex: Exporter, r: Region)
    requires FramesInv(sent, ex.regions, ex.exported, Withdrawn(ex)) && ex.nextKey !in ex.regions
    ensures var regions, exported := ex.regions[ex.nextKey := r], ex.exported + {ex.nextKey};
            && FramesInv(sent, regions, exported, Withdrawn(ex))
            && FramesInv(sent + [Publish(ex.nextKey, r)], regions, exported, Withdrawn(ex))
  {
  }

  lemma ConnectKeeps(s: State, keys: seq<nat>)
    requires Inv(s) && Enabled(s, Connect(keys))
    ensures Inv(Do(s, Connect(keys)))
  {
    hide HasPublish, HasWithdraw;
    var s' := Do(s, Connect(keys));
    PrefixStays(s.sent, Published(keys, s.ex.regions), s.seen);
    assert Withdrawn(s'.ex) == Withdrawn(s.ex);
    assert s'.sent == Published(keys, s.ex.regions);
  }

  lemma DeregisterKeeps(s: State, key: nat, taken: bool)
    requires Inv(s) && key in s.ex.exported
    ensures Inv(Do(s, Deregister(key, taken)))
  {
    hide HasPublish, HasWithdraw, FramesInv, ImporterInv, Withdrawn;
    var s' := Do(s, Deregister(key, taken));
    PrefixStays(s.sent, [Withdraw(key)], s.seen);
    DeregisterFrames(s.sent, s.ex, key, taken);
  }

  lemma DeregisterFrames(sent: seq<Frame>, ex: Exporter, key: nat, taken: bool)
    requires ExporterInv(ex, sent) && FramesInv(sent, ex.regions, ex.exported, Withdrawn(ex)) && key in ex.exported
    ensures var ex' := Deregistered(ex, key, taken);
            var sent' := if ex.connected && taken then sent + [Withdraw(key)] else sent;
            FramesInv(sent', ex'.regions, ex'.exported, Withdrawn(ex'))
  {
    var ex' := Deregistered(ex, key, taken);
    if ex.connected && taken {
      assert Withdrawn(ex') == Withdrawn(ex) + {key};
    } else {
      assert Withdrawn(ex') == Withdrawn(ex);
    }
  }

  lemma BookKeeps(s: State, step: Step)
    requires Inv(s) && Enabled(s, step) && (step.Lost? || step.AckArrives? || step.Returns? || step.GivesUp?)
    ensures Inv(Do(s, step))
  {
    hide HasPublish, HasWithdraw, ImporterInv, FramesInv;
    var s' := Do(s, step);
    assert Withdrawn(s'.ex) == Withdrawn(s.ex);
  }

  lemma OneMore(sent: seq<Frame>, n: nat, key: nat)
    requires n < |sent|
    ensures HasPublish(sent[..n + 1], key) <==> HasPublish(sent[..n], key) || (sent[n].Publish? && sent[n].key == key)
    ensures HasWithdraw(sent[..n + 1], key) <==> HasWithdraw(sent[..n], key) || sent[n] == Withdraw(key)
  {
    var a, b := sent[..n], sent[..n + 1];
    assert b == a + [sent[n]];
    assert b[n] == sent[n];
    if HasPublish(a, key) {
      var i :| 0 <= i < |a| && a[i].Publish? && a[i].key == key;
      assert b[i] == a[i];
    }
    if HasWithdraw(a, key) {
      var i :| 0 <= i < |a| && a[i] == Withdraw(key);
      assert b[i] == a[i];
    }
    forall i | 0 <= i < |b| && i != n ensures b[i] == a[i] {
    }
  }

  lemma FrameImports(im: Importer, sent: seq<Frame>, n: nat, regions: map<nat, Region>, exported: set<nat>,
                     keyed: set<nat>)
    requires n < |sent| && !im.gone && ImporterInv(im, sent[..n], regions) && FramesInv(sent, regions, exported, keyed)
    ensures ImporterInv(TakeFrame(im, sent[n]), sent[..n + 1], regions)
  {
    var f := sent[n];
    var im' := TakeFrame(im, f);
    assert !HasWithdraw(sent[..n], f.key) by {
      forall i | 0 <= i < n ensures sent[..n][i] != Withdraw(f.key) {
        assert sent[..n][i] == sent[i];
      }
    }
    forall k ensures k in im'.imported <==> HasPublish(sent[..n + 1], k) && !HasWithdraw(sent[..n + 1], k) {
      OneMore(sent, n, k);
    }
  }

  lemma FrameAcks(s: State, taken: bool)
    requires Inv(s) && s.seen < |s.sent|
    ensures var f := s.sent[s.seen];
            AcksInv(if f.Withdraw? && taken then s.acks + [f.key] else s.acks, s.acksSeen, s.ex, s.sent[..s.seen + 1])
  {
    hide HasPublish, HasWithdraw, FramesInv, ImporterInv, ExporterInv;
    forall k ensures HasWithdraw(s.sent[..s.seen], k) ==> HasWithdraw(s.sent[..s.seen + 1], k) {
      OneMore(s.sent, s.seen, k);
    }
    OneMore(s.sent, s.seen, s.sent[s.seen].key);
  }

  lemma ImporterKeeps(s: State, step: Step)
    requires Inv(s) && Enabled(s, step) && (step.FrameArrives? || step.MapKey? || step.PeerGone?)
    ensures Inv(Do(s, step))
  {
    hide HasPublish, HasWithdraw, TakeFrame, FramesInv, AcksInv, ExporterInv;
    match step
    case FrameArrives(taken) =>
      FrameImports(s.im, s.sent, s.seen, s.ex.regions, s.ex.exported, Withdrawn(s.ex));
      FrameAcks(s, taken);
    case _ =>
  }

  lemma StepKeeps(s: State, step: Step)
    requires Inv(s) && Enabled(s, step)
    ensures Inv(Do(s, step))
  {
    hide Inv, Do;
    match step
    case Register(r, taken) => RegisterKeeps(s, r, taken);
    case Connect(keys) => ConnectKeeps(s, keys);
    case Deregister(key, taken) => DeregisterKeeps(s, key, taken);
    case FrameArrives(_) => ImporterKeeps(s, step);
    case MapKey(_) => ImporterKeeps(s, step);
    case PeerGone => ImporterKeeps(s, step);
    case _ => BookKeeps(s, step);
  }

  ghost predicate CanRun(s: State, steps: seq<Step>)
    decreases |steps|
  {
    steps == [] || (Enabled(s, steps[0]) && CanRun(Do(s, steps[0]), steps[1..]))
  }

  ghost function After(s: State, steps: seq<Step>): State
    requires CanRun(s, steps)
    decreases |steps|
  {
    if steps == [] then s else After(Do(s, steps[0]), steps[1..])
  }

  lemma {:induction false} RunKeeps(s: State, steps: seq<Step>)
    requires Inv(s) && CanRun(s, steps)
    ensures Inv(After(s, steps))
    decreases |steps|
  {
    hide Inv, Do, Enabled;
    if steps != [] {
      StepKeeps(s, steps[0]);
      RunKeeps(Do(s, steps[0]), steps[1..]);
    }
  }

  ghost predicate Reachable(s: State) {
    exists steps :: CanRun(START, steps) && After(START, steps) == s
  }

  lemma ReachableInv(s: State)
    requires Reachable(s)
    ensures Inv(s)
  {
    var steps :| CanRun(START, steps) && After(START, steps) == s;
    assert Inv(START);
    RunKeeps(START, steps);
  }

  // ---------------- the theorems ----------------

  /** What deregister_region returned stays returned, and its key is never exported again. */
  lemma {:induction false} ReturnStays(s: State, steps: seq<Step>, key: nat)
    requires Inv(s) && CanRun(s, steps) && key in s.ex.returned
    ensures var e := After(s, steps);
            && Inv(e) && key in e.ex.returned && e.ex.returned[key] == s.ex.returned[key]
            && (HasPublish(e.sent, key) <==> HasPublish(s.sent, key)) && (s.im.gone ==> e.im.gone)
    decreases |steps|
  {
    hide Inv, Do, Enabled, HasPublish;
    if steps != [] {
      StepKeeps(s, steps[0]);
      ReturnStaysOne(s, steps[0], key);
      ReturnStays(Do(s, steps[0]), steps[1..], key);
    }
  }

  lemma ReturnStaysOne(s: State, step: Step, key: nat)
    requires Inv(s) && Enabled(s, step) && key in s.ex.returned
    ensures var e := Do(s, step);
            && key in e.ex.returned && e.ex.returned[key] == s.ex.returned[key]
            && (HasPublish(e.sent, key) <==> HasPublish(s.sent, key)) && (s.im.gone ==> e.im.gone)
  {
    hide FramesInv, ImporterInv, AcksInv;
    var e := Do(s, step);
    match step
    case Register(r, _) => OtherKey(s.sent, [Publish(s.ex.nextKey, r)], key);
    case Connect(keys) => OtherKey(s.sent, Published(keys, s.ex.regions), key);
    case Deregister(k, _) => OtherKey(s.sent, [Withdraw(k)], key);
    case _ =>
  }

  lemma OtherKey(sent: seq<Frame>, more: seq<Frame>, key: nat)
    requires forall i :: 0 <= i < |more| ==> more[i].key != key
    ensures HasPublish(sent + more, key) <==> HasPublish(sent, key)
  {
    if HasPublish(sent, key) {
      var i :| 0 <= i < |sent| && sent[i].Publish? && sent[i].key == key;
      assert (sent + more)[i] == sent[i];
    }
  }

  /** Once deregister_region has come back on an acknowledgement the peer holds no mapping under
      that key and does not know it, then and ever after. */
  lemma AcknowledgedMeansUnmapped(s: State, steps: seq<Step>, key: nat)
    requires Reachable(s) && CanRun(s, steps) && key in s.ex.returned && s.ex.returned[key] == Acknowledged
    ensures key !in After(s, steps).im.imported
  {
    hide Reachable, CanRun, After, HasPublish;
    ReachableInv(s);
    ReturnStays(s, steps, key);
    var e := After(s, steps);
    assert HasWithdraw(e.sent[..e.seen], key);
  }

  /** The peer, left alone, handles every frame already sent. */
  lemma {:induction false} CatchesUp(s: State) returns (steps: seq<Step>)
    requires Inv(s) && !s.im.gone
    ensures CanRun(s, steps)
    ensures var e := After(s, steps); e.seen == |e.sent| && e.sent == s.sent && e.ex == s.ex && !e.im.gone
    decreases |s.sent| - s.seen
  {
    if s.seen == |s.sent| {
      steps := [];
    } else {
      var step := FrameArrives(true);
      StepKeeps(s, step);
      var rest := CatchesUp(Do(s, step));
      steps := [step] + rest;
      assert steps[1..] == rest;
    }
  }

  /** Any other kOk promises this exactly when the peer was never told of the key or has itself
      let go of everything. */
  lemma OkMeansUnmappedIff(s: State, key: nat)
    requires Reachable(s) && key in s.ex.returned && s.ex.returned[key] != TimedOut
    ensures (forall steps :: CanRun(s, steps) ==> key !in After(s, steps).im.imported) <==>
              s.ex.returned[key] == Acknowledged || !HasPublish(s.sent, key) || s.im.gone
  {
    hide Reachable, CanRun, After;
    ReachableInv(s);
    if s.ex.returned[key] == Acknowledged || !HasPublish(s.sent, key) || s.im.gone {
      forall steps | CanRun(s, steps) ensures key !in After(s, steps).im.imported {
        UnmappedIn(s, steps, key);
      }
    } else {
      assert !HasWithdraw(s.sent, key) by {
        forall i | 0 <= i < |s.sent| ensures s.sent[i] != Withdraw(key) {
          assert key !in Withdrawn(s.ex);
        }
      }
      var steps := CatchesUp(s);
      RunKeeps(s, steps);
      var e := After(s, steps);
      assert e.sent[..e.seen] == e.sent;
      assert key in e.im.imported;
    }
  }

  lemma UnmappedIn(s: State, steps: seq<Step>, key: nat)
    requires Inv(s) && CanRun(s, steps) && key in s.ex.returned
    requires s.ex.returned[key] == Acknowledged || !HasPublish(s.sent, key) || s.im.gone
    ensures key !in After(s, steps).im.imported
  {
    hide CanRun, After;
    ReturnStays(s, steps, key);
    var e := After(s, steps);
    if e.ex.returned[key] == Acknowledged {
      assert HasWithdraw(e.sent[..e.seen], key);
    } else if !HasPublish(e.sent, key) {
      forall i | 0 <= i < e.seen ensures !(e.sent[..e.seen][i].Publish? && e.sent[..e.seen][i].key == key) {
        assert e.sent[..e.seen][i] == e.sent[i];
      }
    }
  }

  /** A withdrawal the outbox had no room for: deregister_region says kOk while the peer is still
      mapped and can go on copying. */
  lemma RefusedWithdrawalLeavesTheMapping()
    ensures exists s :: Reachable(s) && 1 in s.ex.returned && s.ex.returned[1] == FrameRefused
              && 1 in s.im.imported && s.im.imported[1].mapped && !s.im.gone
  {
    hide Reachable;
    var r := Region(4096, 64);
    MapsOnce(r);
    var s := MappedOnce(r);
    var e := s.(ex := s.ex.(exported := {}, returned := map[1 := FrameRefused]));
    ReachableStep(s, Deregister(1, false), e);
  }

  lemma StartIsReachable()
    ensures Reachable(START)
  {
    assert CanRun(START, []) && After(START, []) == START;
  }

  lemma {:induction false} RunExtends(s: State, steps: seq<Step>, step: Step)
    requires CanRun(s, steps) && Enabled(After(s, steps), step)
    ensures CanRun(s, steps + [step]) && After(s, steps + [step]) == Do(After(s, steps), step)
    decreases |steps|
  {
    hide Do, Enabled;
    if steps == [] {
      assert [] + [step] == [step] && [step][1..] == [];
      assert CanRun(Do(s, step), []) && After(Do(s, step), []) == Do(s, step);
    } else {
      RunExtends(Do(s, steps[0]), steps[1..], step);
      assert (steps + [step])[1..] == steps[1..] + [step];
    }
  }

  lemma ReachableStep(s: State, step: Step, s': State)
    requires Reachable(s) && Enabled(s, step) && Do(s, step) == s'
    ensures Reachable(s')
  {
    var steps :| CanRun(START, steps) && After(START, steps) == s;
    RunExtends(START, steps, step);
  }

  // ---------------- what a connected peer learns ----------------

  /** While the exporter is connected, what it has published and not withdrawn is what it exports, and
      what it could not withdraw. */
  ghost predicate Announced(ex: Exporter, sent: seq<Frame>) {
    && (ex.connected ==> forall k :: Shown(sent, k) <==> k in ex.exported || Unwithdrawn(ex, k))
    && (!ex.everConnected ==> forall k :: !Unwithdrawn(ex, k))
  }

  ghost predicate Shown(sent: seq<Frame>, k: nat) {
    HasPublish(sent, k) && !HasWithdraw(sent, k)
  }

  predicate Unwithdrawn(ex: Exporter, k: nat) {
    k in ex.returned && ex.returned[k] == FrameRefused
  }

  lemma MoreFrames(sent: seq<Frame>, f: Frame, k: nat)
    ensures HasPublish(sent + [f], k) <==> HasPublish(sent, k) || (f.Publish? && f.key == k)
    ensures HasWithdraw(sent + [f], k) <==> HasWithdraw(sent, k) || f == Withdraw(k)
  {
    var all := sent + [f];
    assert all[..|sent|] == sent && all[..|sent| + 1] == all;
    OneMore(all, |sent|, k);
  }

  lemma NoFrames(sent: seq<Frame>, regions: map<nat, Region>, exported: set<nat>, keyed: set<nat>, k: nat)
    requires FramesInv(sent, regions, exported, keyed)
    ensures k !in regions ==> !HasPublish(sent, k) && !HasWithdraw(sent, k)
    ensures k in exported ==> !HasWithdraw(sent, k)
  {
  }

  lemma RegisterAnnounces(s: State, r: Region, taken: bool)
    requires Inv(s) && Announced(s.ex, s.sent)
    ensures var e := Do(s, Register(r, taken)); Announced(e.ex, e.sent)
  {
    hide HasPublish, HasWithdraw, ImporterInv, AcksInv, FramesInv;
    var e := Do(s, Register(r, taken));
    forall k | e.ex.connected ensures Shown(e.sent, k) <==> k in e.ex.exported || Unwithdrawn(e.ex, k) {
      MoreFrames(s.sent, Publish(s.ex.nextKey, r), k);
      NoFrames(s.sent, s.ex.regions, s.ex.exported, Withdrawn(s.ex), s.ex.nextKey);
      assert Shown(s.sent, k) <==> k in s.ex.exported || Unwithdrawn(s.ex, k);
    }
    forall k ensures Unwithdrawn(e.ex, k) == Unwithdrawn(s.ex, k) {
    }
  }

  lemma DeregisterAnnounces(s: State, key: nat, taken: bool)
    requires Inv(s) && Announced(s.ex, s.sent) && key in s.ex.exported
    ensures var e := Do(s, Deregister(key, taken)); Announced(e.ex, e.sent)
  {
    hide HasPublish, HasWithdraw, ImporterInv, AcksInv, FramesInv;
    var e := Do(s, Deregister(key, taken));
    forall k | e.ex.connected ensures Shown(e.sent, k) <==> k in e.ex.exported || Unwithdrawn(e.ex, k) {
      MoreFrames(s.sent, Withdraw(key), k);
      assert Shown(s.sent, k) <==> k in s.ex.exported || Unwithdrawn(s.ex, k);
    }
    forall k | !e.ex.everConnected ensures !Unwithdrawn(e.ex, k) {
      assert !Unwithdrawn(s.ex, k);
    }
  }

  lemma PublishedShows(keys: seq<nat>, regions: map<nat, Region>, k: nat)
    requires forall i :: 0 <= i < |keys| ==> keys[i] in regions
    ensures Shown(Published(keys, regions), k) <==> k in keys
  {
    var fs := Published(keys, regions);
    if k in keys {
      var i :| 0 <= i < |keys| && keys[i] == k;
      assert fs[i].Publish? && fs[i].key == k;
    }
  }

  lemma AsSet(keys: seq<nat>, k: nat)
    ensures k in (set i | 0 <= i < |keys| :: keys[i]) <==> k in keys
  {
  }

  lemma ConnectAnnounces(s: State, keys: seq<nat>)
    requires Inv(s) && Announced(s.ex, s.sent) && Enabled(s, Connect(keys))
    ensures var e := Do(s, Connect(keys)); Announced(e.ex, e.sent)
  {
    hide ImporterInv, AcksInv, FramesInv, Shown, Published;
    var e := Do(s, Connect(keys));
    assert s.sent + Published(keys, s.ex.regions) == Published(keys, s.ex.regions);
    forall k | e.ex.connected ensures Shown(e.sent, k) <==> k in e.ex.exported || Unwithdrawn(e.ex, k) {
      assert !Unwithdrawn(s.ex, k);
      AsSet(keys, k);
      PublishedShows(keys, s.ex.regions, k);
    }
  }

  lemma AnnouncedStep(s: State, step: Step)
    requires Inv(s) && Enabled(s, step) && Announced(s.ex, s.sent)
    ensures Announced(Do(s, step).ex, Do(s, step).sent)
  {
    match step
    case Register(r, taken) => RegisterAnnounces(s, r, taken);
    case Deregister(key, taken) => DeregisterAnnounces(s, key, taken);
    case Connect(keys) => ConnectAnnounces(s, keys);
    case _ =>
      hide Shown, ImporterInv, AcksInv, FramesInv;
      forall k ensures Unwithdrawn(Do(s, step).ex, k) == Unwithdrawn(s.ex, k) {
      }
  }

  lemma {:induction false} RunAnnounced(s: State, steps: seq<Step>)
    requires Inv(s) && CanRun(s, steps) && Announced(s.ex, s.sent)
    ensures Announced(After(s, steps).ex, After(s, steps).sent)
    decreases |steps|
  {
    hide Inv, Do, Enabled, Announced;
    if steps != [] {
      StepKeeps(s, steps[0]);
      AnnouncedStep(s, steps[0]);
      RunAnnounced(Do(s, steps[0]), steps[1..]);
    }
  }

  /** A peer that has handled every frame of a connected exporter knows exactly the regions exported
      and those whose withdrawal could not be queued, each as it was registered. */
  lemma PeerKnowsWhatIsExported(s: State, k: nat)
    requires Reachable(s) && s.ex.connected && !s.im.gone && s.seen == |s.sent|
    ensures k in s.im.imported <==>
              k in s.ex.exported || (k in s.ex.returned && s.ex.returned[k] == FrameRefused)
    ensures k in s.im.imported ==> k in s.ex.regions && s.im.imported[k].region == s.ex.regions[k]
  {
    ReachableInv(s);
    var steps :| CanRun(START, steps) && After(START, steps) == s;
    assert Inv(START) && Announced(START.ex, START.sent);
    RunAnnounced(START, steps);
    hide CanRun, After, Reachable, HasPublish, HasWithdraw;
    assert s.sent[..s.seen] == s.sent;
    assert Shown(s.sent, k) <==> k in s.ex.exported || Unwithdrawn(s.ex, k);
  }

  /** Region r registered, published and mapped. */
  function MappedOnce(r: Region): State {
    State(Exporter(2, map[1 := r], {1}, true, true, map[], map[]), Importer(map[1 := Imported(r, true)], false),
          [Publish(1, r)], 1, [], 0)
  }

  /** And its withdrawal sent. */
  function Withdrawing(r: Region): State {
    State(Exporter(2, map[1 := r], {}, true, true, map[1 := false], map[]),
          Importer(map[1 := Imported(r, true)], false),
          [Publish(1, r), Withdraw(1)], 1, [], 0)
  }

  lemma MapsOnce(r: Region)
    ensures Reachable(MappedOnce(r))
  {
    hide Reachable;
    StartIsReachable();
    var s1 := State(Exporter(2, map[1 := r], {1}, false, false, map[], map[]), Importer(map[], false), [], 0, [], 0);
    ReachableStep(START, Register(r, true), s1);
    var s2 := s1.(ex := s1.ex.(connected := true, everConnected := true), sent := [Publish(1, r)]);
    assert (set i | 0 <= i < |[1]| :: [1][i]) == {1} by {
      assert [1][0] == 1;
    }
    assert s1.sent + Published([1], s1.ex.regions) == s2.sent;
    ReachableStep(s1, Connect([1]), s2);
    var s3 := s2.(im := Importer(map[1 := Imported(r, false)], false), seen := 1);
    ReachableStep(s2, FrameArrives(true), s3);
    ReachableStep(s3, MapKey(1), MappedOnce(r));
  }

  /** A withdrawal goes all the way, from a mapping that is open to one that is gone and a
      deregistration that is acknowledged. */
  lemma WithdrawalRoundTrip(r: Region)
    ensures Reachable(MappedOnce(r)) && Reachable(Withdrawing(r))
    ensures exists s :: Reachable(s) && s.ex.returned == map[1 := Acknowledged] && s.ex.connected
              && s.im.imported == map[] && !s.im.gone
  {
    hide Reachable;
    MapsOnce(r);
    var w := Withdrawing(r);
    ReachableStep(MappedOnce(r), Deregister(1, true), w);
    var s1 := w.(im := Importer(map[], false), seen := 2, acks := [1]);
    assert w.acks + [1] == [1];
    ReachableStep(w, FrameArrives(true), s1);
    var s2 := s1.(acksSeen := 1, ex := s1.ex.(waiting := map[1 := true]));
    ReachableStep(s1, AckArrives, s2);
    var s3 := s2.(ex := s2.ex.(waiting := map[], returned := map[1 := Acknowledged]));
    ReachableStep(s2, Returns(1), s3);
  }

  /** Or the peer leaves, and it is given up. */
  lemma WithdrawalGivenUp(r: Region)
    ensures exists s :: Reachable(s) && s.ex.returned == map[1 := TimedOut] && !s.ex.connected && s.im.gone
  {
    WithdrawalRoundTrip(r);
    hide Reachable;
    var w := Withdrawing(r);
    var s1 := w.(im := Importer(map[], true));
    ReachableStep(w, PeerGone, s1);
    var s2 := s1.(ex := s1.ex.(connected := false));
    ReachableStep(s1, Lost, s2);
    var s3 := s2.(ex := s2.ex.(waiting := map[], returned := map[1 := TimedOut]));
    ReachableStep(s2, GivesUp(1), s3);
  }

  // ---------------- copies ----------------

  /** sameMemory: the mapping resolved to this process's own bytes. */
  datatype CopyOp = CopyOp(key: nat, addr: nat, length: nat, isWrite: bool, sameMemory: bool)

  /** What is reported of one copy. */
  datatype Landed = Landed(status: Status, bytes: nat, mayHaveModified: bool)

  predicate Inside(op: CopyOp, r: Region) {
    r.base <= op.addr && op.addr + op.length <= r.base + r.length
  }

  /** What submit answers for one operation; importing is what import_ipc would answer. */
  function OpStatus(imported: map<nat, Imported>, op: CopyOp, importing: Status): Status {
    if op.key !in imported then NotFound
    else if !imported[op.key].mapped && importing != Ok then importing
    else if !Inside(op, imported[op.key].region) then InvalidArgument
    else if op.sameMemory then Internal
    else Ok
  }

  /** Only mappings were opened. */
  ghost predicate OnlyMapped(before: map<nat, Imported>, after: map<nat, Imported>) {
    && after.Keys == before.Keys
    && forall k :: k in before ==> after[k].region == before[k].region && (before[k].mapped ==> after[k].mapped)
  }

  /** submit: a prefix of the operations is copied, each through an open mapping and inside the
      published range; the first that cannot be says why; and a batch that does not settle is
      neither kOk nor reported as landed. */
  class Copier {
    var imported: map<nat, Imported>
    var gone: bool

    constructor ()
      ensures imported == map[] && !gone
    {
      imported, gone := map[], false;
    }

    /** ensure_mapped and the range check. */
    method Resolve(op: CopyOp, importing: Status) returns (status: Status)
      modifies this`imported
      ensures OnlyMapped(old(imported), imported)
      ensures status == OpStatus(imported, op, importing)
      ensures status == Ok <==>
                && op.key in old(imported) && (old(imported)[op.key].mapped || importing == Ok) && !op.sameMemory
                && old(imported)[op.key].region.base <= op.addr
                && op.addr + op.length <= old(imported)[op.key].region.base + old(imported)[op.key].region.length
      ensures status == Ok ==> op.key in imported && imported[op.key].mapped
      ensures op.key !in old(imported) ==> status == NotFound
      ensures op.key in old(imported) && !old(imported)[op.key].mapped && importing != Ok ==> status == importing
      ensures op.key in old(imported) && (old(imported)[op.key].mapped || importing == Ok) && status != Ok ==>
                status == if Inside(op, old(imported)[op.key].region) then Internal else InvalidArgument
    {
      if op.key !in imported { return NotFound; }
      if !imported[op.key].mapped {
        if importing != Ok { return importing; }
        imported := imported[op.key := imported[op.key].(mapped := true)];
      }
      var r := imported[op.key].region;
      if op.addr < r.base { return InvalidArgument; }
      var offset := op.addr - r.base;
      if offset > r.length || op.length > r.length - offset { return InvalidArgument; }
      if op.sameMemory { return Internal; }
      status := Ok;
    }

    /** importing, copying and settling are what the device answers. */
    method Submit(ops: seq<CopyOp>, importing: seq<Status>, copying: seq<Status>, settling: Status)
      returns (accepted: nat, status: Status, landed: seq<Landed>)
      requires |importing| == |copying| == |ops|
      modifies this`imported
      ensures gone ==> status == PeerDisconnected && accepted == 0 && imported == old(imported)
      ensures OnlyMapped(old(imported), imported)
      ensures accepted <= |ops|
      ensures forall i :: 0 <= i < accepted ==>
                ops[i].key in imported && imported[ops[i].key].mapped && Inside(ops[i], imported[ops[i].key].region)
      ensures !gone && accepted < |ops| ==> OpStatus(imported, ops[accepted], importing[accepted]) != Ok
      ensures !gone && accepted > 0 && settling != Ok ==> status == settling
      ensures !gone && (accepted == 0 || settling == Ok) && accepted < |ops| ==>
                status == OpStatus(imported, ops[accepted], importing[accepted])
      ensures !gone && (accepted == 0 || settling == Ok) && accepted == |ops| ==> status == Ok
      ensures |landed| == accepted
      ensures forall i :: 0 <= i < accepted ==>
                landed[i] == if copying[i] != Ok then Landed(copying[i], 0, ops[i].isWrite)
                             else if settling != Ok then Landed(settling, 0, true)
                             else Landed(Ok, ops[i].length, false)
    {
      accepted, status, landed := 0, Ok, [];
      if gone { return 0, PeerDisconnected, []; }
      while accepted < |ops|
        invariant accepted <= |ops| && OnlyMapped(old(imported), imported) && status == Ok
        invariant forall i :: 0 <= i < accepted ==>
                    ops[i].key in imported && imported[ops[i].key].mapped && Inside(ops[i], imported[ops[i].key].region)
        invariant |landed| == accepted
        invariant forall i :: 0 <= i < accepted ==>
                    landed[i] == if copying[i] != Ok then Landed(copying[i], 0, ops[i].isWrite)
                                 else Landed(Ok, ops[i].length, false)
      {
        var op := ops[accepted];
        status := Resolve(op, importing[accepted]);
        if status != Ok { break; }
        var cs := copying[accepted];
        landed := landed + [Landed(cs, if cs == Ok then op.length else 0, cs != Ok && op.isWrite)];
        accepted := accepted + 1;
      }
      if landed != [] && settling != Ok {
        landed := Unsettled(landed, settling);
        status := settling;
      }
    }
  }

  /** Nothing in a batch that did not settle can be claimed to have landed. */
  method Unsettled(landed: seq<Landed>, settling: Status) returns (out: seq<Landed>)
    ensures |out| == |landed|
    ensures forall i :: 0 <= i < |landed| ==>
              out[i] == if landed[i].status == Ok then Landed(settling, 0, true) else landed[i]
  {
    out := landed;
    for i := 0 to |landed|
      invariant |out| == |landed|
      invariant forall k :: 0 <= k < |landed| ==>
                  out[k] == if k < i && landed[k].status == Ok then Landed(settling, 0, true) else landed[k]
    {
      if out[i].status == Ok { out := out[i := Landed(settling, 0, true)]; }
    }
  }

  /** In every state of the two processes, an operation that is let through names a region that
      was registered and whose withdrawal was not acknowledged, and stays inside it. */
  lemma CopiesStayInside(s: State, op: CopyOp, importing: Status)
    requires Reachable(s) && OpStatus(s.im.imported, op, importing) == Ok
    ensures op.key in s.ex.regions && s.ex.regions[op.key].base <= op.addr
    ensures op.addr + op.length <= s.ex.regions[op.key].base + s.ex.regions[op.key].length
    ensures !(op.key in s.ex.returned && s.ex.returned[op.key] == Acknowledged)
  {
    hide Reachable;
    ReachableInv(s);
  }
}
