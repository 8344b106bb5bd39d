/** `computeReadiness`: what stands in the way of a remote session, and how well it would run. */
module DeviceReadiness {
  import opened Texts
  import opened Capabilities
  import Semver

  const MIN_AGENT_VER: Text := Ascii("1.2.0")
  const CELLULAR: Text := Ascii("cellular")

  datatype Volatile = Volatile(screenOn: bool, charging: bool, batteryPct: real, net: Text, rssi: real)

  datatype DeviceState = DeviceState(
    online: bool,
    agentVer: Text,
    caps: Columns,
    volatile: Volatile,
    needsReprovisioning: bool)

  datatype Tier = Offline | NotReady | Degraded | Ready
  datatype BlockerCode = NoCapturePath | NoInputPath | NoBgActivityStart | AgentOutdated | NeedsReprovisioning
  datatype Fix = Reprovision | Selfheal | Update
  datatype Blocker = Blocker(code: BlockerCode, fix: Fix)
  datatype Warn = NeedsAutoclick | ScreenOff | GestureInputOnly | LowBattery | WeakSignal
  datatype Readiness = Readiness(tier: Tier, blockers: seq<Blocker>, warns: seq<Warn>)

  const BLOCKERS: seq<BlockerCode> := [NoCapturePath, NoInputPath, NoBgActivityStart, AgentOutdated,
      NeedsReprovisioning]
  const WARNS: seq<Warn> := [NeedsAutoclick, ScreenOff, GestureInputOnly, LowBattery, WeakSignal]

  predicate Blocks(d: DeviceState, b: BlockerCode) {
    match b
    case NoCapturePath => d.caps.projectMedia != ALLOW && !d.caps.a11y
    case NoInputPath => d.caps.knox != LICENSED && !d.caps.a11y
    case NoBgActivityStart => d.caps.projectMedia != ALLOW && !d.caps.overlay && !d.caps.a11y
    case AgentOutdated => Semver.Less(d.agentVer, MIN_AGENT_VER)
    case NeedsReprovisioning => d.needsReprovisioning
  }

  predicate Warns(d: DeviceState, w: Warn) {
    match w
    case NeedsAutoclick => d.caps.projectMedia != ALLOW
    case ScreenOff => !d.volatile.screenOn
    case GestureInputOnly => d.caps.knox != LICENSED
    case LowBattery => !d.volatile.charging && d.volatile.batteryPct < 20.0
    case WeakSignal => d.volatile.net == CELLULAR && d.volatile.rssi < -100.0
  }

  function FixOf(b: BlockerCode): Fix {
    match b
    case NoInputPath => Selfheal
    case AgentOutdated => Update
    case _ => Reprovision
  }

  /** The blockers among `codes` that apply, in the order of `codes`. */
  function SelectBlockers(d: DeviceState, codes: seq<BlockerCode>): seq<Blocker> {
    if codes == [] then []
    else (if Blocks(d, codes[0]) then [Blocker(codes[0], FixOf(codes[0]))] else []) + SelectBlockers(d, codes[1..])
  }

  function SelectWarns(d: DeviceState, ws: seq<Warn>): seq<Warn> {
    if ws == [] then [] else (if Warns(d, ws[0]) then [ws[0]] else []) + SelectWarns(d, ws[1..])
  }

  function TierOf(d: DeviceState): Tier {
    if !d.online then Offline
    else if SelectBlockers(d, BLOCKERS) != [] then NotReady
    else if SelectWarns(d, WARNS) != [] then Degraded
    else Ready
  }

  method ComputeReadiness(d: DeviceState) returns (r: Readiness)
    ensures r.tier == TierOf(d)
    ensures r.blockers == if r.tier.NotReady? then SelectBlockers(d, BLOCKERS) else []
    ensures r.warns == if r.tier.Degraded? then SelectWarns(d, WARNS) else []
  {
    if !d.online { return Readiness(Offline, [], []); }
    var blockers := CollectBlockers(d);
    if blockers != [] { return Readiness(NotReady, blockers, []); }
    var warns := CollectWarns(d);
    return if warns != [] then Readiness(Degraded, [], warns) else Readiness(Ready, [], []);
  }

  method CollectBlockers(d: DeviceState) returns (blockers: seq<Blocker>)
    ensures blockers == SelectBlockers(d, BLOCKERS)
  {
    hide Semver.Less, SelectBlockers;
    blockers := [];
    ghost var seen: seq<BlockerCode> := [];
    NoBlockers(d);
    if d.caps.projectMedia != ALLOW && !d.caps.a11y { blockers := blockers + [Blocker(NoCapturePath, Reprovision)]; }
    NextBlocker(d, seen, NoCapturePath);
    seen := seen + [NoCapturePath];
    if d.caps.knox != LICENSED && !d.caps.a11y { blockers := blockers + [Blocker(NoInputPath, Selfheal)]; }
    NextBlocker(d, seen, NoInputPath);
    seen := seen + [NoInputPath];
    if d.caps.projectMedia != ALLOW && !d.caps.overlay && !d.caps.a11y {
      blockers := blockers + [Blocker(NoBgActivityStart, Reprovision)];
    }
    NextBlocker(d, seen, NoBgActivityStart);
    seen := seen + [NoBgActivityStart];
    var outdated := Semver.SemverLt(d.agentVer, MIN_AGENT_VER);
    if outdated { blockers := blockers + [Blocker(AgentOutdated, Update)]; }
    NextBlocker(d, seen, AgentOutdated);
    seen := seen + [AgentOutdated];
    if d.needsReprovisioning { blockers := blockers + [Blocker(NeedsReprovisioning, Reprovision)]; }
    NextBlocker(d, seen, NeedsReprovisioning);
    seen := seen + [NeedsReprovisioning];
    assert seen == BLOCKERS;
  }

  method CollectWarns(d: DeviceState) returns (warns: seq<Warn>)
    ensures warns == SelectWarns(d, WARNS)
  {
    hide SelectWarns;
    warns := [];
    ghost var seen: seq<Warn> := [];
    NoWarns(d);
    if d.caps.projectMedia != ALLOW { warns := warns + [NeedsAutoclick]; }
    NextWarn(d, seen, NeedsAutoclick);
    seen := seen + [NeedsAutoclick];
    if !d.volatile.screenOn { warns := warns + [ScreenOff]; }
    NextWarn(d, seen, ScreenOff);
    seen := seen + [ScreenOff];
    if d.caps.knox != LICENSED { warns := warns + [GestureInputOnly]; }
    NextWarn(d, seen, GestureInputOnly);
    seen := seen + [GestureInputOnly];
    if !d.volatile.charging && d.volatile.batteryPct < 20.0 { warns := warns + [LowBattery]; }
    NextWarn(d, seen, LowBattery);
    seen := seen + [LowBattery];
    if d.volatile.net == CELLULAR && d.volatile.rssi < -100.0 { warns := warns + [WeakSignal]; }
    NextWarn(d, seen, WeakSignal);
    seen := seen + [WeakSignal];
    assert seen == WARNS;
  }

  lemma {:induction false} NoBlockers(d: DeviceState)
    ensures SelectBlockers(d, []) == []
  {
  }

  lemma {:induction false} NextBlocker(d: DeviceState, codes: seq<BlockerCode>, b: BlockerCode)
    ensures SelectBlockers(d, codes + [b]) ==
            if Blocks(d, b) then SelectBlockers(d, codes) + [Blocker(b, FixOf(b))] else SelectBlockers(d, codes)
  {
    hide Blocks;
    if codes == [] {
      assert [b][1..] == [];
    } else {
      NextBlocker(d, codes[1..], b);
      assert (codes + [b])[1..] == codes[1..] + [b];
    }
  }

  lemma {:induction false} NoWarns(d: DeviceState)
    ensures SelectWarns(d, []) == []
  {
  }

  lemma {:induction false} NextWarn(d: DeviceState, ws: seq<Warn>, w: Warn)
    ensures SelectWarns(d, ws + [w]) == if Warns(d, w) then SelectWarns(d, ws) + [w] else SelectWarns(d, ws)
  {
    hide Warns;
    if ws == [] {
      assert [w][1..] == [];
    } else {
      NextWarn(d, ws[1..], w);
      assert (ws + [w])[1..] == ws[1..] + [w];
    }
  }

  lemma {:induction false} SelectedExist(d: DeviceState, codes: seq<BlockerCode>)
    ensures SelectBlockers(d, codes) != [] <==> exists b :: b in codes && Blocks(d, b)
  {
    hide Blocks;
    if codes != [] {
      SelectedExist(d, codes[1..]);
      assert codes == [codes[0]] + codes[1..];
      if exists b :: b in codes && Blocks(d, b) {
        var b :| b in codes && Blocks(d, b);
        assert b == codes[0] || b in codes[1..];
      }
      if Blocks(d, codes[0]) { assert codes[0] in codes; }
    }
  }

  lemma {:induction false} WarnsExist(d: DeviceState, ws: seq<Warn>)
    ensures SelectWarns(d, ws) != [] <==> exists w :: w in ws && Warns(d, w)
  {
    hide Warns;
    if ws != [] {
      WarnsExist(d, ws[1..]);
      assert ws == [ws[0]] + ws[1..];
      if exists w :: w in ws && Warns(d, w) {
        var w :| w in ws && Warns(d, w);
        assert w == ws[0] || w in ws[1..];
      }
      if Warns(d, ws[0]) { assert ws[0] in ws; }
    }
  }

  /** What each tier says about the device. */
  lemma {:induction false} TierMeaning(d: DeviceState)
    ensures TierOf(d) == Offline <==> !d.online
    ensures TierOf(d) == NotReady <==> d.online && exists b :: Blocks(d, b)
    ensures TierOf(d) == Degraded <==> d.online && (forall b :: !Blocks(d, b)) && exists w :: Warns(d, w)
    ensures TierOf(d) == Ready <==> d.online && (forall b :: !Blocks(d, b)) && forall w :: !Warns(d, w)
  {
    hide Blocks, Warns;
    SelectedExist(d, BLOCKERS);
    WarnsExist(d, WARNS);
    assert forall b: BlockerCode :: b in BLOCKERS by {
      forall b: BlockerCode ensures b in BLOCKERS {
        assert b == BLOCKERS[0] || b == BLOCKERS[1] || b == BLOCKERS[2] || b == BLOCKERS[3] || b == BLOCKERS[4];
      }
    }
    assert forall w: Warn :: w in WARNS by {
      forall w: Warn ensures w in WARNS {
        assert w == WARNS[0] || w == WARNS[1] || w == WARNS[2] || w == WARNS[3] || w == WARNS[4];
      }
    }
  }

  /**
   * The tiers in terms of what the device reports: without accessibility a remote session needs both projection and
   * a Knox licence, and a device with both is ready if nothing about its present condition speaks against it.
   */
  lemma {:induction false} TierExplicit(d: DeviceState)
    ensures TierOf(d) == NotReady <==>
              && d.online
              && (|| (!d.caps.a11y && (d.caps.projectMedia != Ascii("allow") || d.caps.knox != Ascii("licensed")))
                  || Semver.Less(d.agentVer, Ascii("1.2.0"))
                  || d.needsReprovisioning)
    ensures TierOf(d) == Ready <==>
              && d.online && d.caps.projectMedia == Ascii("allow") && d.caps.knox == Ascii("licensed")
              && !Semver.Less(d.agentVer, Ascii("1.2.0")) && !d.needsReprovisioning
              && d.volatile.screenOn && (d.volatile.charging || d.volatile.batteryPct >= 20.0)
              && (d.volatile.net == Ascii("cellular") ==> d.volatile.rssi >= -100.0)
  {
    hide TierOf, Semver.Less;
    TierMeaning(d);
    assert Blocks(d, NoCapturePath) || Blocks(d, NoInputPath) <==>
             !d.caps.a11y && (d.caps.projectMedia != ALLOW || d.caps.knox != LICENSED);
    assert Blocks(d, AgentOutdated) <==> Semver.Less(d.agentVer, MIN_AGENT_VER);
    assert Blocks(d, NeedsReprovisioning) <==> d.needsReprovisioning;
    assert Blocks(d, NoBgActivityStart) ==> Blocks(d, NoCapturePath);
    assert Warns(d, NeedsAutoclick) <==> d.caps.projectMedia != ALLOW;
    assert Warns(d, ScreenOff) <==> !d.volatile.screenOn;
    assert Warns(d, GestureInputOnly) <==> d.caps.knox != LICENSED;
    assert Warns(d, LowBattery) <==> !d.volatile.charging && d.volatile.batteryPct < 20.0;
    assert Warns(d, WeakSignal) <==> d.volatile.net == CELLULAR && d.volatile.rssi < -100.0;
    hide Blocks, Warns;
    forall b ensures Blocks(d, b) ==> || Blocks(d, NoCapturePath) || Blocks(d, NoInputPath)
                                      || Blocks(d, NoBgActivityStart) || Blocks(d, AgentOutdated)
                                      || Blocks(d, NeedsReprovisioning)
    {
    }
  }

  /** A device flagged for re-provisioning never gets past NOT_READY, whatever else it reports. */
  lemma {:induction false} FlaggedIsBlocked(d: DeviceState)
    requires d.needsReprovisioning
    ensures TierOf(d) == Offline || TierOf(d) == NotReady
  {
    TierMeaning(d);
    assert Blocks(d, NeedsReprovisioning);
  }

  function Rank(t: Tier): nat {
    match t
    case Offline => 0
    case NotReady => 1
    case Degraded => 2
    case Ready => 3
  }

  /** `e` is at least as well off as `d` in everything readiness looks at. */
  predicate AtLeastAsGood(d: DeviceState, e: DeviceState) {
    && (d.online ==> e.online)
    && (d.caps.projectMedia == ALLOW ==> e.caps.projectMedia == ALLOW)
    && (d.caps.knox == LICENSED ==> e.caps.knox == LICENSED)
    && (d.caps.a11y ==> e.caps.a11y)
    && (d.caps.overlay ==> e.caps.overlay)
    && !Semver.Less(e.agentVer, d.agentVer)
    && (e.needsReprovisioning ==> d.needsReprovisioning)
    && (d.volatile.screenOn ==> e.volatile.screenOn)
    && (d.volatile.charging ==> e.volatile.charging)
    && d.volatile.batteryPct <= e.volatile.batteryPct
    && d.volatile.rssi <= e.volatile.rssi
    && (e.volatile.net == CELLULAR ==> d.volatile.net == CELLULAR)
  }

  /** Repairing a device never lowers its tier. */
  lemma {:induction false} ReadinessMonotone(d: DeviceState, e: DeviceState)
    requires AtLeastAsGood(d, e)
    ensures Rank(TierOf(d)) <= Rank(TierOf(e))
  {
    hide TierOf, Semver.Less;
    TierMeaning(d);
    TierMeaning(e);
    Semver.LessIsWeakOrder(e.agentVer, d.agentVer, MIN_AGENT_VER);
    assert forall b :: Blocks(e, b) ==> Blocks(d, b);
    assert forall w :: Warns(e, w) ==> Warns(d, w);
  }
}
