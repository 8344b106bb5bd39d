/** One device as the dashboard and the rollout report see it. */
module Fleet {
  import opened Options
  import opened Texts
  import opened Capabilities
  import opened DeviceReadiness
  import Semver

  const UNKNOWN: Text := Ascii("unknown")
  const NO_VERSION: Text := Ascii("0.0.0")

  const LAG_MS: real := 1500.0
  const HOT_BATT_C: real := 47.0
  const HOT_THERMAL: real := 3.0
  const LOW_MEM_MB: real := 250.0
  const LOW_DISK_MB: real := 300.0
  const LOW_BATTERY_PCT: real := 20.0
  const WEAK_RSSI: real := -100.0
  const IDLE_LONG_MS: real := 21_600_000.0
  const IDLE_VERY_LONG_MS: real := 86_400_000.0
  const OFFLINE_LONG_MS: int := 86_400_000
  const NO_SESSION_MS: int := 604_800_000
  const FLAPPING_DROPS: int := 5

  datatype HwVolatile = HwVolatile(
    mainLagMs: Option<real>,
    battTempC: Option<real>,
    thermal: Option<real>,
    memAvailMb: Option<real>,
    diskFreeMb: Option<real>,
    display: Option<real>,
    touchDevs: Option<real>,
    uiIdleMs: Option<real>)

  datatype PartialVolatile = PartialVolatile(
    screenOn: Option<bool>,
    charging: Option<bool>,
    batteryPct: Option<real>,
    net: Option<Text>,
    rssi: Option<real>)

  datatype DashRow = DashRow(
    deviceId: Text,
    caption: Option<Text>,
    group: Option<Text>,
    online: bool,
    lastSeenMs: Option<int>,
    agentVer: Option<Text>,
    caps: Option<Columns>,
    needsReprovisioning: bool,
    volatile: PartialVolatile,
    hw: Option<HwVolatile>,
    lastSessionMs: Option<int>,
    drops24h: int,
    hwEvents24h: seq<Text>)

  function Or<T>(v: Option<T>, d: T): T { if v.Some? then v.value else d }

  const NO_CAPS: Columns := Columns(BLOCKED, false, UNSUPPORTED, false, false, None, None)

  function ToState(r: DashRow): DeviceState {
    DeviceState(r.online, Or(r.agentVer, NO_VERSION), Or(r.caps, NO_CAPS),
                Volatile(Or(r.volatile.screenOn, false), Or(r.volatile.charging, false), Or(r.volatile.batteryPct, 0.0),
                         Or(r.volatile.net, UNKNOWN), Or(r.volatile.rssi, 0.0)),
                r.needsReprovisioning)
  }

  function TierOfRow(r: DashRow): Tier { TierOf(ToState(r)) }

  /** The tier of a row; what a row does not have counts as missing, and a missing version as the oldest. */
  lemma {:induction false} TierOfRowMeans(r: DashRow)
    ensures TierOfRow(r) == Offline <==> !r.online
    ensures TierOfRow(r) == NotReady <==>
              && r.online
              && (|| r.caps.None?
                  || (!r.caps.value.a11y
                      && (r.caps.value.projectMedia != Ascii("allow") || r.caps.value.knox != Ascii("licensed")))
                  || Semver.Less(if r.agentVer.Some? then r.agentVer.value else Ascii("0.0.0"), Ascii("1.2.0"))
                  || r.needsReprovisioning)
  {
    hide TierOf, Semver.Less;
    TierMeaning(ToState(r));
    TierExplicit(ToState(r));
    assert |BLOCKED| == 7 && |ALLOW| == 5;
  }

  /** A row is ready only with everything in place; a missing charger reading counts as not charging. */
  lemma {:induction false} ReadyRowMeans(r: DashRow)
    ensures TierOfRow(r) == Ready <==>
              && r.online && r.caps.Some?
              && r.caps.value.projectMedia == Ascii("allow") && r.caps.value.knox == Ascii("licensed")
              && !Semver.Less(if r.agentVer.Some? then r.agentVer.value else Ascii("0.0.0"), Ascii("1.2.0"))
              && !r.needsReprovisioning && r.volatile.screenOn == Some(true)
              && (r.volatile.charging == Some(true)
                  || (r.volatile.batteryPct.Some? && r.volatile.batteryPct.value >= 20.0))
              && (r.volatile.net == Some(Ascii("cellular")) ==>
                    r.volatile.rssi.Some? ==> r.volatile.rssi.value >= -100.0)
  {
    hide TierOf, Semver.Less;
    TierExplicit(ToState(r));
    assert |UNKNOWN| == 7 && |CELLULAR| == 8 && |BLOCKED| == 7 && |ALLOW| == 5;
  }

  /** The version a device reported, if any; an empty one does not count. */
  function Version(r: DashRow): Option<Text> { if r.agentVer == Some([]) then None else r.agentVer }

  predicate PanelOff(r: DashRow) {
    && r.hw.Some? && r.volatile.screenOn == Some(true) && r.hw.value.display.Some?
    && r.hw.value.display.value in {1.0, 3.0, 4.0}
  }

  predicate Distinct(rows: seq<DashRow>) {
    forall i, j | 0 <= i < j < |rows| :: rows[i].deviceId != rows[j].deviceId
  }
}
