/** The meaning of every list, reason and count of the fleet dashboard. */
module Dashboard {
  import opened Options
  import opened Texts
  import opened Fleet
  import R = DeviceReadiness
  import Semver

  /** The lists of the dashboard. */
  datatype Key =
    | TierKey(tier: R.Tier)
    | Online | Offline | NeverSeen | OfflineOver24h | NotReady
    | PermissionsUnknown | PermissionsIncomplete | PermissionsComplete
    | MissingSecureSettings | MissingA11y | MissingOverlay
    | VerKey(version: Text)
    | Outdated | Flapping | NoSession7d
    | Wifi | Cellular | Ethernet | WeakSignal | NotCharging | LowBattery
    | NoHwData | Lagging | Hot | LowMem | LowDisk | PanelDark | TouchGone | UiIdle24h | UiIdle6h

  const WIFI: Text := Ascii("wifi")
  const ETHERNET: Text := Ascii("ethernet")

  /** `r.agentVer ?? 'unknown'`; an empty version stays empty. */
  function VersionText(r: DashRow): Text { Or(r.agentVer, UNKNOWN) }

  function Net(r: DashRow): Text { Or(r.volatile.net, UNKNOWN) }

  predicate AllPermissions(r: DashRow) {
    r.caps.Some? && r.caps.value.secureSettings && r.caps.value.a11y && r.caps.value.overlay
  }

  predicate AtLeast(v: Option<real>, limit: real) { v.Some? && v.value >= limit }

  predicate Below(v: Option<real>, limit: real) { v.Some? && v.value < limit }

  /** Which devices a list is about, each list on its own. */
  predicate Member(r: DashRow, k: Key, now: int) {
    match k
    case TierKey(t) => TierOfRow(r) == t
    case Online => r.online
    case Offline => !r.online
    case NeverSeen => !r.online && r.lastSeenMs.None?
    case OfflineOver24h => !r.online && r.lastSeenMs.Some? && now - r.lastSeenMs.value > OFFLINE_LONG_MS
    case NotReady => TierOfRow(r).NotReady?
    case PermissionsUnknown => r.caps.None?
    case PermissionsIncomplete => r.caps.Some? && !AllPermissions(r)
    case PermissionsComplete => AllPermissions(r)
    case MissingSecureSettings => r.caps.Some? && !r.caps.value.secureSettings
    case MissingA11y => r.caps.Some? && !r.caps.value.a11y
    case MissingOverlay => r.caps.Some? && !r.caps.value.overlay
    case VerKey(v) => VersionText(r) == v
    case Outdated => Version(r).Some? && Semver.Less(Version(r).value, R.MIN_AGENT_VER)
    case Flapping => r.drops24h >= FLAPPING_DROPS
    case NoSession7d => r.lastSessionMs.Some? ==> now - r.lastSessionMs.value > NO_SESSION_MS
    case Wifi => r.online && Net(r) == WIFI
    case Cellular => r.online && Net(r) == R.CELLULAR
    case Ethernet => r.online && Net(r) == ETHERNET
    case WeakSignal => r.online && Net(r) == R.CELLULAR && Below(r.volatile.rssi, WEAK_RSSI)
    case NotCharging => r.online && r.volatile.charging != Some(true)
    case LowBattery => r.online && r.volatile.charging != Some(true) && Below(r.volatile.batteryPct, LOW_BATTERY_PCT)
    case NoHwData => r.online && r.hw.None?
    case Lagging => r.online && r.hw.Some? && AtLeast(r.hw.value.mainLagMs, LAG_MS)
    case Hot =>
      && r.online && r.hw.Some?
      && (AtLeast(r.hw.value.battTempC, HOT_BATT_C) || AtLeast(r.hw.value.thermal, HOT_THERMAL))
    case LowMem => r.online && r.hw.Some? && Below(r.hw.value.memAvailMb, LOW_MEM_MB)
    case LowDisk => r.online && r.hw.Some? && Below(r.hw.value.diskFreeMb, LOW_DISK_MB)
    case PanelDark => r.online && PanelOff(r)
    case TouchGone => r.online && r.hw.Some? && r.hw.value.touchDevs == Some(0.0)
    case UiIdle24h => r.online && r.hw.Some? && AtLeast(r.hw.value.uiIdleMs, IDLE_VERY_LONG_MS)
    case UiIdle6h => r.online && r.hw.Some? && AtLeast(r.hw.value.uiIdleMs, IDLE_LONG_MS)
  }

  /** The devices of a list, in the order of the rows. */
  function Ids(rows: seq<DashRow>, k: Key, now: int): seq<Text> {
    if rows == [] then []
    else Ids(rows[..|rows| - 1], k, now) +
         if Member(rows[|rows| - 1], k, now) then [rows[|rows| - 1].deviceId] else []
  }

  /* ---------- reasons ---------- */

  datatype Reason =
    | OfflineLong | Unready | PermissionsMissing | Flaps | BatteryLow
    | Lags | RunsHot | MemoryLow | DiskLow | PanelIsOff | TouchLost

  /** A reason applies to the devices of one list. */
  function ListOf(x: Reason): Key {
    match x
    case OfflineLong => OfflineOver24h
    case Unready => NotReady
    case PermissionsMissing => PermissionsIncomplete
    case Flaps => Flapping
    case BatteryLow => LowBattery
    case Lags => Lagging
    case RunsHot => Hot
    case MemoryLow => LowMem
    case DiskLow => LowDisk
    case PanelIsOff => PanelDark
    case TouchLost => TouchGone
  }

  function Weight(x: Reason): nat {
    match x
    case Unready => 5
    case PanelIsOff => 5
    case TouchLost => 5
    case Lags => 3
    case RunsHot => 3
    case MemoryLow => 2
    case DiskLow => 2
    case Flaps => 3
    case PermissionsMissing => 2
    case BatteryLow => 1
    case OfflineLong => 1
  }

  predicate Applies(r: DashRow, x: Reason, now: int) { Member(r, ListOf(x), now) }

  function Select(r: DashRow, now: int, xs: seq<Reason>): seq<Reason> {
    if xs == [] then []
    else Select(r, now, xs[..|xs| - 1]) + if Applies(r, xs[|xs| - 1], now) then [xs[|xs| - 1]] else []
  }

  function Sum(xs: seq<Reason>): nat { if xs == [] then 0 else Sum(xs[..|xs| - 1]) + Weight(xs[|xs| - 1]) }

  /** The kind of reason the first pass looks for after `n` others. */
  function Kind(n: nat): Reason {
    if n == 0 then OfflineLong else if n == 1 then Unready else if n == 2 then PermissionsMissing
    else if n == 3 then Flaps else if n == 4 then BatteryLow else if n == 5 then Lags
    else if n == 6 then RunsHot else if n == 7 then MemoryLow else if n == 8 then DiskLow
    else if n == 9 then PanelIsOff else TouchLost
  }

  /** The order in which the first pass and the second pass look for reasons. */
  const FIRST: seq<Reason> :=
    [Kind(0), Kind(1), Kind(2), Kind(3), Kind(4), Kind(5), Kind(6), Kind(7), Kind(8), Kind(9), Kind(10)]
  const SECOND: seq<Reason> := [Flaps, OfflineLong, PermissionsMissing]

  function Score(r: DashRow, now: int): nat { Sum(Select(r, now, FIRST)) }

  lemma {:induction false} SelectAppend(r: DashRow, now: int, xs: seq<Reason>, x: Reason)
    ensures Select(r, now, xs + [x]) == Select(r, now, xs) + if Applies(r, x, now) then [x] else []
  {
    hide Applies;
    assert (xs + [x])[..|xs|] == xs;
  }

  lemma {:induction false} SumAppend(xs: seq<Reason>, x: Reason)
    ensures Sum(xs + [x]) == Sum(xs) + Weight(x)
  {
    assert (xs + [x])[..|xs|] == xs;
  }

  lemma {:induction false} SelectIn(r: DashRow, now: int, xs: seq<Reason>)
    ensures forall x :: x in Select(r, now, xs) <==> x in xs && Applies(r, x, now)
  {
    hide Applies;
    if xs != [] {
      SelectIn(r, now, xs[..|xs| - 1]);
      assert xs == xs[..|xs| - 1] + [xs[|xs| - 1]];
    }
  }

  lemma {:induction false} AllReasons(x: Reason)
    ensures x in FIRST
  {
    assert x == FIRST[0] || x == FIRST[1] || x == FIRST[2] || x == FIRST[3] || x == FIRST[4] || x == FIRST[5]
           || x == FIRST[6] || x == FIRST[7] || x == FIRST[8] || x == FIRST[9] || x == FIRST[10];
  }

  lemma {:induction false} SumPositive(xs: seq<Reason>)
    ensures Sum(xs) > 0 <==> xs != []
  {
    if xs != [] { SumPositive(xs[..|xs| - 1]); }
  }

  /** A device scores exactly if some reason applies to it. */
  lemma {:induction false} ScoreMeans(r: DashRow, now: int)
    ensures Score(r, now) > 0 <==> exists x :: Applies(r, x, now)
  {
    hide Applies, Select, Sum;
    SumPositive(Select(r, now, FIRST));
    SelectIn(r, now, FIRST);
    if Select(r, now, FIRST) != [] { assert Select(r, now, FIRST)[0] in Select(r, now, FIRST); }
    if exists x :: Applies(r, x, now) {
      var x :| Applies(r, x, now);
      AllReasons(x);
      assert x in Select(r, now, FIRST);
    }
  }

  /** Of an offline device the reasons of the hardware, the battery and readiness never apply. */
  lemma {:induction false} OfflineApplies(r: DashRow, now: int, x: Reason)
    requires !r.online && Applies(r, x, now)
    ensures x.OfflineLong? || x.PermissionsMissing? || x.Flaps?
  {
    hide Semver.Less;
    R.TierMeaning(ToState(r));
  }

  /** A part of the order in which no reason applies adds nothing. */
  lemma {:induction false} SelectTail(r: DashRow, now: int, xs: seq<Reason>, ys: seq<Reason>)
    requires forall x | x in ys :: !Applies(r, x, now)
    ensures Select(r, now, xs + ys) == Select(r, now, xs)
  {
    hide Applies;
    if ys == [] {
      assert xs + ys == xs;
    } else {
      SelectTail(r, now, xs, ys[..|ys| - 1]);
      assert xs + ys == (xs + ys[..|ys| - 1]) + [ys[|ys| - 1]];
      SelectAppend(r, now, xs + ys[..|ys| - 1], ys[|ys| - 1]);
    }
  }

  function One(r: DashRow, now: int, x: Reason): seq<Reason> { if Applies(r, x, now) then [x] else [] }

  const HEAD: seq<Reason> := [OfflineLong, Unready, PermissionsMissing, Flaps]
  const TAIL: seq<Reason> := [BatteryLow, Lags, RunsHot, MemoryLow, DiskLow, PanelIsOff, TouchLost]

  /** What the first pass collects about an offline device (and drops), spelled out. */
  lemma {:induction false} FirstOffline(r: DashRow, now: int)
    requires !r.online
    ensures Select(r, now, FIRST) == One(r, now, OfflineLong) + One(r, now, PermissionsMissing) + One(r, now, Flaps)
  {
    hide Applies, Select;
    forall x: Reason | Applies(r, x, now) ensures x.OfflineLong? || x.PermissionsMissing? || x.Flaps? {
      OfflineApplies(r, now, x);
    }
    assert FIRST == HEAD + TAIL;
    SelectTail(r, now, HEAD, TAIL);
    SelectHead(r, now);
  }

  lemma {:induction false} SelectHead(r: DashRow, now: int)
    ensures Select(r, now, HEAD) ==
              One(r, now, OfflineLong) + One(r, now, Unready) + One(r, now, PermissionsMissing) + One(r, now, Flaps)
  {
    hide Applies, Select;
    SelectNothing(r, now);
    SelectAppend(r, now, [], OfflineLong);
    SelectAppend(r, now, [OfflineLong], Unready);
    SelectAppend(r, now, [OfflineLong, Unready], PermissionsMissing);
    SelectAppend(r, now, [OfflineLong, Unready, PermissionsMissing], Flaps);
    assert [] + [OfflineLong] == [OfflineLong] && [OfflineLong] + [Unready] == [OfflineLong, Unready];
    assert [OfflineLong, Unready] + [PermissionsMissing] == [OfflineLong, Unready, PermissionsMissing];
    assert [OfflineLong, Unready, PermissionsMissing] + [Flaps] == HEAD;
  }

  lemma {:induction false} SelectNothing(r: DashRow, now: int)
    ensures Select(r, now, []) == []
  {
  }

  lemma {:induction false} SecondOffline(r: DashRow, now: int)
    ensures Select(r, now, SECOND) == One(r, now, Flaps) + One(r, now, OfflineLong) + One(r, now, PermissionsMissing)
  {
    hide Applies, Select;
    SelectNothing(r, now);
    SelectAppend(r, now, [], Flaps);
    SelectAppend(r, now, [Flaps], OfflineLong);
    SelectAppend(r, now, [Flaps, OfflineLong], PermissionsMissing);
    assert [] + [Flaps] == [Flaps] && [Flaps] + [OfflineLong] == [Flaps, OfflineLong];
    assert [Flaps, OfflineLong] + [PermissionsMissing] == SECOND;
  }

  lemma {:induction false} SumAddsUp(xs: seq<Reason>, ys: seq<Reason>)
    ensures Sum(xs + ys) == Sum(xs) + Sum(ys)
  {
    if ys == [] {
      assert xs + ys == xs;
    } else {
      assert xs + ys == (xs + ys[..|ys| - 1]) + [ys[|ys| - 1]];
      SumAddsUp(xs, ys[..|ys| - 1]);
      SumAppend(xs + ys[..|ys| - 1], ys[|ys| - 1]);
    }
  }

  /** For an offline device the second pass finds a permutation of the reasons of the first one, so the scores agree. */
  lemma {:induction false} PassesAgree(r: DashRow, now: int)
    requires !r.online
    ensures multiset(Select(r, now, SECOND)) == multiset(Select(r, now, FIRST))
    ensures Sum(Select(r, now, SECOND)) == Score(r, now)
  {
    hide Applies, Select, Sum;
    FirstOffline(r, now);
    SecondOffline(r, now);
    var f, o, p := One(r, now, Flaps), One(r, now, OfflineLong), One(r, now, PermissionsMissing);
    SumAddsUp(f, o);
    SumAddsUp(f + o, p);
    SumAddsUp(o, p);
    SumAddsUp(o + p, f);
  }
}
