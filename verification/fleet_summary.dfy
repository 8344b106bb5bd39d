/** `summarizeFleet`: one pass over the rows that fills every list and count, and a second one for offline devices. */
module FleetSummary {
  import opened Options
  import opened Texts
  import opened Fleet
  import opened Dashboard
  import R = DeviceReadiness
  import Semver

  type Lists = map<Key, seq<Text>>

  function Get(m: Lists, k: Key): seq<Text> { if k in m then m[k] else [] }

  function Add(m: Lists, k: Key, id: Text): Lists { m[k := Get(m, k) + [id]] }

  datatype Section = Connecting | Permitting | Running | Networking | Measuring

  /** Which part of the pass fills a list, and where in that part. */
  function Place(k: Key): (Section, nat) {
    match k
    case TierKey(_) => (Connecting, 0)
    case Online => (Connecting, 1)
    case Offline => (Connecting, 2)
    case NeverSeen => (Connecting, 3)
    case OfflineOver24h => (Connecting, 4)
    case NotReady => (Connecting, 5)
    case PermissionsUnknown => (Permitting, 0)
    case PermissionsIncomplete => (Permitting, 1)
    case MissingSecureSettings => (Permitting, 2)
    case MissingA11y => (Permitting, 3)
    case MissingOverlay => (Permitting, 4)
    case PermissionsComplete => (Permitting, 5)
    case VerKey(_) => (Running, 0)
    case Outdated => (Running, 1)
    case Flapping => (Running, 2)
    case NoSession7d => (Running, 3)
    case Wifi => (Networking, 0)
    case Cellular => (Networking, 1)
    case Ethernet => (Networking, 2)
    case WeakSignal => (Networking, 3)
    case NotCharging => (Networking, 4)
    case LowBattery => (Networking, 5)
    case NoHwData => (Measuring, 0)
    case Lagging => (Measuring, 1)
    case Hot => (Measuring, 2)
    case LowMem => (Measuring, 3)
    case LowDisk => (Measuring, 4)
    case PanelDark => (Measuring, 5)
    case TouchGone => (Measuring, 6)
    case UiIdle24h => (Measuring, 7)
    case UiIdle6h => (Measuring, 8)
  }

  function SectionOf(k: Key): Section { Place(k).0 }

  function Size(sec: Section): nat {
    match sec
    case Connecting => 6
    case Permitting => 6
    case Running => 4
    case Networking => 6
    case Measuring => 9
  }

  /** The list at a place, for a given device. */
  function KeyAt(r: DashRow, sec: Section, n: nat): Key {
    match sec
    case Connecting =>
      if n == 0 then TierKey(TierOfRow(r)) else if n == 1 then Online else if n == 2 then Offline else
      if n == 3 then NeverSeen else if n == 4 then OfflineOver24h else NotReady
    case Permitting =>
      if n == 0 then PermissionsUnknown else if n == 1 then PermissionsIncomplete else
      if n == 2 then MissingSecureSettings else if n == 3 then MissingA11y else
      if n == 4 then MissingOverlay else PermissionsComplete
    case Running =>
      if n == 0 then VerKey(VersionText(r)) else if n == 1 then Outdated else if n == 2 then Flapping else
      NoSession7d
    case Networking =>
      if n == 0 then Wifi else if n == 1 then Cellular else if n == 2 then Ethernet else
      if n == 3 then WeakSignal else if n == 4 then NotCharging else LowBattery
    case Measuring =>
      if n == 0 then NoHwData else if n == 1 then Lagging else if n == 2 then Hot else
      if n == 3 then LowMem else if n == 4 then LowDisk else if n == 5 then PanelDark else
      if n == 6 then TouchGone else if n == 7 then UiIdle24h else UiIdle6h
  }

  predicate Here(r: DashRow, k: Key, now: int, sec: Section) { SectionOf(k) == sec && Member(r, k, now) }

  /** A section adds the device to exactly those of its lists that it belongs to, once each, at the end. */
  ghost predicate Adds(a: Lists, b: Lists, r: DashRow, now: int, sec: Section) {
    forall k :: Get(b, k) == Get(a, k) + (if Here(r, k, now, sec) then [r.deviceId] else [])
                && (k in b <==> k in a || Here(r, k, now, sec))
  }

  /** The lists when the first `n` places of a section have been seen to. */
  function Upto(m: Lists, r: DashRow, now: int, sec: Section, n: nat): Lists {
    if n == 0 then m else
    var k := KeyAt(r, sec, n - 1);
    if Member(r, k, now) then Add(Upto(m, r, now, sec, n - 1), k, r.deviceId) else Upto(m, r, now, sec, n - 1)
  }

  lemma {:induction false} UptoNone(m: Lists, r: DashRow, now: int, sec: Section)
    ensures Upto(m, r, now, sec, 0) == m
  {
  }

  lemma {:induction false} UptoNext(m: Lists, r: DashRow, now: int, sec: Section, n: nat, k: Key, b: bool)
    requires k == KeyAt(r, sec, n) && b == Member(r, k, now)
    ensures Upto(m, r, now, sec, n + 1) ==
            if b then Add(Upto(m, r, now, sec, n), k, r.deviceId) else Upto(m, r, now, sec, n)
  {
    hide Member, KeyAt;
  }

  lemma {:induction false} PlaceOfKey(r: DashRow, sec: Section, n: nat)
    requires n < Size(sec)
    ensures Place(KeyAt(r, sec, n)) == (sec, n)
  {
  }

  lemma {:induction false} KeyOfPlace(r: DashRow, k: Key)
    requires k.TierKey? ==> k.tier == TierOfRow(r)
    requires k.VerKey? ==> k.version == VersionText(r)
    ensures KeyAt(r, SectionOf(k), Place(k).1) == k && Place(k).1 < Size(SectionOf(k))
  {
    match SectionOf(k)
    case Connecting => KeyOfConnecting(r, k);
    case Permitting => KeyOfPermitting(r, k);
    case Running => KeyOfRunning(r, k);
    case Networking => KeyOfNetworking(r, k);
    case Measuring => KeyOfMeasuring(r, k);
  }

  lemma {:induction false} KeyOfConnecting(r: DashRow, k: Key)
    requires SectionOf(k) == Connecting && (k.TierKey? ==> k.tier == TierOfRow(r))
    ensures KeyAt(r, Connecting, Place(k).1) == k && Place(k).1 < Size(Connecting)
  {
    hide TierOfRow, VersionText;
  }

  lemma {:induction false} KeyOfPermitting(r: DashRow, k: Key)
    requires SectionOf(k) == Permitting
    ensures KeyAt(r, Permitting, Place(k).1) == k && Place(k).1 < Size(Permitting)
  {
    hide TierOfRow, VersionText;
  }

  lemma {:induction false} KeyOfRunning(r: DashRow, k: Key)
    requires SectionOf(k) == Running && (k.VerKey? ==> k.version == VersionText(r))
    ensures KeyAt(r, Running, Place(k).1) == k && Place(k).1 < Size(Running)
  {
    hide TierOfRow, VersionText;
  }

  lemma {:induction false} KeyOfNetworking(r: DashRow, k: Key)
    requires SectionOf(k) == Networking
    ensures KeyAt(r, Networking, Place(k).1) == k && Place(k).1 < Size(Networking)
  {
    hide TierOfRow, VersionText;
  }

  lemma {:induction false} KeyOfMeasuring(r: DashRow, k: Key)
    requires SectionOf(k) == Measuring
    ensures KeyAt(r, Measuring, Place(k).1) == k && Place(k).1 < Size(Measuring)
  {
    hide TierOfRow, VersionText;
  }

  lemma {:induction false} MemberAt(r: DashRow, k: Key, now: int)
    requires Member(r, k, now)
    ensures KeyAt(r, SectionOf(k), Place(k).1) == k && Place(k).1 < Size(SectionOf(k))
  {
    hide Semver.Less, TierOfRow, KeyAt, Place;
    KeyOfPlace(r, k);
  }

  lemma {:induction false} AddGet(m: Lists, k: Key, id: Text, j: Key)
    ensures Get(Add(m, k, id), j) == Get(m, j) + (if j == k then [id] else [])
    ensures j in Add(m, k, id) <==> j in m || j == k
  {
  }

  lemma {:induction false} UptoAdds(m: Lists, r: DashRow, now: int, sec: Section, n: nat, k: Key)
    requires n <= Size(sec)
    ensures var b := Upto(m, r, now, sec, n);
            var here := Here(r, k, now, sec) && Place(k).1 < n;
            Get(b, k) == Get(m, k) + (if here then [r.deviceId] else []) && (k in b <==> k in m || here)
  {
    hide Member, KeyAt, Place, Add, Get, Size;
    if n > 0 {
      UptoAdds(m, r, now, sec, n - 1, k);
      var j := KeyAt(r, sec, n - 1);
      PlaceOfKey(r, sec, n - 1);
      AddGet(Upto(m, r, now, sec, n - 1), j, r.deviceId, k);
      if Member(r, k, now) { MemberAt(r, k, now); }
    }
  }

  lemma {:induction false} SectionAdds(m: Lists, r: DashRow, now: int, sec: Section)
    ensures Adds(m, Upto(m, r, now, sec, Size(sec)), r, now, sec)
  {
    hide Member, KeyAt, Upto, Get;
    forall k
      ensures var b := Upto(m, r, now, sec, Size(sec));
              Get(b, k) == Get(m, k) + (if Here(r, k, now, sec) then [r.deviceId] else [])
              && (k in b <==> k in m || Here(r, k, now, sec))
    {
      UptoAdds(m, r, now, sec, Size(sec), k);
      if Member(r, k, now) { MemberAt(r, k, now); }
    }
  }

  /** The reasons found when the first `n` kinds have been looked at. */
  function Found(r: DashRow, now: int, n: nat): seq<Reason> {
    if n == 0 then [] else Found(r, now, n - 1) + One(r, now, Kind(n - 1))
  }

  lemma {:induction false} FoundPrefix(r: DashRow, now: int, n: nat)
    requires n <= |FIRST|
    ensures Found(r, now, n) == Select(r, now, FIRST[..n])
  {
    hide Applies, Select;
    if n == 0 {
      SelectNothing(r, now);
    } else {
      FoundPrefix(r, now, n - 1);
      SelectAppend(r, now, FIRST[..n - 1], FIRST[n - 1]);
      assert FIRST[..n] == FIRST[..n - 1] + [FIRST[n - 1]];
      assert FIRST[n - 1] == Kind(n - 1);
    }
  }

  lemma {:induction false} FoundAll(r: DashRow, now: int)
    ensures Found(r, now, 11) == Select(r, now, FIRST)
  {
    FoundPrefix(r, now, 11);
    assert FIRST[..11] == FIRST;
  }

  lemma {:induction false} FoundNone(r: DashRow, now: int)
    ensures Found(r, now, 0) == []
  {
  }

  lemma {:induction false} FoundNext(r: DashRow, now: int, n: nat, x: Reason, b: bool)
    requires x == Kind(n) && b == Applies(r, x, now)
    ensures Found(r, now, n + 1) == Found(r, now, n) + if b then [x] else []
  {
  }

  method Connectivity(m: Lists, r: DashRow, now: int, tier: R.Tier) returns (m': Lists, reasons: seq<Reason>)
    requires tier == TierOfRow(r)
    ensures Adds(m, m', r, now, Connecting) && reasons == Found(r, now, 2)
  {
    hide TierOfRow, Select, Found, Upto, Add, Adds;
    m', reasons := m, [];
    UptoNone(m, r, now, Connecting);
    UptoNext(m, r, now, Connecting, 0, TierKey(tier), true);
    UptoNext(m, r, now, Connecting, 1, Online, r.online);
    UptoNext(m, r, now, Connecting, 2, Offline, !r.online);
    UptoNext(m, r, now, Connecting, 3, NeverSeen, !r.online && r.lastSeenMs.None?);
    UptoNext(m, r, now, Connecting, 4, OfflineOver24h, !r.online && r.lastSeenMs.Some?
        && now - r.lastSeenMs.value > OFFLINE_LONG_MS);
    UptoNext(m, r, now, Connecting, 5, NotReady, TierOfRow(r).NotReady?);
    SectionAdds(m, r, now, Connecting);
    m' := Add(m', TierKey(tier), r.deviceId);
    FoundNone(r, now);
    FoundNext(r, now, 0, OfflineLong, !r.online && r.lastSeenMs.Some? && now - r.lastSeenMs.value > OFFLINE_LONG_MS);
    FoundNext(r, now, 1, Unready, tier.NotReady?);
    if r.online {
      m' := Add(m', Online, r.deviceId);
    } else {
      m' := Add(m', Offline, r.deviceId);
      if r.lastSeenMs.None? {
        m' := Add(m', NeverSeen, r.deviceId);
      } else if now - r.lastSeenMs.value > OFFLINE_LONG_MS {
        m' := Add(m', OfflineOver24h, r.deviceId);
        reasons := reasons + [OfflineLong];
      }
    }
    if tier.NotReady? {
      m' := Add(m', NotReady, r.deviceId);
      reasons := reasons + [Unready];
    }
  }

  method Permissions(m: Lists, r: DashRow, now: int, reasons: seq<Reason>) returns (m': Lists, reasons': seq<Reason>)
    requires reasons == Found(r, now, 2)
    ensures Adds(m, m', r, now, Permitting) && reasons' == Found(r, now, 3)
  {
    hide TierOfRow, Select, Found, Upto, Add, Adds;
    m', reasons' := m, reasons;
    UptoNone(m, r, now, Permitting);
    UptoNext(m, r, now, Permitting, 0, PermissionsUnknown, r.caps.None?);
    UptoNext(m, r, now, Permitting, 1, PermissionsIncomplete, r.caps.Some? && !AllPermissions(r));
    UptoNext(m, r, now, Permitting, 2, MissingSecureSettings, r.caps.Some? && !r.caps.value.secureSettings);
    UptoNext(m, r, now, Permitting, 3, MissingA11y, r.caps.Some? && !r.caps.value.a11y);
    UptoNext(m, r, now, Permitting, 4, MissingOverlay, r.caps.Some? && !r.caps.value.overlay);
    UptoNext(m, r, now, Permitting, 5, PermissionsComplete, AllPermissions(r));
    SectionAdds(m, r, now, Permitting);
    FoundNext(r, now, 2, PermissionsMissing, r.caps.Some? && !AllPermissions(r));
    if r.caps.None? {
      m' := Add(m', PermissionsUnknown, r.deviceId);
    } else {
      var c := r.caps.value;
      if !c.secureSettings || !c.a11y || !c.overlay {
        m' := Add(m', PermissionsIncomplete, r.deviceId);
        if !c.secureSettings { m' := Add(m', MissingSecureSettings, r.deviceId); }
        if !c.a11y { m' := Add(m', MissingA11y, r.deviceId); }
        if !c.overlay { m' := Add(m', MissingOverlay, r.deviceId); }
        reasons' := reasons' + [PermissionsMissing];
      } else {
        m' := Add(m', PermissionsComplete, r.deviceId);
      }
    }
  }

  method Stability(m: Lists, r: DashRow, now: int, reasons: seq<Reason>) returns (m': Lists, reasons': seq<Reason>)
    requires reasons == Found(r, now, 3)
    ensures Adds(m, m', r, now, Running) && reasons' == Found(r, now, 4)
  {
    hide TierOfRow, Select, Found, Semver.Less, Upto, Add, Adds;
    m', reasons' := m, reasons;
    UptoNone(m, r, now, Running);
    UptoNext(m, r, now, Running, 0, VerKey(VersionText(r)), true);
    UptoNext(m, r, now, Running, 1, Outdated, Version(r).Some? && Semver.Less(Version(r).value, R.MIN_AGENT_VER));
    UptoNext(m, r, now, Running, 2, Flapping, r.drops24h >= FLAPPING_DROPS);
    UptoNext(m, r, now, Running, 3, NoSession7d, r.lastSessionMs.Some? ==> now - r.lastSessionMs.value > NO_SESSION_MS);
    SectionAdds(m, r, now, Running);
    FoundNext(r, now, 3, Flaps, r.drops24h >= FLAPPING_DROPS);
    m' := Add(m', VerKey(Or(r.agentVer, UNKNOWN)), r.deviceId);
    if Or(r.agentVer, []) != [] {
      var old' := Semver.SemverLt(r.agentVer.value, R.MIN_AGENT_VER);
      if old' { m' := Add(m', Outdated, r.deviceId); }
    }
    if r.drops24h >= FLAPPING_DROPS {
      m' := Add(m', Flapping, r.deviceId);
      reasons' := reasons' + [Flaps];
    }
    if r.lastSessionMs.None? || now - r.lastSessionMs.value > NO_SESSION_MS { m' := Add(m', NoSession7d, r.deviceId); }
  }

  method Network(m: Lists, r: DashRow, now: int, reasons: seq<Reason>) returns (m': Lists, reasons': seq<Reason>)
    requires r.online && reasons == Found(r, now, 4)
    ensures Adds(m, m', r, now, Networking) && reasons' == Found(r, now, 5)
  {
    hide TierOfRow, Select, Found, Upto, Add, Adds;
    NetsDiffer();
    m', reasons' := m, reasons;
    UptoNone(m, r, now, Networking);
    UptoNext(m, r, now, Networking, 0, Wifi, Net(r) == WIFI);
    UptoNext(m, r, now, Networking, 1, Cellular, Net(r) == R.CELLULAR);
    UptoNext(m, r, now, Networking, 2, Ethernet, Net(r) == ETHERNET);
    UptoNext(m, r, now, Networking, 3, WeakSignal, Net(r) == R.CELLULAR && Below(r.volatile.rssi, WEAK_RSSI));
    SectionAdds(m, r, now, Networking);
    var n := Or(r.volatile.net, UNKNOWN);
    if n == WIFI { m' := Add(m', Wifi, r.deviceId); }
    else if n == R.CELLULAR { m' := Add(m', Cellular, r.deviceId); }
    else if n == ETHERNET { m' := Add(m', Ethernet, r.deviceId); }
    var rssi := Or(r.volatile.rssi, 0.0);
    if n == R.CELLULAR && rssi != 0.0 && rssi < WEAK_RSSI { m' := Add(m', WeakSignal, r.deviceId); }
    m', reasons' := Battery(m, m', r, now, reasons');
  }

  /** `a` is the record of lists before the network part. */
  method Battery(ghost a: Lists, m: Lists, r: DashRow, now: int, reasons: seq<Reason>)
      returns (m': Lists, reasons': seq<Reason>)
    requires r.online && m == Upto(a, r, now, Networking, 4) && reasons == Found(r, now, 4)
    ensures m' == Upto(a, r, now, Networking, 6) && reasons' == Found(r, now, 5)
  {
    hide TierOfRow, Select, Found, Upto, Add;
    m', reasons' := m, reasons;
    UptoNext(a, r, now, Networking, 4, NotCharging, r.volatile.charging != Some(true));
    UptoNext(a, r, now, Networking, 5, LowBattery, r.volatile.charging != Some(true)
        && Below(r.volatile.batteryPct, LOW_BATTERY_PCT));
    FoundNext(r, now, 4, BatteryLow, r.volatile.charging != Some(true)
        && Below(r.volatile.batteryPct, LOW_BATTERY_PCT));
    if !Or(r.volatile.charging, false) {
      m' := Add(m', NotCharging, r.deviceId);
      if Or(r.volatile.batteryPct, 100.0) < LOW_BATTERY_PCT {
        m' := Add(m', LowBattery, r.deviceId);
        reasons' := reasons' + [BatteryLow];
      }
    }
  }

  lemma {:induction false} NetsDiffer()
    ensures WIFI != R.CELLULAR && WIFI != ETHERNET && R.CELLULAR != ETHERNET
    ensures UNKNOWN != WIFI && UNKNOWN != R.CELLULAR && UNKNOWN != ETHERNET
  {
    assert |WIFI| == 4 && |UNKNOWN| == 7 && |R.CELLULAR| == 8 && R.CELLULAR[0] != ETHERNET[0];
  }

  method Hardware(m: Lists, r: DashRow, now: int, reasons: seq<Reason>) returns (m': Lists, reasons': seq<Reason>)
    requires r.online && reasons == Found(r, now, 5)
    ensures Adds(m, m', r, now, Measuring) && reasons' == Found(r, now, 11)
  {
    hide TierOfRow, Select, Found, Upto, Add, Adds;
    m', reasons' := m, reasons;
    UptoNone(m, r, now, Measuring);
    UptoNext(m, r, now, Measuring, 0, NoHwData, r.hw.None?);
    SectionAdds(m, r, now, Measuring);
    if r.hw.None? {
      m' := Add(m', NoHwData, r.deviceId);
      NothingMeasured(m, r, now);
    } else {
      m', reasons' := Strain(m, m', r, r.hw.value, now, reasons');
      m', reasons' := Space(m, m', r, r.hw.value, now, reasons');
      m', reasons' := Surfaces(m, m', r, r.hw.value, now, reasons');
      m' := Idleness(m, m', r, r.hw.value, now);
    }
  }

  lemma {:induction false} NothingMeasured(m: Lists, r: DashRow, now: int)
    requires r.hw.None?
    ensures Upto(m, r, now, Measuring, 9) == Upto(m, r, now, Measuring, 1) && Found(r, now, 11) == Found(r, now, 5)
  {
    hide Upto, Found, Add, AtLeast, Below, PanelOff;
    NoMeters(m, r, now);
    UptoNext(m, r, now, Measuring, 5, PanelDark, PanelOff(r));
    UptoNext(m, r, now, Measuring, 6, TouchGone, false);
    UptoNext(m, r, now, Measuring, 7, UiIdle24h, false);
    UptoNext(m, r, now, Measuring, 8, UiIdle6h, false);
    FoundNext(r, now, 9, PanelIsOff, false);
    FoundNext(r, now, 10, TouchLost, false);
  }

  lemma {:induction false} NoMeters(m: Lists, r: DashRow, now: int)
    requires r.hw.None?
    ensures Upto(m, r, now, Measuring, 5) == Upto(m, r, now, Measuring, 1) && Found(r, now, 9) == Found(r, now, 5)
    ensures !PanelOff(r)
  {
    hide Upto, Found, Add, AtLeast, Below;
    UptoNext(m, r, now, Measuring, 1, Lagging, false);
    UptoNext(m, r, now, Measuring, 2, Hot, false);
    UptoNext(m, r, now, Measuring, 3, LowMem, false);
    UptoNext(m, r, now, Measuring, 4, LowDisk, false);
    FoundNext(r, now, 5, Lags, false);
    FoundNext(r, now, 6, RunsHot, false);
    FoundNext(r, now, 7, MemoryLow, false);
    FoundNext(r, now, 8, DiskLow, false);
  }

  /** Lag and heat; `a` is the record of lists before the hardware part. */
  method Strain(ghost a: Lists, m: Lists, r: DashRow, hw: HwVolatile, now: int, reasons: seq<Reason>)
    returns (m': Lists, reasons': seq<Reason>)
    requires r.online && r.hw == Some(hw) && m == Upto(a, r, now, Measuring, 1) && reasons == Found(r, now, 5)
    ensures m' == Upto(a, r, now, Measuring, 3) && reasons' == Found(r, now, 7)
  {
    hide TierOfRow, Select, Found, Upto, Add;
    m', reasons' := m, reasons;
    UptoNext(a, r, now, Measuring, 1, Lagging, AtLeast(hw.mainLagMs, LAG_MS));
    UptoNext(a, r, now, Measuring, 2, Hot, AtLeast(hw.battTempC, HOT_BATT_C) || AtLeast(hw.thermal, HOT_THERMAL));
    FoundNext(r, now, 5, Lags, AtLeast(hw.mainLagMs, LAG_MS));
    FoundNext(r, now, 6, RunsHot, AtLeast(hw.battTempC, HOT_BATT_C) || AtLeast(hw.thermal, HOT_THERMAL));
    if Or(hw.mainLagMs, 0.0) >= LAG_MS {
      m', reasons' := Add(m', Lagging, r.deviceId), reasons' + [Lags];
    }
    if Or(hw.battTempC, 0.0) >= HOT_BATT_C || Or(hw.thermal, 0.0) >= HOT_THERMAL {
      m', reasons' := Add(m', Hot, r.deviceId), reasons' + [RunsHot];
    }
  }

  /** Memory and disk. */
  method Space(ghost a: Lists, m: Lists, r: DashRow, hw: HwVolatile, now: int, reasons: seq<Reason>)
    returns (m': Lists, reasons': seq<Reason>)
    requires r.online && r.hw == Some(hw) && m == Upto(a, r, now, Measuring, 3) && reasons == Found(r, now, 7)
    ensures m' == Upto(a, r, now, Measuring, 5) && reasons' == Found(r, now, 9)
  {
    hide TierOfRow, Select, Found, Upto, Add;
    m', reasons' := m, reasons;
    UptoNext(a, r, now, Measuring, 3, LowMem, Below(hw.memAvailMb, LOW_MEM_MB));
    UptoNext(a, r, now, Measuring, 4, LowDisk, Below(hw.diskFreeMb, LOW_DISK_MB));
    FoundNext(r, now, 7, MemoryLow, Below(hw.memAvailMb, LOW_MEM_MB));
    FoundNext(r, now, 8, DiskLow, Below(hw.diskFreeMb, LOW_DISK_MB));
    if hw.memAvailMb.Some? && hw.memAvailMb.value < LOW_MEM_MB {
      m', reasons' := Add(m', LowMem, r.deviceId), reasons' + [MemoryLow];
    }
    if hw.diskFreeMb.Some? && hw.diskFreeMb.value < LOW_DISK_MB {
      m', reasons' := Add(m', LowDisk, r.deviceId), reasons' + [DiskLow];
    }
  }

  /** Panel and touch. */
  method Surfaces(ghost a: Lists, m: Lists, r: DashRow, hw: HwVolatile, now: int, reasons: seq<Reason>)
    returns (m': Lists, reasons': seq<Reason>)
    requires r.online && r.hw == Some(hw) && m == Upto(a, r, now, Measuring, 5) && reasons == Found(r, now, 9)
    ensures m' == Upto(a, r, now, Measuring, 7) && reasons' == Found(r, now, 11)
  {
    hide TierOfRow, Select, Found, Upto, Add;
    m', reasons' := m, reasons;
    UptoNext(a, r, now, Measuring, 5, PanelDark, PanelOff(r));
    UptoNext(a, r, now, Measuring, 6, TouchGone, hw.touchDevs == Some(0.0));
    FoundNext(r, now, 9, PanelIsOff, PanelOff(r));
    FoundNext(r, now, 10, TouchLost, hw.touchDevs == Some(0.0));
    if Or(r.volatile.screenOn, false) && hw.display.Some? && hw.display.value in {1.0, 3.0, 4.0} {
      m', reasons' := Add(m', PanelDark, r.deviceId), reasons' + [PanelIsOff];
    }
    if hw.touchDevs == Some(0.0) {
      m', reasons' := Add(m', TouchGone, r.deviceId), reasons' + [TouchLost];
    }
  }

  method Idleness(ghost a: Lists, m: Lists, r: DashRow, hw: HwVolatile, ghost now: int) returns (m': Lists)
    requires r.online && r.hw == Some(hw) && m == Upto(a, r, now, Measuring, 7)
    ensures m' == Upto(a, r, now, Measuring, 9)
  {
    hide TierOfRow, Select, Upto, Add;
    m' := m;
    UptoNext(a, r, now, Measuring, 7, UiIdle24h, AtLeast(hw.uiIdleMs, IDLE_VERY_LONG_MS));
    UptoNext(a, r, now, Measuring, 8, UiIdle6h, AtLeast(hw.uiIdleMs, IDLE_LONG_MS));
    if hw.uiIdleMs.Some? && hw.uiIdleMs.value >= IDLE_VERY_LONG_MS {
      m' := Add(m', UiIdle24h, r.deviceId);
      m' := Add(m', UiIdle6h, r.deviceId);
    } else if hw.uiIdleMs.Some? && hw.uiIdleMs.value >= IDLE_LONG_MS {
      m' := Add(m', UiIdle6h, r.deviceId);
    }
  }
}
