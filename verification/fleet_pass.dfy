/** The two passes of `summarizeFleet` over all rows, and its result. */
module FleetPass {
  import opened Options
  import opened Texts
  import opened Fleet
  import opened Dashboard
  import opened Sorting
  import opened Tally
  import opened FleetSummary
  import R = DeviceReadiness
  import Semver

  datatype Item = Item(deviceId: Text, caption: Option<Text>, group: Option<Text>, score: nat, reasons: seq<Reason>)

  datatype Nets = Nets(wifi: nat, cellular: nat, ethernet: nat, unknown: nat, weakSignal: nat)

  datatype Board = Board(
    total: nat,
    lists: Lists,
    tiers: map<R.Tier, nat>,
    net: Nets,
    neverSeen: nat,
    permissionsUnknown: nat,
    drops24h: int,
    versions: seq<Count>,
    events24h: seq<Count>,
    attention: seq<Item>)

  /** A list is there exactly if it has a device, and it is the filter of the rows by its own predicate. */
  ghost predicate ListsAre(m: Lists, rows: seq<DashRow>, now: int) {
    forall k :: Get(m, k) == Ids(rows, k, now) && (k in m <==> Ids(rows, k, now) != [])
  }

  /* ---------- the lists ---------- */

  lemma {:induction false} OfflineSections(r: DashRow, k: Key, now: int)
    requires !r.online
    ensures !Here(r, k, now, Networking) && !Here(r, k, now, Measuring)
  {
    hide TierOfRow, Semver.Less;
  }

  lemma {:induction false} IdsAppend(rows: seq<DashRow>, r: DashRow, k: Key, now: int)
    ensures Ids(rows + [r], k, now) == Ids(rows, k, now) + if Member(r, k, now) then [r.deviceId] else []
  {
    assert (rows + [r])[..|rows|] == rows;
  }

  lemma {:induction false} SectionsAddUp(a: Lists, b: Lists, c: Lists, d: Lists, e: Lists, f: Lists,
      rows: seq<DashRow>, r: DashRow, now: int)
    requires ListsAre(a, rows, now)
    requires Adds(a, b, r, now, Connecting) && Adds(b, c, r, now, Permitting) && Adds(c, d, r, now, Running)
    requires if r.online then Adds(d, e, r, now, Networking) && Adds(e, f, r, now, Measuring) else d == e == f
    ensures ListsAre(f, rows + [r], now)
  {
    hide Member, SectionOf, Ids, Get, Adds, Here;
    forall k ensures Get(f, k) == Ids(rows + [r], k, now) && (k in f <==> Ids(rows + [r], k, now) != []) {
      IdsAppend(rows, r, k, now);
      AddsAt(a, b, r, now, Connecting, k);
      AddsAt(b, c, r, now, Permitting, k);
      AddsAt(c, d, r, now, Running, k);
      if r.online {
        AddsAt(d, e, r, now, Networking, k);
        AddsAt(e, f, r, now, Measuring, k);
      } else {
        OfflineSections(r, k, now);
      }
      OneSection(r, k, now);
    }
  }

  lemma {:induction false} AddsAt(a: Lists, b: Lists, r: DashRow, now: int, sec: Section, k: Key)
    requires Adds(a, b, r, now, sec)
    ensures Get(b, k) == Get(a, k) + (if Here(r, k, now, sec) then [r.deviceId] else [])
    ensures k in b <==> k in a || Here(r, k, now, sec)
  {
    hide Here, Get;
  }

  /** A device is added to a list it belongs to in exactly one section, and to no other list. */
  lemma {:induction false} OneSection(r: DashRow, k: Key, now: int)
    ensures forall sec :: Here(r, k, now, sec) <==> Member(r, k, now) && sec == SectionOf(k)
  {
    hide Member, SectionOf;
  }

  /* ---------- the counters ---------- */

  ghost predicate NetsAre(n: Nets, rows: seq<DashRow>, now: int) {
    && n.wifi == |Ids(rows, Wifi, now)| && n.cellular == |Ids(rows, Cellular, now)|
        && n.ethernet == |Ids(rows, Ethernet, now)|
    && n.weakSignal == |Ids(rows, WeakSignal, now)|
    && n.wifi + n.cellular + n.ethernet + n.unknown == |Ids(rows, Online, now)|
  }

  method CountNet(n: Nets, ghost rows: seq<DashRow>, r: DashRow, ghost now: int) returns (n': Nets)
    requires NetsAre(n, rows, now)
    ensures NetsAre(n', rows + [r], now)
  {
    hide Ids;
    n' := n;
    NetsDiffer();
    IdsAppend(rows, r, Wifi, now);
    IdsAppend(rows, r, Cellular, now);
    IdsAppend(rows, r, Ethernet, now);
    IdsAppend(rows, r, WeakSignal, now);
    IdsAppend(rows, r, Online, now);
    if r.online {
      var net := Or(r.volatile.net, UNKNOWN);
      if net == WIFI { n' := n'.(wifi := n'.wifi + 1); }
      else if net == R.CELLULAR { n' := n'.(cellular := n'.cellular + 1); }
      else if net == ETHERNET { n' := n'.(ethernet := n'.ethernet + 1); }
      else { n' := n'.(unknown := n'.unknown + 1); }
      var rssi := Or(r.volatile.rssi, 0.0);
      if net == R.CELLULAR && rssi != 0.0 && rssi < WEAK_RSSI { n' := n'.(weakSignal := n'.weakSignal + 1); }
    }
  }

  const TIERS: set<R.Tier> := {R.Ready, R.Degraded, R.NotReady, R.Offline}

  ghost predicate TiersAre(t: map<R.Tier, nat>, rows: seq<DashRow>, now: int) {
    t.Keys == TIERS && forall x | x in TIERS :: t[x] == |Ids(rows, TierKey(x), now)|
  }

  method CountTier(t: map<R.Tier, nat>, ghost rows: seq<DashRow>, ghost r: DashRow, ghost now: int, tier: R.Tier)
    returns (t': map<R.Tier, nat>)
    requires TiersAre(t, rows, now) && tier == TierOfRow(r)
    ensures TiersAre(t', rows + [r], now)
  {
    hide Ids, TierOfRow;
    assert tier in TIERS;
    t' := t[tier := t[tier] + 1];
    forall x | x in TIERS ensures t'[x] == |Ids(rows + [r], TierKey(x), now)| { IdsAppend(rows, r, TierKey(x), now); }
  }

  function Drops(rows: seq<DashRow>): int {
    if rows == [] then 0 else Drops(rows[..|rows| - 1]) + rows[|rows| - 1].drops24h
  }

  /** The devices that reported an event code. */
  function Reporting(rows: seq<DashRow>, code: Text): nat {
    if rows == [] then 0
    else Reporting(rows[..|rows| - 1], code) + if code in rows[|rows| - 1].hwEvents24h then 1 else 0
  }

  /** The versions of the rows, one after another. */
  function VersionTexts(rows: seq<DashRow>): seq<Text> {
    if rows == [] then [] else VersionTexts(rows[..|rows| - 1]) + [VersionText(rows[|rows| - 1])]
  }

  /** The event codes of the rows, one device after another, each code once per device. */
  function EventTexts(rows: seq<DashRow>): seq<Text> {
    if rows == [] then [] else EventTexts(rows[..|rows| - 1]) + FirstOnes(rows[|rows| - 1].hwEvents24h)
  }

  ghost predicate VersionsAre(t: seq<Count>, rows: seq<DashRow>, now: int) {
    && t == TallyOf(VersionTexts(rows))
    && Proper(t) && Total(t) == |rows| && forall v :: CountOf(t, v) == |Ids(rows, VerKey(v), now)|
  }

  ghost predicate EventsAre(t: seq<Count>, rows: seq<DashRow>) {
    && t == TallyOf(EventTexts(rows))
    && Proper(t) && forall c :: CountOf(t, c) == Reporting(rows, c)
  }

  lemma {:induction false} VersionTextsAppend(rows: seq<DashRow>, r: DashRow)
    ensures VersionTexts(rows + [r]) == VersionTexts(rows) + [VersionText(r)]
    ensures EventTexts(rows + [r]) == EventTexts(rows) + FirstOnes(r.hwEvents24h)
  {
    assert (rows + [r])[..|rows|] == rows;
  }

  method CountVersion(t: seq<Count>, ghost rows: seq<DashRow>, r: DashRow, ghost now: int) returns (t': seq<Count>)
    requires VersionsAre(t, rows, now)
    ensures VersionsAre(t', rows + [r], now)
  {
    hide Ids, Proper, CountOf, Bump, Total, TallyOf, VersionTexts;
    var ver := Or(r.agentVer, UNKNOWN);
    t' := Bump(t, ver);
    VersionTextsAppend(rows, r);
    TallyAppend(VersionTexts(rows), ver);
    BumpNames(t, ver);
    BumpCounts(t, ver, ver);
    forall v ensures CountOf(t', v) == |Ids(rows + [r], VerKey(v), now)| {
      BumpCounts(t, ver, v);
      IdsAppend(rows, r, VerKey(v), now);
    }
  }

  /** Each code of a device counts once, however often it was reported. */
  method CountEvents(t: seq<Count>, ghost rows: seq<DashRow>, r: DashRow) returns (t': seq<Count>)
    requires EventsAre(t, rows)
    ensures EventsAre(t', rows + [r])
  {
    hide Proper, CountOf, Bump, TallyOf, EventTexts, FirstOnes;
    t' := t;
    var codes := r.hwEvents24h;
    ghost var before := EventTexts(rows);
    NoCodes();
    assert before + [] == before;
    for i := 0 to |codes|
      invariant Proper(t') && t' == TallyOf(before + FirstOnes(codes[..i]))
      invariant forall c :: CountOf(t', c) == CountOf(t, c) + if c in codes[..i] then 1 else 0
    {
      assert codes[..i + 1] == codes[..i] + [codes[i]];
      CodesAppend(codes[..i], codes[i]);
      if codes[i] !in codes[..i] {
        ghost var last := t';
        BumpNames(t', codes[i]);
        TallyAppend(before + FirstOnes(codes[..i]), codes[i]);
        assert before + FirstOnes(codes[..i]) + [codes[i]] == before + (FirstOnes(codes[..i]) + [codes[i]]);
        t' := Bump(t', codes[i]);
        forall c ensures CountOf(t', c) == CountOf(last, c) + if c == codes[i] then 1 else 0 {
          BumpCounts(last, codes[i], c);
        }
      }
    }
    assert codes[..|codes|] == codes;
    VersionTextsAppend(rows, r);
    assert (rows + [r])[..|rows|] == rows;
  }

  lemma {:induction false} NoCodes()
    ensures FirstOnes([]) == []
  {
  }

  lemma {:induction false} CodesAppend(xs: seq<Text>, x: Text)
    ensures FirstOnes(xs + [x]) == if x in xs then FirstOnes(xs) else FirstOnes(xs) + [x]
  {
    assert (xs + [x])[..|xs|] == xs;
  }

  /* ---------- attention ---------- */

  function FirstItem(r: DashRow, now: int): Item {
    Item(r.deviceId, r.caption, r.group, Score(r, now), Select(r, now, FIRST))
  }

  function LateItem(r: DashRow, now: int): Item {
    Item(r.deviceId, r.caption, r.group, Sum(Select(r, now, SECOND)), Select(r, now, SECOND))
  }

  /** What the first pass pushes: the online devices with a score. */
  function FirstItems(rows: seq<DashRow>, now: int): seq<Item> {
    if rows == [] then []
    else FirstItems(rows[..|rows| - 1], now) +
         var r := rows[|rows| - 1];
         if r.online && Score(r, now) > 0 then [FirstItem(r, now)] else []
  }

  /** What the second pass pushes: offline devices with a score whose id was not scored in the first one. */
  function LateItems(rows: seq<DashRow>, now: int, scored: set<Text>): seq<Item> {
    if rows == [] then []
    else LateItems(rows[..|rows| - 1], now, scored) +
         var r := rows[|rows| - 1];
         if !r.online && r.deviceId !in scored && LateItem(r, now).score > 0 then [LateItem(r, now)] else []
  }

  function IdsOf(items: seq<Item>): set<Text> { set x | x in items :: x.deviceId }

  method ScoreOf(reasons: seq<Reason>) returns (score: nat)
    ensures score == Sum(reasons)
  {
    score := 0;
    for i := 0 to |reasons|
      invariant score == Sum(reasons[..i])
    {
      assert reasons[..i + 1][..i] == reasons[..i];
      score := score + Weight(reasons[i]);
    }
    assert reasons[..|reasons|] == reasons;
  }

  method LateReasons(r: DashRow, now: int) returns (reasons: seq<Reason>)
    requires !r.online
    ensures reasons == Select(r, now, SECOND)
  {
    hide Select, Semver.Less, TierOfRow;
    SecondOffline(r, now);
    reasons := [];
    if r.drops24h >= FLAPPING_DROPS { reasons := reasons + [Flaps]; }
    if r.lastSeenMs.Some? && now - r.lastSeenMs.value > OFFLINE_LONG_MS { reasons := reasons + [OfflineLong]; }
    if r.caps.Some? && (!r.caps.value.a11y || !r.caps.value.overlay || !r.caps.value.secureSettings) {
      reasons := reasons + [PermissionsMissing];
    }
  }

  method SecondPass(rows: seq<DashRow>, now: int, first: seq<Item>) returns (items: seq<Item>)
    ensures items == first + LateItems(rows, now, IdsOf(first))
  {
    hide Select, Sum;
    var scored := IdsOf(first);
    items := first;
    for i := 0 to |rows|
      invariant items == first + LateItems(rows[..i], now, scored)
    {
      var r := rows[i];
      assert rows[..i + 1][..i] == rows[..i];
      if !r.online && r.deviceId !in scored {
        var reasons := LateReasons(r, now);
        var score := ScoreOf(reasons);
        if score > 0 { items := items + [Item(r.deviceId, r.caption, r.group, score, reasons)]; }
      }
    }
    assert rows[..|rows|] == rows;
  }

  /** Higher scores first, equal ones by `less` on the ids, which stands for `localeCompare`. */
  function Urgency(less: (Text, Text) -> bool): (Item, Item) -> bool {
    (a: Item, b: Item) => a.score > b.score || (a.score == b.score && less(a.deviceId, b.deviceId))
  }

  function Candidates(rows: seq<DashRow>, now: int): seq<Item> {
    var first := FirstItems(rows, now);
    first + LateItems(rows, now, IdsOf(first))
  }

  function Cut<T>(s: seq<T>, n: nat): seq<T> { if n < |s| then s[..n] else s }

  /* ---------- the summary ---------- */

  datatype Acc = Acc(
    lists: Lists,
    tiers: map<R.Tier, nat>,
    net: Nets,
    neverSeen: nat,
    drops: int,
    versions: seq<Count>,
    events: seq<Count>,
    attention: seq<Item>)

  ghost predicate AccIs(a: Acc, rows: seq<DashRow>, now: int) {
    && ListsAre(a.lists, rows, now) && TiersAre(a.tiers, rows, now) && NetsAre(a.net, rows, now)
    && a.neverSeen == |Ids(rows, NeverSeen, now)| && a.drops == Drops(rows)
    && VersionsAre(a.versions, rows, now) && EventsAre(a.events, rows)
    && a.attention == FirstItems(rows, now)
  }

  lemma {:induction false} AccEmpty(now: int)
    ensures AccIs(Acc(map[], map x | x in TIERS :: 0, Nets(0, 0, 0, 0, 0), 0, 0, [], [], []), [], now)
  {
  }

  method CountItem(items: seq<Item>, ghost rows: seq<DashRow>, r: DashRow, ghost now: int, reasons: seq<Reason>)
    returns (items': seq<Item>)
    requires items == FirstItems(rows, now) && (r.online ==> reasons == Select(r, now, FIRST))
    ensures items' == FirstItems(rows + [r], now)
  {
    hide Select, Sum;
    assert (rows + [r])[..|rows|] == rows;
    items' := items;
    if r.online {
      var score := ScoreOf(reasons);
      if score > 0 { items' := items' + [Item(r.deviceId, r.caption, r.group, score, reasons)]; }
    }
  }

  lemma {:induction false} DropsAppend(rows: seq<DashRow>, r: DashRow)
    ensures Drops(rows + [r]) == Drops(rows) + r.drops24h
  {
    assert (rows + [r])[..|rows|] == rows;
  }

  method Visit(a: Acc, ghost rows: seq<DashRow>, r: DashRow, now: int) returns (b: Acc)
    requires AccIs(a, rows, now)
    ensures AccIs(b, rows + [r], now)
  {
    hide ListsAre, TiersAre, NetsAre, VersionsAre, EventsAre, Adds, Found, Select, Ids, R.TierOf, FirstItems, Drops;
    IdsAppend(rows, r, NeverSeen, now);
    DropsAppend(rows, r);
    var readiness := R.ComputeReadiness(ToState(r));
    var l1, reasons := Connectivity(a.lists, r, now, readiness.tier);
    var l2, l3;
    l2, reasons := Permissions(l1, r, now, reasons);
    l3, reasons := Stability(l2, r, now, reasons);
    var l4, lists := l3, l3;
    if r.online {
      l4, reasons := Network(l3, r, now, reasons);
      lists, reasons := Hardware(l4, r, now, reasons);
      FoundAll(r, now);
    }
    SectionsAddUp(a.lists, l1, l2, l3, l4, lists, rows, r, now);
    var tiers := CountTier(a.tiers, rows, r, now, readiness.tier);
    var net := CountNet(a.net, rows, r, now);
    var versions := CountVersion(a.versions, rows, r, now);
    var events := CountEvents(a.events, rows, r);
    var neverSeen := if !r.online && r.lastSeenMs.None? then a.neverSeen + 1 else a.neverSeen;
    var attention := CountItem(a.attention, rows, r, now, reasons);
    b := Acc(lists, tiers, net, neverSeen, a.drops + r.drops24h, versions, events, attention);
  }

  /** The rows that ever reported capabilities. */
  function WithCaps(rows: seq<DashRow>): nat {
    if rows == [] then 0 else WithCaps(rows[..|rows| - 1]) + if rows[|rows| - 1].caps.Some? then 1 else 0
  }

  lemma {:induction false} UnknownIsRest(rows: seq<DashRow>, now: int)
    ensures WithCaps(rows) + |Ids(rows, PermissionsUnknown, now)| == |rows|
  {
    if rows != [] { UnknownIsRest(rows[..|rows| - 1], now); }
  }

  method CountCaps(rows: seq<DashRow>) returns (n: nat)
    ensures n == WithCaps(rows)
  {
    n := 0;
    for i := 0 to |rows|
      invariant n == WithCaps(rows[..i])
    {
      assert rows[..i + 1][..i] == rows[..i];
      if rows[i].caps.Some? { n := n + 1; }
    }
    assert rows[..|rows|] == rows;
  }

  /**
   * One pass equals many filters: every list is the filter of the rows by its own predicate, every count the length
   * of its list; the attention list is the ranking of all candidates, cut to the first `maxAttention`.
   */
  method SummarizeFleet(rows: seq<DashRow>, now: int, maxAttention: nat, less: (Text, Text) -> bool) returns (b: Board)
    ensures b.total == |rows|
    ensures ListsAre(b.lists, rows, now) && TiersAre(b.tiers, rows, now) && NetsAre(b.net, rows, now)
    ensures b.neverSeen == |Ids(rows, NeverSeen, now)| && b.permissionsUnknown == |Ids(rows, PermissionsUnknown, now)|
    ensures b.drops24h == Drops(rows)
    ensures VersionsAre(TallyOf(VersionTexts(rows)), rows, now) && b.versions == Ranked(TallyOf(VersionTexts(rows)))
    ensures EventsAre(TallyOf(EventTexts(rows)), rows) && b.events24h == Ranked(TallyOf(EventTexts(rows)))
    ensures b.attention == Cut(StableSort(Candidates(rows, now), Urgency(less)), maxAttention)
  {
    hide ListsAre, TiersAre, NetsAre, VersionsAre, EventsAre, AccIs, StableSort, FirstItems, LateItems, Ids, Select,
        Sum;
    var a := Acc(map[], map x | x in TIERS :: 0, Nets(0, 0, 0, 0, 0), 0, 0, [], [], []);
    AccEmpty(now);
    for i := 0 to |rows|
      invariant AccIs(a, rows[..i], now)
    {
      assert rows[..i + 1] == rows[..i] + [rows[i]];
      a := Visit(a, rows[..i], rows[i], now);
    }
    assert rows[..|rows|] == rows;
    AccMeans(a, rows, now);
    var attention := SecondPass(rows, now, a.attention);
    var withCaps := CountCaps(rows);
    UnknownIsRest(rows, now);
    b := Board(|rows|, a.lists, a.tiers, a.net, a.neverSeen, |rows| - withCaps, a.drops, Ranked(a.versions),
        Ranked(a.events),
               Cut(StableSort(attention, Urgency(less)), maxAttention));
  }

  lemma {:induction false} AccMeans(a: Acc, rows: seq<DashRow>, now: int)
    requires AccIs(a, rows, now)
    ensures ListsAre(a.lists, rows, now) && TiersAre(a.tiers, rows, now) && NetsAre(a.net, rows, now)
    ensures a.neverSeen == |Ids(rows, NeverSeen, now)| && a.drops == Drops(rows)
    ensures VersionsAre(a.versions, rows, now) && EventsAre(a.events, rows) && a.attention == FirstItems(rows, now)
    ensures a.versions == TallyOf(VersionTexts(rows)) && a.events == TallyOf(EventTexts(rows))
  {
  }
}
