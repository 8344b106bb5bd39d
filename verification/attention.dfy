/** What the ranking and the counts of the dashboard promise. */
module Attention {
  import opened Texts
  import opened Fleet
  import opened Dashboard
  import opened Sorting
  import opened Tally
  import opened FleetSummary
  import opened FleetPass
  import R = DeviceReadiness

  /** An item says of a device what all reasons that apply to it say, in some order. */
  ghost predicate Describes(x: Item, r: DashRow, now: int) {
    && x.deviceId == r.deviceId && x.caption == r.caption && x.group == r.group
    && x.score == Score(r, now) > 0
    && multiset(x.reasons) == multiset(Select(r, now, FIRST))
  }

  ghost predicate ItemsAre(items: seq<Item>, rows: seq<DashRow>, now: int) {
    && (forall x | x in items :: exists r :: r in rows && Describes(x, r, now))
    && (forall r | r in rows && Score(r, now) > 0 :: exists x :: x in items && Describes(x, r, now))
  }

  ghost predicate DistinctItems(items: seq<Item>) {
    forall i, j | 0 <= i < j < |items| :: items[i].deviceId != items[j].deviceId
  }

  lemma {:induction false} FirstItemsAre(rows: seq<DashRow>, now: int)
    ensures forall x :: x in FirstItems(rows, now) <==>
              exists r :: r in rows && r.online && Score(r, now) > 0 && x == FirstItem(r, now)
  {
    hide Score, Select;
    if rows != [] {
      var init, r := rows[..|rows| - 1], rows[|rows| - 1];
      FirstItemsAre(init, now);
      assert rows == init + [r];
    }
  }

  lemma {:induction false} LateItemsAre(rows: seq<DashRow>, now: int, scored: set<Text>)
    ensures forall x :: x in LateItems(rows, now, scored) <==>
              exists r :: r in rows && !r.online && r.deviceId !in scored && LateItem(r, now).score > 0
                  && x == LateItem(r, now)
  {
    hide LateItem;
    if rows != [] {
      var init, r := rows[..|rows| - 1], rows[|rows| - 1];
      LateItemsAre(init, now, scored);
      assert rows == init + [r];
    }
  }

  lemma {:induction false} FirstItemsDistinct(rows: seq<DashRow>, now: int)
    requires Distinct(rows)
    ensures DistinctItems(FirstItems(rows, now))
  {
    hide Score, Select;
    if rows != [] {
      var init, r := rows[..|rows| - 1], rows[|rows| - 1];
      FirstItemsDistinct(init, now);
      FirstItemsAre(init, now);
      forall i | 0 <= i < |FirstItems(init, now)| ensures FirstItems(init, now)[i].deviceId != r.deviceId {
        assert FirstItems(init, now)[i] in FirstItems(init, now);
      }
    }
  }

  lemma {:induction false} LateItemsDistinct(rows: seq<DashRow>, now: int, scored: set<Text>)
    requires Distinct(rows)
    ensures DistinctItems(LateItems(rows, now, scored))
  {
    hide LateItem;
    if rows != [] {
      var init, r := rows[..|rows| - 1], rows[|rows| - 1];
      LateItemsDistinct(init, now, scored);
      LateItemsAre(init, now, scored);
      LateId(r, now);
      forall i | 0 <= i < |LateItems(init, now, scored)|
        ensures LateItems(init, now, scored)[i].deviceId != r.deviceId
      {
        assert LateItems(init, now, scored)[i] in LateItems(init, now, scored);
        var q :| q in init && LateItems(init, now, scored)[i] == LateItem(q, now);
        LateId(q, now);
      }
    }
  }

  lemma {:induction false} LateId(r: DashRow, now: int)
    ensures LateItem(r, now).deviceId == r.deviceId
  {
  }

  /** An offline device's late item says what the first pass collected about it and dropped. */
  lemma {:induction false} LateDescribes(r: DashRow, now: int)
    requires !r.online
    ensures LateItem(r, now).score == Score(r, now)
    ensures Score(r, now) > 0 ==> Describes(LateItem(r, now), r, now)
  {
    hide Select, Sum;
    PassesAgree(r, now);
  }

  lemma {:induction false} SameId(rows: seq<DashRow>, q: DashRow, r: DashRow)
    requires Distinct(rows) && q in rows && r in rows && q.deviceId == r.deviceId
    ensures q == r
  {
  }

  /**
   * With distinct ids both passes together list exactly the devices with a positive score, each once, with its score
   * and its reasons.
   */
  lemma {:induction false} CandidatesExact(rows: seq<DashRow>, now: int)
    requires Distinct(rows)
    ensures ItemsAre(Candidates(rows, now), rows, now) && DistinctItems(Candidates(rows, now))
  {
    hide Select, Score, Sum, FirstItems, LateItems, LateItem;
    var first := FirstItems(rows, now);
    var late := LateItems(rows, now, IdsOf(first));
    FirstItemsAre(rows, now);
    LateItemsAre(rows, now, IdsOf(first));
    FirstItemsDistinct(rows, now);
    LateItemsDistinct(rows, now, IdsOf(first));
    forall x | x in first + late ensures exists r :: r in rows && Describes(x, r, now) {
      if x in first {
        var r :| r in rows && r.online && Score(r, now) > 0 && x == FirstItem(r, now);
        assert Describes(x, r, now);
      } else {
        var r :| r in rows && !r.online && LateItem(r, now).score > 0 && x == LateItem(r, now);
        LateDescribes(r, now);
        assert Describes(x, r, now);
      }
    }
    forall r | r in rows && Score(r, now) > 0 ensures exists x :: x in first + late && Describes(x, r, now) {
      if r.online {
        assert FirstItem(r, now) in first && Describes(FirstItem(r, now), r, now);
        assert FirstItem(r, now) in first + late;
      } else {
        LateDescribes(r, now);
        NotScored(rows, now, r);
        assert LateItem(r, now) in late;
        assert LateItem(r, now) in first + late;
      }
    }
    forall i, j | 0 <= i < |first| && 0 <= j < |late| ensures first[i].deviceId != late[j].deviceId {
      assert late[j] in late && first[i] in first;
      var r :| r in rows && r.deviceId !in IdsOf(first) && late[j] == LateItem(r, now);
      LateId(r, now);
    }
  }

  lemma {:induction false} NotScored(rows: seq<DashRow>, now: int, r: DashRow)
    requires Distinct(rows) && r in rows && !r.online
    ensures r.deviceId !in IdsOf(FirstItems(rows, now))
  {
    hide Select, Score, FirstItems;
    FirstItemsAre(rows, now);
    forall x | x in FirstItems(rows, now) ensures x.deviceId != r.deviceId {
      var q :| q in rows && q.online && x == FirstItem(q, now);
      if q.deviceId == r.deviceId { SameId(rows, q, r); }
    }
  }

  /** The ids of a sequence are distinct exactly if no item occurs twice and different items have different ids. */
  lemma {:induction false} DistinctByItems(items: seq<Item>)
    requires DistinctItems(items)
    ensures forall x, y | x in items && y in items && x.deviceId == y.deviceId :: x == y
    ensures forall x :: multiset(items)[x] <= 1
  {
    forall x ensures multiset(items)[x] <= 1 { OnceEach(items, x); }
  }

  lemma {:induction false} OnceEach(items: seq<Item>, x: Item)
    requires DistinctItems(items)
    ensures multiset(items)[x] <= 1
  {
    if items != [] {
      var init, y := items[..|items| - 1], items[|items| - 1];
      OnceEach(init, x);
      assert items == init + [y];
      assert forall i | 0 <= i < |init| :: init[i] == items[i] && init[i].deviceId != y.deviceId;
      assert y !in init;
    }
  }

  lemma {:induction false} DistinctPermutes(s: seq<Item>, t: seq<Item>)
    requires DistinctItems(s) && multiset(s) == multiset(t)
    ensures DistinctItems(t)
  {
    DistinctByItems(s);
    SameItems(s, t);
    forall i, j | 0 <= i < j < |t| ensures t[i].deviceId != t[j].deviceId {
      assert t[i] in t && t[j] in t;
      if t[i] == t[j] { Twice(t, i, j); }
    }
  }

  lemma {:induction false} UrgencyOrders(less: (Text, Text) -> bool)
    requires Orders(less)
    ensures Orders(Urgency(less))
  {
    var u := Urgency(less);
    forall a, b | u(a, b) ensures !u(b, a) { assert less(a.deviceId, b.deviceId) ==> !less(b.deviceId, a.deviceId); }
    forall a, b, c | u(a, c) ensures u(a, b) || u(b, c) {
      if a.score == b.score == c.score { assert less(a.deviceId, b.deviceId) || less(b.deviceId, c.deviceId); }
    }
  }

  /**
   * The attention list, for a fleet with distinct ids and any collation: before the cut it holds exactly the devices
   * with a positive score, each once with its own score and reasons; it is sorted by falling score and then by id;
   * and no device left out by the cut would have belonged before one that is shown.
   */
  lemma {:induction false} AttentionRanking(rows: seq<DashRow>, now: int, maxAttention: nat, less: (Text, Text) -> bool)
    requires Distinct(rows) && Orders(less)
    ensures var all := StableSort(Candidates(rows, now), Urgency(less));
            var shown := Cut(all, maxAttention);
            && ItemsAre(all, rows, now) && DistinctItems(all)
            && |shown| == (if maxAttention < |all| then maxAttention else |all|)
            && (forall i, j | 0 <= i < j < |shown| :: shown[i].score >= shown[j].score &&
                  (shown[i].score == shown[j].score ==> !less(shown[j].deviceId, shown[i].deviceId)))
            && (forall i, j | 0 <= i < |shown| <= j < |all| :: shown[i].score >= all[j].score &&
                  (shown[i].score == all[j].score ==> !less(all[j].deviceId, shown[i].deviceId)))
  {
    hide Candidates, Describes, Score, StableSort;
    var u, c := Urgency(less), Candidates(rows, now);
    var all := StableSort(c, u);
    CandidatesExact(rows, now);
    UrgencyOrders(less);
    SortSorted(c, u);
    SortPermutes(c, u);
    DistinctPermutes(c, all);
    SameItems(c, all);
    forall i, j | 0 <= i < j < |all|
      ensures all[i].score >= all[j].score && (all[i].score == all[j].score ==> !less(all[j].deviceId, all[i].deviceId))
    {
      assert !u(all[j], all[i]);
    }
  }

  lemma {:induction false} SameItems(s: seq<Item>, t: seq<Item>)
    requires multiset(s) == multiset(t)
    ensures forall x :: x in s <==> x in t
  {
    forall x ensures x in s <==> x in t {
      assert x in s <==> x in multiset(s);
      assert x in t <==> x in multiset(t);
    }
  }

  /* ---------- partitions ---------- */

  /** Tiers, connectivity and permission classes each split the whole fleet; network kinds split the online devices. */
  lemma {:induction false} Partitions(rows: seq<DashRow>, now: int)
    ensures |Ids(rows, TierKey(R.Ready), now)| + |Ids(rows, TierKey(R.Degraded), now)| +
            |Ids(rows, TierKey(R.NotReady), now)| + |Ids(rows, TierKey(R.Offline), now)| == |rows|
    ensures |Ids(rows, Online, now)| + |Ids(rows, Offline, now)| == |rows|
    ensures |Ids(rows, PermissionsComplete, now)| + |Ids(rows, PermissionsIncomplete, now)| +
            |Ids(rows, PermissionsUnknown, now)| == |rows|
    ensures |Ids(rows, Wifi, now)| + |Ids(rows, Cellular, now)| + |Ids(rows, Ethernet, now)| <= |Ids(rows, Online, now)|
  {
    hide Member;
    if rows != [] {
      Partitions(rows[..|rows| - 1], now);
      RowPartitions(rows[|rows| - 1], now);
    }
  }

  function Tick(b: bool): nat { if b then 1 else 0 }

  lemma {:induction false} RowPartitions(r: DashRow, now: int)
    ensures Tick(Member(r, TierKey(R.Ready), now)) + Tick(Member(r, TierKey(R.Degraded), now)) +
            Tick(Member(r, TierKey(R.NotReady), now)) + Tick(Member(r, TierKey(R.Offline), now)) == 1
    ensures Tick(Member(r, Online, now)) + Tick(Member(r, Offline, now)) == 1
    ensures Tick(Member(r, PermissionsComplete, now)) + Tick(Member(r, PermissionsIncomplete, now)) +
            Tick(Member(r, PermissionsUnknown, now)) == 1
    ensures Tick(Member(r, Wifi, now)) + Tick(Member(r, Cellular, now)) +
        Tick(Member(r, Ethernet, now)) <= Tick(Member(r, Online, now))
  {
    hide TierOfRow;
    NetsDiffer();
  }

  /** The tier OFFLINE is the offline list, and the list of devices that are not ready is their tier. */
  lemma {:induction false} SameLists(rows: seq<DashRow>, now: int)
    ensures Ids(rows, TierKey(R.Offline), now) == Ids(rows, Offline, now)
    ensures Ids(rows, TierKey(R.NotReady), now) == Ids(rows, NotReady, now)
  {
    hide R.TierOf, ToState;
    if rows != [] {
      SameLists(rows[..|rows| - 1], now);
      OfflineTier(rows[|rows| - 1]);
    }
  }

  lemma {:induction false} OfflineTier(r: DashRow)
    ensures TierOfRow(r).Offline? <==> !r.online
  {
    R.TierMeaning(ToState(r));
  }

  lemma {:induction false} VersionsTallied(rows: seq<DashRow>, now: int)
    ensures VersionsAre(TallyOf(VersionTexts(rows)), rows, now)
  {
    hide Ids, Proper, CountOf, TallyOf, VersionTexts;
    TallyCounts(VersionTexts(rows));
    VersionTextsLength(rows);
    forall v ensures multiset(VersionTexts(rows))[v] == |Ids(rows, VerKey(v), now)| { VersionOccurs(rows, v, now); }
  }

  lemma {:induction false} VersionTextsLength(rows: seq<DashRow>)
    ensures |VersionTexts(rows)| == |rows|
  {
    if rows != [] { VersionTextsLength(rows[..|rows| - 1]); }
  }

  lemma {:induction false} VersionOccurs(rows: seq<DashRow>, v: Text, now: int)
    ensures multiset(VersionTexts(rows))[v] == |Ids(rows, VerKey(v), now)|
  {
    hide TierOfRow, Semver.Less, VersionText, Member;
    if rows != [] {
      var init, r := rows[..|rows| - 1], rows[|rows| - 1];
      VersionOccurs(init, v, now);
      assert Member(r, VerKey(v), now) <==> VersionText(r) == v by { RunsVersion(r, v, now); }
      assert multiset(VersionTexts(rows)) == multiset(VersionTexts(init)) + multiset{VersionText(r)};
    }
  }

  lemma {:induction false} EventsTallied(rows: seq<DashRow>)
    ensures EventsAre(TallyOf(EventTexts(rows)), rows)
  {
    hide Reporting, Proper, CountOf, TallyOf, EventTexts;
    TallyCounts(EventTexts(rows));
    forall c ensures multiset(EventTexts(rows))[c] == Reporting(rows, c) { EventOccurs(rows, c); }
  }

  lemma {:induction false} RunsVersion(r: DashRow, v: Text, now: int)
    ensures Member(r, VerKey(v), now) <==> VersionText(r) == v
  {
  }

  lemma {:induction false} EventOccurs(rows: seq<DashRow>, c: Text)
    ensures multiset(EventTexts(rows))[c] == Reporting(rows, c)
  {
    hide FirstOnes;
    if rows != [] {
      EventOccurs(rows[..|rows| - 1], c);
      OnceOnly(rows[|rows| - 1].hwEvents24h, c);
    }
  }

  lemma {:induction false} OnceOnly(xs: seq<Text>, c: Text)
    ensures multiset(FirstOnes(xs))[c] == if c in xs then 1 else 0
  {
    if xs != [] {
      OnceOnly(xs[..|xs| - 1], c);
      assert xs == xs[..|xs| - 1] + [xs[|xs| - 1]];
    }
  }

  /**
   * The version table: every version that runs somewhere, once, with the length of its list, the most frequent
   * first and equally frequent ones in the order in which they first appear; the counts add up to the fleet.
   */
  lemma {:induction false} VersionTable(rows: seq<DashRow>, now: int)
    ensures var v, xs := Ranked(TallyOf(VersionTexts(rows))), VersionTexts(rows);
            && (forall c :: c in v <==> c.n > 0 && c.n == |Ids(rows, VerKey(c.name), now)|)
            && (forall i, j | 0 <= i < j < |v| :: v[i].n > v[j].n ||
                  (v[i].n == v[j].n && FirstIndex(xs, v[i].name) <= FirstIndex(xs, v[j].name)))
            && multiset(v) == multiset(TallyOf(xs)) && Total(v) == |rows|
  {
    hide Ids, Proper, Ranked, TallyOf, VersionTexts, FirstIndex;
    VersionsTallied(rows, now);
    RankedMeans(TallyOf(VersionTexts(rows)));
    TotalRanked(TallyOf(VersionTexts(rows)));
    TiesByFirstAppearance(VersionTexts(rows));
  }

  /** The event table: every code reported by some device, with its number of devices, ordered in the same way. */
  lemma {:induction false} EventTable(rows: seq<DashRow>)
    ensures var v, xs := Ranked(TallyOf(EventTexts(rows))), EventTexts(rows);
            && (forall c :: c in v <==> c.n > 0 && c.n == Reporting(rows, c.name))
            && (forall i, j | 0 <= i < j < |v| :: v[i].n > v[j].n ||
                  (v[i].n == v[j].n && FirstIndex(xs, v[i].name) <= FirstIndex(xs, v[j].name)))
            && multiset(v) == multiset(TallyOf(xs))
  {
    hide Reporting, Proper, Ranked, TallyOf, EventTexts, FirstIndex;
    EventsTallied(rows);
    RankedMeans(TallyOf(EventTexts(rows)));
    TiesByFirstAppearance(EventTexts(rows));
  }
}
