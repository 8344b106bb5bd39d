/** Following an agent update through the fleet. */
module Rollout {
  import opened Options
  import opened Texts
  import opened DeviceReadiness
  import opened Fleet
  import opened Sorting
  import opened Tally
  import Semver

  const HW_SINCE: Text := Ascii("1.4.7")

  datatype Bucket = Done | UpdatedUnhealthy | UpdatedOffline | PendingOnline | PendingOffline | Unversioned
  const BUCKETS: set<Bucket> := {Done, UpdatedUnhealthy, UpdatedOffline, PendingOnline, PendingOffline, Unversioned}

  datatype Problem = ProblemNotReady | NoAccessibility | Flapping | NoHwData | Lag | PanelIsOff | TouchGone

  /** The report; `percentTenths` is `percentDone` in tenths of a percent. */
  datatype Report = Report(
    suggestedTarget: Option<Text>,
    total: nat,
    counts: map<Bucket, nat>,
    percentTenths: nat,
    complete: bool,
    versions: seq<Count>,
    buckets: map<Bucket, seq<Text>>,
    reasons: map<Text, seq<Problem>>)

  /* ---------- what the report means ---------- */

  predicate OnTarget(r: DashRow, target: Text) { Version(r).Some? && !Semver.Less(Version(r).value, target) }

  /** Each problem on its own. */
  predicate Has(r: DashRow, p: Problem) {
    match p
    case ProblemNotReady => TierOfRow(r).NotReady?
    case NoAccessibility => r.caps.Some? && !r.caps.value.a11y
    case Flapping => r.drops24h >= FLAPPING_DROPS
    case NoHwData => r.hw.None? && OnTarget(r, HW_SINCE)
    case Lag => r.hw.Some? && r.hw.value.mainLagMs.Some? && r.hw.value.mainLagMs.value >= LAG_MS
    case PanelIsOff => PanelOff(r)
    case TouchGone => r.hw.Some? && r.hw.value.touchDevs == Some(0.0)
  }

  predicate Healthy(r: DashRow) { forall p :: !Has(r, p) }

  /** A device is in exactly one bucket, and each bucket has a meaning of its own. */
  ghost predicate Belongs(r: DashRow, target: Text, b: Bucket) {
    match b
    case Done => OnTarget(r, target) && r.online && Healthy(r)
    case UpdatedUnhealthy => OnTarget(r, target) && r.online && !Healthy(r)
    case UpdatedOffline => OnTarget(r, target) && !r.online
    case PendingOnline => Version(r).Some? && !OnTarget(r, target) && r.online
    case PendingOffline => Version(r).Some? && !OnTarget(r, target) && !r.online
    case Unversioned => Version(r).None?
  }

  /* ---------- the code ---------- */

  /** The problems in the order of the checks. */
  function Kind(n: nat): Problem {
    if n == 0 then ProblemNotReady else if n == 1 then NoAccessibility else if n == 2 then Flapping
    else if n == 3 then NoHwData else if n == 4 then Lag else if n == 5 then PanelIsOff else TouchGone
  }

  /** The problems found by the first `n` checks. */
  function Found(r: DashRow, n: nat): seq<Problem> {
    if n == 0 then [] else Found(r, n - 1) + (if Has(r, Kind(n - 1)) then [Kind(n - 1)] else [])
  }

  function Problems(r: DashRow): seq<Problem> { Found(r, 7) }

  lemma {:induction false} FoundNone(r: DashRow)
    ensures Found(r, 0) == []
  {
  }

  lemma {:induction false} FoundNext(r: DashRow, n: nat, p: Problem, b: bool)
    requires p == Kind(n) && b == Has(r, p)
    ensures Found(r, n + 1) == Found(r, n) + (if b then [p] else [])
  {
    hide Has, Kind;
  }

  method AtOrAbove(ver: Text, target: Text) returns (b: bool)
    ensures b == !Semver.Less(ver, target)
  {
    var lt := Semver.SemverLt(ver, target);
    b := !lt;
  }

  /** The problems of a device in the fixed order of the checks; empty exactly for a healthy one (`HealthyIsEmpty`). */
  method HealthProblems(r: DashRow) returns (out: seq<Problem>)
    ensures out == Problems(r)
  {
    hide Semver.Less, Found, TierOf, SelectBlockers, SelectWarns;
    FoundNone(r);
    FoundNext(r, 0, ProblemNotReady, TierOfRow(r).NotReady?);
    FoundNext(r, 1, NoAccessibility, r.caps.Some? && !r.caps.value.a11y);
    FoundNext(r, 2, Flapping, r.drops24h >= FLAPPING_DROPS);
    out := [];
    var readiness := ComputeReadiness(ToState(r));
    if readiness.tier == NotReady { out := out + [ProblemNotReady]; }
    if r.caps.Some? && !r.caps.value.a11y { out := out + [NoAccessibility]; }
    if r.drops24h >= FLAPPING_DROPS { out := out + [Flapping]; }
    out := HardwareProblems(r, out);
  }

  method HardwareProblems(r: DashRow, before: seq<Problem>) returns (out: seq<Problem>)
    requires before == Found(r, 3)
    ensures out == Found(r, 7)
  {
    hide Semver.Less, Found, TierOf, SelectBlockers, SelectWarns;
    out := before;
    if r.hw.None? {
      NoHardware(r);
      if Or(r.agentVer, []) != [] {
        var above := AtOrAbove(r.agentVer.value, HW_SINCE);
        if above { out := out + [NoHwData]; }
      }
    } else {
      var hw := r.hw.value;
      FoundNext(r, 3, NoHwData, false);
      FoundNext(r, 4, Lag, hw.mainLagMs.Some? && hw.mainLagMs.value >= LAG_MS);
      FoundNext(r, 5, PanelIsOff, PanelOff(r));
      FoundNext(r, 6, TouchGone, hw.touchDevs == Some(0.0));
      if Or(hw.mainLagMs, 0.0) >= LAG_MS { out := out + [Lag]; }
      if Or(r.volatile.screenOn, false) && hw.display.Some? && hw.display.value in {1.0, 3.0, 4.0} {
        out := out + [PanelIsOff];
      }
      if hw.touchDevs == Some(0.0) { out := out + [TouchGone]; }
    }
  }

  lemma {:induction false} NoHardware(r: DashRow)
    requires r.hw.None?
    ensures Found(r, 7) == Found(r, 3) + (if OnTarget(r, HW_SINCE) then [NoHwData] else [])
  {
    hide OnTarget, Found;
    FoundNext(r, 3, NoHwData, OnTarget(r, HW_SINCE));
    FoundNext(r, 4, Lag, false);
    FoundNext(r, 5, PanelIsOff, false);
    FoundNext(r, 6, TouchGone, false);
  }

  lemma {:induction false} FoundIn(r: DashRow, n: nat, p: Problem)
    ensures p in Found(r, n) <==> Has(r, p) && exists i | 0 <= i < n :: Kind(i) == p
  {
    hide Has, Kind;
    if n > 0 {
      FoundIn(r, n - 1, p);
      FoundNext(r, n - 1, Kind(n - 1), Has(r, Kind(n - 1)));
    }
  }

  /** The list of problems holds exactly the problems a device has. */
  lemma {:induction false} HealthyIsEmpty(r: DashRow)
    ensures forall p :: p in Problems(r) <==> Has(r, p)
    ensures Problems(r) == [] <==> Healthy(r)
  {
    hide Has, Found;
    forall p ensures p in Problems(r) <==> Has(r, p) {
      FoundIn(r, 7, p);
      assert Kind(0) == p || Kind(1) == p || Kind(2) == p || Kind(3) == p || Kind(4) == p || Kind(5) == p
          || Kind(6) == p;
    }
    if Problems(r) != [] { assert Problems(r)[0] in Problems(r); }
  }

  function Ids(rows: seq<DashRow>, target: Text, b: Bucket): seq<Text> {
    if rows == [] then []
    else Ids(rows[..|rows| - 1], target, b) +
         (if BucketOf(rows[|rows| - 1], target) == b then [rows[|rows| - 1].deviceId] else [])
  }

  function BucketOf(r: DashRow, target: Text): Bucket {
    if Version(r).None? then Unversioned
    else if OnTarget(r, target) then
      if !r.online then UpdatedOffline else if Problems(r) != [] then UpdatedUnhealthy else Done
    else if r.online then PendingOnline else PendingOffline
  }

  /** The meaning of the bucket a device falls into: it belongs there and nowhere else. */
  lemma {:induction false} BucketMeaning(r: DashRow, target: Text, b: Bucket)
    ensures BucketOf(r, target) == b <==> Belongs(r, target, b)
  {
    hide Has, Problems, Healthy, Semver.Less;
    HealthyIsEmpty(r);
  }

  method Classify(r: DashRow, target: Text) returns (b: Bucket, problems: seq<Problem>)
    ensures b == BucketOf(r, target)
    ensures problems == if b.UpdatedUnhealthy? then Problems(r) else []
  {
    hide Problems, Semver.Less;
    problems := [];
    if Or(r.agentVer, []) == [] {
      b := Unversioned;
    } else {
      var above := AtOrAbove(r.agentVer.value, target);
      if above {
        if !r.online {
          b := UpdatedOffline;
        } else {
          problems := HealthProblems(r);
          b := if problems != [] then UpdatedUnhealthy else Done;
        }
      } else {
        b := if r.online then PendingOnline else PendingOffline;
      }
    }
  }

  /** How many of the rows run a version. */
  function Running(rows: seq<DashRow>, v: Text): nat {
    if rows == [] then 0
    else Running(rows[..|rows| - 1], v) + if Version(rows[|rows| - 1]) == Some(v) then 1 else 0
  }

  /** No device runs a higher version than `s`, and some device runs `s`. */
  ghost predicate Highest(rows: seq<DashRow>, s: Option<Text>) {
    match s
    case None => forall r | r in rows :: Version(r).None?
    case Some(v) =>
      && (exists r :: r in rows && Version(r) == Some(v))
      && (forall r | r in rows && Version(r).Some? :: !Semver.Less(v, Version(r).value))
  }

  /** The problems recorded for the unhealthy devices; with equal ids the last one counts. */
  function Recorded(rows: seq<DashRow>, target: Text): map<Text, seq<Problem>> {
    if rows == [] then map[] else
    var r := rows[|rows| - 1];
    var m := Recorded(rows[..|rows| - 1], target);
    if BucketOf(r, target) == UpdatedUnhealthy then m[r.deviceId := Problems(r)] else m
  }

  ghost predicate BucketsAre(buckets: map<Bucket, seq<Text>>, rows: seq<DashRow>, target: Text) {
    && buckets.Keys == BUCKETS
    && forall b | b in BUCKETS :: buckets[b] == Ids(rows, target, b)
  }

  /** The versions that run, row by row. */
  function VersionsRun(rows: seq<DashRow>): seq<Text> {
    if rows == [] then []
    else VersionsRun(rows[..|rows| - 1]) + match Version(rows[|rows| - 1]) case Some(v) => [v] case None => []
  }

  lemma {:induction false} VersionsRunAppend(rows: seq<DashRow>, r: DashRow)
    ensures VersionsRun(rows + [r]) == VersionsRun(rows) + match Version(r) case Some(v) => [v] case None => []
  {
    assert (rows + [r])[..|rows|] == rows;
  }

  /** The comparator of the version table is negative: the left version is not the lower one. It is never 0. */
  predicate NotBelow(a: Count, b: Count) { !Semver.Less(a.name, b.name) }

  /**
   * The version table: every version that runs with its number of devices, sorted by the comparator. While versions
   * tie the comparator is inconsistent, and the order is open.
   */
  ghost predicate VersionsAre(rows: seq<DashRow>, v: seq<Count>) {
    && multiset(v) == multiset(TallyOf(VersionsRun(rows)))
    && (NoTies(rows) ==> v == StableSort(TallyOf(VersionsRun(rows)), NotBelow))
  }

  method SummarizeRollout(rows: seq<DashRow>, target: Text) returns (rep: Report)
    ensures rep.total == |rows|
    ensures BucketsAre(rep.buckets, rows, target)
    ensures rep.counts.Keys == BUCKETS && forall b | b in BUCKETS :: rep.counts[b] == |Ids(rows, target, b)|
    ensures rep.reasons == Recorded(rows, target)
    ensures Highest(rows, rep.suggestedTarget)
    ensures VersionsAre(rows, rep.versions)
    ensures rep.percentTenths == if rows == [] then 0 else |Ids(rows, target, Done)| * 1000 / |rows|
    ensures rep.complete <==> rows != [] && |Ids(rows, target, Done)| == |rows|
  {
    hide BucketOf, Problems, Highest, Ids, Recorded, TallyOf, VersionsRun, StableSort, NoTies;
    var buckets: map<Bucket, seq<Text>> := map b | b in BUCKETS :: [];
    var reasons: map<Text, seq<Problem>> := map[];
    var versions: seq<Count> := [];
    var suggested: Option<Text> := None;
    NoRows(buckets, target);
    for i := 0 to |rows|
      invariant BucketsAre(buckets, rows[..i], target)
      invariant reasons == Recorded(rows[..i], target)
      invariant Highest(rows[..i], suggested)
      invariant versions == TallyOf(VersionsRun(rows[..i]))
    {
      var r := rows[i];
      assert rows[..i + 1] == rows[..i] + [r];
      versions, suggested := NoteVersion(rows[..i], r, versions, suggested);
      buckets, reasons := Place(rows[..i], r, target, buckets, reasons);
    }
    assert rows[..|rows|] == rows;
    var counts := map b | b in BUCKETS :: |buckets[b]|;
    EveryBucket(Done);
    SortPermutes(versions, NotBelow);
    var total := |rows|;
    rep := Report(suggested, total, counts, if total > 0 then counts[Done] * 1000 / total else 0,
                  total > 0 && counts[Done] == total, StableSort(versions, NotBelow), buckets, reasons);
  }

  lemma {:induction false} NoRows(buckets: map<Bucket, seq<Text>>, target: Text)
    requires buckets == map b | b in BUCKETS :: []
    ensures BucketsAre(buckets, [], target) && Recorded([], target) == map[]
    ensures Highest([], None) && TallyOf(VersionsRun([])) == []
  {
  }

  method Place(rows: seq<DashRow>, r: DashRow, target: Text, buckets: map<Bucket, seq<Text>>,
      reasons: map<Text, seq<Problem>>)
    returns (buckets': map<Bucket, seq<Text>>, reasons': map<Text, seq<Problem>>)
    requires BucketsAre(buckets, rows, target) && reasons == Recorded(rows, target)
    ensures BucketsAre(buckets', rows + [r], target) && reasons' == Recorded(rows + [r], target)
  {
    hide BucketOf, Problems;
    var b, problems := Classify(r, target);
    reasons' := if problems != [] then reasons[r.deviceId := problems] else reasons;
    UnhealthyHasProblems(r, target);
    EveryBucket(b);
    buckets' := buckets[b := buckets[b] + [r.deviceId]];
    assert (rows + [r])[..|rows|] == rows;
  }

  lemma {:induction false} EveryBucket(b: Bucket)
    ensures b in BUCKETS
  {
  }

  lemma {:induction false} UnhealthyHasProblems(r: DashRow, target: Text)
    ensures BucketOf(r, target).UpdatedUnhealthy? ==> Problems(r) != []
  {
    hide Problems, Semver.Less;
  }

  method NoteVersion(rows: seq<DashRow>, r: DashRow, versions: seq<Count>, suggested: Option<Text>)
    returns (versions': seq<Count>, suggested': Option<Text>)
    requires Highest(rows, suggested) && versions == TallyOf(VersionsRun(rows))
    ensures Highest(rows + [r], suggested') && versions' == TallyOf(VersionsRun(rows + [r]))
  {
    hide Semver.Less, Bump, TallyOf, VersionsRun, Highest;
    versions', suggested' := versions, suggested;
    VersionsRunAppend(rows, r);
    var xs := VersionsRun(rows);
    assert xs + [] == xs;
    if Or(r.agentVer, []) != [] {
      var ver := r.agentVer.value;
      TallyAppend(xs, ver);
      versions' := Bump(versions, ver);
      HighestStep(rows, r, suggested);
      if suggested.None? {
        suggested' := Some(ver);
      } else {
        var lt := Semver.SemverLt(suggested.value, ver);
        if lt { suggested' := Some(ver); }
      }
    } else {
      HighestSkip(rows, r, suggested);
    }
  }

  lemma {:induction false} HighestSkip(rows: seq<DashRow>, r: DashRow, s: Option<Text>)
    requires Highest(rows, s) && Version(r).None?
    ensures Highest(rows + [r], s)
  {
    hide Semver.Less;
    if s.Some? {
      var x :| x in rows && Version(x) == s;
      assert x in rows + [r];
    }
  }

  lemma {:induction false} HighestStep(rows: seq<DashRow>, r: DashRow, s: Option<Text>)
    requires Highest(rows, s) && Version(r).Some?
    ensures Highest(rows + [r], if s.None? || Semver.Less(s.value, Version(r).value) then Version(r) else s)
  {
    hide Semver.Less, Version;
    var v := Version(r).value;
    assert r in rows + [r];
    Semver.LessIsWeakOrder(v, v, v);
    if s.Some? {
      var x :| x in rows && Version(x) == s;
      assert x in rows + [r];
      forall y | y in rows && Version(y).Some? && Semver.Less(s.value, v) ensures !Semver.Less(v, Version(y).value) {
        Semver.LessIsWeakOrder(s.value, v, Version(y).value);
      }
    }
  }

  /* ---------- what the promises say ---------- */

  lemma {:induction false} Partition(rows: seq<DashRow>, target: Text)
    ensures |Ids(rows, target, Done)| + |Ids(rows, target, UpdatedUnhealthy)| + |Ids(rows, target, UpdatedOffline)| +
            |Ids(rows, target, PendingOnline)| + |Ids(rows, target, PendingOffline)| +
                |Ids(rows, target, Unversioned)| == |rows|
  {
    hide BucketOf;
    if rows != [] { Partition(rows[..|rows| - 1], target); }
  }

  lemma {:induction false} AllDone(rows: seq<DashRow>, target: Text)
    ensures |Ids(rows, target, Done)| <= |rows|
    ensures |Ids(rows, target, Done)| == |rows| <==> forall r | r in rows :: BucketOf(r, target) == Done
  {
    hide BucketOf;
    if rows != [] {
      var init, r := rows[..|rows| - 1], rows[|rows| - 1];
      AllDone(init, target);
      assert rows == init + [r];
    }
  }

  /**
   * A rollout is complete exactly if the fleet is not empty and every device is on target, online and healthy, and
   * the percentage reads 100 exactly then.
   */
  lemma {:induction false} CompleteMeans(rows: seq<DashRow>, target: Text)
    requires rows != []
    ensures var done := |Ids(rows, target, Done)|;
            && (done == |rows| <==> forall r | r in rows :: OnTarget(r, target) && r.online && Healthy(r))
            && 0 <= done * 1000 / |rows| <= 1000
            && (done * 1000 / |rows| == 1000 <==> done == |rows|)
  {
    hide BucketOf, OnTarget, Healthy, Semver.Less;
    AllDone(rows, target);
    forall r | r in rows ensures BucketOf(r, target) == Done <==> OnTarget(r, target) && r.online && Healthy(r) {
      BucketMeaning(r, target, Done);
    }
    Percent(|Ids(rows, target, Done)|, |rows|);
  }

  lemma {:induction false} Percent(done: nat, total: nat)
    requires 0 < total && done <= total
    ensures 0 <= done * 1000 / total <= 1000
    ensures done * 1000 / total == 1000 <==> done == total
  {
    if done == total {
      QuotientIs(done * 1000, total);
    } else {
      QuotientBelow(done * 1000, total, 1000);
    }
  }

  lemma {:induction false} QuotientIs(a: nat, t: nat)
    requires t > 0 && a == 1000 * t
    ensures a / t == 1000
  {
    var q := a / t;
    assert a == q * t + a % t;
    if q <= 999 {
      MulMonotone(q, 999, t);
    } else if q >= 1001 {
      MulMonotone(1001, q, t);
    }
  }

  lemma {:induction false} QuotientBelow(a: nat, t: nat, n: nat)
    requires t > 0 && a < n * t
    ensures 0 <= a / t < n
  {
    var q := a / t;
    assert a == q * t + a % t;
    if q >= n { MulMonotone(n, q, t); }
  }

  lemma {:induction false} MulMonotone(n: nat, q: nat, t: nat)
    requires n <= q
    ensures n * t <= q * t
  {
  }

  predicate Updated(b: Bucket) { b.Done? || b.UpdatedUnhealthy? || b.UpdatedOffline? }

  /**
   * A higher target moves devices from an updated bucket to the pending one of the same connectivity, and does
   * nothing else.
   */
  lemma {:induction false} RaisingTarget(r: DashRow, low: Text, high: Text)
    requires !Semver.Less(high, low)
    ensures var b, c := BucketOf(r, low), BucketOf(r, high);
            || c == b
            || (Updated(b) && c == (if r.online then PendingOnline else PendingOffline)
                && Semver.Less(Version(r).value, high))
    ensures OnTarget(r, high) ==> OnTarget(r, low)
  {
    hide Problems, Semver.Less;
    if Version(r).Some? {
      Semver.LessIsWeakOrder(Version(r).value, low, high);
      Semver.LessIsWeakOrder(high, Version(r).value, low);
      Semver.LessIsWeakOrder(Version(r).value, high, low);
    }
  }

  /** Over the whole fleet a higher target never adds to what is done. */
  lemma {:induction false} RaisingNeverFinishes(rows: seq<DashRow>, low: Text, high: Text)
    requires !Semver.Less(high, low)
    ensures |Ids(rows, high, Done)| <= |Ids(rows, low, Done)|
  {
    hide BucketOf, Semver.Less, Version;
    if rows != [] {
      RaisingNeverFinishes(rows[..|rows| - 1], low, high);
      RaisingTarget(rows[|rows| - 1], low, high);
    }
  }

  /** With distinct ids the recorded reasons are those of the unhealthy devices, each its own problems. */
  lemma {:induction false} RecordedMeans(rows: seq<DashRow>, target: Text)
    requires Distinct(rows)
    ensures forall id :: id in Recorded(rows, target) <==>
                           exists i :: 0 <= i < |rows| && rows[i].deviceId == id
                               && BucketOf(rows[i], target) == UpdatedUnhealthy
    ensures forall i | 0 <= i < |rows| && BucketOf(rows[i], target) == UpdatedUnhealthy ::
              rows[i].deviceId in Recorded(rows, target)
                  && Recorded(rows, target)[rows[i].deviceId] == Problems(rows[i])
  {
    hide BucketOf, Problems;
    if rows != [] { RecordedMeans(rows[..|rows| - 1], target); }
  }

  /* ---------- the version table ---------- */

  /** No two different versions that run are equal in the order. */
  ghost predicate NoTies(rows: seq<DashRow>) {
    forall v, w | v in VersionsRun(rows) && w in VersionsRun(rows) && Semver.Parse(v) == Semver.Parse(w) :: v == w
  }

  /** The comparator orders any two different entries one way and not the other. */
  ghost predicate Consistent(t: seq<Count>) {
    forall a, b | a in t && b in t && a != b :: NotBelow(a, b) <==> !NotBelow(b, a)
  }

  function RunningNow(rows: seq<DashRow>): seq<Count> { TallyOf(VersionsRun(rows)) }

  lemma {:induction false} RunningOccurs(rows: seq<DashRow>, v: Text)
    ensures multiset(VersionsRun(rows))[v] == Running(rows, v)
  {
    if rows != [] { RunningOccurs(rows[..|rows| - 1], v); }
  }

  /** The entries are the versions that run, each once with the number of its devices. */
  lemma {:induction false} RunningEntries(rows: seq<DashRow>)
    ensures Proper(RunningNow(rows))
    ensures forall c :: c in RunningNow(rows) <==> c.n > 0 && c.n == Running(rows, c.name)
    ensures forall c | c in RunningNow(rows) :: c.name in VersionsRun(rows)
    ensures forall v | v in VersionsRun(rows) :: Count(v, Running(rows, v)) in RunningNow(rows)
  {
    hide Proper, TallyOf, VersionsRun, CountOf, Running;
    TallyCounts(VersionsRun(rows));
    forall v ensures multiset(VersionsRun(rows))[v] == Running(rows, v) { RunningOccurs(rows, v); }
    forall c ensures c in RunningNow(rows) <==> c.n > 0 && c.n == Running(rows, c.name) {
      EntryIsCount(RunningNow(rows), c);
    }
  }

  /** The comparator is consistent on the entries if and only if no two versions tie. */
  lemma {:induction false} ConsistentIff(rows: seq<DashRow>)
    ensures Consistent(RunningNow(rows)) <==> NoTies(rows)
  {
    hide TallyOf, VersionsRun, Semver.Less, Semver.Parse, RunningNow;
    RunningEntries(rows);
    forall a: Count, b: Count
      ensures NotBelow(a, b) && NotBelow(b, a) <==> Semver.Parse(a.name) == Semver.Parse(b.name)
      ensures NotBelow(a, b) || NotBelow(b, a)
    {
      Semver.LessIsWeakOrder(a.name, b.name, a.name);
    }
    if NoTies(rows) {
      forall a, b | a in RunningNow(rows) && b in RunningNow(rows) && a != b ensures a.name != b.name {}
    }
    if Consistent(RunningNow(rows)) {
      forall v, w | v in VersionsRun(rows) && w in VersionsRun(rows) && Semver.Parse(v) == Semver.Parse(w)
        ensures v == w
      {
        var a, b := Count(v, Running(rows, v)), Count(w, Running(rows, w));
        assert a in RunningNow(rows) && b in RunningNow(rows);
      }
    }
  }

  predicate Higher(a: Count, b: Count) { Semver.Less(b.name, a.name) }

  lemma {:induction false} HigherOrders()
    ensures Orders(Higher)
  {
    hide Semver.Less;
    forall a, b | Higher(a, b) ensures !Higher(b, a) {
      Semver.LessIsWeakOrder(b.name, a.name, b.name);
      Semver.LessIsWeakOrder(b.name, b.name, b.name);
    }
    forall a, b, c | Higher(a, c) ensures Higher(a, b) || Higher(b, c) {
      Semver.LessIsWeakOrder(c.name, b.name, a.name);
    }
  }

  lemma {:induction false} InsertsAlike(s: seq<Count>, x: Count)
    requires forall i | 0 <= i < |s| :: NotBelow(x, s[i]) <==> Higher(x, s[i])
    ensures Insert(s, x, NotBelow) == Insert(s, x, Higher)
  {
    hide NotBelow, Higher;
    if s != [] { InsertsAlike(s[1..], x); }
  }

  lemma {:induction false} SortsAlike(t: seq<Count>)
    requires forall i, j | 0 <= i < |t| && 0 <= j < |t| && i != j :: NotBelow(t[i], t[j]) <==> Higher(t[i], t[j])
    ensures StableSort(t, NotBelow) == StableSort(t, Higher)
  {
    hide NotBelow, Higher, Insert;
    if t != [] {
      var init, c := t[..|t| - 1], t[|t| - 1];
      SortsAlike(init);
      var s := StableSort(init, Higher);
      SortPermutes(init, Higher);
      forall i | 0 <= i < |s| ensures NotBelow(c, s[i]) <==> Higher(c, s[i]) {
        assert s[i] in multiset(s);
        var j :| 0 <= j < |init| && init[j] == s[i];
        assert t[j] == s[i] && t[|t| - 1] == c;
      }
      InsertsAlike(s, c);
    }
  }

  /**
   * A version table has every version that runs, once, with the number of its devices; and as long as no two of
   * them tie, which is when the comparator is consistent, it falls from the highest version to the lowest.
   */
  lemma {:induction false} VersionTable(rows: seq<DashRow>, v: seq<Count>)
    requires VersionsAre(rows, v)
    ensures forall c :: c in v <==> c.n > 0 && c.n == Running(rows, c.name)
    ensures forall i, j | 0 <= i < j < |v| :: v[i].name != v[j].name
    ensures NoTies(rows) ==> forall i, j | 0 <= i < j < |v| :: Semver.Less(v[j].name, v[i].name)
  {
    hide TallyOf, VersionsRun, Semver.Less, Semver.Parse, StableSort, Running, NoTies;
    var t := TallyOf(VersionsRun(rows));
    assert t == RunningNow(rows);
    hide RunningNow;
    RunningEntries(rows);
    forall c ensures c in v <==> c in t {
      assert c in t <==> c in multiset(t);
      assert c in v <==> c in multiset(v);
    }
    forall i, j | 0 <= i < j < |v| ensures v[i].name != v[j].name { ApartInTable(t, v, i, j); }
    if NoTies(rows) {
      Falls(rows, v);
    }
  }

  lemma {:induction false} ApartInTable(t: seq<Count>, v: seq<Count>, i: nat, j: nat)
    requires Proper(t) && multiset(v) == multiset(t) && i < j < |v|
    ensures v[i].name != v[j].name
  {
    assert v[i] in multiset(v) && v[j] in multiset(v);
    assert v[i] in t && v[j] in t;
    if v[i] == v[j] { Twice(v, i, j); NoEntryTwice(t, v[i]); }
  }

  lemma {:induction false} Falls(rows: seq<DashRow>, v: seq<Count>)
    requires NoTies(rows) && v == StableSort(RunningNow(rows), NotBelow)
    ensures forall i, j | 0 <= i < j < |v| :: Semver.Less(v[j].name, v[i].name)
  {
    hide TallyOf, VersionsRun, Semver.Less, Semver.Parse, StableSort, Running, NoTies, RunningNow;
    var t := RunningNow(rows);
    RunningEntries(rows);
    ConsistentIff(rows);
    forall i, j | 0 <= i < |t| && 0 <= j < |t| && i != j ensures NotBelow(t[i], t[j]) <==> Higher(t[i], t[j]) {
      assert t[i].name != t[j].name by { NamesApart(t, i, j); }
      assert t[i] in t && t[j] in t;
    }
    SortsAlike(t);
    HigherOrders();
    SortSorted(t, Higher);
    SortPermutes(t, Higher);
    forall i, j | 0 <= i < j < |v| ensures Semver.Less(v[j].name, v[i].name) {
      assert !Higher(v[j], v[i]);
      EntriesApart(t, v, i, j);
    }
  }

  lemma {:induction false} NamesApart(t: seq<Count>, i: nat, j: nat)
    requires Proper(t) && i < |t| && j < |t| && i != j
    ensures t[i].name != t[j].name
  {
  }

  /** Different places of a permutation of a consistent tally hold entries that compare one way. */
  lemma {:induction false} EntriesApart(t: seq<Count>, v: seq<Count>, i: nat, j: nat)
    requires Proper(t) && Consistent(t) && multiset(v) == multiset(t) && i < j < |v|
    ensures NotBelow(v[i], v[j]) <==> !NotBelow(v[j], v[i])
  {
    hide NotBelow;
    assert v[i] in multiset(v) && v[j] in multiset(v);
    assert v[i] in t && v[j] in t;
    if v[i] == v[j] { Twice(v, i, j); NoEntryTwice(t, v[i]); }
  }

  lemma {:induction false} NoEntryTwice(t: seq<Count>, c: Count)
    requires Proper(t)
    ensures multiset(t)[c] <= 1
  {
    if t != [] {
      var init, x := t[..|t| - 1], t[|t| - 1];
      NoEntryTwice(init, c);
      assert t == init + [x];
      assert forall i | 0 <= i < |init| :: init[i] == t[i] && init[i].name != x.name;
      assert x !in init;
    }
  }
}
