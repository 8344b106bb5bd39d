/** The live hash over runs of the handler: what it holds is what the messages said. */
module IngestLive {
  import opened Options
  import opened Texts
  import opened JsonText
  import opened Canonical
  import opened Capabilities
  import opened Messages
  import opened LiveHash
  import opened Ingest
  import opened IngestRun

  /** The three writes of the handler make up the patch. */
  lemma {:induction false} WriteLiveIs(s: Store, j: Job)
    requires j.State?
    ensures WriteLive(s, j).live == Patched(s.live, j.msg, j.patch)
  {
    hide LivePatch;
  }

  lemma {:induction false} OnStateLive(s: Store, j: Job)
    requires j.State?
    ensures OnState(s, j).live == Patched(s.live, j.msg, j.patch)
  {
    hide LivePatch, Patched, WriteLive, Capabilities.Diff, Preimage, ColumnsOf, Writable, Truthy;
    var s1 := Ensured(s);
    WriteLiveIs(DropCache(BlankCaps(SetAndroid(s1, j.msg.androidId, true))), j);
    WriteLiveIs(SetAndroid(s1, j.msg.androidId, false), j);
    WriteLiveIs(s1, j);
  }

  /**
   * After the handler of any message, in any state, the metrics in the live hash are the sanitised ones of the message
   * if it carries any, and the old ones otherwise; the device reads online as the message says, or as before.
   */
  lemma {:induction false} HandlerLeaves(s: Store, j: Job, number: Text -> Option<Text>)
    requires j.State? && ValidJob(j) && Inverts(number, j.msg.volatile)
    ensures Metrics(OnState(s, j).live, number) ==
              if exists i | 0 <= i < |HW_NAMES| :: Property(j.msg.volatile, HW_NAMES[i]).Some?
              then Sanitised(j.msg.volatile) else Metrics(s.live, number)
    ensures ReadsOnline(OnState(s, j).live) <==>
              match j.msg.online
              case Some(Bool(b)) => b
              case _ => ReadsOnline(s.live)
  {
    hide OnState, Patched, IsHwPatch, Inverts, Metrics, Sanitised, ReadsOnline, WellFormed;
    OnStateLive(s, j);
    PatchedMetrics(s.live, j.msg, j.patch, number);
    PatchedOnline(s.live, j.msg, j.patch);
  }

  /* ---------- over runs, await by await ---------- */

  /** What the last step that bears on the metrics says: a HSET of metrics, or the loss of the whole hash. */
  ghost function LastMetrics(run: seq<Sys>, steps: seq<Step>, n: nat): Last<Option<Json>>
    requires n <= |steps| < |run|
  {
    if n == 0 then Nothing
    else
      var a, st := run[n - 1], steps[n - 1];
      if st.Handle? && a.pc.PutHw? && a.pc.job.State? && HasHw(a.pc.job.msg.volatile)
      then Said(a.pc.job.msg.volatile)
      else if Forgets(a, st) then Expired
      else LastMetrics(run, steps, n - 1)
  }

  /** What the last step that bears on `online` says. */
  ghost function LastOnline(run: seq<Sys>, steps: seq<Step>, n: nat): Last<bool>
    requires n <= |steps| < |run|
  {
    if n == 0 then Nothing
    else
      var a, st := run[n - 1], steps[n - 1];
      if st.Handle? && a.pc.PutLive? && a.pc.job.State? && IsBool(a.pc.job.msg.online)
      then Said(a.pc.job.msg.online.value.b)
      else if Forgets(a, st) then Expired
      else LastOnline(run, steps, n - 1)
  }

  /** The live hash expires or is deleted with the device. */
  predicate Forgets(a: Sys, st: Step) {
    st.ExpireLive? || (st.Remove? && st.id in a.removals && a.removals[st.id].DelKeys?)
  }

  /** The live hash as the deletion that the handler is about to make leaves it. */
  function Settled(a: Sys): Hash {
    if a.pc.DelHw? && a.pc.job.State? then LiveDel(a.store, a.pc.job.patch).live else a.store.live
  }

  /** A handler fails between the HSET of metrics and the HDEL of the others, and leaves one that should be gone. */
  ghost predicate LeavesStale(a: Sys, st: Step, number: Text -> Option<Text>) {
    st.Crash? && a.pc.DelHw? && a.pc.job.State? &&
      exists k :: k in HW_NAMES && PREFIX + k in a.pc.job.patch.del && ReadMetric(a.store.live, k, number).Some?
  }

  ghost function Expected(before: Hash, last: Last<Option<Json>>, number: Text -> Option<Text>): map<Text, Json> {
    match last
    case Nothing => Metrics(before, number)
    case Expired => map[]
    case Said(v) => Sanitised(v)
  }

  ghost predicate FromIdle(run: seq<Sys>, steps: seq<Step>, number: Text -> Option<Text>) {
    && IsRun(run, steps) && run[0].pc == Idle
    && forall i | 0 <= i < |steps| && steps[i].Receive? && steps[i].job.State? ::
         Inverts(number, steps[i].job.msg.volatile)
  }

  /** The job of the handler at work is valid, and `number` reads the numbers of its message. */
  ghost predicate JobReads(a: Sys, number: Text -> Option<Text>) {
    JobValid(a.pc) && (a.pc != Idle && a.pc.job.State? ==> Inverts(number, a.pc.job.msg.volatile))
  }

  lemma {:induction false} JobReadsKept(a: Sys, b: Sys, st: Step, number: Text -> Option<Text>)
    requires JobReads(a, number) && Next(a, b, st)
    requires st.Receive? && st.job.State? ==> Inverts(number, st.job.msg.volatile)
    ensures JobReads(b, number)
  {
    hide Inverts, ValidJob, HasCaps, Capabilities.Diff, Writable, ColumnsOf, Preimage, LivePatch;
  }

  lemma {:induction false} JobsRead(run: seq<Sys>, steps: seq<Step>, number: Text -> Option<Text>)
    requires FromIdle(run, steps, number)
    ensures forall i | 0 <= i < |run| :: JobReads(run[i], number)
  {
    hide JobReads, Next, Inverts;
    assert JobReads(run[0], number) by { IdleReads(run[0], number); }
    for n := 0 to |steps|
      invariant forall i | 0 <= i <= n :: JobReads(run[i], number)
    {
      JobReadsKept(run[n], run[n + 1], steps[n], number);
    }
  }

  lemma {:induction false} IdleReads(a: Sys, number: Text -> Option<Text>)
    requires a.pc == Idle
    ensures JobReads(a, number)
  {
  }

  lemma {:induction false} BaseMetric(h: Hash, msg: StateMsg, number: Text -> Option<Text>, k: Text)
    requires k in HW_NAMES
    ensures ReadMetric(h + LivePatch(msg), k, number) == ReadMetric(h, k, number)
  {
    hide LivePatch;
    var i :| 0 <= i < |HW_NAMES| && HW_NAMES[i] == k;
    assert IsHwField(PREFIX + k);
    BaseFieldsAreNotHw(msg, PREFIX + k);
  }

  /** The base patch alone touches no metric. */
  lemma {:induction false} BaseAlone(h: Hash, msg: StateMsg, number: Text -> Option<Text>)
    ensures Metrics(h + LivePatch(msg), number) == Metrics(h, number)
  {
    hide LivePatch, ReadMetric;
    forall k | k in HW_NAMES ensures ReadMetric(h + LivePatch(msg), k, number) == ReadMetric(h, k, number) {
      BaseMetric(h, msg, number, k);
    }
  }

  lemma {:induction false} BaseOnline(h: Hash, msg: StateMsg)
    ensures ReadsOnline(h + LivePatch(msg)) <==>
              match msg.online
              case Some(Bool(b)) => b
              case _ => ReadsOnline(h)
  {
    hide Property, TextOr, Flag;
    assert |TS| == 2 && |SCREEN_ON| == 8 && |CHARGING| == 8 && |BATTERY_PCT| == 10 && |NET| == 3 && |RSSI| == 4
        && |ONLINE| == 6;
  }

  /** The hash after both metric writes. */
  function WithMetrics(h: Hash, p: HwPatch): Hash {
    map f | f in h + p.set' && f !in p.del :: (h + p.set')[f]
  }

  lemma {:induction false} HwMetric(h: Hash, v: Option<Json>, p: HwPatch, number: Text -> Option<Text>, k: Text)
    requires IsHwPatch(v, p) && Inverts(number, v) && k in HW_NAMES
    ensures ReadMetric(WithMetrics(h, p), k, number) == if HasHw(v) then Meaning(v, k) else ReadMetric(h, k, number)
  {
    hide LiveHash.Written, Meaning, HasHw;
    var i :| 0 <= i < |HW_NAMES| && HW_NAMES[i] == k;
    assert IsHwField(PREFIX + k);
    if HasHw(v) { WrittenReads(v, k, number); }
  }

  /** The metric writes alone replace all metrics or none. */
  lemma {:induction false} HwAlone(h: Hash, v: Option<Json>, p: HwPatch, number: Text -> Option<Text>)
    requires IsHwPatch(v, p) && Inverts(number, v)
    ensures Metrics(WithMetrics(h, p), number) == if HasHw(v) then Sanitised(v) else Metrics(h, number)
  {
    hide Meaning, ReadMetric, HasHw, WithMetrics, IsHwPatch, Inverts;
    forall k | k in HW_NAMES
      ensures ReadMetric(WithMetrics(h, p), k, number) == if HasHw(v) then Meaning(v, k) else ReadMetric(h, k, number)
    {
      HwMetric(h, v, p, number, k);
    }
    assert HasHw(v) ==> Metrics(WithMetrics(h, p), number) == Sanitised(v);
    assert !HasHw(v) ==> Metrics(WithMetrics(h, p), number) == Metrics(h, number);
  }

  lemma {:induction false} HwOnline(h: Hash, v: Option<Json>, p: HwPatch)
    requires IsHwPatch(v, p)
    ensures ReadsOnline(h + p.set') <==> ReadsOnline(h)
    ensures ReadsOnline(map f | f in h && f !in p.del :: h[f]) <==> ReadsOnline(h)
  {
    hide LiveHash.Written, HasHw;
    assert !IsHwField(ONLINE) by {
      forall i | 0 <= i < |HW_NAMES| ensures ONLINE != PREFIX + HW_NAMES[i] {
        assert (PREFIX + HW_NAMES[i])[0] == 104 && ONLINE[0] == 111;
      }
    }
  }

  /* ---------- the metrics ---------- */

  /** The metrics, once settled, are those of the last write of metrics since the hash was lost. */
  ghost predicate HwRight(run: seq<Sys>, steps: seq<Step>, n: nat, number: Text -> Option<Text>)
    requires n <= |steps| < |run|
  {
    Metrics(Settled(run[n]), number) == Expected(run[0].store.live, LastMetrics(run, steps, n), number)
  }

  lemma {:induction false} HwStep(run: seq<Sys>, steps: seq<Step>, n: nat, number: Text -> Option<Text>)
    requires FromIdle(run, steps, number) && n < |steps| && JobReads(run[n], number)
    requires HwRight(run, steps, n, number)
    ensures HwRight(run, steps, n + 1, number) <==> !LeavesStale(run[n], steps[n], number)
  {
    hide Metrics, Sanitised, HasHw, JobReads, Settled, Next, Inverts, LeavesStale, Forgets;
    StepSettles(run[n], run[n + 1], steps[n], number);
  }

  /** What one step does to the settled metrics. */
  lemma {:induction false} StepSettles(a: Sys, b: Sys, st: Step, number: Text -> Option<Text>)
    requires JobReads(a, number) && Next(a, b, st)
    ensures var m := Metrics(Settled(b), number);
            if st.Handle? && a.pc.PutHw? && a.pc.job.State? && HasHw(a.pc.job.msg.volatile)
            then m == Sanitised(a.pc.job.msg.volatile)
            else if Forgets(a, st) then m == map[]
            else m == Metrics(Settled(a), number) <==> !LeavesStale(a, st, number)
    ensures !st.Crash? ==> !LeavesStale(a, st, number)
    ensures Forgets(a, st) ==> !st.Crash?
  {
    hide Metrics, Sanitised, HasHw, JobReads, Settled, Next, Inverts, LeavesStale;
    NothingThere(number);
    NoCrash(a, st, number);
    if st.Handle? {
      HandleEnabled(a, b, st);
      HandleSettles(a, number);
    } else if st.Crash? {
      CrashSettles(a, b, number);
    } else {
      RestSettles(a, b, st);
    }
  }

  lemma {:induction false} NoCrash(a: Sys, st: Step, number: Text -> Option<Text>)
    ensures !st.Crash? ==> !LeavesStale(a, st, number)
    ensures Forgets(a, st) ==> !st.Crash?
  {
  }

  lemma {:induction false} HandleEnabled(a: Sys, b: Sys, st: Step)
    requires Next(a, b, st) && st.Handle?
    ensures a.pc != Idle && PcValid(a.pc) && b == Do(a, Handle) && (a.pc.PutHw? ==> a.pc.job.State?)
    ensures !Forgets(a, st)
  {
    hide Do;
  }

  lemma {:induction false} RestSettles(a: Sys, b: Sys, st: Step)
    requires Next(a, b, st) && !st.Handle? && !st.Crash?
    ensures Settled(b) == if Forgets(a, st) then map[] else Settled(a)
  {
  }

  lemma {:induction false} CrashSettles(a: Sys, b: Sys, number: Text -> Option<Text>)
    requires Next(a, b, Crash)
    ensures !Forgets(a, Crash)
    ensures Metrics(Settled(b), number) == Metrics(Settled(a), number) <==> !LeavesStale(a, Crash, number)
  {
    hide ReadMetric;
    var h := a.store.live;
    assert Settled(b) == h;
    if a.pc.DelHw? && a.pc.job.State? {
      var p := a.pc.job.patch;
      forall k | k in HW_NAMES
        ensures ReadMetric(Settled(a), k, number) == if PREFIX + k in p.del then None else ReadMetric(h, k, number)
      {
        DeletedMetric(h, p, number, k);
      }
      if LeavesStale(a, Crash, number) {
        var k :| k in HW_NAMES && PREFIX + k in p.del && ReadMetric(h, k, number).Some?;
        assert k in Metrics(h, number) && k !in Metrics(Settled(a), number);
      } else {
        assert Metrics(h, number) == Metrics(Settled(a), number);
      }
    }
  }

  lemma {:induction false} DeletedMetric(h: Hash, p: HwPatch, number: Text -> Option<Text>, k: Text)
    ensures ReadMetric(map f | f in h && f !in p.del :: h[f], k, number) ==
            if PREFIX + k in p.del then None else ReadMetric(h, k, number)
  {
  }

  lemma {:induction false} NothingThere(number: Text -> Option<Text>)
    ensures Metrics(map[], number) == map[]
  {
  }

  /** What one await does to the settled hash. */
  lemma {:induction false} HandleLive(a: Sys)
    requires a.pc != Idle && PcValid(a.pc)
    ensures var b := Do(a, Handle);
            Settled(b) ==
              match a.pc
              case PutLive(j, _) => a.store.live + LivePatch(j.msg)
              case PutHw(j, _) => WithMetrics(a.store.live, j.patch)
              case _ => Settled(a)
  {
    hide LivePatch, HasCaps, Capabilities.Diff, Preimage, Writable, ColumnsOf, Blanked;
  }

  /** What one await does to the settled metrics. */
  lemma {:induction false} HandleSettles(a: Sys, number: Text -> Option<Text>)
    requires a.pc != Idle && JobReads(a, number)
    ensures Metrics(Settled(Do(a, Handle)), number) ==
              if a.pc.PutHw? && HasHw(a.pc.job.msg.volatile) then Sanitised(a.pc.job.msg.volatile)
              else Metrics(Settled(a), number)
  {
    hide Metrics, Sanitised, HasHw, IsHwPatch, Inverts, LivePatch, HasCaps, Do, WithMetrics, WellFormed;
    HandleLive(a);
    match a.pc
    case PutLive(j, _) => BaseAlone(a.store.live, j.msg, number);
    case PutHw(j, _) => HwAlone(a.store.live, j.msg.volatile, j.patch, number);
    case _ =>
  }

  /**
   * In every run, handlers, removals, expiries and throws interleaved at every await: the metrics are throughout those
   * of the last message whose metrics were written since the hash was lost, if and only if no handler fails between
   * writing its metrics and deleting a readable one that it does not carry.
   */
  lemma {:induction false} MetricsIff(run: seq<Sys>, steps: seq<Step>, number: Text -> Option<Text>)
    requires FromIdle(run, steps, number)
    ensures (forall n: nat | n < |run| :: HwRight(run, steps, n, number)) <==>
            (forall n: nat | n < |steps| :: !LeavesStale(run[n], steps[n], number))
  {
    hide HwRight, LeavesStale, JobReads, Next;
    JobsRead(run, steps, number);
    assert HwRight(run, steps, 0, number) by { StartsRight(run, steps, number); }
    if forall n: nat | n < |run| :: HwRight(run, steps, n, number) {
      forall n: nat | n < |steps| ensures !LeavesStale(run[n], steps[n], number) { HwStep(run, steps, n, number); }
    }
    if forall n: nat | n < |steps| :: !LeavesStale(run[n], steps[n], number) {
      for n := 0 to |steps|
        invariant forall m: nat | m <= n :: HwRight(run, steps, m, number)
      {
        HwStep(run, steps, n, number);
      }
    }
  }

  lemma {:induction false} StartsRight(run: seq<Sys>, steps: seq<Step>, number: Text -> Option<Text>)
    requires FromIdle(run, steps, number)
    ensures HwRight(run, steps, 0, number)
  {
    hide Metrics;
  }

  /** While no handler is between its two metric writes, what is settled is what the hash holds. */
  lemma {:induction false} MetricsInRuns(run: seq<Sys>, steps: seq<Step>, n: nat, number: Text -> Option<Text>)
    requires FromIdle(run, steps, number) && n < |run| && !run[n].pc.DelHw?
    requires forall i: nat | i < |steps| :: !LeavesStale(run[i], steps[i], number)
    ensures Metrics(run[n].store.live, number) ==
            Expected(run[0].store.live, LastMetrics(run, steps, n), number)
  {
    hide FromIdle, LeavesStale, Metrics, LastMetrics, Expected;
    assert |run| == |steps| + 1 by { Lengths(run, steps, number); }
    MetricsIff(run, steps, number);
    assert HwRight(run, steps, n, number);
  }

  lemma {:induction false} Lengths(run: seq<Sys>, steps: seq<Step>, number: Text -> Option<Text>)
    requires FromIdle(run, steps, number)
    ensures |run| == |steps| + 1
  {
  }

  /* ---------- online ---------- */

  lemma {:induction false} StepOnline(a: Sys, b: Sys, st: Step, number: Text -> Option<Text>)
    requires JobReads(a, number) && Next(a, b, st)
    ensures ReadsOnline(b.store.live) <==>
              if st.Handle? && a.pc.PutLive? && a.pc.job.State? && IsBool(a.pc.job.msg.online)
              then a.pc.job.msg.online.value.b
              else if Forgets(a, st) then false
              else ReadsOnline(a.store.live)
  {
    hide ReadsOnline, IsHwPatch, Inverts, LivePatch, WellFormed, Writable, ColumnsOf, Preimage, HasCaps, Blanked;
    hide Capabilities.Diff;
    EmptyIsOffline();
    if st.Handle? {
      match a.pc
      case PutLive(j, _) => BaseOnline(a.store.live, j.msg);
      case PutHw(j, _) => HwOnline(a.store.live, j.msg.volatile, j.patch);
      case DelHw(j, _) => HwOnline(a.store.live, j.msg.volatile, j.patch);
      case _ =>
    }
  }

  /** In every state of every run the device reads online exactly as the last boolean since the hash was lost says. */
  lemma {:induction false} OnlineInRuns(run: seq<Sys>, steps: seq<Step>, n: nat, number: Text -> Option<Text>)
    requires FromIdle(run, steps, number) && n < |run|
    ensures ReadsOnline(run[n].store.live) <==>
              match LastOnline(run, steps, n)
              case Nothing => ReadsOnline(run[0].store.live)
              case Expired => false
              case Said(b) => b
  {
    hide ReadsOnline, Next, JobReads, Forgets, Inverts;
    if n > 0 {
      OnlineInRuns(run, steps, n - 1, number);
      JobsRead(run, steps, number);
      StepOnline(run[n - 1], run[n], steps[n - 1], number);
    }
  }
}
