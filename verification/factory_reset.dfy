/** A suspected factory reset blocks remote sessions until the device row is deleted. */
module FactoryReset {
  import opened Options
  import opened Texts
  import opened Capabilities
  import opened Messages
  import opened LiveHash
  import opened Ingest
  import opened JsonText
  import opened IngestRun
  import IngestCache
  import Semver
  import opened DeviceReadiness
  import opened DeviceStates

  /** One `start` call as far as it concerns readiness: row read, live hash read, then insert or refusal. */
  datatype Start = Fresh | RowRead(device: Option<Device>, caps: Option<CapsRow>) | Inserted | Refused

  datatype World = World(sys: Sys, starts: map<nat, Start>)

  datatype WorldStep =
    | IngestStep(step: Step)
    | Begin(id: nat)
    | ReadRow(id: nat)
    | Decide(id: nat, number: Text -> real)

  ghost predicate WorldNext(a: World, b: World, st: WorldStep) {
    match st
    case IngestStep(s) => Enabled(a.sys, s) && b == a.(sys := Do(a.sys, s))
    case Begin(i) => i !in a.starts && b == a.(starts := a.starts[i := Fresh])
    case ReadRow(i) =>
      && i in a.starts && a.starts[i] == Fresh
      && b == a.(starts := a.starts[i := RowRead(a.sys.store.device, a.sys.store.caps)])
    case Decide(i, number) =>
      && i in a.starts && a.starts[i].RowRead?
      && var tier := TierOf(ToDeviceState(a.starts[i].device, a.starts[i].caps, a.sys.store.live, number));
         b == a.(starts := a.starts[i := if tier == Offline || tier == NotReady then Refused else Inserted])
  }

  ghost predicate IsWorldRun(run: seq<World>, steps: seq<WorldStep>) {
    && |run| == |steps| + 1
    && forall i | 0 <= i < |steps| :: WorldNext(run[i], run[i + 1], steps[i])
  }

  ghost predicate Flagged(a: World) { a.sys.store.device.Some? && a.sys.store.device.value.needsReprovisioning }

  /** The state read from a row, without its live hash. */
  ghost function RowState(d: Option<Device>, c: Option<CapsRow>): DeviceState {
    ToDeviceState(d, c, map[], (t: Text) => 0.0)
  }

  /** Some blocker applies to a device with this row. */
  ghost predicate RowBlocked(d: Option<Device>, c: Option<CapsRow>) { exists b :: Blocks(RowState(d, c), b) }

  /** Start `i` has not read the row, has read it with a blocker, or was refused. */
  ghost predicate Barred(a: World, i: nat) {
    i in a.starts ==>
      match a.starts[i]
      case Fresh => true
      case RowRead(d, c) => RowBlocked(d, c)
      case Inserted => false
      case Refused => true
  }

  /** Recognising the reset sets the flag. */
  lemma {:induction false} ResetFlags(s: Store, j: Job)
    requires j.State? && Resets(Ensured(s), j.msg)
    ensures OnState(s, j).device == Some(Device(j.msg.androidId, true))
  {
    hide LivePatch, Blanked;
  }

  lemma {:induction false} FlagKept(a: World, b: World, st: WorldStep)
    requires Flagged(a) && WorldNext(a, b, st) && b.sys.store.device.Some?
    ensures Flagged(b)
  {
    hide TierOf, ToDeviceState, Diff, Writable, LivePatch, ReadBack, Blanked, Truthy, ValidJob, ColumnsOf;
  }

  /** Blockers do not depend on the live hash. */
  lemma {:induction false} BlocksFromRow(d: Option<Device>, c: Option<CapsRow>, live: Hash, number: Text -> real,
                                         b: BlockerCode)
    ensures Blocks(ToDeviceState(d, c, live, number), b) <==> Blocks(RowState(d, c), b)
  {
    hide Semver.Less;
  }

  /** The tier read with a row: past NOT_READY exactly for a device that is online and has no blocker in its row. */
  lemma {:induction false} TierFromRow(d: Option<Device>, c: Option<CapsRow>, live: Hash, number: Text -> real)
    ensures var t := TierOf(ToDeviceState(d, c, live, number));
            t == Offline || t == NotReady <==> RowBlocked(d, c) || !ReadsOnline(live)
  {
    hide TierOf, Blocks, ReadsOnline;
    var s := ToDeviceState(d, c, live, number);
    TierMeaning(s);
    forall b ensures Blocks(s, b) <==> Blocks(RowState(d, c), b) { BlocksFromRow(d, c, live, number, b); }
  }

  /** A row is blocked by its stored columns, its version and its flag; without a capability row it always is. */
  lemma {:induction false} RowBlockedIff(d: Option<Device>, c: Option<CapsRow>)
    ensures RowBlocked(d, c) <==>
              || c.None?
              || (d.Some? && d.value.needsReprovisioning)
              || Semver.Less(c.value.agentVer, Ascii("1.2.0"))
              || (!c.value.columns.a11y &&
                    (c.value.columns.projectMedia != Ascii("allow") || c.value.columns.knox != Ascii("licensed")))
  {
    hide Semver.Less;
    var s := RowState(d, c);
    assert |ALLOW| == 5 && |BLOCKED| == 7;
    if c.None? { assert Blocks(s, NoCapturePath); }
    if d.Some? && d.value.needsReprovisioning { assert Blocks(s, NeedsReprovisioning); }
    if c.Some? && Semver.Less(c.value.agentVer, Ascii("1.2.0")) { assert Blocks(s, AgentOutdated); }
    if c.Some? && !c.value.columns.a11y && c.value.columns.projectMedia != ALLOW { assert Blocks(s, NoCapturePath); }
    if c.Some? && !c.value.columns.a11y && c.value.columns.knox != LICENSED { assert Blocks(s, NoInputPath); }
  }

  lemma {:induction false} FlaggedRow(d: Option<Device>, c: Option<CapsRow>)
    requires d.Some? && d.value.needsReprovisioning
    ensures RowBlocked(d, c)
  {
    assert Blocks(RowState(d, c), NeedsReprovisioning);
  }

  lemma {:induction false} BarredKept(a: World, b: World, st: WorldStep, i: nat)
    requires Flagged(a) && Barred(a, i) && WorldNext(a, b, st)
    ensures Barred(b, i)
  {
    hide TierOf, Do, Enabled, RowBlocked, ToDeviceState, ReadsOnline;
    if st.Decide? && st.id == i {
      TierFromRow(a.starts[i].device, a.starts[i].caps, a.sys.store.live, st.number);
    }
    if st.ReadRow? && st.id == i { FlaggedRow(a.sys.store.device, a.sys.store.caps); }
  }

  /**
   * From a flagged state, as long as the device row exists, every readiness read is NOT_READY or OFFLINE whatever
   * capabilities arrive, and no `start` inserts a session unless it has inserted it already or has read a row without
   * blockers before the flag was set.
   */
  lemma {:induction false} ResetSticks(run: seq<World>, steps: seq<WorldStep>, i: nat, number: Text -> real)
    requires IsWorldRun(run, steps) && Flagged(run[0]) && RowStays(run)
    requires Barred(run[0], i)
    ensures forall n | 0 <= n < |run| :: Flagged(run[n])
    ensures forall n | 0 <= n < |run| ::
              var s := run[n].sys.store;
              var t := TierOf(ToDeviceState(s.device, s.caps, s.live, number));
              t == Offline || t == NotReady
    ensures forall n | 0 <= n < |run| && i in run[n].starts :: run[n].starts[i] != Inserted
  {
    hide TierOf, WorldNext, ToDeviceState, RowBlocked, ReadsOnline;
    for n := 0 to |steps|
      invariant forall m | 0 <= m <= n :: Flagged(run[m]) && Barred(run[m], i)
    {
      FlagKept(run[n], run[n + 1], steps[n]);
      BarredKept(run[n], run[n + 1], steps[n], i);
    }
    forall n | 0 <= n < |run|
      ensures var s := run[n].sys.store;
              var t := TierOf(ToDeviceState(s.device, s.caps, s.live, number));
              t == Offline || t == NotReady
    {
      var s := run[n].sys.store;
      FlaggedRow(s.device, s.caps);
      TierFromRow(s.device, s.caps, s.live, number);
    }
  }

  /* ---------- who still inserts ---------- */

  ghost predicate RowStays(run: seq<World>) { forall n | 0 <= n < |run| :: run[n].sys.store.device.Some? }

  /** Start `i` inserts its session in some run that keeps the device row. */
  ghost predicate CanInsert(a: World, i: nat) {
    exists run: seq<World>, steps: seq<WorldStep> ::
      && IsWorldRun(run, steps) && run[0] == a && RowStays(run)
      && i in run[|steps|].starts && run[|steps|].starts[i] == Inserted
  }

  /** A first step that keeps the row before a run in which `i` inserts. */
  lemma {:induction false} CanStep(a: World, b: World, st: WorldStep, i: nat)
    requires a.sys.store.device.Some? && WorldNext(a, b, st) && CanInsert(b, i)
    ensures CanInsert(a, i)
  {
    hide WorldNext;
    var run: seq<World>, steps: seq<WorldStep> :|
      && IsWorldRun(run, steps) && run[0] == b && RowStays(run)
      && i in run[|steps|].starts && run[|steps|].starts[i] == Inserted;
    var run', steps' := [a] + run, [st] + steps;
    forall n | 0 <= n < |steps'| ensures WorldNext(run'[n], run'[n + 1], steps'[n]) {
      if n > 0 { assert run'[n] == run[n - 1] && run'[n + 1] == run[n] && steps'[n] == steps[n - 1]; }
    }
    assert IsWorldRun(run', steps');
    assert RowStays(run');
    assert run'[|steps'|] == run[|steps|];
  }

  lemma {:induction false} InsertedCan(a: World, i: nat)
    requires a.sys.store.device.Some? && i in a.starts && a.starts[i] == Inserted
    ensures CanInsert(a, i)
  {
    var run, steps: seq<WorldStep> := [a], [];
    assert IsWorldRun(run, steps) && RowStays(run) && run[|steps|] == a;
  }

  /** Once the device is online, a `start` that has read a row without blockers inserts. */
  lemma {:induction false} OnlineCan(a: World, i: nat, number: Text -> real)
    requires a.sys.store.device.Some? && ReadsOnline(a.sys.store.live)
    requires i in a.starts && a.starts[i].RowRead? && !RowBlocked(a.starts[i].device, a.starts[i].caps)
    ensures CanInsert(a, i)
  {
    hide TierOf, ToDeviceState, RowBlocked, ReadsOnline, CanInsert;
    TierFromRow(a.starts[i].device, a.starts[i].caps, a.sys.store.live, number);
    var b := a.(starts := a.starts[i := Inserted]);
    assert WorldNext(a, b, Decide(i, number));
    InsertedCan(b, i);
    CanStep(a, b, Decide(i, number), i);
  }

  const ONLINE_MSG: StateMsg := StateMsg(Some(Bool(true)), [], [], None, None, [])

  /** Once no handler is at work, an online message is handled as far as the live hash. */
  lemma {:induction false} IdleCan(a: World, i: nat, number: Text -> real)
    requires a.sys.store.device.Some? && a.sys.pc == Idle
    requires i in a.starts && a.starts[i].RowRead? && !RowBlocked(a.starts[i].device, a.starts[i].caps)
    ensures CanInsert(a, i)
  {
    hide RowBlocked, CanInsert;
    var j := State(ONLINE_MSG, HwPatch(map[], []));
    var b := a.(sys := Do(a.sys, Receive(j)));
    var c := b.(sys := Do(b.sys, Handle));
    var d := c.(sys := Do(c.sys, Handle));
    NoHwPatch(j);
    OnlineCan(d, i, number);
    CanStep(c, d, IngestStep(Handle), i);
    CanStep(b, c, IngestStep(Handle), i);
    CanStep(a, b, IngestStep(Receive(j)), i);
  }

  lemma {:induction false} NoHwPatch(j: Job)
    requires j == State(ONLINE_MSG, HwPatch(map[], []))
    ensures ValidJob(j)
  {
  }

  lemma {:induction false} HandleKeepsRow(a: Sys)
    requires a.pc != Idle && PcValid(a.pc) && a.store.device.Some?
    ensures var b := Do(a, Handle);
            PcValid(b.pc) && IngestCache.Rank(b.pc) < IngestCache.Rank(a.pc) && b.store.device.Some?
  {
    hide LivePatch, ColumnsOf, Writable, Diff, ReadBack, HasCaps, Blanked;
  }

  /** Whatever handler is at work runs to its end first. */
  lemma {:induction false} EarlyReaderInserts(a: World, i: nat, number: Text -> real)
    requires a.sys.store.device.Some? && PcValid(a.sys.pc)
    requires i in a.starts && a.starts[i].RowRead? && !RowBlocked(a.starts[i].device, a.starts[i].caps)
    ensures CanInsert(a, i)
    decreases IngestCache.Rank(a.sys.pc)
  {
    hide RowBlocked, CanInsert, Do;
    if a.sys.pc == Idle {
      IdleCan(a, i, number);
    } else {
      var b := a.(sys := Do(a.sys, Handle));
      HandleKeepsRow(a.sys);
      EarlyReaderInserts(b, i, number);
      CanStep(a, b, IngestStep(Handle), i);
    }
  }

  lemma {:induction false} InsertingRun(a: World, i: nat) returns (run: seq<World>, steps: seq<WorldStep>)
    requires CanInsert(a, i)
    ensures IsWorldRun(run, steps) && run[0] == a && RowStays(run) && |run| == |steps| + 1
    ensures i in run[|steps|].starts && run[|steps|].starts[i] == Inserted
  {
    hide WorldNext;
    run, steps :|
      && IsWorldRun(run, steps) && run[0] == a && RowStays(run)
      && i in run[|steps|].starts && run[|steps|].starts[i] == Inserted;
  }

  lemma {:induction false} BarredCannot(a: World, i: nat)
    requires Flagged(a) && Barred(a, i)
    ensures !CanInsert(a, i)
  {
    hide RowBlocked, IsWorldRun, TierOf, ToDeviceState, Barred, CanInsert, RowStays;
    if CanInsert(a, i) {
      var run, steps := InsertingRun(a, i);
      ResetSticks(run, steps, i, (t: Text) => 0.0);
      assert false;
    }
  }

  /**
   * From a flagged state, a `start` inserts its session in no run that keeps the device row if and only if it has not
   * read the row, has read it with a blocker, or was refused.
   */
  lemma {:induction false} BarredIff(a: World, i: nat)
    requires Flagged(a) && PcValid(a.sys.pc)
    ensures Barred(a, i) <==> !CanInsert(a, i)
  {
    hide RowBlocked, CanInsert;
    if Barred(a, i) {
      BarredCannot(a, i);
    } else if a.starts[i] == Inserted {
      InsertedCan(a, i);
    } else {
      EarlyReaderInserts(a, i, (t: Text) => 0.0);
    }
  }

  /** A reset under way: a `start` that reads a row without blockers just before the flag is set still inserts. */
  lemma {:induction false} SlipsPast(sys: Sys, j: Job)
    requires j.State? && j.msg.androidId != [] && sys.pc == FlagReset(j) && sys.store.device.Some?
    requires !RowBlocked(sys.store.device, sys.store.caps)
    ensures var read := World(sys, map[0 := RowRead(sys.store.device, sys.store.caps)]);
            var flagged := read.(sys := Do(sys, Handle));
            && WorldNext(World(sys, map[0 := Fresh]), read, ReadRow(0)) && WorldNext(read, flagged, IngestStep(Handle))
            && Flagged(flagged) && CanInsert(flagged, 0) && CanInsert(World(sys, map[0 := Fresh]), 0)
  {
    hide RowBlocked, CanInsert;
    var fresh' := World(sys, map[0 := Fresh]);
    var read := World(sys, map[0 := RowRead(sys.store.device, sys.store.caps)]);
    var flagged := read.(sys := Do(sys, Handle));
    assert read.starts == fresh'.starts[0 := RowRead(sys.store.device, sys.store.caps)];
    EarlyReaderInserts(flagged, 0, (t: Text) => 0.0);
    CanStep(read, flagged, IngestStep(Handle), 0);
    CanStep(fresh', read, ReadRow(0), 0);
  }
}
