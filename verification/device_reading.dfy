/** From the record a device reports to the state that readiness is read from. */
module DeviceReadings {
  import opened Options
  import opened Texts
  import opened JsonText
  import opened Canonical
  import opened Capabilities
  import opened Messages
  import opened LiveHash
  import opened Ingest
  import opened IngestRun
  import opened IngestCache
  import opened DeviceReadiness
  import opened DeviceStates

  /** The properties of a reported record, as they are read; those a reset blanks may be overridden. */
  ghost predicate ReadsReport(d: DeviceState, m: StateMsg, blanked: bool)
    requires m.caps.Some?
  {
    var r := m.caps.value;
    && d.agentVer == m.agentVer
    && (if blanked then
          && d.caps.projectMedia == Ascii("blocked") && d.caps.knox == Ascii("unlicensed")
          && !d.caps.a11y && !d.caps.overlay && !d.caps.secureSettings
        else
          && Lookup(r, Ascii("projectMedia")) == Some(Str(d.caps.projectMedia))
          && Lookup(r, Ascii("knox")) == Some(Str(d.caps.knox))
          && Lookup(r, Ascii("a11y")) == Some(Bool(d.caps.a11y))
          && Lookup(r, Ascii("overlay")) == Some(Bool(d.caps.overlay))
          && Lookup(r, Ascii("secureSettings")) == Some(Bool(d.caps.secureSettings)))
    && ReadsEncoder(d, r)
  }

  /** An encoder is read if its name is there and not empty; it is a hardware one only if the record says `true`. */
  ghost predicate ReadsEncoder(d: DeviceState, r: Json) {
    var e := Lookup(r, Ascii("encoder"));
    var name := if e.Some? then Lookup(e.value, Ascii("name")) else None;
    var hw := if e.Some? then Lookup(e.value, Ascii("hw")) else None;
    if name.Some? && name.value.Str? && name.value.s != []
    then d.caps.encoderName == Some(name.value.s) && d.caps.encoderHw == Some(hw == Some(Bool(true)))
    else d.caps.encoderName == None && d.caps.encoderHw == None
  }

  /** What is read without a capability row. */
  ghost predicate ReadsNothing(d: DeviceState) {
    && d.agentVer == Ascii("0.0.0")
    && d.caps == Columns(Ascii("blocked"), false, Ascii("unsupported"), false, false, None, None)
  }

  /** The row of a report, blanked or not. */
  function StoredRow(m: StateMsg, blanked: bool): CapsRow
    requires m.caps.Some? && Writable(m.caps.value)
  {
    var row := RowFor(m);
    if blanked then row.(columns := Blanked(row.columns)) else row
  }

  lemma {:induction false} RowReads(device: Option<Device>, live: Hash, number: Text -> real, m: StateMsg,
                                    blanked: bool)
    requires m.caps.Some? && Writable(m.caps.value)
    ensures ReadsReport(ToDeviceState(device, Some(StoredRow(m, blanked)), live, number), m, blanked)
    ensures ReadsNothing(ToDeviceState(device, None, live, number))
    ensures ToDeviceState(device, None, live, number).needsReprovisioning ==
            ToDeviceState(device, Some(StoredRow(m, blanked)), live, number).needsReprovisioning ==
            (device.Some? && device.value.needsReprovisioning)
  {
    hide Lookup, ReadsOnline, Preimage;
    ColumnsRead(m.caps.value);
  }

  /* ---------- one handler ---------- */

  /**
   * After the handler of a record that the columns accept, the row is that of the record, whether it was written now
   * or the cache said that it was there; after a reset the old row is there, blanked.
   */
  lemma {:induction false} HandlerStores(s: Store, j: Job)
    requires Coherent(s) && ValidJob(j) && j.State?
    ensures var after := OnState(s, j).caps;
            if Resets(Ensured(s), j.msg)
            then after == if s.caps.Some? then Some(s.caps.value.(columns := Blanked(s.caps.value.columns))) else None
            else if j.msg.caps.Some? && j.msg.agentVer != [] && Writable(j.msg.caps.value)
            then after == Some(StoredRow(j.msg, false))
            else after == s.caps
  {
    hide Describes, Writable, LivePatch, Preimage, IsHwPatch, WellFormed, ColumnsOf, Capabilities.Diff, Truthy, Blanked,
        RowFor;
    var s1 := Prepared(s, j);
    if j.msg.caps.Some? && Writable(j.msg.caps.value) {
      WritableIsObject(j.msg.caps.value);
      TruthyObject(j.msg.caps.value);
    }
    if !Resets(Ensured(s), j.msg) && HasCaps(j.msg) && s1.cache == Some(HashOf(j.msg)) {
      PreparedKeeps(s, j);
      HitMeansStored(s1, j.msg);
    }
  }

  lemma {:induction false} TruthyObject(v: Json)
    requires v.Obj?
    ensures Truthy(v)
  {
  }

  lemma {:induction false} PreparedKeeps(s: Store, j: Job)
    requires j.State?
    ensures var s1 := Prepared(s, j);
            s1.device.Some? && s1.caps == s.caps && (s1.cache == s.cache || s1.cache.None?)
            && (s.device.None? ==> s1.cache.None?)
  {
    hide LivePatch;
  }

  /** From the report to the reading: what is read after the handler of an accepted record is what it reported. */
  lemma {:induction false} HandlerReads(s: Store, j: Job, number: Text -> real)
    requires Coherent(s) && ValidJob(j) && j.State? && !Resets(Ensured(s), j.msg)
    requires j.msg.caps.Some? && Writable(j.msg.caps.value) && j.msg.agentVer != []
    ensures var t := OnState(s, j); ReadsReport(ToDeviceState(t.device, t.caps, t.live, number), j.msg, false)
  {
    hide OnState, ToDeviceState, ReadsReport, Coherent, ValidJob, Writable, StoredRow, Resets;
    WritableIsObject(j.msg.caps.value);
    HandlerStores(s, j);
    var t := OnState(s, j);
    RowReads(t.device, t.live, number, j.msg, false);
  }

  /* ---------- over runs, await by await ---------- */

  datatype Report = NoReport | Reported(msg: StateMsg, blanked: bool)

  /** The last accepted record since the device row was deleted, and whether a reset has come since. */
  ghost function LastReport(run: seq<Sys>, steps: seq<Step>, n: nat): Report
    requires n <= |steps| < |run|
  {
    if n == 0 then NoReport
    else
      var a, st, last := run[n - 1], steps[n - 1], LastReport(run, steps, n - 1);
      if Upserts(a, st) then Reported(a.pc.job.msg, false)
      else if st.Handle? && a.pc.Blank? && last.Reported? then Reported(last.msg, true)
      else if Deletes(a, st) then NoReport
      else last
  }

  predicate Upserts(a: Sys, st: Step) {
    && st.Handle? && a.pc.Upsert? && a.pc.job.State? && a.pc.job.msg.caps.Some?
    && a.store.device.Some? && Writable(a.pc.job.msg.caps.value)
  }

  predicate Deletes(a: Sys, st: Step) { st.Remove? && st.id in a.removals && a.removals[st.id].DelDevice? }

  ghost predicate RowIs(row: Option<CapsRow>, last: Report) {
    match last
    case NoReport => row.None?
    case Reported(m, blanked) => m.caps.Some? && Writable(m.caps.value) && row == Some(StoredRow(m, blanked))
  }

  lemma {:induction false} RowStep(a: Sys, b: Sys, st: Step, last: Report)
    requires Next(a, b, st) && RowIs(a.store.caps, last)
    ensures RowIs(b.store.caps,
                  if Upserts(a, st) then Reported(a.pc.job.msg, false)
                  else if st.Handle? && a.pc.Blank? && last.Reported? then Reported(last.msg, true)
                  else if Deletes(a, st) then NoReport
                  else last)
  {
    hide Writable, LivePatch, Preimage, ColumnsOf, Capabilities.Diff, Truthy, HashOf;
  }

  /**
   * In every state of every run from a store without capability row, the device is read as the last accepted record
   * said since the device row was deleted, blanked if a reset came after it; without one, as nothing.
   */
  lemma {:induction false} ReportInRuns(run: seq<Sys>, steps: seq<Step>, n: nat, number: Text -> real)
    requires IsRun(run, steps) && run[0].store.caps.None? && n < |run|
    ensures var s := run[n].store;
            var d := ToDeviceState(s.device, s.caps, s.live, number);
            && RowIs(s.caps, LastReport(run, steps, n))
            && match LastReport(run, steps, n)
               case NoReport => ReadsNothing(d)
               case Reported(m, blanked) => ReadsReport(d, m, blanked)
  {
    hide Next, ToDeviceState, ReadsReport, ReadsNothing, StoredRow, Writable;
    if n > 0 {
      ReportInRuns(run, steps, n - 1, number);
      RowStep(run[n - 1], run[n], steps[n - 1], LastReport(run, steps, n - 1));
    }
    var s := run[n].store;
    match LastReport(run, steps, n)
    case NoReport => NothingReads(s.device, s.live, number);
    case Reported(m, blanked) => RowReads(s.device, s.live, number, m, blanked);
  }

  lemma {:induction false} NothingReads(device: Option<Device>, live: Hash, number: Text -> real)
    ensures ReadsNothing(ToDeviceState(device, None, live, number))
  {
  }

  /**
   * In every run with removals interleaved at every await: when the handler of an accepted record ends, whether it has
   * written the record or found its hash in the cache, the row is that of the record if the device is there.
   */
  lemma {:induction false} HandlerEnds(run: seq<Sys>, steps: seq<Step>, n: nat, number: Text -> real)
    requires IsRun(run, steps) && run[0].pc == Idle && Coherent(run[0].store) && n < |steps|
    requires steps[n].Handle? && run[n + 1].pc == Idle && run[n + 1].store.device.Some?
    requires run[n].pc.PutCache? || run[n].pc.GetCache?
    ensures var m, s := run[n].pc.job.msg, run[n + 1].store;
            && m.caps.Some? && Writable(m.caps.value) && s.caps == Some(StoredRow(m, false))
            && ReadsReport(ToDeviceState(s.device, s.caps, s.live, number), m, false)
  {
    hide ToDeviceState, ReadsReport, Coherent;
    CacheCoherentInRuns(run, steps);
    EndStores(run[n], run[n + 1]);
    var m, s := run[n].pc.job.msg, run[n + 1].store;
    RowReads(s.device, s.live, number, m, false);
  }

  lemma {:induction false} EndStores(a: Sys, b: Sys)
    requires CacheInv(a) && Next(a, b, Handle) && b.pc == Idle && b.store.device.Some?
    requires a.pc.PutCache? || a.pc.GetCache?
    ensures var m := a.pc.job.msg;
            m.caps.Some? && Writable(m.caps.value) && b.store.caps == Some(StoredRow(m, false))
  {
    hide Describes, Writable, Preimage, WellFormed, ColumnsOf, Truthy, IsHwPatch, RowFor;
    var m := a.pc.job.msg;
    HitMeansStored(a.store.(cache := Some(HashOf(m))), m);
  }

  /* ---------- the device row ---------- */

  /** The flag of a reset is written. */
  predicate Flags(a: Sys, st: Step) { st.Handle? && a.pc.FlagReset? && a.store.device.Some? }

  /** An Android id is written, with a reset or without. */
  predicate Names(a: Sys, st: Step) {
    Flags(a, st) || (st.Handle? && a.pc.StoreAndroid? && a.pc.job.State? && a.store.device.Some?)
  }

  /** A row is created. */
  predicate Creates(a: Sys, st: Step) { st.Handle? && a.pc.Insert? && a.store.device.None? }

  lemma {:induction false} DeviceStep(a: Sys, b: Sys, st: Step)
    requires Next(a, b, st)
    ensures b.store.device ==
              if Creates(a, st) then Some(Device([], false))
              else if Deletes(a, st) then None
              else if Names(a, st)
              then Some(Device(a.pc.job.msg.androidId, a.store.device.value.needsReprovisioning || Flags(a, st)))
              else a.store.device
  {
    hide Writable, LivePatch, Preimage, ColumnsOf, Capabilities.Diff, Truthy, Blanked;
  }

  /** From step `i` on the row is not deleted in the first `n` steps. */
  ghost predicate Stays(run: seq<Sys>, steps: seq<Step>, i: nat, n: nat)
    requires n <= |steps| < |run|
  {
    forall j: nat | i <= j < n :: !Deletes(run[j], steps[j])
  }

  /**
   * In every run from a store without device row, the row is flagged for re-provisioning if and only if some reset has
   * flagged it and it has not been deleted since.
   */
  lemma {:induction false} FlaggedIff(run: seq<Sys>, steps: seq<Step>, n: nat)
    requires IsRun(run, steps) && run[0].store.device.None? && n < |run|
    ensures run[n].store.device.Some? && run[n].store.device.value.needsReprovisioning <==>
            exists i: nat :: i < n && Flags(run[i], steps[i]) && Stays(run, steps, i, n)
  {
    hide Next, Flags, Deletes;
    if n > 0 {
      var m := n - 1;
      FlaggedIff(run, steps, m);
      DeviceStep(run[m], run[n], steps[m]);
      FlagsStay(run, steps, m);
      FlagsExclude(run[m], steps[m]);
    }
  }

  /** One more step: an earlier flag stays unless the row is deleted, and a new one may come. */
  lemma {:induction false} FlagsStay(run: seq<Sys>, steps: seq<Step>, m: nat)
    requires m < |steps| < |run|
    ensures (exists i: nat :: i < m + 1 && Flags(run[i], steps[i]) && Stays(run, steps, i, m + 1)) <==>
              && !Deletes(run[m], steps[m])
              && (|| Flags(run[m], steps[m])
                  || exists i: nat :: i < m && Flags(run[i], steps[i]) && Stays(run, steps, i, m))
  {
    hide Flags, Deletes;
    if !Deletes(run[m], steps[m]) {
      if Flags(run[m], steps[m]) { assert Stays(run, steps, m, m + 1); }
      if exists i: nat :: i < m && Flags(run[i], steps[i]) && Stays(run, steps, i, m) {
        var i: nat :| i < m && Flags(run[i], steps[i]) && Stays(run, steps, i, m);
        assert Stays(run, steps, i, m + 1);
      }
    }
    if exists i: nat :: i < m + 1 && Flags(run[i], steps[i]) && Stays(run, steps, i, m + 1) {
      var i: nat :| i < m + 1 && Flags(run[i], steps[i]) && Stays(run, steps, i, m + 1);
      assert i < m ==> Stays(run, steps, i, m);
    }
  }

  lemma {:induction false} FlagsExclude(a: Sys, st: Step)
    ensures Flags(a, st) ==> !Deletes(a, st) && !Creates(a, st) && Names(a, st) && a.store.device.Some?
    ensures Creates(a, st) ==> a.store.device.None? && !Deletes(a, st) && !Names(a, st)
    ensures Names(a, st) ==> a.store.device.Some?
  {
  }

  /** The four steps of one removal, with nothing in between, leave nothing of the device. */
  lemma {:induction false} RemovalLeavesNothing(a: Sys, i: nat)
    requires i in a.removals && a.removals[i] == DelKeys
    ensures var b := Do(Do(Do(Do(a, Remove(i)), Remove(i)), Remove(i)), Remove(i));
            b.store == Store(None, None, [], None, map[]) && b.pc == a.pc && b.removals == a.removals - {i}
  {
    var b := Do(a, Remove(i));
    var c := Do(b, Remove(i));
    var d := Do(c, Remove(i));
    assert b.removals[i] == DelEvents && c.removals[i] == DelOthers && d.removals[i] == DelDevice;
    assert Do(d, Remove(i)).removals == a.removals - {i};
  }
}
