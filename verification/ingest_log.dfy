/** Replaying the capability event log of a device gives its stored capabilities. */
module IngestLog {
  import opened Options
  import opened Texts
  import opened JsonText
  import opened Canonical
  import opened Capabilities
  import opened Messages
  import opened LiveHash
  import opened Ingest
  import opened IngestRun

  /** Writes the new values of an entry over a record. */
  function Overlay(m: map<Text, Json>, e: Entry): map<Text, Json> {
    map k | k in m.Keys + e.Keys :: if k in e then e[k].1 else m[k]
  }

  /** An `initial` entry restarts the fold with the record it holds. */
  function ApplyEntry(m: map<Text, Json>, e: Entry): map<Text, Json> {
    if INITIAL in e then Properties(e[INITIAL].1) else Overlay(m, e)
  }

  function Replay(log: seq<Entry>): map<Text, Json> {
    if log == [] then map[] else ApplyEntry(Replay(log[..|log| - 1]), log[|log| - 1])
  }

  /** One property of a replayed record as `findCaps` would show it. */
  function Shown(m: map<Text, Json>, k: Text): Option<Json> {
    if k !in KNOWN || k !in m then None
    else if k != ENCODER then Some(m[k])
    else
      match Lookup(m[k], NAME)
      case Some(Str(n)) => if n == [] then None else Some(EncoderObject(n, Lookup(m[k], HW) == Some(Bool(true))))
      case _ => None
  }

  /** The replayed record agrees with the stored columns. */
  ghost predicate Shows(m: map<Text, Json>, c: Columns) {
    forall k :: Shown(m, k) == Lookup(ReadBack(c), k)
  }

  /** A record, written to the columns and read back, shows itself. */
  lemma {:induction false} RecordShowsColumns(caps: Json)
    requires Writable(caps)
    ensures Shows(Properties(caps), ColumnsOf(caps))
  {
    hide Lookup, ReadBack, WellFormed;
    ReadBackFields(ColumnsOf(caps));
    ColumnsRead(caps);
    forall k ensures Shown(Properties(caps), k) == Lookup(ReadBack(ColumnsOf(caps)), k) {
    }
  }

  /**
   * What a log that shows `d` shows after a write of `n` over the stored columns `c`: the entry holds the columns on
   * which `n` differs from `c`; the others stay as they were.
   */
  function Merged(c: Columns, d: Columns, n: Columns): Columns {
    n.(projectMedia := if n.projectMedia != c.projectMedia then n.projectMedia else d.projectMedia,
       a11y := if n.a11y != c.a11y then n.a11y else d.a11y,
       knox := if n.knox != c.knox then n.knox else d.knox,
       overlay := if n.overlay != c.overlay then n.overlay else d.overlay,
       secureSettings := if n.secureSettings != c.secureSettings then n.secureSettings else d.secureSettings)
  }

  predicate SameFive(c: Columns, d: Columns) {
    && c.projectMedia == d.projectMedia && c.a11y == d.a11y && c.knox == d.knox
    && c.overlay == d.overlay && c.secureSettings == d.secureSettings
  }

  /** Both columns read back with the same encoder. */
  ghost predicate SameEncoder(c: Columns, d: Columns) { Lookup(ReadBack(c), ENCODER) == Lookup(ReadBack(d), ENCODER) }

  /** A log that shows `d`, written over with the difference of a record to the stored `c`, shows the merged columns. */
  lemma {:induction false} DiffMerges(m: map<Text, Json>, c: Columns, d: Columns, caps: Json)
    requires Shows(m, d) && SameEncoder(d, c) && Writable(caps) && INITIAL !in Keys(caps)
    ensures var e := Stored(Diff(Some(ReadBack(c)), caps));
            && INITIAL !in e && Shows(Overlay(m, e), Merged(c, d, ColumnsOf(caps)))
            && SameEncoder(Merged(c, d, ColumnsOf(caps)), ColumnsOf(caps))
  {
    NoInitialEntry(c, caps);
    hide Lookup, ReadBack, WellFormed, Keys, Merged, Diff, Overlay, Stored, Writable, ColumnsOf, Shown, Shows;
    var n, e := ColumnsOf(caps), Stored(Diff(Some(ReadBack(c)), caps));
    ColumnsRead(caps);
    MergedIs(c, d, n);
    FiveNames();
    ScalarMerges(m, c, d, caps, PROJECT_MEDIA);
    ScalarMerges(m, c, d, caps, A11Y);
    ScalarMerges(m, c, d, caps, KNOX);
    ScalarMerges(m, c, d, caps, OVERLAY);
    ScalarMerges(m, c, d, caps, SECURE_SETTINGS);
    EncoderMerges(m, c, d, caps);
    ReadBackFields(c);
    ReadBackFields(d);
    ReadBackFields(n);
    ReadBackFields(Merged(c, d, n));
    ShowsFrom(Overlay(m, e), Merged(c, d, n));
  }

  lemma {:induction false} FiveNames()
    ensures {PROJECT_MEDIA, A11Y, KNOX, OVERLAY, SECURE_SETTINGS} <= KNOWN - {ENCODER}
  {
    NamesDiffer();
  }

  lemma {:induction false} NoInitialEntry(c: Columns, caps: Json)
    requires INITIAL !in Keys(caps)
    ensures INITIAL !in Stored(Diff(Some(ReadBack(c)), caps))
  {
    hide Lookup, ReadBack, Keys;
    ReadBackFields(c);
    InitialIsNoProperty();
  }

  /**
   * A stored entry names exactly the properties on which two records differ, with the old and the new value of each,
   * null standing for a missing one; the entry of a first record holds the whole record.
   */
  lemma {:induction false} EntryTells(prev: Json, next: Json, k: Text)
    ensures var e := Stored(Diff(Some(prev), next));
            && (k in e <==> Lookup(prev, k) != Lookup(next, k))
            && (k in e ==> e[k] == (OrNull(Lookup(prev, k)), OrNull(Lookup(next, k))))
    ensures Stored(Diff(None, next)) == map[INITIAL := (Null, next)]
  {
    hide Lookup;
  }

  function OrNull(v: Option<Json>): Json { if v.Some? then v.value else Null }

  /** Agreement on the six properties is agreement. */
  lemma {:induction false} ShowsFrom(m: map<Text, Json>, c: Columns)
    requires Shown(m, PROJECT_MEDIA) == Lookup(ReadBack(c), PROJECT_MEDIA)
        && Shown(m, A11Y) == Lookup(ReadBack(c), A11Y)
    requires Shown(m, KNOX) == Lookup(ReadBack(c), KNOX) && Shown(m, OVERLAY) == Lookup(ReadBack(c), OVERLAY)
    requires Shown(m, SECURE_SETTINGS) == Lookup(ReadBack(c), SECURE_SETTINGS)
        && Shown(m, ENCODER) == Lookup(ReadBack(c), ENCODER)
    ensures Shows(m, c)
  {
    hide Lookup, ReadBack;
    ReadBackFields(c);
    forall k ensures Shown(m, k) == Lookup(ReadBack(c), k) { if k in KNOWN {} }
  }

  lemma {:induction false} MergedIs(c: Columns, d: Columns, n: Columns)
    ensures var x := Merged(c, d, n);
            && x.projectMedia == (if n.projectMedia != c.projectMedia then n.projectMedia else d.projectMedia)
            && x.a11y == (if n.a11y != c.a11y then n.a11y else d.a11y)
            && x.knox == (if n.knox != c.knox then n.knox else d.knox)
            && x.overlay == (if n.overlay != c.overlay then n.overlay else d.overlay)
            && x.secureSettings == (if n.secureSettings != c.secureSettings then n.secureSettings else d.secureSettings)
            && x.encoderName == n.encoderName && x.encoderHw == n.encoderHw
  {
  }

  /** A property that is no encoder: written if it differs from the stored one, otherwise as the log had it. */
  lemma {:induction false} ScalarMerges(m: map<Text, Json>, c: Columns, d: Columns, caps: Json, k: Text)
    requires Shows(m, d) && Writable(caps) && k in KNOWN - {ENCODER} && Lookup(caps, k).Some?
    ensures Shown(Overlay(m, Stored(Diff(Some(ReadBack(c)), caps))), k) ==
              if Lookup(ReadBack(c), k) != Lookup(caps, k) then Lookup(caps, k) else Lookup(ReadBack(d), k)
  {
    hide ReadBack, Lookup, Writable;
    assert Shown(m, k) == Lookup(ReadBack(d), k);
  }

  lemma {:induction false} EncoderMerges(m: map<Text, Json>, c: Columns, d: Columns, caps: Json)
    requires Shows(m, d) && SameEncoder(d, c) && Writable(caps)
    ensures Shown(Overlay(m, Stored(Diff(Some(ReadBack(c)), caps))), ENCODER) ==
        Lookup(ReadBack(ColumnsOf(caps)), ENCODER)
  {
    hide ReadBack, WellFormed, Keys, Lookup;
    var df := Diff(Some(ReadBack(c)), caps);
    ReadBackFields(c);
    RecordShowsColumns(caps);
    assert ENCODER in KNOWN;
    assert Shown(m, ENCODER) == Lookup(ReadBack(d), ENCODER) == Lookup(ReadBack(c), ENCODER);
    if Lookup(ReadBack(c), ENCODER) == Lookup(caps, ENCODER) {
      assert ENCODER !in df;
      ShownOfShown(c, caps, ENCODER);
    } else {
      assert ENCODER in df;
      NullHasNoName();
    }
  }

  /** Adding the difference to a replay of the old columns replays the new ones. */
  lemma {:induction false} DiffReplays(m: map<Text, Json>, c: Columns, caps: Json)
    requires Shows(m, c) && Writable(caps) && INITIAL !in Keys(caps)
    ensures var e := Stored(Diff(Some(ReadBack(c)), caps));
            INITIAL !in e && Shows(Overlay(m, e), ColumnsOf(caps))
  {
    hide Lookup, ReadBack, Writable, ColumnsOf, Diff, Keys, Shows;
    DiffMerges(m, c, c, caps);
    assert Merged(c, c, ColumnsOf(caps)) == ColumnsOf(caps);
  }

  /** What a log shows is a matter of the five columns and the encoder. */
  lemma {:induction false} ShowsIff(m: map<Text, Json>, d: Columns, c: Columns)
    requires Shows(m, d) && SameEncoder(d, c)
    ensures Shows(m, c) <==> SameFive(d, c)
  {
    hide Lookup, ReadBack;
    ReadBackFields(c);
    ReadBackFields(d);
    assert {PROJECT_MEDIA, A11Y, KNOX, OVERLAY, SECURE_SETTINGS} <= KNOWN;
    if Shows(m, c) {
      assert forall k :: Lookup(ReadBack(c), k) == Shown(m, k) == Lookup(ReadBack(d), k);
    }
    if SameFive(d, c) {
      forall k ensures Shown(m, k) == Lookup(ReadBack(c), k) {
        assert Shown(m, k) == Lookup(ReadBack(d), k);
      }
    }
  }

  lemma {:induction false} InitialIsNoProperty()
    ensures INITIAL !in KNOWN
  {
    NamesDiffer();
    assert INITIAL[0] != OVERLAY[0] && INITIAL[0] != ENCODER[0] && |INITIAL| == 7;
  }

  lemma {:induction false} NullHasNoName()
    ensures Lookup(Null, NAME) == None
  {
  }

  /** A property equal to one that was read back is shown as it is. */
  lemma {:induction false} ShownOfShown(c: Columns, caps: Json, k: Text)
    requires k in KNOWN && Lookup(ReadBack(c), k) == Lookup(caps, k)
    ensures Shown(Properties(caps), k) == Lookup(caps, k)
  {
    hide Lookup, ReadBack, WellFormed, Keys;
    ReadBackFields(c);
    if k == ENCODER && c.encoderName.Some? && c.encoderName.value != [] {
      EncoderFields(c.encoderName.value, c.encoderHw == Some(true));
    }
  }

  lemma {:induction false} FirstEntry(caps: Json, m: map<Text, Json>)
    requires Writable(caps)
    ensures var e := Stored(Diff(None, caps));
            ApplyEntry(m, e) == Properties(caps) && Shows(ApplyEntry(m, e), ColumnsOf(caps))
  {
    hide Lookup, Writable, ColumnsOf;
    RecordShowsColumns(caps);
  }

  /* ---------- over runs ---------- */

  /** Some removal has deleted the log but not yet the device. */
  ghost predicate LogLost(a: Sys) {
    exists i :: i in a.removals && (a.removals[i] == DelOthers || a.removals[i] == DelDevice)
  }

  ghost predicate NoInitial(j: Job) { j.State? && j.msg.caps.Some? ==> INITIAL !in Keys(j.msg.caps.value) }

  /** Every handler runs to its end; no record has a property named like the mark of a first entry. */
  ghost predicate Orderly(a: Sys, st: Step) { !st.Crash? && (st.Receive? ==> NoInitial(st.job)) }

  /** A recognised reset changes no stored column that a log speaks about. */
  ghost predicate HarmlessReset(a: Sys, st: Step) {
    a.pc.Blank? && st.Handle? && !LogLost(a) && a.store.caps.Some? ==>
      Blanked(a.store.caps.value.columns) == a.store.caps.value.columns
  }

  /** The log with the entry that a handler is about to append. */
  function PendingLog(a: Sys): seq<Entry> { if a.pc.Log? then a.store.log + [Stored(a.pc.changed)] else a.store.log }

  /** Replaying the log shows the stored columns, unless a removal has taken the log or there is no row. */
  ghost predicate Replayed(a: Sys) {
    !LogLost(a) && a.store.caps.Some? ==> Shows(Replay(PendingLog(a)), a.store.caps.value.columns)
  }

  /** The columns the log shows after a step, if it showed `d` before. */
  function NextShown(a: Sys, st: Step, d: Columns): Columns
    requires a.pc.Upsert? ==> PcValid(a.pc)
  {
    if st.Handle? && a.pc.Upsert? && !UpsertFails(a.store, a.pc.job.msg) then
      var n := ColumnsOf(a.pc.job.msg.caps.value);
      if a.store.caps.None? then n else Merged(a.store.caps.value.columns, d, n)
    else d
  }

  ghost predicate LogInv(a: Sys, d: Columns) {
    && PcValid(a.pc)
    && (a.pc != Idle ==> NoInitial(a.pc.job))
    && (a.store.caps.Some? ==> a.store.device.Some?)
    && (a.pc.Upsert? && a.store.device.Some? ==> a.pc.prev == FindCaps(a.store))
    && (!LogLost(a) && a.store.caps.Some? ==>
          Shows(Replay(PendingLog(a)), d) && SameEncoder(d, a.store.caps.value.columns))
  }

  lemma {:induction false} ReplayAppend(log: seq<Entry>, e: Entry)
    ensures Replay(log + [e]) == ApplyEntry(Replay(log), e)
  {
    assert (log + [e])[..|log|] == log;
  }

  /** After the upsert the log, with the entry to come, shows the merged columns. */
  lemma {:induction false} UpsertMerges(a: Sys, d: Columns)
    requires LogInv(a, d) && a.pc.Upsert?
    ensures LogInv(Do(a, Handle), NextShown(a, Handle, d))
  {
    hide Writable, ColumnsOf, Diff, Shows, ReadBack, Preimage, Truthy, Keys, Stored, Replay, Merged, SameEncoder;
    var s, m := a.store, a.pc.job.msg;
    var b := Do(a, Handle);
    assert LogLost(b) <==> LogLost(a);
    if !UpsertFails(s, m) && !LogLost(a) {
      var caps := m.caps.value;
      var df := Diff(FindCaps(s), caps);
      ReplayAppend(s.log, Stored(df));
      if s.caps.None? {
        FirstEntry(caps, Replay(s.log));
        DiffOfFirst(caps);
        EncoderOfItself(ColumnsOf(caps));
      } else {
        DiffMerges(Replay(s.log), s.caps.value.columns, d, caps);
        if df == map[] { EmptyOverlay(Replay(s.log), df); }
      }
    }
  }

  lemma {:induction false} EncoderOfItself(c: Columns)
    ensures SameEncoder(c, c)
  {
  }

  lemma {:induction false} DiffOfFirst(caps: Json)
    ensures Diff(None, caps) != map[]
  {
    assert INITIAL in Diff(None, caps);
  }

  lemma {:induction false} EmptyOverlay(m: map<Text, Json>, d: Changes)
    requires d == map[]
    ensures Overlay(m, Stored(d)) == m
  {
  }

  lemma {:induction false} BlankedEncoder(c: Columns)
    ensures Lookup(ReadBack(Blanked(c)), ENCODER) == Lookup(ReadBack(c), ENCODER)
  {
    hide Lookup, ReadBack;
    ReadBackFields(c);
    ReadBackFields(Blanked(c));
  }

  lemma {:induction false} LogInvHandled(a: Sys, d: Columns)
    requires LogInv(a, d) && a.pc != Idle
    ensures LogInv(Do(a, Handle), NextShown(a, Handle, d))
  {
    hide Writable, ColumnsOf, Diff, Shows, ReadBack, Preimage, Truthy, Keys, Stored, Replay, LivePatch, Merged, Blanked;
    var b := Do(a, Handle);
    assert LogLost(b) <==> LogLost(a);
    if a.pc.Upsert? { UpsertMerges(a, d); }
    if a.pc.Blank? && a.store.caps.Some? { BlankedEncoder(a.store.caps.value.columns); }
  }

  lemma {:induction false} LogInvRemoved(a: Sys, i: nat, d: Columns)
    requires LogInv(a, d) && i in a.removals
    ensures LogInv(Do(a, Remove(i)), d)
  {
    hide Shows, ReadBack, Truthy, Keys, Stored, Replay, PcValid, NoInitial, SameEncoder;
    var b := Do(a, Remove(i));
    var pc := a.removals[i];
    if pc == DelEvents {
      assert b.removals[i] == DelOthers;
    } else if pc == DelOthers {
      assert b.removals[i] == DelDevice;
    } else if pc == DelKeys && LogLost(a) {
      var n :| n in a.removals && (a.removals[n] == DelOthers || a.removals[n] == DelDevice);
      assert b.removals[n] == a.removals[n];
    }
  }

  lemma {:induction false} LogInvKept(a: Sys, b: Sys, st: Step, d: Columns)
    requires LogInv(a, d) && Next(a, b, st) && Orderly(a, st)
    ensures LogInv(b, NextShown(a, st, d))
  {
    hide Shows, ReadBack, Truthy, Keys, Stored, Replay, Advance, RemoveStep, ValidJob, NoInitial, SameEncoder;
    match st
    case Handle => LogInvHandled(a, d);
    case Remove(i) => LogInvRemoved(a, i, d);
    case StartRemove(i) =>
      if LogLost(a) {
        var n :| n in a.removals && (a.removals[n] == DelOthers || a.removals[n] == DelDevice);
        assert b.removals[n] == a.removals[n];
      }
    case Receive(_) => assert LogLost(b) <==> LogLost(a);
    case ExpireLive => assert LogLost(b) <==> LogLost(a);
    case Crash =>
  }

  /** The columns the log shows in state `i`: what the last write of each column that the log noticed has put there. */
  ghost function ShownAt(run: seq<Sys>, steps: seq<Step>, i: nat): Columns
    requires i <= |steps| < |run|
    requires forall n | 0 <= n < |steps| :: PcValid(run[n].pc)
  {
    if i == 0 then Columns([], false, [], false, false, None, None)
    else NextShown(run[i - 1], steps[i - 1], ShownAt(run, steps, i - 1))
  }

  ghost predicate FromEmpty(run: seq<Sys>, steps: seq<Step>) {
    && IsRun(run, steps) && run[0] == Sys(Store(None, None, [], None, map[]), Idle, map[])
    && forall i | 0 <= i < |steps| :: Orderly(run[i], steps[i])
  }

  lemma {:induction false} LogInvInRuns(run: seq<Sys>, steps: seq<Step>)
    requires FromEmpty(run, steps)
    ensures forall n | 0 <= n < |steps| :: PcValid(run[n].pc)
    ensures forall i: nat | i < |run| :: LogInv(run[i], ShownAt(run, steps, i))
  {
    hide Next, Orderly, Shows, NextShown, SameEncoder;
    PcsValid(run, steps);
    for n := 0 to |steps|
      invariant forall i: nat | i <= n :: LogInv(run[i], ShownAt(run, steps, i))
    {
      LogInvKept(run[n], run[n + 1], steps[n], ShownAt(run, steps, n));
    }
  }

  lemma {:induction false} PcsValid(run: seq<Sys>, steps: seq<Step>)
    requires IsRun(run, steps) && run[0].pc == Idle
    ensures forall n | 0 <= n < |run| :: PcValid(run[n].pc)
  {
    hide Advance;
    for n := 0 to |steps|
      invariant forall i | 0 <= i <= n :: PcValid(run[i].pc)
    {
      assert Next(run[n], run[n + 1], steps[n]);
    }
  }

  /**
   * In every run without failed handlers, resets included: whenever no removal stands between its log and its device
   * deletion, the log shows the columns of `ShownAt`, and the stored ones exactly if the five columns agree.
   */
  lemma {:induction false} LogShowsInRuns(run: seq<Sys>, steps: seq<Step>, i: nat)
    requires FromEmpty(run, steps) && i < |run| && !LogLost(run[i]) && run[i].store.caps.Some?
    ensures forall n | 0 <= n < |steps| :: PcValid(run[n].pc)
    ensures Shows(Replay(PendingLog(run[i])), ShownAt(run, steps, i))
    ensures Shows(Replay(PendingLog(run[i])), run[i].store.caps.value.columns) <==>
            SameFive(ShownAt(run, steps, i), run[i].store.caps.value.columns)
  {
    hide Next, Orderly, Shows, SameEncoder, ShownAt, SameFive;
    LogInvInRuns(run, steps);
    assert LogInv(run[i], ShownAt(run, steps, i));
    ShowsIff(Replay(PendingLog(run[i])), ShownAt(run, steps, i), run[i].store.caps.value.columns);
  }

  /** From a state whose log is right, one step leads to one whose log is right exactly if it is no harmful reset. */
  lemma {:induction false} HarmlessKeeps(a: Sys, b: Sys, st: Step, d: Columns)
    requires LogInv(a, d) && Next(a, b, st) && Orderly(a, st) && Replayed(a)
    ensures Replayed(b) <==> HarmlessReset(a, st)
  {
    hide Shows, ReadBack, Replay, SameEncoder, Next, Orderly, Blanked, SameFive, NextShown, LogLost, Stored;
    LogInvKept(a, b, st, d);
    if !LogLost(a) && a.store.caps.Some? { ShowsIff(Replay(PendingLog(a)), d, a.store.caps.value.columns); }
    if !LogLost(b) && b.store.caps.Some? {
      ShowsIff(Replay(PendingLog(b)), NextShown(a, st, d), b.store.caps.value.columns);
      FiveStep(a, b, st, d);
    } else {
      LostOrGone(a, b, st);
    }
  }

  /** If the five columns agree before a step they agree after it, except for a reset that changes one of them. */
  lemma {:induction false} FiveStep(a: Sys, b: Sys, st: Step, d: Columns)
    requires LogInv(a, d) && Next(a, b, st) && Orderly(a, st) && !LogLost(b) && b.store.caps.Some?
    requires !LogLost(a) && a.store.caps.Some? ==> SameFive(d, a.store.caps.value.columns)
    ensures SameFive(NextShown(a, st, d), b.store.caps.value.columns) <==> HarmlessReset(a, st)
  {
    hide Shows, ReadBack, Replay, SameEncoder, Writable, ColumnsOf, Diff, Preimage, LivePatch, Truthy, Keys,
        ValidJob, Stored;
    LostStays(a, b, st);
  }

  /** A lost log is found again only by deleting the device; a reset does not touch the removals. */
  lemma {:induction false} LostStays(a: Sys, b: Sys, st: Step)
    requires Next(a, b, st)
    ensures LogLost(a) && !LogLost(b) ==> b.store.caps.None?
    ensures st.Handle? ==> (LogLost(a) <==> LogLost(b))
  {
    hide Advance, ValidJob, PcValid;
    if LogLost(a) {
      var n :| n in a.removals && (a.removals[n] == DelOthers || a.removals[n] == DelDevice);
      if st != Remove(n) {
        assert n in b.removals && b.removals[n] == a.removals[n];
      } else if a.removals[n] == DelOthers {
        assert b.removals[n] == DelDevice;
      } else {
        assert b.store == RemoveDevice(a.store);
      }
    }
  }

  lemma {:induction false} LostOrGone(a: Sys, b: Sys, st: Step)
    requires Next(a, b, st) && (LogLost(b) || b.store.caps.None?)
    ensures HarmlessReset(a, st)
  {
    hide ValidJob, Preimage, Writable, ColumnsOf, Diff, LivePatch;
    LostStays(a, b, st);
  }

  /**
   * In every run without failed handlers, from an empty store, replaying the log always shows the stored
   * capabilities if and only if every recognised reset finds the columns as it would leave them.
   */
  lemma {:induction false} LogReplaysIff(run: seq<Sys>, steps: seq<Step>)
    requires FromEmpty(run, steps)
    ensures (forall i | 0 <= i < |run| :: Replayed(run[i])) <==>
        (forall i | 0 <= i < |steps| :: HarmlessReset(run[i], steps[i]))
  {
    hide Next, Orderly, LogInv, Replayed, HarmlessReset, ShownAt;
    LogInvInRuns(run, steps);
    assert Replayed(run[0]) by { NothingToReplay(run[0]); }
    if forall i | 0 <= i < |run| :: Replayed(run[i]) {
      forall i | 0 <= i < |steps| ensures HarmlessReset(run[i], steps[i]) {
        HarmlessKeeps(run[i], run[i + 1], steps[i], ShownAt(run, steps, i));
      }
    }
    if forall i | 0 <= i < |steps| :: HarmlessReset(run[i], steps[i]) {
      for n := 0 to |steps|
        invariant forall i | 0 <= i <= n :: Replayed(run[i])
      {
        HarmlessKeeps(run[n], run[n + 1], steps[n], ShownAt(run, steps, n));
      }
    }
  }

  /**
   * So whenever no handler is at work and no removal stands between its log and its device deletion, replaying the
   * log shows the stored capabilities, in every run whose resets are harmless.
   */
  lemma {:induction false} LogReplaysInRuns(run: seq<Sys>, steps: seq<Step>)
    requires FromEmpty(run, steps) && forall i | 0 <= i < |steps| :: HarmlessReset(run[i], steps[i])
    ensures forall i | 0 <= i < |run| && run[i].pc == Idle && !LogLost(run[i]) && run[i].store.caps.Some? ::
              Shows(Replay(run[i].store.log), run[i].store.caps.value.columns)
  {
    hide FromEmpty, HarmlessReset, LogLost, Shows;
    LogReplaysIff(run, steps);
    forall i | 0 <= i < |run| && run[i].pc == Idle && !LogLost(run[i]) && run[i].store.caps.Some?
      ensures Shows(Replay(run[i].store.log), run[i].store.caps.value.columns)
    {
      assert Replayed(run[i]);
    }
  }

  lemma {:induction false} NothingToReplay(a: Sys)
    requires a.store.caps.None?
    ensures Replayed(a)
  {
  }

  /* ---------- one reset and the record after it ---------- */

  /** Right after a reset the log shows the stored columns exactly if the reset changed nothing. */
  lemma {:induction false} ResetBreaksReplay(m: map<Text, Json>, c: Columns)
    requires Shows(m, c)
    ensures Shows(m, Blanked(c)) <==> Blanked(c) == c
  {
    hide Shows, ReadBack;
    BlankedEncoder(c);
    ShowsIff(m, c, Blanked(c));
  }

  /**
   * The next record makes the log right again exactly if each column either is what it was before the reset, or
   * differs from what the reset wrote. The encoder, which a reset leaves alone, is always right.
   */
  lemma {:induction false} RecordRepairs(m: map<Text, Json>, c: Columns, caps: Json)
    requires Shows(m, c) && Writable(caps) && INITIAL !in Keys(caps)
    ensures var n, b := ColumnsOf(caps), Blanked(c);
            Shows(ApplyEntry(m, Stored(Diff(Some(ReadBack(b)), caps))), n) <==>
              && (n.projectMedia == c.projectMedia || n.projectMedia != b.projectMedia)
              && (n.a11y == c.a11y || n.a11y != b.a11y)
              && (n.knox == c.knox || n.knox != b.knox)
              && (n.overlay == c.overlay || n.overlay != b.overlay)
              && (n.secureSettings == c.secureSettings || n.secureSettings != b.secureSettings)
  {
    hide Shows, ReadBack, Writable, ColumnsOf, Diff, Keys, Stored, Lookup;
    var n, b := ColumnsOf(caps), Blanked(c);
    BlankedEncoder(c);
    DiffMerges(m, b, c, caps);
    ShowsIff(ApplyEntry(m, Stored(Diff(Some(ReadBack(b)), caps))), Merged(b, c, n), n);
  }
}
