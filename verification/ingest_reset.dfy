/** A whole run in which a recognised reset leaves the event log behind the stored columns. */
module IngestReset {
  import opened Options
  import opened JsonText
  import opened Canonical
  import opened Capabilities
  import opened LiveHash
  import opened Ingest
  import opened IngestRun
  import opened IngestCache
  import opened IngestLog

  ghost predicate AllHarmless(run: seq<Sys>, steps: seq<Step>)
    requires |steps| <= |run|
  {
    forall i | 0 <= i < |steps| :: HarmlessReset(run[i], steps[i])
  }

  /** A run goes on with an enabled step. */
  lemma {:induction false} GoesOn(run: seq<Sys>, steps: seq<Step>, st: Step) returns (run': seq<Sys>, steps': seq<Step>)
    requires FromEmpty(run, steps) && !st.Crash?
    requires Enabled(run[|steps|], st) && Orderly(run[|steps|], st)
    ensures FromEmpty(run', steps') && |steps'| == |steps| + 1 && |run'| == |steps'| + 1
    ensures run'[|steps'|] == Do(run[|steps|], st)
    ensures AllHarmless(run, steps) && HarmlessReset(run[|steps|], st) ==> AllHarmless(run', steps')
  {
    var next := Do(run[|steps|], st);
    assert Next(run[|steps|], next, st);
    hide Next, Orderly, Do, HarmlessReset;
    run', steps' := run + [next], steps + [st];
    forall i | 0 <= i < |steps'| ensures Next(run'[i], run'[i + 1], steps'[i]) && Orderly(run'[i], steps'[i]) {
      if i < |steps| { assert run'[i] == run[i] && run'[i + 1] == run[i + 1] && steps'[i] == steps[i]; }
    }
  }

  /** The handler at work is not in the reset path and will not enter it. */
  predicate Quiet(a: Sys) {
    && !a.pc.FlagReset? && !a.pc.Blank?
    && ((a.pc.Insert? || a.pc.DropNew? || a.pc.ReadAndroid?) && a.pc.job.State? ==> !Resets(a.store, a.pc.job.msg))
  }

  lemma {:induction false} QuietKept(a: Sys)
    requires a.pc != Idle && PcValid(a.pc) && Quiet(a)
    ensures Quiet(Do(a, Handle)) && HarmlessReset(a, Handle)
  {
    hide LivePatch, ColumnsOf, Writable, Diff, Preimage, ReadBack, Stored, HasCaps, Blanked;
  }

  /** The handler at work runs to its end with nothing in between. */
  lemma {:induction false} Completes(run: seq<Sys>, steps: seq<Step>) returns (run': seq<Sys>, steps': seq<Step>)
    requires FromEmpty(run, steps) && PcValid(run[|steps|].pc) && Quiet(run[|steps|]) && AllHarmless(run, steps)
    requires run[|steps|].pc != Idle ==> NoInitial(run[|steps|].pc.job)
    ensures FromEmpty(run', steps') && AllHarmless(run', steps')
    ensures var a := run[|steps|]; run'[|steps'|] == a.(pc := Idle, store := Finish(a.store, a.pc))
    decreases Rank(run[|steps|].pc)
  {
    assert |run| == |steps| + 1;
    hide FromEmpty, Quiet, HarmlessReset, AllHarmless, NoInitial, Do;
    run', steps' := run, steps;
    var a := run[|steps|];
    if a.pc != Idle {
      QuietKept(a);
      FinishHandled(a);
      run', steps' := GoesOn(run, steps, Handle);
      run', steps' := Completes(run', steps');
    }
  }

  /** A first message with a record: it is stored. */
  lemma {:induction false} FirstStored(j: Job)
    requires j.State? && HasCaps(j.msg) && Writable(j.msg.caps.value) && j.msg.androidId != []
    ensures var s := OnState(Store(None, None, [], None, map[]), j);
            s.device == Some(Device(j.msg.androidId, false)) && s.caps == Some(RowFor(j.msg))
  {
    hide Writable, ColumnsOf, Diff, Preimage, LivePatch, HasCaps;
  }

  /**
   * Two messages with different Android ids, the first of them with any record that is not stored as blank columns:
   * once the reset is handled the log no longer shows the stored columns.
   */
  lemma {:induction false} ResetRun(j: Job, j': Job) returns (run: seq<Sys>, steps: seq<Step>)
    requires ValidJob(j) && j.State? && HasCaps(j.msg) && Writable(j.msg.caps.value) && NoInitial(j)
    requires ValidJob(j') && j'.State? && NoInitial(j')
    requires j.msg.androidId != [] && j'.msg.androidId != [] && j.msg.androidId != j'.msg.androidId
    requires Blanked(ColumnsOf(j.msg.caps.value)) != ColumnsOf(j.msg.caps.value)
    ensures FromEmpty(run, steps) && !Replayed(run[|steps|])
  {
    hide Blanked, ColumnsOf, Writable, HasCaps, Shows, Diff, IsHwPatch, WellFormed, OnState, Replay, Finish;
    var store := Store(None, None, [], None, map[]);
    run, steps := [Sys(store, Idle, map[])], [];
    run, steps := GoesOn(run, steps, Receive(j));
    run, steps := Completes(run, steps);
    SoloRun(store, j);
    FirstStored(j);
    run, steps := Blanks(run, steps, j');
  }

  /** The handler of a reset message blanks the columns after three awaits. */
  lemma {:induction false} Blanks(run0: seq<Sys>, steps0: seq<Step>, j: Job) returns (run: seq<Sys>, steps: seq<Step>)
    requires FromEmpty(run0, steps0) && AllHarmless(run0, steps0) && ValidJob(j) && j.State? && NoInitial(j)
    requires var a := run0[|steps0|];
             && a.pc == Idle && a.removals == map[] && Resets(a.store, j.msg) && a.store.caps.Some?
             && Blanked(a.store.caps.value.columns) != a.store.caps.value.columns
    ensures FromEmpty(run, steps) && !Replayed(run[|steps|])
  {
    assert |run0| == |steps0| + 1;
    hide FromEmpty, AllHarmless, NoInitial, ValidJob, Blanked, Replayed;
    run, steps := GoesOn(run0, steps0, Receive(j));
    run, steps := GoesOn(run, steps, Handle);
    run, steps := GoesOn(run, steps, Handle);
    run, steps := GoesOn(run, steps, Handle);
    BreaksHere(run, steps);
    run, steps := GoesOn(run, steps, Handle);
  }

  lemma {:induction false} BreaksHere(run: seq<Sys>, steps: seq<Step>)
    requires FromEmpty(run, steps) && AllHarmless(run, steps)
    requires var a := run[|steps|];
             && a.pc.Blank? && PcValid(a.pc) && a.removals == map[] && a.store.caps.Some?
             && Blanked(a.store.caps.value.columns) != a.store.caps.value.columns
    ensures !Replayed(Do(run[|steps|], Handle))
  {
    assert |run| == |steps| + 1;
    hide FromEmpty, Blanked, Replayed, LogInv;
    LogReplaysIff(run, steps);
    LogInvInRuns(run, steps);
    var a := run[|steps|];
    HarmlessKeeps(a, Do(a, Handle), Handle, ShownAt(run, steps, |steps|));
  }
}
