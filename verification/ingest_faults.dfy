/** The capability cache when handlers may throw at any await and the Headwind sync may come at any time. */
module IngestFaults {
  import opened Options
  import opened Texts
  import opened JsonText
  import opened Canonical
  import opened Capabilities
  import opened Messages
  import opened LiveHash
  import opened Ingest
  import opened IngestRun
  import opened IngestCache

  /** A step of the handler, a removal or an expiry, a throw at any await included; or one row of the sync. */
  datatype Act = Take(step: Step) | Sync

  ghost predicate ActNext(a: Sys, b: Sys, act: Act) {
    match act
    case Take(st) => Enabled(a, st) && b == Do(a, st)
    case Sync => b == a.(store := SyncInsert(a.store))
  }

  ghost predicate IsActRun(run: seq<Sys>, acts: seq<Act>) {
    && |run| == |acts| + 1
    && run[0].pc == Idle && Coherent(run[0].store) && (run[0].store.caps.Some? ==> run[0].store.device.Some?)
    && forall i | 0 <= i < |acts| :: ActNext(run[i], run[i + 1], acts[i])
  }

  /** The hash is that of a record which is stored as blank columns. */
  ghost predicate HashOfBlank(row: CapsRow, h: Text) {
    exists c: Json ::
      WellFormed(c) && Writable(c) && Blanked(ColumnsOf(c)) == ColumnsOf(c) && h == Preimage(c, row.agentVer)
  }

  /**
   * A throw is harmless where no row or no cached hash is there. Otherwise it is harmful after a row was inserted;
   * after the columns were blanked unless the cached hash is that of a blank record; and between upsert and cache
   * write unless the cached hash is the new one. The sync is harmless if the row is there, if the handler is about to
   * drop the cache, or if nothing is cached and the handler is not about to cache a hash.
   */
  ghost predicate Clean(a: Sys, act: Act) {
    match act
    case Take(Crash) =>
      || a.store.device.None? || a.store.cache.None?
      || (match a.pc
          case DropNew(_) => false
          case DropReset(_) => a.store.caps.Some? && HashOfBlank(a.store.caps.value, a.store.cache.value)
          case Log(j, _) => PcValid(a.pc) ==> a.store.cache == Some(HashOf(j.msg))
          case PutCache(j) => PcValid(a.pc) ==> a.store.cache == Some(HashOf(j.msg))
          case _ => true)
    case Take(_) => true
    case Sync =>
      || a.store.device.Some? || a.pc.DropNew? || a.pc.DropReset?
      || (a.store.cache.None? && !a.pc.Log? && !a.pc.PutCache?)
  }

  /** Before its columns were blanked the row was described by the cached hash. */
  ghost predicate DescribedBefore(row: CapsRow, h: Text) {
    exists c: Columns :: row.columns == Blanked(c) && Describes(row.(columns := c), h)
  }

  /** What else holds as long as the cache invariant does. */
  ghost predicate Beside(a: Sys) {
    && (a.store.caps.Some? ==> a.store.device.Some?)
    && (a.pc.DropNew? ==> a.store.caps.None?)
    && (a.pc.DropReset? && a.store.caps.Some? && a.store.cache.Some? ==>
          DescribedBefore(a.store.caps.value, a.store.cache.value))
  }

  lemma {:induction false} BesideKept(a: Sys, b: Sys, act: Act)
    requires CacheInv(a) && Beside(a) && ActNext(a, b, act)
    ensures Beside(b)
  {
    hide WellFormed, Writable, ColumnsOf, Preimage, IsHwPatch, Diff, LivePatch, Describes, Truthy, Blanked;
  }

  /** From a state that keeps the invariant one step leads to one that keeps it if and only if it is clean. */
  lemma {:induction false} CleanKeeps(a: Sys, b: Sys, act: Act)
    requires CacheInv(a) && Beside(a) && ActNext(a, b, act)
    ensures CacheInv(b) <==> Clean(a, act)
  {
    hide Describes, Advance, HashOfBlank, DescribedBefore, Preimage, WellFormed, Writable, ColumnsOf, RowFor, IsHwPatch;
    match act
    case Take(Crash) => CrashKeeps(a);
    case Take(Handle) => CacheInvHandled(a);
    case Take(_) =>
    case Sync => SyncKeeps(a);
  }

  lemma {:induction false} SyncKeeps(a: Sys)
    requires CacheInv(a) && (a.store.caps.Some? ==> a.store.device.Some?)
    ensures CacheInv(a.(store := SyncInsert(a.store))) <==> Clean(a, Sync)
  {
    hide Describes, Preimage, IsHwPatch, WellFormed;
  }

  lemma {:induction false} CrashKeeps(a: Sys)
    requires CacheInv(a) && Beside(a) && a.pc != Idle
    ensures CacheInv(Do(a, Crash)) <==> Clean(a, Take(Crash))
  {
    hide Describes, HashOfBlank, DescribedBefore, Preimage, WellFormed, Writable, ColumnsOf, RowFor, IsHwPatch;
    if a.store.device.Some? && a.store.cache.Some? && a.store.caps.Some? {
      var row, h := a.store.caps.value, a.store.cache.value;
      if a.pc.DropReset? { BlankedDescribed(row, h); }
      if a.pc.Log? || a.pc.PutCache? { DescribedByHash(row, h, HashOf(a.pc.job.msg)); }
    }
  }

  lemma {:induction false} DescribedByHash(row: CapsRow, g: Text, h: Text)
    requires Describes(row, h)
    ensures Describes(row, g) <==> g == h
  {
    hide WellFormed, Writable, ColumnsOf, Preimage;
  }

  /** A blanked row is still described by the hash that described it before exactly if that of a blank record. */
  lemma {:induction false} BlankedDescribed(row: CapsRow, h: Text)
    requires DescribedBefore(row, h)
    ensures Describes(row, h) <==> HashOfBlank(row, h)
  {
    hide WellFormed, Writable, ColumnsOf, Preimage;
    var c: Columns :| row.columns == Blanked(c) && Describes(row.(columns := c), h);
    if Describes(row, h) {
      DescribesOnce(row, row.(columns := c), h);
    }
    if HashOfBlank(row, h) {
      var r: Json :|
        WellFormed(r) && Writable(r) && Blanked(ColumnsOf(r)) == ColumnsOf(r) && h == Preimage(r, row.agentVer);
      assert Describes(row.(columns := ColumnsOf(r)), h);
      DescribesOnce(row.(columns := ColumnsOf(r)), row.(columns := c), h);
    }
  }

  /**
   * In every run with throws and syncs anywhere, the cache invariant holds throughout if and only if every step is
   * clean.
   */
  lemma {:induction false} CoherentIff(run: seq<Sys>, acts: seq<Act>)
    requires IsActRun(run, acts)
    ensures (forall i | 0 <= i < |run| :: CacheInv(run[i])) <==> (forall i | 0 <= i < |acts| :: Clean(run[i], acts[i]))
  {
    hide ActNext, CacheInv, Beside, Clean, Coherent;
    assert CacheInv(run[0]) && Beside(run[0]) by { Starts(run[0]); }
    if forall i | 0 <= i < |run| :: CacheInv(run[i]) {
      for n := 0 to |acts|
        invariant Beside(run[n])
        invariant forall i | 0 <= i < n :: Clean(run[i], acts[i])
      {
        CleanKeeps(run[n], run[n + 1], acts[n]);
        BesideKept(run[n], run[n + 1], acts[n]);
      }
    }
    if forall i | 0 <= i < |acts| :: Clean(run[i], acts[i]) {
      for n := 0 to |acts|
        invariant Beside(run[n])
        invariant forall i | 0 <= i <= n :: CacheInv(run[i])
      {
        CleanKeeps(run[n], run[n + 1], acts[n]);
        BesideKept(run[n], run[n + 1], acts[n]);
      }
    }
  }

  lemma {:induction false} Starts(a: Sys)
    requires a.pc == Idle && Coherent(a.store) && (a.store.caps.Some? ==> a.store.device.Some?)
    ensures CacheInv(a) && Beside(a)
  {
  }

  /* ---------- a sync that breaks it ---------- */

  lemma {:induction false} GoesOn(run: seq<Sys>, acts: seq<Act>, b: Sys, act: Act)
    returns (run': seq<Sys>, acts': seq<Act>)
    requires IsActRun(run, acts) && ActNext(run[|acts|], b, act)
    ensures IsActRun(run', acts') && |run'| == |acts'| + 1 && |acts'| == |acts| + 1
    ensures run'[|acts'|] == b && run'[|acts|] == run[|acts|] && acts'[|acts|] == act && run'[0] == run[0]
  {
    hide ActNext;
    run', acts' := run + [b], acts + [act];
    forall i | 0 <= i < |acts'| ensures ActNext(run'[i], run'[i + 1], acts'[i]) {
      if i < |acts| { assert run'[i] == run[i] && run'[i + 1] == run[i + 1] && acts'[i] == acts[i]; }
    }
  }

  lemma {:induction false} Completes(run: seq<Sys>, acts: seq<Act>) returns (run': seq<Sys>, acts': seq<Act>)
    requires IsActRun(run, acts) && PcValid(run[|acts|].pc)
    ensures IsActRun(run', acts') && |run'| == |acts'| + 1 && run'[0] == run[0]
    ensures var a := run[|acts|]; run'[|acts'|] == a.(pc := Idle, store := Finish(a.store, a.pc))
    decreases Rank(run[|acts|].pc)
  {
    assert |run| == |acts| + 1;
    hide IsActRun, Do;
    run', acts' := run, acts;
    var a := run[|acts|];
    if a.pc != Idle {
      FinishHandled(a);
      run', acts' := GoesOn(run, acts, Do(a, Handle), Take(Handle));
      run', acts' := Completes(run', acts');
    }
  }

  /**
   * The sync between the end of a removal and the message that was handled inside it: a run that ends with a wrong
   * cache, and the same message is then not stored.
   */
  lemma {:induction false} SyncRun(s: Store, j: Job) returns (run: seq<Sys>, acts: seq<Act>)
    requires s.device.Some? && Coherent(s)
    requires ValidJob(j) && j.State? && HasCaps(j.msg) && Writable(j.msg.caps.value)
    requires s.device.value.androidId == j.msg.androidId
    ensures IsActRun(run, acts) && |acts| > 0 && run[0] == Sys(s, Idle, map[]) && acts[|acts| - 1] == Sync
    ensures !Clean(run[|acts| - 1], Sync) && run[|acts|].pc == Idle && !Coherent(run[|acts|].store)
    ensures OnState(run[|acts|].store, j).caps == None
  {
    hide Writable, HasCaps, ValidJob, Finish, OnState, Coherent;
    run, acts := [Sys(s, Idle, map[])], [];
    assert IsActRun(run, acts);
    hide IsActRun;
    run, acts := GoesOn(run, acts, Sys(s, Idle, map[0 := DelKeys]), Take(StartRemove(0)));
    var a := Sys(RemoveKeys(s), Idle, map[0 := DelEvents]);
    run, acts := GoesOn(run, acts, a, Take(Remove(0)));
    run, acts := GoesOn(run, acts, a.(pc := Insert(j)), Take(Receive(j)));
    run, acts := Completes(run, acts);
    SoloRun(RemoveKeys(s), j);
    var during := OnState(RemoveKeys(s), j);
    run, acts := Removed(run, acts, during);
    var gone := run[|acts|];
    var back := gone.(store := SyncInsert(gone.store));
    run, acts := GoesOn(run, acts, back, Sync);
    SyncBreaksCoherence(s, j);
    WrongIsCached(back.store);
  }

  lemma {:induction false} WrongIsCached(s: Store)
    requires !Coherent(s)
    ensures s.device.Some? && s.cache.Some?
  {
  }

  /** The rest of a removal that has dropped the keys. */
  lemma {:induction false} Removed(run0: seq<Sys>, acts0: seq<Act>, s: Store) returns (run: seq<Sys>, acts: seq<Act>)
    requires IsActRun(run0, acts0) && |run0| == |acts0| + 1 && run0[|acts0|] == Sys(s, Idle, map[0 := DelEvents])
    ensures IsActRun(run, acts) && |run| == |acts| + 1 && run[0] == run0[0]
    ensures run[|acts|] == Sys(RemoveDevice(RemoveLog(s)), Idle, map[])
  {
    hide IsActRun;
    var a := Sys(RemoveLog(s), Idle, map[0 := DelOthers]);
    var b := a.(removals := map[0 := DelDevice]);
    var c := Sys(RemoveDevice(RemoveLog(s)), Idle, map[]);
    assert a.removals == map[0 := DelEvents][0 := DelOthers] && b.removals == a.removals[0 := DelDevice];
    assert c.removals == b.removals - {0};
    run, acts := GoesOn(run0, acts0, a, Take(Remove(0)));
    run, acts := GoesOn(run, acts, b, Take(Remove(0)));
    run, acts := GoesOn(run, acts, c, Take(Remove(0)));
  }
}
