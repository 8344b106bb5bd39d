/**
 * The ingest handler await by await, interleaved with any number of API removals of the same device, expiry of
 * the live hash and crashes of handlers.
 */
module IngestRun {
  import opened Options
  import opened Texts
  import opened JsonText
  import opened Canonical
  import opened Capabilities
  import opened Messages
  import opened LiveHash
  import opened Ingest

  /** The next await of the handler. */
  datatype Pc =
    | Idle
    | Insert(job: Job)
    | DropNew(job: Job)
    | ReadAndroid(job: Job)
    | FlagReset(job: Job)
    | Blank(job: Job)
    | DropReset(job: Job)
    | StoreAndroid(job: Job)
    | PutLive(job: Job, reset: bool)
    | PutHw(job: Job, reset: bool)
    | DelHw(job: Job, reset: bool)
    | Touch(job: Job, reset: bool)
    | GetCache(job: Job)
    | ReadCaps(job: Job)
    | Upsert(job: Job, prev: Option<Json>)
    | Log(job: Job, changed: Changes)
    | PutCache(job: Job)

  /** The next await of one call of `remove`. */
  datatype RemovePc = DelKeys | DelEvents | DelOthers | DelDevice

  datatype Sys = Sys(store: Store, pc: Pc, removals: map<nat, RemovePc>)

  /** Where `onState` goes after `ensureDevice`; events and dumps only need the row. */
  function AfterEnsure(j: Job): Pc {
    if j.Other? then Idle else if j.msg.androidId != [] then ReadAndroid(j) else PutLive(j, false)
  }

  /** A state message carries what the later awaits use. */
  predicate PcValid(pc: Pc) {
    match pc
    case Idle => true
    case Insert(_) => true
    case DropNew(_) => true
    case GetCache(j) => j.State? && HasCaps(j.msg)
    case ReadCaps(j) => j.State? && HasCaps(j.msg)
    case Upsert(j, _) => j.State? && HasCaps(j.msg)
    case Log(j, _) => j.State? && HasCaps(j.msg)
    case PutCache(j) => j.State? && HasCaps(j.msg)
    case ReadAndroid(j) => j.State? && j.msg.androidId != []
    case _ => pc.job.State?
  }

  /** One await of the handler: its effect on the stores and the await that follows. */
  function Advance(s: Store, pc: Pc): (r: (Store, Pc))
    requires pc != Idle && PcValid(pc)
    ensures PcValid(r.1)
  {
    match pc
    case Insert(j) => if s.device.Some? then (s, AfterEnsure(j)) else (InsertDevice(s), DropNew(j))
    case DropNew(j) => (DropCache(s), AfterEnsure(j))
    case ReadAndroid(j) => if Resets(s, j.msg) then (s, FlagReset(j)) else (s, StoreAndroid(j))
    case FlagReset(j) => (SetAndroid(s, j.msg.androidId, true), Blank(j))
    case Blank(j) => (BlankCaps(s), DropReset(j))
    case DropReset(j) => (DropCache(s), PutLive(j, true))
    case StoreAndroid(j) => (SetAndroid(s, j.msg.androidId, false), PutLive(j, false))
    case PutLive(j, r) => (LiveBase(s, j.msg), PutHw(j, r))
    case PutHw(j, r) => (LiveSet(s, j.patch), DelHw(j, r))
    case DelHw(j, r) => (LiveDel(s, j.patch), Touch(j, r))
    case Touch(j, r) => (s, if r || !HasCaps(j.msg) then Idle else GetCache(j))
    case GetCache(j) => (s, if s.cache == Some(HashOf(j.msg)) then Idle else ReadCaps(j))
    case ReadCaps(j) => (s, Upsert(j, FindCaps(s)))
    case Upsert(j, prev) =>
      if UpsertFails(s, j.msg) then (s, Idle)
      else
        var d := Diff(prev, j.msg.caps.value);
        (s.(caps := Some(RowFor(j.msg))), if d == map[] then PutCache(j) else Log(j, d))
    case Log(j, d) => (Append(s, d), PutCache(j))
    case PutCache(j) => (s.(cache := Some(HashOf(j.msg))), Idle)
  }

  function RemoveStep(s: Store, pc: RemovePc): Store {
    match pc
    case DelKeys => RemoveKeys(s)
    case DelEvents => RemoveLog(s)
    case DelOthers => s
    case DelDevice => RemoveDevice(s)
  }

  function NextRemovePc(pc: RemovePc): RemovePc {
    match pc
    case DelKeys => DelEvents
    case DelEvents => DelOthers
    case _ => DelDevice
  }

  datatype Step =
    | Receive(job: Job)
    | Handle
    | Crash
    | StartRemove(id: nat)
    | Remove(id: nat)
    | ExpireLive

  /** Handlers are serial: a message is taken up only when the previous handler has ended. */
  ghost predicate Enabled(a: Sys, st: Step) {
    match st
    case Receive(j) => a.pc == Idle && ValidJob(j)
    case Handle => a.pc != Idle && PcValid(a.pc)
    case Crash => a.pc != Idle
    case StartRemove(i) => i !in a.removals && a.store.device.Some?
    case Remove(i) => i in a.removals
    case ExpireLive => true
  }

  function Do(a: Sys, st: Step): Sys
    requires st.Handle? ==> a.pc != Idle && PcValid(a.pc)
    requires st.Remove? ==> st.id in a.removals
  {
    match st
    case Receive(j) => a.(pc := Insert(j))
    case Handle => a.(store := Advance(a.store, a.pc).0, pc := Advance(a.store, a.pc).1)
    case Crash => a.(pc := Idle)
    case StartRemove(i) => a.(removals := a.removals[i := DelKeys])
    case Remove(i) =>
      a.(store := RemoveStep(a.store, a.removals[i]),
         removals := if a.removals[i] == DelDevice
             then a.removals - {i} else a.removals[i := NextRemovePc(a.removals[i])])
    case ExpireLive => a.(store := a.store.(live := map[]))
  }

  /** A handler that throws before these awaits leaves the cache wrong about the row. */
  predicate Fragile(pc: Pc) { pc.DropNew? || pc.DropReset? || pc.Log? || pc.PutCache? }

  ghost predicate Next(a: Sys, b: Sys, st: Step) {
    && Enabled(a, st)
    && (st.Crash? ==> !Fragile(a.pc))
    && b == Do(a, st)
  }

  ghost predicate IsRun(run: seq<Sys>, steps: seq<Step>) {
    && |run| == |steps| + 1
    && forall i | 0 <= i < |steps| :: Next(run[i], run[i + 1], steps[i])
  }

  /* ---------- cache coherence ---------- */

  /** `h` is the hash of a record and version that the row holds. */
  ghost predicate Describes(row: CapsRow, h: Text) {
    && row.hash == h
    && exists c: Json :: WellFormed(c) && Writable(c) && row.columns == ColumnsOf(c) && h == Preimage(c, row.agentVer)
  }

  ghost predicate Coherent(s: Store) {
    s.device.Some? && s.cache.Some? ==> s.caps.Some? && Describes(s.caps.value, s.cache.value)
  }

  /** The row a handler has just written, unless the device was removed meanwhile. */
  ghost predicate JustWritten(s: Store, m: StateMsg)
    requires m.caps.Some?
  {
    s.device.Some? ==> s.caps.Some? && Describes(s.caps.value, HashOf(m))
  }

  ghost predicate JobValid(pc: Pc) { PcValid(pc) && (pc != Idle ==> ValidJob(pc.job)) }

  ghost predicate CacheInv(a: Sys) {
    && JobValid(a.pc)
    && match a.pc
       case DropNew(_) => true
       case DropReset(_) => true
       case Log(j, _) => JustWritten(a.store, j.msg)
       case PutCache(j) => JustWritten(a.store, j.msg)
       case _ => Coherent(a.store)
  }

  lemma {:induction false} RowForDescribes(m: StateMsg)
    requires m.caps.Some? && WellFormed(m.caps.value) && Writable(m.caps.value)
    ensures Describes(RowFor(m), HashOf(m))
  {
    hide WellFormed, Writable, ColumnsOf, Preimage;
  }

  lemma {:induction false} CacheInvHandled(a: Sys)
    requires CacheInv(a) && a.pc != Idle
    ensures CacheInv(Do(a, Handle))
  {
    hide WellFormed, Writable, ColumnsOf, Preimage, IsHwPatch, Diff, LivePatch, Describes, Truthy;
    match a.pc
    case Upsert(j, prev) => if !UpsertFails(a.store, j.msg) { RowForDescribes(j.msg); }
    case _ =>
  }

  lemma {:induction false} CacheInvKept(a: Sys, b: Sys, st: Step)
    requires CacheInv(a) && Next(a, b, st)
    ensures CacheInv(b)
  {
    hide WellFormed, Writable, ColumnsOf, Preimage, IsHwPatch, Diff, LivePatch, Describes, Advance, Truthy;
    match st
    case Handle => CacheInvHandled(a);
    case _ =>
  }

  /** In every run, between messages, a cached hash is that of the stored record and version. */
  lemma {:induction false} CacheCoherentInRuns(run: seq<Sys>, steps: seq<Step>)
    requires IsRun(run, steps) && run[0].pc == Idle && Coherent(run[0].store)
    ensures forall i | 0 <= i < |run| :: CacheInv(run[i])
    ensures forall i | 0 <= i < |run| && run[i].pc == Idle :: Coherent(run[i].store)
  {
    hide Coherent, CacheInv;
    assert CacheInv(run[0]) by { IdleCache(run[0]); }
    for n := 0 to |steps|
      invariant forall i | 0 <= i <= n :: CacheInv(run[i])
    {
      CacheInvKept(run[n], run[n + 1], steps[n]);
    }
    forall i | 0 <= i < |run| && run[i].pc == Idle ensures Coherent(run[i].store) {
      IdleCache(run[i]);
    }
  }

  lemma {:induction false} IdleCache(a: Sys)
    requires a.pc == Idle
    ensures CacheInv(a) <==> Coherent(a.store)
  {
  }
}
