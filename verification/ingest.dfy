/**
 * The ingest handler of state messages for one device: its database row, capability row and event log, the
 * Redis capability cache and the live hash.
 */
module Ingest {
  import opened Options
  import opened Texts
  import opened JsonText
  import opened Canonical
  import opened Capabilities
  import opened Messages
  import opened LiveHash

  /** `androidId` is empty while unknown. */
  datatype Device = Device(androidId: Text, needsReprovisioning: bool)

  /** A stored event: old and new value of each changed property, `undefined` stored as null. */
  type Entry = map<Text, (Json, Json)>

  datatype Store = Store(
    device: Option<Device>,
    caps: Option<CapsRow>,
    log: seq<Entry>,
    cache: Option<Text>,
    live: Hash)

  /** What a handler works on: a state message with its hardware patch, or any message that only needs the row. */
  datatype Job = State(msg: StateMsg, patch: HwPatch) | Other

  ghost predicate ValidJob(j: Job) {
    j.State? ==>
      && IsHwPatch(j.msg.volatile, j.patch)
      && (j.msg.caps.Some? ==> WellFormed(j.msg.caps.value))
      && (j.msg.volatile.Some? ==> WellFormed(j.msg.volatile.value))
  }

  /** The handler goes on to the capability part. */
  predicate HasCaps(m: StateMsg) { m.caps.Some? && Truthy(m.caps.value) && m.agentVer != [] }

  function HashOf(m: StateMsg): Text
    requires m.caps.Some?
  {
    Preimage(m.caps.value, m.agentVer)
  }

  /* ---------- atomic effects on the stores ---------- */

  /** `INSERT ... ON CONFLICT DO NOTHING`. */
  function InsertDevice(s: Store): Store {
    if s.device.Some? then s else s.(device := Some(Device([], false)))
  }

  function DropCache(s: Store): Store { s.(cache := None) }

  function SetAndroid(s: Store, id: Text, reset: bool): Store {
    if s.device.None? then s
    else s.(device := Some(Device(id, s.device.value.needsReprovisioning || reset)))
  }

  /** The columns a suspected factory reset writes; version, encoder and hash stay. */
  function Blanked(c: Columns): Columns {
    c.(projectMedia := BLOCKED, a11y := false, knox := UNLICENSED, overlay := false, secureSettings := false)
  }

  function BlankCaps(s: Store): Store {
    if s.caps.None? then s else s.(caps := Some(s.caps.value.(columns := Blanked(s.caps.value.columns))))
  }

  function Stored(d: Changes): Entry {
    map k | k in d :: (if d[k].0.Some? then d[k].0.value else Null, if d[k].1.Some? then d[k].1.value else Null)
  }

  function RowFor(m: StateMsg): CapsRow
    requires m.caps.Some? && Writable(m.caps.value)
  {
    CapsRow(m.agentVer, ColumnsOf(m.caps.value), HashOf(m))
  }

  function FindCaps(s: Store): Option<Json> {
    if s.caps.Some? then Some(ReadBack(s.caps.value.columns)) else None
  }

  /** The upsert is refused when the device row is gone or the record does not fit the columns. */
  predicate UpsertFails(s: Store, m: StateMsg)
    requires m.caps.Some?
  {
    s.device.None? || !Writable(m.caps.value)
  }

  function Append(s: Store, d: Changes): Store { s.(log := s.log + [Stored(d)]) }

  function LiveBase(s: Store, m: StateMsg): Store { s.(live := s.live + LivePatch(m)) }

  function LiveSet(s: Store, p: HwPatch): Store { s.(live := s.live + p.set') }

  function LiveDel(s: Store, p: HwPatch): Store { s.(live := map f | f in s.live && f !in p.del :: s.live[f]) }

  // The steps of DevicesService.remove that touch these stores.
  function RemoveKeys(s: Store): Store { s.(live := map[], cache := None) }

  function RemoveLog(s: Store): Store { s.(log := []) }

  /** Deleting the device row cascades to its capability row. */
  function RemoveDevice(s: Store): Store { s.(device := None, caps := None) }

  /* ---------- the handler as one function ---------- */

  /** The message reports another Android id than the stored one. */
  predicate Resets(s: Store, m: StateMsg) {
    && m.androidId != [] && s.device.Some?
    && s.device.value.androidId != [] && s.device.value.androidId != m.androidId
  }

  function Ensured(s: Store): Store { if s.device.Some? then s else DropCache(InsertDevice(s)) }

  function WriteLive(s: Store, j: Job): Store
    requires j.State?
  {
    LiveDel(LiveSet(LiveBase(s, j.msg), j.patch), j.patch)
  }

  /** Everything before the capability part of a message that is no reset. */
  function Prepared(s: Store, j: Job): Store
    requires j.State?
  {
    var s1 := Ensured(s);
    WriteLive(if j.msg.androidId != [] then SetAndroid(s1, j.msg.androidId, false) else s1, j)
  }

  function Reset(s: Store, j: Job): Store
    requires j.State?
  {
    WriteLive(DropCache(BlankCaps(SetAndroid(Ensured(s), j.msg.androidId, true))), j)
  }

  /** Upsert, and log entry if anything changed. */
  function Written(s: Store, m: StateMsg): Store
    requires m.caps.Some? && Writable(m.caps.value)
  {
    var d := Diff(FindCaps(s), m.caps.value);
    var s1 := s.(caps := Some(RowFor(m)));
    if d == map[] then s1 else Append(s1, d)
  }

  function CachedCaps(s: Store, m: StateMsg): Store
    requires m.caps.Some?
  {
    if s.cache == Some(HashOf(m)) || UpsertFails(s, m) then s else Written(s, m).(cache := Some(HashOf(m)))
  }

  /** `onState` with nothing interleaved. */
  function OnState(s: Store, j: Job): Store {
    if j.Other? then Ensured(s)
    else if Resets(Ensured(s), j.msg) then Reset(s, j)
    else
      var s1 := Prepared(s, j);
      if HasCaps(j.msg) then CachedCaps(s1, j.msg) else s1
  }

  /** The handler without a cache: it reads and upserts on every message. */
  function NaiveCaps(s: Store, m: StateMsg): Store
    requires m.caps.Some?
  {
    if UpsertFails(s, m) then s else Written(s, m)
  }

  function NaiveOnState(s: Store, j: Job): Store {
    if j.Other? then Ensured(s)
    else if Resets(Ensured(s), j.msg) then Reset(s, j)
    else
      var s1 := Prepared(s, j);
      if HasCaps(j.msg) then NaiveCaps(s1, j.msg) else s1
  }
}
