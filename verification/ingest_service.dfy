/** `IngestService` as the object the process runs: its stores as fields, each handler step an assignment. */
module IngestServices {
  import opened Options
  import opened Texts
  import opened JsonText
  import opened Canonical
  import opened Capabilities
  import opened Messages
  import opened LiveHash
  import opened Ingest
  import opened HwSample
  import Heartbeats

  class IngestService {
    var device: Option<Device>
    var caps: Option<CapsRow>
    var log: seq<Entry>
    var cache: Option<Text>
    var live: Hash
    const pauseSec: nat
    var rows: map<Text, map<Text, Json>>
    var heldUntil: Option<int>

    ghost function Contents(): Store reads this { Store(device, caps, log, cache, live) }

    ghost function Samples(): Heartbeats.Samples reads this { Heartbeats.Samples(rows, heldUntil) }

    constructor (pauseSec: nat)
      ensures Contents() == Store(None, None, [], None, map[])
      ensures this.pauseSec == pauseSec && Samples() == Heartbeats.After(pauseSec, [])
    {
      device, caps, log, cache, live := None, None, [], None, map[];
      this.pauseSec, rows, heldUntil := pauseSec, map[], None;
    }

    method OnState(msg: StateMsg, moment: Heartbeats.Moment) returns (ghost patch: HwPatch)
      requires msg.caps.Some? ==> WellFormed(msg.caps.value)
      modifies this
      ensures IsHwPatch(msg.volatile, patch)
      ensures Contents() == Ingest.OnState(old(Contents()), State(msg, patch))
      ensures Samples() == Heartbeats.Next(old(Samples()), pauseSec, Heartbeats.Beat(msg, moment))
    {
      hide Heartbeats.Next, Blanked, Truthy, Stored, WellFormed, Ingest.WriteLive, Preimage;
      hide Capabilities.Diff, Writable, ColumnsOf, ReadBack, LivePatch, IsHwPatch;
      EnsureDevice();
      if msg.androidId != [] {
        var reset := CheckFactoryReset(msg.androidId);
        if reset {
          patch := WriteLive(msg, moment);
          return;
        }
      }
      patch := WriteLive(msg, moment);
      if !HasCaps(msg) { return; }
      var hash := Preimage(msg.caps.value, msg.agentVer);
      if cache == Some(hash) { return; }
      var prev := FindCapsRow();
      if device.None? || !Writable(msg.caps.value) { return; }
      caps := Some(CapsRow(msg.agentVer, ColumnsOf(msg.caps.value), hash));
      if prev.Some? { ReadBackWellFormed(old(caps).value.columns); }
      var changed := CapsDiff(prev, msg.caps.value);
      if changed != map[] { log := log + [Stored(changed)]; }
      cache := Some(hash);
    }

    method EnsureDevice()
      modifies this`device, this`cache
      ensures Contents() == Ensured(old(Contents()))
    {
      if device.None? {
        device := Some(Device([], false));
        cache := None;
      }
    }

    method CheckFactoryReset(reported: Text) returns (reset: bool)
      requires reported != []
      modifies this`device, this`caps, this`cache
      ensures reset <==>
                && old(device).Some?
                && old(device).value.androidId != []
                && old(device).value.androidId != reported
      ensures Contents() ==
                if reset then DropCache(BlankCaps(SetAndroid(old(Contents()), reported, true)))
                else SetAndroid(old(Contents()), reported, false)
    {
      var stored := if device.Some? then device.value.androidId else [];
      if stored != [] && stored != reported {
        device := Some(Device(reported, true));
        if caps.Some? { caps := Some(caps.value.(columns := Blanked(caps.value.columns))); }
        cache := None;
        return true;
      }
      if device.Some? { device := Some(device.value.(androidId := reported)); }
      return false;
    }

    method WriteLive(msg: StateMsg, moment: Heartbeats.Moment) returns (patch: HwPatch)
      modifies this`live, this`rows, this`heldUntil
      ensures IsHwPatch(msg.volatile, patch)
      ensures Contents() == Ingest.WriteLive(old(Contents()), State(msg, patch))
      ensures Samples() == Heartbeats.Next(old(Samples()), pauseSec, Heartbeats.Beat(msg, moment))
    {
      hide IsHwPatch, LivePatch, Heartbeats.Next;
      var base := LiveHashPatch(msg);
      live := live + base;
      patch := HwLivePatch(msg.volatile);
      live := live + patch.set';
      live := map f | f in live && f !in patch.del :: live[f];
      StoreHeartbeatSample(msg, moment);
    }

    /** `INSERT ... ON CONFLICT DO NOTHING` for the sample; the key that holds back further ones is set after it. */
    method StoreHeartbeatSample(msg: StateMsg, moment: Heartbeats.Moment)
      modifies this`rows, this`heldUntil
      ensures Samples() == Heartbeats.Next(old(Samples()), pauseSec, Heartbeats.Beat(msg, moment))
    {
      hide SAMPLE_FIELDS, Normalized, HasHw, Properties;
      if msg.online == Some(Bool(false)) || !HasHw(msg.volatile) { return; }
      if pauseSec > 0 && heldUntil.Some? && moment.at < heldUntil.value { return; }
      // Only an object has metrics.
      if msg.volatile.None? || !msg.volatile.value.Obj? { return; }
      var data := NormalizeProperties(Properties(msg.volatile.value)[TS := Num(moment.ts)]);
      if data.None? || !moment.inserts { return; }
      if moment.ts !in rows { rows := rows[moment.ts := data.value]; }
      if pauseSec > 0 { heldUntil := Some(moment.at + pauseSec); }
    }

    method FindCapsRow() returns (prev: Option<Json>)
      ensures prev == FindCaps(Contents())
    {
      prev := if caps.Some? then Some(ReadBack(caps.value.columns)) else None;
    }
  }
}
