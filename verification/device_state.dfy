/** `toDeviceState`: a device's state from its joined row and its live hash. */
module DeviceStates {
  import opened Options
  import opened Texts
  import opened Capabilities
  import opened Messages
  import opened LiveHash
  import opened Ingest
  import opened DeviceReadiness

  /** `number` is `Number(text)`. */
  function ToDeviceState(device: Option<Device>, caps: Option<CapsRow>, live: Hash, number: Text -> real): DeviceState {
    var c := if caps.Some? then caps.value.columns else Columns(BLOCKED, false, UNSUPPORTED, false, false, None, None);
    DeviceState(
      ReadsOnline(live),
      if caps.Some? then caps.value.agentVer else Ascii("0.0.0"),
      if c.encoderName.Some? && c.encoderName.value != [] then c.(encoderHw := Some(c.encoderHw == Some(true)))
      else c.(encoderName := None, encoderHw := None),
      DeviceReadiness.Volatile(
        SCREEN_ON in live && (live[SCREEN_ON] == ONE || live[SCREEN_ON] == LiveHash.TRUE),
        CHARGING in live && (live[CHARGING] == ONE || live[CHARGING] == LiveHash.TRUE),
        if BATTERY_PCT in live then number(live[BATTERY_PCT]) else 0.0,
        if NET in live then live[NET] else Ascii("unknown"),
        if RSSI in live then number(live[RSSI]) else 0.0),
      device.Some? && device.value.needsReprovisioning)
  }

  lemma {:induction false} BaseFields(h: Hash, msg: StateMsg, p: HwPatch, f: Text)
    requires IsHwPatch(msg.volatile, p) && f in LivePatch(msg)
    ensures f in Patched(h, msg, p) && Patched(h, msg, p)[f] == LivePatch(msg)[f]
  {
    hide LivePatch, HasHw, LiveHash.Written;
    if IsHwField(f) { BaseFieldsAreNotHw(msg, f); }
  }

  /**
   * The state of a device right after a message, whatever its hash was before: screen and charger read as the truth
   * of the message's values (a missing one as false), battery and signal as the numbers of its texts (missing: `0`),
   * the network as its text (missing: empty), and `online` as the message says, or as before if it does not say.
   */
  lemma {:induction false} LiveReadsBack(h: Hash, msg: StateMsg, p: HwPatch, device: Option<Device>,
                                         caps: Option<CapsRow>, number: Text -> real)
    requires IsHwPatch(msg.volatile, p)
    ensures var d := ToDeviceState(device, caps, Patched(h, msg, p), number);
            var v := msg.volatile;
            && (d.volatile.screenOn <==> Property(v, SCREEN_ON).Some? && Truthy(Property(v, SCREEN_ON).value))
            && (d.volatile.charging <==> Property(v, CHARGING).Some? && Truthy(Property(v, CHARGING).value))
            && d.volatile.batteryPct == number(TextOr(Property(v, BATTERY_PCT), ZERO))
            && d.volatile.rssi == number(TextOr(Property(v, RSSI), ZERO))
            && d.volatile.net == TextOr(Property(v, NET), [])
            && (d.online <==> match msg.online
                              case Some(Bool(b)) => b
                              case _ => ReadsOnline(h))
  {
    hide Property, Patched, IsHwPatch, ReadsOnline, Truthy, LivePatch, TextOr;
    PatchedOnline(h, msg, p);
    BasePatch(msg);
    BaseFields(h, msg, p, SCREEN_ON);
    BaseFields(h, msg, p, CHARGING);
    BaseFields(h, msg, p, BATTERY_PCT);
    BaseFields(h, msg, p, NET);
    BaseFields(h, msg, p, RSSI);
    assert ZERO != ONE && ZERO != LiveHash.TRUE by { assert |LiveHash.TRUE| == 4 && ZERO[0] != ONE[0]; }
  }

  lemma {:induction false} BasePatch(msg: StateMsg)
    ensures var v, q := msg.volatile, LivePatch(msg);
            && {SCREEN_ON, CHARGING, BATTERY_PCT, NET, RSSI} <= q.Keys
            && q[SCREEN_ON] == Flag(Property(v, SCREEN_ON)) && q[CHARGING] == Flag(Property(v, CHARGING))
            && q[BATTERY_PCT] == TextOr(Property(v, BATTERY_PCT), ZERO) && q[RSSI] == TextOr(Property(v, RSSI), ZERO)
            && q[NET] == TextOr(Property(v, NET), [])
  {
    hide Property, TextOr, Flag;
    assert |TS| == 2 && |SCREEN_ON| == 8 && |CHARGING| == 8 && |BATTERY_PCT| == 10 && |NET| == 3 && |RSSI| == 4
        && |ONLINE| == 6;
    assert SCREEN_ON[0] != CHARGING[0];
  }
}
