/** The nonce protocol of `hw.dump`: the API registers a nonce and waits; ingest stores the samples and replies. */
module HwDump {
  import opened Options
  import opened Texts
  import opened JsonText
  import opened Capabilities
  import opened LiveHash
  import opened HwSample

  const AUTO: Text := Ascii("auto-")
  const MAX_NONCE: nat := 64
  const MAX_DUMP_SAMPLES: nat := 200

  datatype Reply = Reply(nonce: Text, count: nat, inserted: nat)

  /** A dump message: its nonce (empty if it has none), the raw samples and the samples whose clock is sane. */
  datatype Dump = Dump(nonce: Text, raw: seq<Json>, saneTs: set<Text>)

  /** Where a handler throws, if it does. */
  datatype Fault = NoFault | AtAllow | AtEnsure | AtInsert | AtConn | AtTouch

  /**
   * `requests` are the registered nonces, `replies` every reply ever pushed, `samples` the time stamps of the dump
   * rows, `inserted` what all handlers together report as new.
   */
  datatype State = State(requests: set<Text>, replies: seq<Reply>, samples: set<Text>, inserted: nat)

  /** A nonce a device may answer to. */
  predicate Eligible(nonce: Text) { nonce != [] && |nonce| <= MAX_NONCE && !(AUTO <= nonce) }

  function LastRaw(raw: seq<Json>): seq<Json> {
    if |raw| <= MAX_DUMP_SAMPLES then raw else raw[|raw| - MAX_DUMP_SAMPLES..]
  }

  /** The time stamp under which a raw sample is stored. */
  function StoredTs(v: Json, saneTs: set<Text>): Option<Text> {
    if v.Obj? && Normalized(Properties(v)).Some? && Properties(v)[TS].text in saneTs
    then Some(Properties(v)[TS].text) else None
  }

  function KeptTs(raw: seq<Json>, saneTs: set<Text>): seq<Text> {
    if raw == [] then []
    else KeptTs(raw[..|raw| - 1], saneTs) +
         match StoredTs(raw[|raw| - 1], saneTs)
         case Some(t) => [t]
         case None => []
  }

  function ToSet(ts: seq<Text>): set<Text> { set t | t in ts }

  /** What the handler has counted and inserted when it ends, by exit path. */
  function Outcome(s: State, d: Dump, allowed: bool, fault: Fault): (nat, set<Text>) {
    var kept := KeptTs(LastRaw(d.raw), d.saneTs);
    if fault.AtAllow? || !allowed || fault.AtEnsure? then (0, {})
    else if fault.AtInsert? then (|kept|, {})
    else (|kept|, ToSet(kept) - s.samples)
  }

  function Waited(s: State, d: Dump): bool { Eligible(d.nonce) && d.nonce in s.requests }

  /** DEL of the registration, the first await of the handler. */
  function Consume(s: State, d: Dump): State {
    s.(requests := if Eligible(d.nonce) then s.requests - {d.nonce} else s.requests)
  }

  /** The rest of the handler. */
  function Complete(s: State, d: Dump, waited: bool, allowed: bool, fault: Fault): State {
    var o := Outcome(s, d, allowed, fault);
    s.(samples := s.samples + o.1,
       inserted := s.inserted + |o.1|,
       replies := if waited then s.replies + [Reply(d.nonce, o.0, |o.1|)] else s.replies)
  }

  class DumpHandler {
    var requests: set<Text>
    var replies: seq<Reply>
    var samples: set<Text>
    var inserted: nat

    ghost function Contents(): State reads this { State(requests, replies, samples, inserted) }

    constructor ()
      ensures Contents() == State({}, [], {}, 0)
    {
      requests, replies, samples, inserted := {}, [], {}, 0;
    }

    /** `finally` is the common end of all exit paths. */
    method OnHwDump(d: Dump, allowed: bool, fault: Fault)
      modifies this
      ensures Contents() == Complete(Consume(old(Contents()), d), d, Waited(old(Contents()), d), allowed, fault)
    {
      hide KeptTs;
      var waited := false;
      if Eligible(d.nonce) {
        waited := d.nonce in requests;
        requests := requests - {d.nonce};
      }
      var count, new' := StoreSamples(d, allowed, fault);
      if waited { replies := replies + [Reply(d.nonce, count, new')]; }
    }

    /** The guarded part; a throw ends it early and keeps what was counted and inserted before. */
    method StoreSamples(d: Dump, allowed: bool, fault: Fault) returns (count: nat, new': nat)
      modifies this`samples, this`inserted
      ensures var o := Outcome(old(Contents()), d, allowed, fault);
              && count == o.0 && new' == |o.1|
              && samples == old(samples) + o.1 && inserted == old(inserted) + new'
    {
      hide KeptTs, StoredTs;
      count, new' := 0, 0;
      if fault.AtAllow? || !allowed || fault.AtEnsure? { return; }
      var kept := Normalise(LastRaw(d.raw), d.saneTs);
      count := |kept|;
      if kept == [] || fault.AtInsert? {
        assert kept == [] ==> ToSet(kept) == {};
        return;
      }
      var fresh' := ToSet(kept) - samples;
      samples := samples + fresh';
      new' := |fresh'|;
      inserted := inserted + new';
    }

    method Normalise(raw: seq<Json>, saneTs: set<Text>) returns (kept: seq<Text>)
      ensures kept == KeptTs(raw, saneTs)
    {
      hide SAMPLE_FIELDS, Lookup, Normalized, StoredTs, Positive;
      kept := [];
      for i := 0 to |raw|
        invariant kept == KeptTs(raw[..i], saneTs)
      {
        assert raw[..i + 1][..i] == raw[..i];
        var x := NormalizeHwSample(raw[i]);
        StoredTsOf(raw[i], saneTs);
        if x.Some? {
          NormalizedStable(Properties(raw[i]));
          assert TS in x.value;
          if x.value[TS].text in saneTs { kept := kept + [x.value[TS].text]; }
        }
      }
      assert raw[..|raw|] == raw;
    }
  }

  lemma {:induction false} StoredTsOf(v: Json, saneTs: set<Text>)
    ensures v.Obj? && Normalized(Properties(v)).Some? ==>
              && TS in Normalized(Properties(v)).value && Normalized(Properties(v)).value[TS].Num?
              && StoredTs(v, saneTs) == (var t := Normalized(Properties(v)).value[TS].text;
                                         if t in saneTs then Some(t) else None)
    ensures !(v.Obj? && Normalized(Properties(v)).Some?) ==> StoredTs(v, saneTs) == None
  {
    if v.Obj? && Normalized(Properties(v)).Some? { NormalizedStable(Properties(v)); }
    hide SAMPLE_FIELDS, Normalized, Lookup;
  }

  /** A raw sample is stored under its time stamp if it is an object with a positive and sane one. */
  lemma {:induction false} StoredTsMeans(v: Json, saneTs: set<Text>, t: Text)
    ensures StoredTs(v, saneTs) == Some(t) <==> Lookup(v, TS) == Some(Num(t)) && Positive(Num(t)) && t in saneTs
  {
    hide SAMPLE_FIELDS, Fitting;
  }

  /** Some sample is stored under `t`. */
  ghost predicate Has(raw: seq<Json>, from: nat, saneTs: set<Text>, t: Text) {
    exists i | from <= i < |raw| :: StoredTs(raw[i], saneTs) == Some(t)
  }

  lemma {:induction false} KeptMeans(raw: seq<Json>, saneTs: set<Text>, t: Text)
    ensures t in KeptTs(raw, saneTs) <==> Has(raw, 0, saneTs, t)
  {
    hide StoredTs;
    if raw != [] {
      var init, n := raw[..|raw| - 1], |raw| - 1;
      KeptMeans(init, saneTs, t);
      if Has(raw, 0, saneTs, t) {
        var i :| 0 <= i < |raw| && StoredTs(raw[i], saneTs) == Some(t);
        assert i < n ==> StoredTs(init[i], saneTs) == Some(t);
      }
      if Has(init, 0, saneTs, t) {
        var i :| 0 <= i < n && StoredTs(init[i], saneTs) == Some(t);
        assert StoredTs(raw[i], saneTs) == Some(t);
      }
    }
  }

  /** How many samples from place `from` on are stored. */
  function Valid(raw: seq<Json>, from: nat, saneTs: set<Text>): nat {
    if |raw| <= from then 0
    else Valid(raw[..|raw| - 1], from, saneTs) + if StoredTs(raw[|raw| - 1], saneTs).Some? then 1 else 0
  }

  lemma {:induction false} KeptCounts(raw: seq<Json>, from: nat, saneTs: set<Text>)
    requires from <= |raw|
    ensures |KeptTs(raw[from..], saneTs)| == Valid(raw, from, saneTs)
  {
    hide StoredTs;
    if |raw| > from {
      KeptCounts(raw[..|raw| - 1], from, saneTs);
      assert raw[from..][..|raw| - from - 1] == raw[..|raw| - 1][from..];
    }
  }

  /**
   * What a handler run stores: without a fault, the time stamps of the valid samples among the last 200 that are not
   * there yet; with one before the insert, or over the limit, nothing. It counts the valid samples unless it failed
   * before looking at them.
   */
  lemma {:induction false} StoresExactly(s: State, d: Dump, allowed: bool, fault: Fault)
    ensures var o := Outcome(s, d, allowed, fault);
            var from := if |d.raw| > 200 then |d.raw| - 200 else 0;
            var reached := allowed && !fault.AtAllow? && !fault.AtEnsure?;
            && (forall t :: t in o.1 <==>
                  reached && !fault.AtInsert? && t !in s.samples && Has(d.raw, from, d.saneTs, t))
            && o.0 == if reached then Valid(d.raw, from, d.saneTs) else 0
  {
    hide StoredTs, KeptTs, Has, Valid;
    var last := LastRaw(d.raw);
    var from := if |d.raw| > 200 then |d.raw| - 200 else 0;
    assert last == d.raw[from..];
    KeptCounts(d.raw, from, d.saneTs);
    forall t ensures t in KeptTs(last, d.saneTs) <==> Has(d.raw, from, d.saneTs, t) {
      KeptMeans(last, d.saneTs, t);
      HasShifted(d.raw, from, d.saneTs, t);
    }
  }

  lemma {:induction false} HasShifted(raw: seq<Json>, from: nat, saneTs: set<Text>, t: Text)
    requires from <= |raw|
    ensures Has(raw[from..], 0, saneTs, t) <==> Has(raw, from, saneTs, t)
  {
    hide StoredTs;
    var last := raw[from..];
    if Has(raw, from, saneTs, t) {
      var i :| from <= i < |raw| && StoredTs(raw[i], saneTs) == Some(t);
      assert last[i - from] == raw[i];
    }
    if Has(last, 0, saneTs, t) {
      var i :| 0 <= i < |last| && StoredTs(last[i], saneTs) == Some(t);
      assert raw[from + i] == last[i];
    }
  }

  /** A dump without a nonce, with an overlong one or an automatic one consumes no registration and gets no reply. */
  lemma {:induction false} OthersUnanswered(s: State, d: Dump, allowed: bool, fault: Fault)
    requires d.nonce == [] || |d.nonce| > 64 || Ascii("auto-") <= d.nonce
    ensures Consume(s, d) == s && Complete(Consume(s, d), d, Waited(s, d), allowed, fault).replies == s.replies
  {
    hide Outcome;
  }

  /* ---------- runs: the API and one serial handler ---------- */

  datatype Flight = Flight(dump: Dump, waited: bool)

  /** `registered` remembers every nonce the API ever registered; nonces are random and never reused. */
  datatype Sys = Sys(state: State, flight: Option<Flight>, registered: set<Text>)

  datatype Step =
    | Register(nonce: Text)
    | Withdraw(nonce: Text)
    | Begin(dump: Dump)
    | End(allowed: bool, fault: Fault)

  ghost predicate Next(a: Sys, b: Sys, st: Step) {
    match st
    case Register(n) =>
      && n !in a.registered && Eligible(n)
      && b == a.(registered := a.registered + {n}, state := a.state.(requests := a.state.requests + {n}))
    // The registration expires, or the API gives up and deletes it.
    case Withdraw(n) => b == a.(state := a.state.(requests := a.state.requests - {n}))
    case Begin(d) => a.flight.None? && b == a.(state := Consume(a.state, d),
        flight := Some(Flight(d, Waited(a.state, d))))
    case End(allowed, fault) =>
      && a.flight.Some?
      && b == a.(state := Complete(a.state, a.flight.value.dump, a.flight.value.waited, allowed, fault), flight := None)
  }

  ghost predicate IsRun(run: seq<Sys>, steps: seq<Step>) {
    && |run| == |steps| + 1
    && run[0] == Sys(State({}, [], {}, 0), None, {})
    && forall i | 0 <= i < |steps| :: Next(run[i], run[i + 1], steps[i])
  }

  function RepliesTo(replies: seq<Reply>, nonce: Text): nat {
    if replies == [] then 0
    else RepliesTo(replies[..|replies| - 1], nonce) + if replies[|replies| - 1].nonce == nonce then 1 else 0
  }

  /** Replies given or still owed by the handler at work. */
  ghost function Owed(a: Sys, nonce: Text): nat {
    RepliesTo(a.state.replies, nonce) +
    if a.flight.Some? && a.flight.value.waited && a.flight.value.dump.nonce == nonce then 1 else 0
  }

  ghost predicate Inv(a: Sys) {
    && a.state.requests <= a.registered
    && (forall n :: Owed(a, n) <= 1)
    && (forall n | n in a.state.requests :: Owed(a, n) == 0)
    && (forall n | n !in a.registered :: Owed(a, n) == 0)
    && a.state.inserted == |a.state.samples|
  }

  lemma {:induction false} RepliesAppend(replies: seq<Reply>, r: Reply, n: Text)
    ensures RepliesTo(replies + [r], n) == RepliesTo(replies, n) + if r.nonce == n then 1 else 0
  {
    assert (replies + [r])[..|replies|] == replies;
  }

  lemma {:induction false} InvKept(a: Sys, b: Sys, st: Step)
    requires Inv(a) && Next(a, b, st)
    ensures Inv(b)
  {
    hide Eligible, Outcome, RepliesTo;
    match st
    case End(allowed, fault) =>
      var f := a.flight.value;
      var o := Outcome(a.state, f.dump, allowed, fault);
      assert a.state.samples !! o.1 by { OutcomeFresh(a.state, f.dump, allowed, fault); }
      forall n ensures Owed(b, n) == Owed(a, n) {
        if f.waited { RepliesAppend(a.state.replies, Reply(f.dump.nonce, o.0, |o.1|), n); }
      }
    case Begin(d) =>
      forall n ensures Owed(b, n) == Owed(a, n) + if Waited(a.state, d) && d.nonce == n then 1 else 0 {}
    case Register(n) =>
      forall m ensures Owed(b, m) == Owed(a, m) {}
    case Withdraw(n) =>
      forall m ensures Owed(b, m) == Owed(a, m) {}
  }

  lemma {:induction false} OutcomeFresh(s: State, d: Dump, allowed: bool, fault: Fault)
    ensures s.samples !! Outcome(s, d, allowed, fault).1
  {
    hide KeptTs;
  }

  /**
   * In every run each nonce gets at most one reply, an unregistered one gets none, and the reported insertions add
   * up to the growth of the sample table.
   */
  lemma {:induction false} RepliesOnce(run: seq<Sys>, steps: seq<Step>)
    requires IsRun(run, steps)
    ensures forall i, n | 0 <= i < |run| :: RepliesTo(run[i].state.replies, n) <= 1
    ensures forall i, n | 0 <= i < |run| && n !in run[i].registered :: RepliesTo(run[i].state.replies, n) == 0
    ensures forall i | 0 <= i < |run| :: run[i].state.inserted == |run[i].state.samples|
  {
    hide Next, RepliesTo;
    NoReplies();
    for m := 0 to |steps|
      invariant forall i | 0 <= i <= m :: Inv(run[i])
    {
      InvKept(run[m], run[m + 1], steps[m]);
    }
    forall i, n | 0 <= i < |run| ensures RepliesTo(run[i].state.replies, n) <= 1 { assert Owed(run[i], n) <= 1; }
    forall i, n | 0 <= i < |run| && n !in run[i].registered ensures RepliesTo(run[i].state.replies, n) == 0 {
      assert Owed(run[i], n) == 0;
    }
  }

  lemma {:induction false} NoReplies()
    ensures forall n :: RepliesTo([], n) == 0
  {
  }

  /**
   * A handler run replies exactly when it consumed a registration, on every exit path, and its reply counts what
   * it kept and what it inserted; rate limiting and early faults report nothing.
   */
  lemma {:induction false} ReplyExactly(s: State, d: Dump, allowed: bool, fault: Fault)
    ensures var t := Complete(Consume(s, d), d, Waited(s, d), allowed, fault);
            && (|t.replies| == |s.replies| + 1 <==> d.nonce in s.requests && d.nonce !in t.requests)
            && |t.replies| <= |s.replies| + 1
            && s.samples <= t.samples
            && (|t.replies| == |s.replies| + 1 ==>
                  var r := t.replies[|s.replies|];
                  r.nonce == d.nonce && |s.samples| + r.inserted == |t.samples|
                      && r.inserted <= r.count <= MAX_DUMP_SAMPLES)
  {
    hide Eligible;
    OutcomeFresh(s, d, allowed, fault);
    OutcomeCounts(s, d, allowed, fault);
    var o := Outcome(Consume(s, d), d, allowed, fault);
    assert s.samples !! o.1;
  }

  lemma {:induction false} OutcomeCounts(s: State, d: Dump, allowed: bool, fault: Fault)
    ensures |Outcome(s, d, allowed, fault).1| <= Outcome(s, d, allowed, fault).0 <= MAX_DUMP_SAMPLES
  {
    var kept := KeptTs(LastRaw(d.raw), d.saneTs);
    KeptShort(LastRaw(d.raw), d.saneTs);
    SetShort(kept);
    SubsetSize(ToSet(kept) - s.samples, ToSet(kept));
  }

  lemma {:induction false} KeptShort(raw: seq<Json>, saneTs: set<Text>)
    ensures |KeptTs(raw, saneTs)| <= |raw|
  {
    hide StoredTs;
    if raw != [] { KeptShort(raw[..|raw| - 1], saneTs); }
  }

  lemma {:induction false} SetShort(ts: seq<Text>)
    ensures |ToSet(ts)| <= |ts|
  {
    if ts != [] {
      SetShort(ts[1..]);
      assert ts == [ts[0]] + ts[1..];
      assert ToSet(ts) == {ts[0]} + ToSet(ts[1..]);
    }
  }

  lemma {:induction false} SubsetSize(a: set<Text>, b: set<Text>)
    requires a <= b
    ensures |a| <= |b|
  {
    assert b == a + (b - a);
  }
}
