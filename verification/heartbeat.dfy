/** The hardware samples that heartbeats leave behind: after one is stored the next has to wait. */
module Heartbeats {
  import opened Options
  import opened Texts
  import opened JsonText
  import opened Capabilities
  import opened Messages
  import opened LiveHash
  import opened HwSample

  /** The stored samples by time stamp, and until when the key that holds back further ones lives. */
  datatype Samples = Samples(rows: map<Text, map<Text, Json>>, heldUntil: Option<int>)

  /** When a message is handled, the sane time stamp it gets, and whether its insert succeeds. */
  datatype Moment = Moment(at: int, ts: Text, inserts: bool)

  datatype Beat = Beat(msg: StateMsg, moment: Moment)

  /** The sample of a message: its volatile part under the sane time stamp. */
  function SampleOf(b: Beat): Option<map<Text, Json>> {
    if b.msg.volatile.Some? && b.msg.volatile.value.Obj?
    then Normalized(Properties(b.msg.volatile.value)[TS := Num(b.moment.ts)]) else None
  }

  /** The device is not reported offline, its metrics are there, and nothing fails. */
  predicate Storable(b: Beat) {
    b.msg.online != Some(Bool(false)) && HasHw(b.msg.volatile) && SampleOf(b).Some? && b.moment.inserts
  }

  predicate Holds(s: Samples, at: int) { s.heldUntil.Some? && at < s.heldUntil.value }

  /** The effect of one heartbeat; a sample under a time stamp already there is not inserted again. */
  function Next(s: Samples, pauseSec: nat, b: Beat): Samples {
    if !Storable(b) || (pauseSec > 0 && Holds(s, b.moment.at)) then s
    else Samples(if b.moment.ts in s.rows then s.rows else s.rows[b.moment.ts := SampleOf(b).value],
                 if pauseSec > 0 then Some(b.moment.at + pauseSec) else s.heldUntil)
  }

  /** The samples after a sequence of heartbeats. */
  function After(pauseSec: nat, beats: seq<Beat>): Samples {
    if beats == [] then Samples(map[], None)
    else Next(After(pauseSec, beats[..|beats| - 1]), pauseSec, beats[|beats| - 1])
  }

  /** Heartbeat `i` gets past the key, and its sample is written or already there. */
  predicate Passes(pauseSec: nat, beats: seq<Beat>, i: nat)
    requires i < |beats|
  {
    Storable(beats[i]) && !(pauseSec > 0 && Holds(After(pauseSec, beats[..i]), beats[i].moment.at))
  }

  ghost predicate Timed(beats: seq<Beat>) {
    forall i, j | 0 <= i < j < |beats| :: beats[i].moment.at <= beats[j].moment.at
  }

  lemma {:induction false} AfterNext(pauseSec: nat, beats: seq<Beat>, n: nat)
    requires n < |beats|
    ensures After(pauseSec, beats[..n + 1]) == Next(After(pauseSec, beats[..n]), pauseSec, beats[n])
  {
    assert beats[..n + 1][..n] == beats[..n];
  }

  /** The key lives as long after the last heartbeat that passed as the pause lasts. */
  ghost predicate HeldByLast(pauseSec: nat, beats: seq<Beat>, n: nat)
    requires n <= |beats|
  {
    match After(pauseSec, beats[..n]).heldUntil
    case None => forall k: nat | k < n :: !Passes(pauseSec, beats, k)
    case Some(u) =>
      && (exists k: nat :: k < n && Passes(pauseSec, beats, k) && beats[k].moment.at + pauseSec == u)
      && (forall k: nat | k < n && Passes(pauseSec, beats, k) :: beats[k].moment.at + pauseSec <= u)
  }

  lemma {:induction false} HeldByLastIs(pauseSec: nat, beats: seq<Beat>, n: nat)
    requires pauseSec > 0 && Timed(beats) && n <= |beats|
    ensures HeldByLast(pauseSec, beats, n)
  {
    hide Storable, SampleOf, After;
    if n > 0 {
      HeldByLastIs(pauseSec, beats, n - 1);
      AfterNext(pauseSec, beats, n - 1);
    } else {
      NothingHeld(pauseSec, beats);
    }
  }

  lemma {:induction false} NothingHeld(pauseSec: nat, beats: seq<Beat>)
    ensures After(pauseSec, beats[..0]) == Samples(map[], None)
  {
  }

  /**
   * A heartbeat passes if and only if it can be stored and every one that passed before it lies at least the pause
   * back. So samples keep that distance, and one that can be stored is left out only within it.
   */
  lemma {:induction false} PassesIff(pauseSec: nat, beats: seq<Beat>, i: nat)
    requires Timed(beats) && i < |beats|
    ensures Passes(pauseSec, beats, i) <==>
            && Storable(beats[i])
            && (forall k: nat | k < i && Passes(pauseSec, beats, k) ::
                  beats[k].moment.at + pauseSec <= beats[i].moment.at)
  {
    hide Storable, After;
    if pauseSec > 0 { HeldByLastIs(pauseSec, beats, i); }
  }

  /** Heartbeat `k` is the first under its time stamp that passes. */
  ghost predicate FirstUnder(pauseSec: nat, beats: seq<Beat>, k: nat)
    requires k < |beats|
  {
    && Passes(pauseSec, beats, k)
    && forall j: nat | j < k && Passes(pauseSec, beats, j) :: beats[j].moment.ts != beats[k].moment.ts
  }

  /** There are rows under the time stamps of the heartbeats that passed, and no others. */
  ghost predicate Stamped(rows: map<Text, map<Text, Json>>, pauseSec: nat, beats: seq<Beat>, n: nat)
    requires n <= |beats|
  {
    forall t :: t in rows <==> exists k: nat :: k < n && Passes(pauseSec, beats, k) && beats[k].moment.ts == t
  }

  /** Row and sample of heartbeat `k` agree. */
  ghost predicate Shown(rows: map<Text, map<Text, Json>>, b: Beat) {
    b.moment.ts in rows && Some(rows[b.moment.ts]) == SampleOf(b)
  }

  /** The rows are those of the heartbeats that passed, under each time stamp the first one. */
  ghost predicate Rows(rows: map<Text, map<Text, Json>>, pauseSec: nat, beats: seq<Beat>, n: nat)
    requires n <= |beats|
  {
    && Stamped(rows, pauseSec, beats, n)
    && forall k: nat | k < n && FirstUnder(pauseSec, beats, k) :: Shown(rows, beats[k])
  }

  lemma {:induction false} RowsGrow(pauseSec: nat, beats: seq<Beat>, n: nat)
    requires n < |beats|
    ensures var rows, b := After(pauseSec, beats[..n]).rows, beats[n];
            After(pauseSec, beats[..n + 1]).rows ==
              if !Passes(pauseSec, beats, n) || b.moment.ts in rows then rows
              else rows[b.moment.ts := SampleOf(b).value]
  {
    hide SampleOf, After, Holds, HasHw;
    AfterNext(pauseSec, beats, n);
  }

  lemma {:induction false} RowsAre(pauseSec: nat, beats: seq<Beat>, n: nat)
    requires n <= |beats|
    ensures Rows(After(pauseSec, beats[..n]).rows, pauseSec, beats, n)
  {
    hide After, Passes, Rows;
    if n > 0 {
      RowsAre(pauseSec, beats, n - 1);
      RowsGrow(pauseSec, beats, n - 1);
      RowsStep(After(pauseSec, beats[..n - 1]).rows, pauseSec, beats, n - 1);
    } else {
      NothingHeld(pauseSec, beats);
      NoRows(pauseSec, beats);
    }
  }

  lemma {:induction false} NoRows(pauseSec: nat, beats: seq<Beat>)
    ensures Rows(map[], pauseSec, beats, 0)
  {
    hide Passes, FirstUnder, Shown;
  }

  lemma {:induction false} PassedHasSample(pauseSec: nat, beats: seq<Beat>, k: nat)
    requires k < |beats|
    ensures Passes(pauseSec, beats, k) ==> SampleOf(beats[k]).Some?
    ensures FirstUnder(pauseSec, beats, k) ==> Passes(pauseSec, beats, k)
  {
    hide SampleOf, Holds, HasHw;
  }

  lemma {:induction false} RowsStep(rows: map<Text, map<Text, Json>>, pauseSec: nat, beats: seq<Beat>, n: nat)
    requires n < |beats| && Rows(rows, pauseSec, beats, n)
    ensures var b := beats[n];
            Rows(if !Passes(pauseSec, beats, n) || b.moment.ts in rows then rows
                 else rows[b.moment.ts := SampleOf(b).value],
                 pauseSec, beats, n + 1)
  {
    hide SampleOf, Passes, FirstUnder, Stamped;
    var b := beats[n];
    var t := b.moment.ts;
    PassedHasSample(pauseSec, beats, n);
    var next := if !Passes(pauseSec, beats, n) || t in rows then rows else rows[t := SampleOf(b).value];
    FirstIsNew(rows, pauseSec, beats, n);
    StampedStep(rows, next, pauseSec, beats, n);
    forall k: nat | k < n + 1 && FirstUnder(pauseSec, beats, k) ensures Shown(next, beats[k]) {
      if k < n { assert Shown(rows, beats[k]); }
    }
  }

  /** The first heartbeat under its time stamp finds no row there. */
  lemma {:induction false} FirstIsNew(rows: map<Text, map<Text, Json>>, pauseSec: nat, beats: seq<Beat>, n: nat)
    requires n < |beats| && Stamped(rows, pauseSec, beats, n)
    ensures beats[n].moment.ts in rows ==> !FirstUnder(pauseSec, beats, n)
  {
    hide Passes;
    var t := beats[n].moment.ts;
    if t in rows {
      var k: nat :| k < n && Passes(pauseSec, beats, k) && beats[k].moment.ts == t;
    }
  }

  lemma {:induction false} StampedStep(rows: map<Text, map<Text, Json>>, next: map<Text, map<Text, Json>>,
                                       pauseSec: nat, beats: seq<Beat>, n: nat)
    requires n < |beats| && Stamped(rows, pauseSec, beats, n)
    requires next.Keys == rows.Keys + if Passes(pauseSec, beats, n) then {beats[n].moment.ts} else {}
    ensures Stamped(next, pauseSec, beats, n + 1)
  {
    hide Passes;
    forall t
      ensures t in next <==> exists k: nat :: k < n + 1 && Passes(pauseSec, beats, k) && beats[k].moment.ts == t
    {
      if t in rows {
        var k: nat :| k < n && Passes(pauseSec, beats, k) && beats[k].moment.ts == t;
        assert k < n + 1;
      } else if t in next {
        assert Passes(pauseSec, beats, n) && beats[n].moment.ts == t;
      }
      if exists k: nat :: k < n + 1 && Passes(pauseSec, beats, k) && beats[k].moment.ts == t {
        var k: nat :| k < n + 1 && Passes(pauseSec, beats, k) && beats[k].moment.ts == t;
        assert k < n ==> t in rows;
      }
    }
  }

  /** Under a positive time stamp no sample of an object is refused, and its time stamp is the sane one. */
  lemma {:induction false} SampleUnder(b: Beat)
    requires b.msg.volatile.Some? && b.msg.volatile.value.Obj? && Positive(Num(b.moment.ts))
    ensures SampleOf(b).Some? && TS in SampleOf(b).value && SampleOf(b).value[TS] == Num(b.moment.ts)
    ensures Normalized(SampleOf(b).value) == SampleOf(b)
    ensures Storable(b) <==>
              && b.msg.online != Some(Bool(false)) && b.moment.inserts
              && exists i | 0 <= i < |HW_NAMES| :: Lookup(b.msg.volatile.value, HW_NAMES[i]).Some?
  {
    var p := Properties(b.msg.volatile.value)[TS := Num(b.moment.ts)];
    hide SAMPLE_FIELDS, Positive, Fitting, Properties;
    assert Normalized(p).Some?;
    NormalizedStable(p);
  }

  /** The sample holds the numbers of the message as they were sent, and what it holds comes from the message. */
  lemma {:induction false} SampleCarries(b: Beat, k: Text)
    requires b.msg.volatile.Some? && b.msg.volatile.value.Obj? && Positive(Num(b.moment.ts)) && k != TS
    ensures SampleOf(b).Some?
    ensures var v := Lookup(b.msg.volatile.value, k);
            var q := SampleOf(b).value;
            && (v.None? ==> k !in q)
            && (v.Some? && k in PLATFORM_NUMBERS + SCREEN_NUMBERS ==>
                  (k in q <==> v.value.Num? || v.value.Null?) && (k in q ==> q[k] == v.value))
            && (v.Some? && k in BOOLEANS ==>
                  (k in q <==> v.value.Bool? || v.value.Null?) && (k in q ==> q[k] == v.value))
            && (v.Some? && k in STRINGS && v.value.Str? ==> k in q && q[k] == Str(Clean(v.value.s)))
  {
    hide SAMPLE_FIELDS, PLATFORM_NUMBERS, SCREEN_NUMBERS, BOOLEANS, STRINGS, STRING_LISTS, Clean, Lookup;
    SampleUnder(b);
    FieldsSurvive(Properties(b.msg.volatile.value)[TS := Num(b.moment.ts)], k);
    hide Normalized, Positive;
  }
}
