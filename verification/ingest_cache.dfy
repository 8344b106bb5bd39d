/** What the capability cache may and may not change: solo runs, refinement, double delivery, broken handlers. */
module IngestCache {
  import opened Options
  import opened Texts
  import opened JsonText
  import opened Canonical
  import opened Capabilities
  import opened Messages
  import opened LiveHash
  import opened Ingest
  import opened IngestRun

  /* ---------- the awaits, run without interleaving, make up the handler ---------- */

  function Rank(pc: Pc): nat {
    match pc
    case Idle => 0
    case PutCache(_) => 1
    case Log(_, _) => 2
    case Upsert(_, _) => 3
    case ReadCaps(_) => 4
    case GetCache(_) => 5
    case Touch(_, _) => 6
    case DelHw(_, _) => 7
    case PutHw(_, _) => 8
    case PutLive(_, _) => 9
    case DropReset(_) => 10
    case Blank(_) => 11
    case FlagReset(_) => 12
    case StoreAndroid(_) => 12
    case ReadAndroid(_) => 13
    case DropNew(_) => 14
    case Insert(_) => 15
  }

  function Finish(s: Store, pc: Pc): Store
    requires PcValid(pc)
    decreases Rank(pc)
  {
    if pc == Idle then s else var r := Advance(s, pc); Finish(r.0, r.1)
  }

  /** One await of a handler at work brings it nearer to its end. */
  lemma {:induction false} FinishHandled(a: Sys)
    requires a.pc != Idle && PcValid(a.pc)
    ensures var b := Do(a, Handle);
            && PcValid(b.pc) && Rank(b.pc) < Rank(a.pc) && (b.pc != Idle ==> b.pc.job == a.pc.job)
            && b.removals == a.removals && Finish(b.store, b.pc) == Finish(a.store, a.pc)
  {
    hide LivePatch, ColumnsOf, Writable, Diff, Preimage, ReadBack, Stored, HasCaps, LiveSet, LiveDel, Blanked;
  }

  lemma {:induction false} FinishCaps(s: Store, j: Job)
    requires j.State? && HasCaps(j.msg)
    ensures Finish(s, GetCache(j)) == CachedCaps(s, j.msg)
  {
    hide Diff, Writable, Preimage, ReadBack, ColumnsOf;
    if s.cache != Some(HashOf(j.msg)) {
      var prev := FindCaps(s);
      assert Finish(s, GetCache(j)) == Finish(s, ReadCaps(j)) == Finish(s, Upsert(j, prev));
      if UpsertFails(s, j.msg) {
        assert Finish(s, Upsert(j, prev)) == Finish(s, Idle) == s;
      } else {
        var d := Diff(prev, j.msg.caps.value);
        var s1 := s.(caps := Some(RowFor(j.msg)));
        assert Finish(s1, Log(j, d)) == Finish(Append(s1, d), PutCache(j));
        assert Finish(s1, PutCache(j)) == s1.(cache := Some(HashOf(j.msg)));
        assert Finish(Append(s1, d), PutCache(j)) == Append(s1, d).(cache := Some(HashOf(j.msg)));
      }
    }
  }

  lemma {:induction false} FinishLive(s: Store, j: Job, reset: bool)
    requires j.State?
    ensures Finish(s, PutLive(j, reset)) ==
              if reset || !HasCaps(j.msg) then WriteLive(s, j) else CachedCaps(WriteLive(s, j), j.msg)
  {
    hide CachedCaps, LivePatch, Truthy, Preimage;
    var s1 := LiveBase(s, j.msg);
    var s2 := LiveSet(s1, j.patch);
    var s3 := LiveDel(s2, j.patch);
    assert Finish(s, PutLive(j, reset)) == Finish(s1, PutHw(j, reset)) == Finish(s2, DelHw(j, reset)) ==
        Finish(s3, Touch(j, reset));
    if reset || !HasCaps(j.msg) {
      assert Finish(s3, Touch(j, reset)) == Finish(s3, Idle) == s3;
    } else {
      assert Finish(s3, Touch(j, reset)) == Finish(s3, GetCache(j));
      FinishCaps(s3, j);
    }
  }

  /** The awaits in sequence compute `OnState`. */
  lemma {:induction false} SoloRun(s: Store, j: Job)
    ensures Finish(s, Insert(j)) == OnState(s, j)
  {
    hide CachedCaps, LiveBase, LiveSet, LiveDel, HasCaps;
    var s1 := Ensured(s);
    assert Finish(s, Insert(j)) == Finish(s1, AfterEnsure(j)) by {
      if s.device.None? {
        assert Finish(s, Insert(j)) == Finish(InsertDevice(s), DropNew(j));
      }
    }
    if j.State? {
      if j.msg.androidId == [] {
        FinishLive(s1, j, false);
      } else if Resets(s1, j.msg) {
        var s2 := SetAndroid(s1, j.msg.androidId, true);
        var s3 := BlankCaps(s2);
        assert Finish(s1, ReadAndroid(j)) == Finish(s1, FlagReset(j)) == Finish(s2, Blank(j)) ==
            Finish(s3, DropReset(j));
        FinishLive(DropCache(s3), j, true);
      } else {
        var s2 := SetAndroid(s1, j.msg.androidId, false);
        assert Finish(s1, ReadAndroid(j)) == Finish(s1, StoreAndroid(j)) == Finish(s2, PutLive(j, false));
        FinishLive(s2, j, false);
      }
    }
  }

  /** A whole handler keeps coherence. */
  lemma {:induction false} OnStateCoherent(s: Store, j: Job)
    requires Coherent(s) && ValidJob(j)
    ensures Coherent(OnState(s, j))
  {
    hide Describes, Writable, LivePatch, Preimage, IsHwPatch, WellFormed, ColumnsOf, Diff, Truthy, Blanked;
    if j.State? && !Resets(Ensured(s), j.msg) && HasCaps(j.msg) {
      var s1 := Prepared(s, j);
      if s1.cache != Some(HashOf(j.msg)) && !UpsertFails(s1, j.msg) {
        RowForDescribes(j.msg);
      }
    }
  }

  /* ---------- refinement of the handler without a cache ---------- */

  /** On a cache hit the stored row is the one the message would write. */
  lemma {:induction false} HitMeansStored(s: Store, m: StateMsg)
    requires Coherent(s) && s.device.Some? && m.caps.Some? && WellFormed(m.caps.value)
    requires s.cache == Some(HashOf(m))
    ensures Writable(m.caps.value) && s.caps == Some(RowFor(m))
  {
    hide WellFormed, Writable, ColumnsOf, Preimage, Same;
    var row := s.caps.value;
    var c :| WellFormed(c) && Writable(c) && row.columns == ColumnsOf(c) && row.hash == Preimage(c, row.agentVer);
    assert !NumberExtends(c, m.caps.value) by { WritableIsObject(c); }
    SamePreimage(c, row.agentVer, m.caps.value, m.agentVer);
    SameColumns(c, m.caps.value);
  }

  lemma {:induction false} WritableIsObject(c: Json)
    requires Writable(c)
    ensures c.Obj?
  {
  }

  /** On a cache hit the naive handler does the same as the cached one exactly when the record is plain. */
  lemma {:induction false} HitRefinesIffPlain(s: Store, m: StateMsg)
    requires Coherent(s) && s.device.Some? && m.caps.Some? && WellFormed(m.caps.value)
    requires s.cache == Some(HashOf(m))
    ensures NaiveCaps(s, m) == CachedCaps(s, m) <==> Plain(m.caps.value)
    ensures NaiveCaps(s, m).(log := s.log) == CachedCaps(s, m)
  {
    hide WellFormed, Writable, ColumnsOf, Preimage, ReadBack, Diff, Plain, Stored, Coherent;
    HitMeansStored(s, m);
    ReadBackIsPlain(m.caps.value);
    var d := Diff(FindCaps(s), m.caps.value);
    if d != map[] { assert |Ingest.Written(s, m).log| == |s.log| + 1; }
  }

  predicate PlainJob(j: Job) { j.State? && HasCaps(j.msg) && Writable(j.msg.caps.value) ==> Plain(j.msg.caps.value) }

  function OnAll(s: Store, js: seq<Job>): Store {
    if js == [] then s else OnState(OnAll(s, js[..|js| - 1]), js[|js| - 1])
  }

  function NaiveOnAll(s: Store, js: seq<Job>): Store {
    if js == [] then s else NaiveOnState(NaiveOnAll(s, js[..|js| - 1]), js[|js| - 1])
  }

  /** The stores without the cache. */
  function Visible(s: Store): Store { s.(cache := None) }

  lemma {:induction false} NaiveIgnoresCache(a: Store, b: Store, j: Job)
    requires Visible(a) == Visible(b)
    ensures Visible(NaiveOnState(a, j)) == Visible(NaiveOnState(b, j))
  {
    hide Truthy, NaiveCaps, WriteLive, BlankCaps;
    assert b == a.(cache := b.cache);
    if j.State? {
      var ea, eb := Ensured(a), Ensured(b);
      var ra, rb := SetAndroid(ea, j.msg.androidId, true), SetAndroid(eb, j.msg.androidId, true);
      BlankIgnoresCache(ra, rb);
      WriteLiveIgnoresCache(DropCache(BlankCaps(ra)), DropCache(BlankCaps(rb)), j);
      var pa := if j.msg.androidId != [] then SetAndroid(ea, j.msg.androidId, false) else ea;
      var pb := if j.msg.androidId != [] then SetAndroid(eb, j.msg.androidId, false) else eb;
      WriteLiveIgnoresCache(pa, pb, j);
      if HasCaps(j.msg) { NaiveCapsIgnoresCache(Prepared(a, j), Prepared(b, j), j.msg); }
    }
  }

  lemma {:induction false} BlankIgnoresCache(a: Store, b: Store)
    requires Visible(a) == Visible(b)
    ensures Visible(BlankCaps(a)) == Visible(BlankCaps(b))
  {
  }

  lemma {:induction false} WriteLiveIgnoresCache(a: Store, b: Store, j: Job)
    requires Visible(a) == Visible(b) && j.State?
    ensures Visible(WriteLive(a, j)) == Visible(WriteLive(b, j))
  {
    hide LivePatch;
  }

  lemma {:induction false} NaiveCapsIgnoresCache(a: Store, b: Store, m: StateMsg)
    requires Visible(a) == Visible(b) && m.caps.Some?
    ensures Visible(NaiveCaps(a, m)) == Visible(NaiveCaps(b, m))
  {
    hide Writable, Diff, ReadBack, RowFor;
    assert a.device == b.device && a.caps == b.caps && a.log == b.log && a.live == b.live;
  }

  lemma {:induction false} StepRefines(s: Store, j: Job)
    requires Coherent(s) && ValidJob(j) && PlainJob(j)
    ensures Visible(OnState(s, j)) == Visible(NaiveOnState(s, j))
  {
    hide Writable, Plain, Diff, LivePatch, IsHwPatch, WellFormed, RowFor, Describes, Preimage, ReadBack, Blanked,
        Truthy;
    if j.State? && !Resets(Ensured(s), j.msg) && HasCaps(j.msg) {
      var s1 := Prepared(s, j);
      assert s1.device.Some?;
      if s1.cache == Some(HashOf(j.msg)) {
        HitMeansStored(s1, j.msg);
        HitRefinesIffPlain(s1, j.msg);
      }
    }
  }

  /**
   * Over any messages whose records are plain, the cached handler leaves the same device row, capability row, log
   * and live hash as one that re-reads and upserts on every message.
   */
  lemma {:induction false} CachedRefinesNaive(s: Store, js: seq<Job>)
    requires Coherent(s) && forall i | 0 <= i < |js| :: ValidJob(js[i]) && PlainJob(js[i])
    ensures Coherent(OnAll(s, js))
    ensures Visible(OnAll(s, js)) == Visible(NaiveOnAll(s, js))
  {
    hide Coherent, ValidJob, PlainJob, OnState, NaiveOnState, Visible;
    if js != [] {
      var j, before := js[|js| - 1], js[..|js| - 1];
      CachedRefinesNaive(s, before);
      var a, b := OnAll(s, before), NaiveOnAll(s, before);
      OnStateCoherent(a, j);
      StepRefines(a, j);
      NaiveIgnoresCache(a, b, j);
    }
  }

  /** A record that is not plain, sent twice, is logged once more by the naive handler. */
  lemma {:induction false} NotPlainDiverges(s: Store, j: Job)
    requires ValidJob(j) && j.State? && HasCaps(j.msg) && Writable(j.msg.caps.value)
    requires !Resets(Ensured(s), j.msg) && !Plain(j.msg.caps.value)
    ensures |NaiveOnState(NaiveOnState(s, j), j).log| == |NaiveOnState(s, j).log| + 1
    ensures OnState(OnState(s, j), j).log == OnState(s, j).log
  {
    hide Writable, Plain, Diff, IsHwPatch, WellFormed, ReadBack, Truthy, Preimage, ColumnsOf, NaiveOnState, OnState,
        Resets;
    DoubleDelivery(s, j);
    NaiveWrites(s, j);
    var once := NaiveOnState(s, j);
    NaiveWrites(once, j);
    ReadBackIsPlain(j.msg.caps.value);
  }

  /** The row and the log after the naive handler has written a record. */
  lemma {:induction false} NaiveWrites(s: Store, j: Job)
    requires j.State? && HasCaps(j.msg) && Writable(j.msg.caps.value) && !Resets(Ensured(s), j.msg)
    ensures var t := NaiveOnState(s, j);
            && t.device.Some? && t.caps == Some(RowFor(j.msg)) && !Resets(Ensured(t), j.msg)
            && (s.device.Some? ==>
                  var d := Diff(FindCaps(s), j.msg.caps.value);
                  t.log == if d == map[] then s.log else s.log + [Stored(d)])
  {
    hide Writable, Diff, ReadBack, RowFor, Truthy, WriteLive;
    var base := if j.msg.androidId != [] then SetAndroid(Ensured(s), j.msg.androidId, false) else Ensured(s);
    WriteLiveKeeps(base, j);
  }

  /* ---------- double delivery ---------- */

  lemma {:induction false} LiveTwice(s: Store, j: Job)
    requires j.State?
    ensures WriteLive(WriteLive(s, j), j) == WriteLive(s, j)
  {
    hide LivePatch;
    assert WriteLive(WriteLive(s, j), j).live == WriteLive(s, j).live;
  }

  /**
   * Both subscriptions deliver a message: handling it twice equals handling it once, except for a reset message
   * that also carries a record, which the second delivery writes.
   */
  lemma {:induction false} DoubleDelivery(s: Store, j: Job)
    ensures OnState(OnState(s, j), j) == OnState(s, j) <==>
            !(j.State? && Resets(Ensured(s), j.msg) && HasCaps(j.msg) && Writable(j.msg.caps.value))
  {
    hide Writable, Diff, RowFor, ReadBack, HasCaps, WriteLive, Preimage, Blanked;
    if j.State? {
      var once := OnState(s, j);
      WriteLiveKeeps(Ensured(s), j);
      if Resets(Ensured(s), j.msg) {
        var base := DropCache(BlankCaps(SetAndroid(Ensured(s), j.msg.androidId, true)));
        LiveTwice(base, j);
        WriteLiveKeeps(base, j);
        assert Prepared(once, j) == once;
      } else {
        var base := if j.msg.androidId != [] then SetAndroid(Ensured(s), j.msg.androidId, false) else Ensured(s);
        LiveTwice(base, j);
        WriteLiveKeeps(base, j);
        WriteLiveKeeps(once, j);
        WriteLiveOnlyLive(base, once, j);
        assert Prepared(once, j) == once;
      }
    }
  }

  lemma {:induction false} WriteLiveKeeps(s: Store, j: Job)
    requires j.State?
    ensures WriteLive(s, j) == s.(live := WriteLive(s, j).live)
  {
  }

  /** The live part depends on the live part only. */
  lemma {:induction false} WriteLiveOnlyLive(a: Store, b: Store, j: Job)
    requires j.State? && b.live == WriteLive(a, j).live
    ensures WriteLive(b, j).live == b.live
  {
    LiveTwice(a, j);
  }

  /* ---------- where coherence breaks ---------- */

  /** A handler that throws right after one of three writes leaves a coherent store exactly in these cases. */
  lemma {:induction false} CrashWindows(s: Store, m: StateMsg)
    requires Coherent(s)
    ensures s.device.None? && s.caps.None? ==> (Coherent(InsertDevice(s)) <==> s.cache.None?)
    ensures s.device.Some? && s.cache.Some? ==>
              (Coherent(BlankCaps(s)) <==> Blanked(s.caps.value.columns) == s.caps.value.columns)
    ensures (&& s.device.Some? && m.caps.Some? && WellFormed(m.caps.value) && Writable(m.caps.value)
             && s.cache != Some(HashOf(m))) ==>
              (Coherent(s.(caps := Some(RowFor(m)))) <==> s.cache.None?)
  {
    hide WellFormed, Writable, ColumnsOf, Preimage, Blanked;
    if s.device.Some? && s.cache.Some? && Coherent(BlankCaps(s)) {
      DescribesOnce(s.caps.value, BlankCaps(s).caps.value, s.cache.value);
    }
  }

  /** A hash describes only one choice of columns. */
  lemma {:induction false} DescribesOnce(a: CapsRow, b: CapsRow, h: Text)
    requires Describes(a, h) && Describes(b, h)
    ensures a == b
  {
    hide WellFormed, Writable, ColumnsOf, Preimage, Same;
    var c :| WellFormed(c) && Writable(c) && a.columns == ColumnsOf(c) && h == Preimage(c, a.agentVer);
    var d :| WellFormed(d) && Writable(d) && b.columns == ColumnsOf(d) && h == Preimage(d, b.agentVer);
    WritableIsObject(c);
    SamePreimage(c, a.agentVer, d, b.agentVer);
    SameColumns(c, d);
  }

  /** The Headwind sync inserts a missing row without dropping the cache. */
  function SyncInsert(s: Store): Store { InsertDevice(s) }

  /**
   * A message handled inside a removal, then the sync: the row is back, the cache still holds its hash, and the
   * same message no longer writes the record.
   */
  lemma {:induction false} SyncBreaksCoherence(s: Store, j: Job)
    requires s.device.Some? && ValidJob(j) && j.State? && HasCaps(j.msg) && Writable(j.msg.caps.value)
    requires s.device.value.androidId == j.msg.androidId
    ensures var during := OnState(RemoveKeys(s), j);
            var back := SyncInsert(RemoveDevice(RemoveLog(during)));
            && !Coherent(back)
            && OnState(back, j).caps == None
            && OnState(back, j).device.Some?
  {
    hide Writable, Diff, RowFor, ReadBack, WriteLive, Preimage, Blanked, WellFormed, IsHwPatch, Truthy;
    WriteLiveKeeps(RemoveKeys(s), j);
    WriteLiveKeeps(SetAndroid(RemoveKeys(s), j.msg.androidId, false), j);
    var back := SyncInsert(RemoveDevice(RemoveLog(OnState(RemoveKeys(s), j))));
    WriteLiveKeeps(back, j);
    WriteLiveKeeps(SetAndroid(back, j.msg.androidId, false), j);
  }
}
