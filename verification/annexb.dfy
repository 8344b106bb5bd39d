/** The Annex B splitter (section B.1 of ITU-T H.264, 4-byte start codes) and the frames built from its NAL units. */
module AnnexB {
  import opened Options

  type Byte = b: int | 0 <= b < 256
  type Bytes = seq<Byte>

  /** The start code 00 00 00 01 stands at offset `i`. */
  predicate StartsAt(buf: Bytes, i: int) {
    0 <= i && i + 4 <= |buf| && buf[i] == 0 && buf[i + 1] == 0 && buf[i + 2] == 0 && buf[i + 3] == 1
  }

  /** `buf.indexOf(START, from)`: the first start code from `from` on. */
  method IndexOf(buf: Bytes, from: nat) returns (i: int)
    ensures i == -1 ==> forall j | from <= j :: !StartsAt(buf, j)
    ensures i != -1 ==> from <= i && StartsAt(buf, i) && forall j | from <= j < i :: !StartsAt(buf, j)
  {
    i := from;
    while i + 4 <= |buf|
      invariant from <= i && forall j | from <= j < i :: !StartsAt(buf, j)
    {
      if StartsAt(buf, i) { return; }
      i := i + 1;
    }
    i := -1;
  }

  function Flatten(pieces: seq<Bytes>): Bytes {
    if pieces == [] then [] else Flatten(pieces[..|pieces| - 1]) + pieces[|pieces| - 1]
  }

  /** A piece with one start code, at its beginning. */
  ghost predicate IsUnit(p: Bytes) { StartsAt(p, 0) && forall j | 0 < j :: !StartsAt(p, j) }

  ghost predicate AllUnits(pieces: seq<Bytes>) { forall k | 0 <= k < |pieces| :: IsUnit(pieces[k]) }

  /** The pieces are the buffer from its first start code, cut at every start code. */
  ghost predicate IsSplit(buf: Bytes, pieces: seq<Bytes>) {
    && AllUnits(pieces)
    && exists first | 0 <= first <= |buf| ::
         && Flatten(pieces) == buf[first..]
         && (forall j | 0 <= j < first :: !StartsAt(buf, j))
         && (pieces == [] ==> forall j | 0 <= j :: !StartsAt(buf, j))
  }

  method SplitNals(buf: Bytes) returns (nals: seq<Bytes>)
    ensures IsSplit(buf, nals)
  {
    nals := [];
    var i := IndexOf(buf, 0);
    if i == -1 {
      assert Flatten(nals) == buf[|buf|..];
      return;
    }
    var first := i;
    while i != -1
      invariant i == -1 || (first <= i && StartsAt(buf, i))
      invariant StartsAt(buf, first) && AllUnits(nals)
      invariant Flatten(nals) == if i == -1 then buf[first..] else buf[first..i]
      invariant i == -1 ==> nals != []
      decreases if i == -1 then -1 else |buf| - i
    {
      var next := IndexOf(buf, i + 4);
      var end := if next == -1 then |buf| else next;
      var piece := buf[i..end];
      PieceIsUnit(buf, i, end);
      assert (nals + [piece])[..|nals|] == nals;
      assert buf[first..i] + piece == buf[first..end];
      nals := nals + [piece];
      i := next;
    }
  }

  /** Start codes do not overlap, so none begins in the three bytes after one. */
  lemma {:induction false} NoOverlap(buf: Bytes, i: int, j: int)
    requires StartsAt(buf, i) && i < j < i + 4
    ensures !StartsAt(buf, j)
  {
  }

  lemma {:induction false} PieceIsUnit(buf: Bytes, i: int, end: int)
    requires StartsAt(buf, i) && i + 4 <= end <= |buf|
    requires forall j | i + 4 <= j < end :: !StartsAt(buf, j)
    ensures IsUnit(buf[i..end])
  {
    var p := buf[i..end];
    forall j | 0 < j ensures !StartsAt(p, j) {
      if i + j + 4 <= end {
        assert StartsAt(p, j) <==> StartsAt(buf, i + j);
        if j < 4 { NoOverlap(buf, i, i + j); }
      }
    }
  }

  /* ---------- the split is the only one ---------- */

  lemma {:induction false} FlattenHead(pieces: seq<Bytes>)
    requires pieces != []
    ensures Flatten(pieces) == pieces[0] + Flatten(pieces[1..])
  {
    var n := |pieces| - 1;
    if n > 0 {
      FlattenHead(pieces[..n]);
      assert pieces[..n][1..] == pieces[1..][..n - 1];
    }
  }

  /** A flattened unit list starts with a start code. */
  lemma {:induction false} FlattenStarts(pieces: seq<Bytes>)
    requires pieces != [] && AllUnits(pieces)
    ensures StartsAt(Flatten(pieces), 0)
  {
    FlattenHead(pieces);
    assert IsUnit(pieces[0]);
  }

  lemma {:induction false} TailUnits(pieces: seq<Bytes>)
    requires pieces != [] && AllUnits(pieces)
    ensures AllUnits(pieces[1..])
  {
    assert forall k | 0 <= k < |pieces[1..]| :: pieces[1..][k] == pieces[k + 1];
  }

  /** The first piece ends where the buffer ends or at the next start code; none begins inside it. */
  lemma {:induction false} FirstPiece(pieces: seq<Bytes>)
    requires pieces != [] && AllUnits(pieces)
    ensures var t, n := Flatten(pieces), |pieces[0]|;
            && 0 < n <= |t| && (n == |t| || StartsAt(t, n))
            && forall j | 0 < j < n :: !StartsAt(t, j)
  {
    hide Flatten;
    var t, n, tail := Flatten(pieces), |pieces[0]|, Flatten(pieces[1..]);
    FlattenHead(pieces);
    TailUnits(pieces);
    assert IsUnit(pieces[0]);
    if pieces[1..] == [] {
      EmptyFlatten();
    } else {
      FlattenStarts(pieces[1..]);
      assert StartsAt(t, n) by {
        assert t[n] == tail[0] && t[n + 1] == tail[1] && t[n + 2] == tail[2] && t[n + 3] == tail[3];
      }
    }
    forall j | 0 < j < n ensures !StartsAt(t, j) {
      if j + 4 <= n {
        assert StartsAt(t, j) <==> StartsAt(pieces[0], j);
      } else if StartsAt(t, j) && n < |t| {
        NoOverlap(t, j, n);
      }
    }
  }

  /** Two lists of units with the same bytes are the same list. */
  lemma {:induction false} UnitsUnique(a: seq<Bytes>, b: seq<Bytes>)
    requires AllUnits(a) && AllUnits(b) && Flatten(a) == Flatten(b)
    ensures a == b
    decreases |a|
  {
    if a == [] {
      if b != [] { FlattenStarts(b); }
    } else if b == [] {
      FlattenStarts(a);
    } else {
      FirstPiece(a);
      FirstPiece(b);
      assert |a[0]| == |b[0]|;
      TailUnits(a);
      TailUnits(b);
      FlattenHead(a);
      FlattenHead(b);
      var t := Flatten(a);
      assert a[0] == t[..|a[0]|] && b[0] == t[..|b[0]|];
      assert Flatten(a[1..]) == t[|a[0]|..] && Flatten(b[1..]) == t[|b[0]|..];
      UnitsUnique(a[1..], b[1..]);
      assert a == [a[0]] + a[1..] && b == [b[0]] + b[1..];
    }
  }

  /** A buffer has one split, and splitting what units were joined into gives the units back. */
  lemma {:induction false} SplitUnique(buf: Bytes, a: seq<Bytes>, b: seq<Bytes>)
    requires IsSplit(buf, a)
    ensures IsSplit(buf, b) ==> a == b
    ensures AllUnits(b) && buf == Flatten(b) ==> a == b
  {
    if IsSplit(buf, b) {
      SameBytes(buf, a, b);
      UnitsUnique(a, b);
    }
    if AllUnits(b) && buf == Flatten(b) {
      if b != [] { FlattenStarts(b); }
      assert buf == buf[0..];
      UnitsUnique(a, b);
    }
  }

  lemma {:induction false} SameBytes(buf: Bytes, a: seq<Bytes>, b: seq<Bytes>)
    requires IsSplit(buf, a) && IsSplit(buf, b)
    ensures Flatten(a) == Flatten(b)
  {
    hide IsSplit, Flatten, StartsAt;
    var x, y := SplitFirst(buf, a), SplitFirst(buf, b);
    EmptyFlatten();
  }

  /** Where a split begins: at the first start code, if there is one. */
  ghost function SplitFirst(buf: Bytes, a: seq<Bytes>): (x: nat)
    requires IsSplit(buf, a)
    ensures x <= |buf| && Flatten(a) == buf[x..]
    ensures forall j | 0 <= j < x :: !StartsAt(buf, j)
    ensures if a == [] then forall j | 0 <= j :: !StartsAt(buf, j) else StartsAt(buf, x)
  {
    var x :| 0 <= x <= |buf| && Flatten(a) == buf[x..] && (forall j | 0 <= j < x :: !StartsAt(buf, j))
             && (a == [] ==> forall j | 0 <= j :: !StartsAt(buf, j));
    assert a != [] ==> StartsAt(buf, x) by { if a != [] { FlattenStarts(a); } }
    x
  }

  /* ---------- frames ---------- */

  /** The NAL unit type of Table 7-1; a unit without a header byte counts as type 0. */
  function NalType(nal: Bytes): int { if |nal| > 4 then nal[4] % 32 else 0 }

  predicate IsSlice(nal: Bytes) { NalType(nal) == 1 || NalType(nal) == 5 }

  predicate IsConfig(nal: Bytes) { NalType(nal) == 7 || NalType(nal) == 8 }

  const CONFIG: int := 1
  const KEY: int := 2
  const DELTA: int := 3

  datatype Frame = Frame(kind: int, data: Bytes)

  function SliceFrame(nal: Bytes): Frame { Frame(if NalType(nal) == 5 then KEY else DELTA, nal) }

  /** A slice is sent whole, as a key frame if its unit type is 5 and as a delta frame if it is 1. */
  lemma {:induction false} FrameMeans(nal: Bytes)
    requires IsSlice(nal)
    ensures |nal| > 4 && SliceFrame(nal).data == nal
    ensures nal[4] % 32 == 5 ==> SliceFrame(nal).kind == 2
    ensures nal[4] % 32 == 1 ==> SliceFrame(nal).kind == 3
    ensures nal[4] % 32 == 1 || nal[4] % 32 == 5
  {
  }

  /** The frames of the type 1 and 5 units, in order. */
  function Slices(nals: seq<Bytes>): seq<Frame> {
    if nals == [] then []
    else
      var last := nals[|nals| - 1];
      Slices(nals[..|nals| - 1]) + if IsSlice(last) then [SliceFrame(last)] else []
  }

  /** The type 7 and 8 units, in order. */
  function Configs(nals: seq<Bytes>): seq<Bytes> {
    if nals == [] then []
    else
      var last := nals[|nals| - 1];
      Configs(nals[..|nals| - 1]) + if IsConfig(last) then [last] else []
  }

  /** The units before slice number `m`. */
  function UnitsBefore(nals: seq<Bytes>, m: nat): seq<Bytes>
    requires m < |Slices(nals)|
  {
    var init := nals[..|nals| - 1];
    if m < |Slices(init)| then UnitsBefore(init, m) else init
  }

  /** The units before the last slice. */
  function UnitsBeforeLast(nals: seq<Bytes>): seq<Bytes> {
    if Slices(nals) == [] then [] else UnitsBefore(nals, |Slices(nals)| - 1)
  }

  /** The slice frames among `fs`. */
  function SliceFrames(fs: seq<Frame>): seq<Frame> {
    if fs == [] then []
    else SliceFrames(fs[..|fs| - 1]) + if fs[|fs| - 1].kind != CONFIG then [fs[|fs| - 1]] else []
  }

  /** All bytes of the config frames among `fs`. */
  function ConfigBytes(fs: seq<Frame>): Bytes {
    if fs == [] then []
    else ConfigBytes(fs[..|fs| - 1]) + if fs[|fs| - 1].kind == CONFIG then fs[|fs| - 1].data else []
  }

  /** When slice `m` is emitted, exactly the config before the following slice has been emitted. */
  ghost predicate ConfigComesFirst(nals: seq<Bytes>, fs: seq<Frame>) {
    forall k | 0 <= k < |fs| && fs[k].kind != CONFIG ::
      var m := |SliceFrames(fs[..k])|;
      m < |Slices(nals)| &&
      ConfigBytes(fs[..k]) == Flatten(Configs(UnitsBefore(nals, if m + 1 < |Slices(nals)| then m + 1 else m)))
  }

  lemma {:induction false} PushFrame(fs: seq<Frame>, f: Frame)
    ensures SliceFrames(fs + [f]) == SliceFrames(fs) + if f.kind != CONFIG then [f] else []
    ensures ConfigBytes(fs + [f]) == ConfigBytes(fs) + if f.kind == CONFIG then f.data else []
  {
    assert (fs + [f])[..|fs|] == fs;
  }

  lemma {:induction false} PushUnit(nals: seq<Bytes>, n: Bytes)
    ensures Slices(nals + [n]) == Slices(nals) + if IsSlice(n) then [SliceFrame(n)] else []
    ensures Configs(nals + [n]) == Configs(nals) + if IsConfig(n) then [n] else []
    ensures forall m: nat | m < |Slices(nals)| :: UnitsBefore(nals + [n], m) == UnitsBefore(nals, m)
    ensures IsSlice(n) ==> UnitsBefore(nals + [n], |Slices(nals)|) == nals
    ensures IsSlice(n) ==> UnitsBeforeLast(nals + [n]) == nals
    ensures !IsSlice(n) ==> UnitsBeforeLast(nals + [n]) == UnitsBeforeLast(nals)
  {
    assert (nals + [n])[..|nals|] == nals;
  }

  lemma {:induction false} FlattenConcat(a: seq<Bytes>, b: seq<Bytes>)
    ensures Flatten(a + b) == Flatten(a) + Flatten(b)
  {
    if b == [] {
      assert a + b == a;
    } else {
      FlattenConcat(a, b[..|b| - 1]);
      assert (a + b)[..|a + b| - 1] == a + b[..|b| - 1];
    }
  }

  /** Config frames already emitted, config pending, and the slice held back, after the units `done`. */
  ghost predicate Building(done: seq<Bytes>, frames: seq<Frame>, config: seq<Bytes>, au: Option<Frame>) {
    && (au.Some? ==> au.value.kind != CONFIG)
    && SliceFrames(frames) + (if au.Some? then [au.value] else []) == Slices(done)
    && (au.None? ==> Slices(done) == [])
    && ConfigBytes(frames) == Flatten(Configs(UnitsBeforeLast(done)))
    && Configs(UnitsBeforeLast(done)) + config == Configs(done)
    && forall k | 0 <= k < |frames| && frames[k].kind != CONFIG ::
         var m := |SliceFrames(frames[..k])|;
         m + 1 < |Slices(done)| && ConfigBytes(frames[..k]) == Flatten(Configs(UnitsBefore(done, m + 1)))
  }

  lemma {:induction false} SkipUnit(done: seq<Bytes>, n: Bytes, frames: seq<Frame>, config: seq<Bytes>,
      au: Option<Frame>)
    requires Building(done, frames, config, au) && !IsSlice(n)
    ensures Building(done + [n], frames, if IsConfig(n) then config + [n] else config, au)
  {
    hide Slices, Configs, UnitsBefore, UnitsBeforeLast, SliceFrames, ConfigBytes, Flatten, IsSlice, IsConfig;
    PushUnit(done, n);
    assert Configs(UnitsBeforeLast(done)) + (config + [n]) == Configs(UnitsBeforeLast(done)) + config + [n];
  }

  /** Flushing pending config, then the slice held back. */
  function Flushed(frames: seq<Frame>, config: seq<Bytes>, au: Option<Frame>): seq<Frame> {
    var f1 := if config != [] then frames + [Frame(CONFIG, Flatten(config))] else frames;
    if au.Some? then f1 + [au.value] else f1
  }

  lemma {:induction false} TakeSlice(done: seq<Bytes>, n: Bytes, frames: seq<Frame>, config: seq<Bytes>,
      au: Option<Frame>)
    requires Building(done, frames, config, au) && IsSlice(n)
    ensures Building(done + [n], Flushed(frames, config, au), [], Some(SliceFrame(n)))
  {
    hide Slices, Configs, UnitsBefore, UnitsBeforeLast, SliceFrames, ConfigBytes, Flatten, IsSlice, SliceFrame;
    PushUnit(done, n);
    SliceKind(n);
    var f1 := if config != [] then frames + [Frame(CONFIG, Flatten(config))] else frames;
    if config != [] { PushFrame(frames, Frame(CONFIG, Flatten(config))); }
    FlattenConcat(Configs(UnitsBeforeLast(done)), config);
    EmptyFlatten();
    assert ConfigBytes(f1) == Flatten(Configs(done)) by {
      if config == [] { assert Configs(UnitsBeforeLast(done)) + config == Configs(UnitsBeforeLast(done)); }
    }
    if au.Some? { PushFrame(f1, au.value); }
    var f2 := Flushed(frames, config, au);
    assert Configs(done) + [] == Configs(done);
    forall k | 0 <= k < |f2| && f2[k].kind != CONFIG
      ensures var m := |SliceFrames(f2[..k])|;
              && m + 1 < |Slices(done + [n])|
              && ConfigBytes(f2[..k]) == Flatten(Configs(UnitsBefore(done + [n], m + 1)))
    {
      if k < |frames| {
        assert f2[..k] == frames[..k];
      } else {
        assert k == |f1| && f2[..k] == f1;
      }
    }
  }

  lemma {:induction false} SliceKind(n: Bytes)
    ensures SliceFrame(n).kind != CONFIG
    ensures IsSlice(n) ==> !IsConfig(n)
  {
  }

  lemma {:induction false} EmptyFlatten()
    ensures Flatten([]) == []
  {
  }

  lemma {:induction false} Finish(nals: seq<Bytes>, frames: seq<Frame>, config: seq<Bytes>, au: Option<Frame>)
    requires Building(nals, frames, config, au)
    ensures var fs := if au.Some? then frames + [au.value] else frames;
            && SliceFrames(fs) == Slices(nals)
            && ConfigBytes(fs) == Flatten(Configs(UnitsBeforeLast(nals)))
            && ConfigComesFirst(nals, fs)
  {
    hide Slices, Configs, UnitsBefore, SliceFrames, ConfigBytes, Flatten;
    var fs := if au.Some? then frames + [au.value] else frames;
    if au.Some? { PushFrame(frames, au.value); }
    forall k | 0 <= k < |fs| && fs[k].kind != CONFIG
      ensures var m := |SliceFrames(fs[..k])|;
              m < |Slices(nals)| &&
              ConfigBytes(fs[..k]) == Flatten(Configs(UnitsBefore(nals, if m + 1 < |Slices(nals)| then m + 1 else m)))
    {
      if k < |frames| {
        assert fs[..k] == frames[..k];
      } else {
        assert fs[..k] == frames;
      }
    }
  }

  /**
   * Every type 1 or 5 unit is emitted once, unchanged and in order. All config before the last slice is emitted;
   * each slice comes after all config that precedes it, indeed after all that precedes the next slice.
   */
  method BuildFrames(buf: Bytes) returns (frames: seq<Frame>)
    ensures forall nals | IsSplit(buf, nals) ::
              && SliceFrames(frames) == Slices(nals)
              && ConfigBytes(frames) == Flatten(Configs(UnitsBeforeLast(nals)))
              && ConfigComesFirst(nals, frames)
  {
    hide IsSplit, Flatten, ConfigComesFirst, Building, Slices, Configs, UnitsBeforeLast, SliceFrames, ConfigBytes;
    var units := SplitNals(buf);
    frames := [];
    var config: seq<Bytes> := [];
    var au: Option<Frame> := None;
    NothingBuilt();
    for i := 0 to |units|
      invariant Building(units[..i], frames, config, au)
    {
      var nal := units[i];
      assert units[..i + 1] == units[..i] + [nal];
      var t := NalType(nal);
      if t != 1 && t != 5 {
        SkipUnit(units[..i], nal, frames, config, au);
        if t == 7 || t == 8 { config := config + [nal]; }
      } else {
        TakeSlice(units[..i], nal, frames, config, au);
        if config != [] {
          frames := frames + [Frame(CONFIG, Flatten(config))];
          config := [];
        }
        if au.Some? { frames := frames + [au.value]; }
        au := Some(Frame(if t == 5 then KEY else DELTA, nal));
      }
    }
    assert units[..|units|] == units;
    Finish(units, frames, config, au);
    if au.Some? { frames := frames + [au.value]; }
    forall nals | IsSplit(buf, nals) ensures nals == units { SplitUnique(buf, nals, units); }
  }

  lemma {:induction false} NothingBuilt()
    ensures Building([], [], [], None)
  {
  }

  /* ---------- the frame header ---------- */

  function Pow256(n: nat): nat { if n == 0 then 1 else 256 * Pow256(n - 1) }

  /** Big-endian reading. */
  function ReadBE(s: Bytes): nat { if s == [] then 0 else ReadBE(s[..|s| - 1]) * 256 + s[|s| - 1] }

  lemma {:induction false} ReadBEFront(b: Byte, s: Bytes)
    ensures ReadBE([b] + s) == b * Pow256(|s|) + ReadBE(s)
  {
    if s == [] {
      assert [b] + s == [b] && [b][..0] == [];
      assert ReadBE([b]) == ReadBE([]) * 256 + b;
    } else {
      var t := s[..|s| - 1];
      ReadBEFront(b, t);
      assert ([b] + s)[..|s|] == [b] + t;
      assert (b * Pow256(|t|) + ReadBE(t)) * 256 == b * (256 * Pow256(|t|)) + ReadBE(t) * 256;
    }
  }

  const TWO_64: nat := 0x1_0000_0000_0000_0000

  /** The viewer's read of a frame: its kind and its time stamp. */
  function ReadHeader(frame: Bytes): (int, nat)
    requires |frame| >= 9
  {
    (frame[0], ReadBE(frame[1..9]))
  }

  /** `None` is the range error of the 64-bit write. */
  method Pack(kind: int, pts: int, payload: Bytes) returns (frame: Option<Bytes>)
    ensures frame.Some? <==> 0 <= pts < TWO_64
    ensures frame.Some? ==>
              && |frame.value| == 9 + |payload| && frame.value[9..] == payload
              && ReadHeader(frame.value) == (kind % 256, pts)
  {
    if pts < 0 || pts >= TWO_64 { return None; }
    var h := new Byte[9](_ => 0);
    h[0] := kind % 256;
    var rest, k := pts, 8;
    while k > 0
      invariant 0 <= k <= 8 && h[0] == kind % 256
      invariant rest >= 0 && pts == rest * Pow256(8 - k) + ReadBE(h[k + 1..9])
      invariant rest * Pow256(8 - k) <= pts
    {
      ghost var low := h[k + 1..9];
      h[k] := rest % 256;
      assert h[k + 1..9] == low;
      assert h[k..9] == [h[k]] + low;
      ReadBEFront(h[k], low);
      ShiftOut(rest, Pow256(8 - k));
      rest := rest / 256;
      k := k - 1;
    }
    AllOut(rest, pts);
    assert (h[..] + payload)[1..9] == h[1..9];
    frame := Some(h[..] + payload);
  }

  lemma {:induction false} ShiftOut(v: nat, p: nat)
    ensures v * p == v / 256 * (256 * p) + v % 256 * p
  {
    assert v == v / 256 * 256 + v % 256;
    assert (v / 256 * 256 + v % 256) * p == v / 256 * 256 * p + v % 256 * p;
    assert v / 256 * 256 * p == v / 256 * (256 * p);
  }

  lemma {:induction false} AllOut(rest: nat, pts: nat)
    requires pts < TWO_64 && rest * Pow256(8) <= pts
    ensures rest == 0
  {
    assert Pow256(2) == 0x1_0000;
    assert Pow256(4) == 0x1_0000_0000;
    assert Pow256(6) == 0x1_0000_0000_0000;
    assert Pow256(8) == TWO_64;
  }
}
