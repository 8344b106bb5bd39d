/** The live hash `device:<id>`: the patches a state message applies to it and how it is read back. */
module LiveHash {
  import opened Options
  import opened Texts
  import opened JsonText
  import opened Capabilities
  import opened Messages

  type Hash = map<Text, Text>

  const ZERO: Text := [48]
  const ONE: Text := [49]
  const MINUS_ONE: Text := [45, 49]
  const TS: Text := Ascii("ts")
  const SCREEN_ON: Text := Ascii("screenOn")
  const CHARGING: Text := Ascii("charging")
  const BATTERY_PCT: Text := Ascii("batteryPct")
  const NET: Text := Ascii("net")
  const RSSI: Text := Ascii("rssi")
  const ONLINE: Text := Ascii("online")
  const OBJECT: Text := Ascii("[object Object]")
  const TRUE: Text := TRUE_WORD
  const DISPLAY: Text := Ascii("display")
  const FG_PKG: Text := Ascii("fgPkg")
  const PREFIX: Text := Ascii("hw_")

  const VOLATILE_NUM: seq<Text> := [
    Ascii("thermal"), Ascii("battTempC"), Ascii("memAvailMb"), Ascii("diskFreeMb"), Ascii("cpuPct"),
    Ascii("gpuPct"), DISPLAY, Ascii("touchDevs"), Ascii("mainLagMs"), Ascii("uiIdleMs")]
  const HW_NAMES: seq<Text> := VOLATILE_NUM + [FG_PKG]
  const UNKNOWN_IS_MINUS_ONE: set<Text> := {Ascii("thermal"), Ascii("diskFreeMb"), Ascii("touchDevs"),
      Ascii("uiIdleMs")}
  const MAX_STR: nat := 128

  /* ---------- clean ---------- */

  function WithoutNul(s: Text): Text {
    if s == [] then [] else (if s[0] == 0 then [] else [s[0]]) + WithoutNul(s[1..])
  }

  function Clean(s: Text): Text {
    var t := WithoutNul(s);
    if |t| <= MAX_STR then t else t[..MAX_STR]
  }

  lemma {:induction false} WithoutNulFixed(s: Text)
    ensures 0 !in WithoutNul(s)
    ensures 0 !in s ==> WithoutNul(s) == s
  {
    if s != [] {
      WithoutNulFixed(s[1..]);
      assert s == [s[0]] + s[1..];
    }
  }

  /** A cleaned text is short, free of NUL and stable under cleaning. */
  lemma {:induction false} CleanStable(s: Text)
    ensures |Clean(s)| <= MAX_STR && 0 !in Clean(s) && Clean(Clean(s)) == Clean(s)
  {
    WithoutNulFixed(s);
    WithoutNulFixed(Clean(s));
  }

  /** Dropping NULs works piece by piece, so every other unit stays, in its place. */
  lemma {:induction false} WithoutNulJoins(a: Text, b: Text)
    ensures WithoutNul(a + b) == WithoutNul(a) + WithoutNul(b)
    ensures forall u: Unit :: WithoutNul([u]) == if u == 0 then [] else [u]
  {
    if a == [] {
      assert a + b == b;
    } else {
      assert (a + b)[1..] == a[1..] + b;
      WithoutNulJoins(a[1..], b);
    }
  }

  /** A cleaned text is the text without its NULs, or the first 128 units of that. */
  lemma {:induction false} CleanMeans(s: Text)
    ensures Clean(s) <= WithoutNul(s) && (|Clean(s)| < 128 ==> Clean(s) == WithoutNul(s))
    ensures 0 !in s && |s| <= 128 ==> Clean(s) == s
  {
    WithoutNulFixed(s);
  }

  /* ---------- liveHashPatch ---------- */

  function Property(v: Option<Json>, k: Text): Option<Json> { if v.Some? then Lookup(v.value, k) else None }

  /** `String(v)`: arrays are joined with commas, null elements left empty, and objects have one text. */
  function StringOf(v: Json): Text
    decreases v, 1
  {
    match v
    case Null => NULL_WORD
    case Bool(b) => if b then TRUE_WORD else FALSE_WORD
    case Num(t) => t
    case Str(s) => s
    case Arr(items) => Joined(items)
    case Obj(_) => OBJECT
  }

  function Joined(items: seq<Json>): Text
    decreases items, 0
  {
    if items == [] then []
    else (if items[0].Null? then [] else StringOf(items[0])) +
         (if |items| == 1 then [] else [COMMA] + Joined(items[1..]))
  }

  /** `x ?? fallback`, as text. */
  function TextOr(x: Option<Json>, fallback: Text): Text {
    if x.None? || x.value.Null? then fallback else StringOf(x.value)
  }

  /** Arrays join their elements with commas, in order; null elements are empty, objects all read alike. */
  lemma {:induction false} StringOfArray(a: seq<Json>, b: seq<Json>)
    requires a != [] && b != []
    ensures StringOf(Arr(a + b)) == StringOf(Arr(a)) + [COMMA] + StringOf(Arr(b))
  {
    hide StringOf, Joined;
    JoinedUnfolds(a);
    JoinedUnfolds(a + b);
    ArrayJoins(a);
    ArrayJoins(b);
    ArrayJoins(a + b);
    if |a| == 1 {
      assert (a + b)[1..] == b;
    } else {
      assert (a + b)[1..] == a[1..] + b;
      StringOfArray(a[1..], b);
      ArrayJoins(a[1..]);
      ArrayJoins(a[1..] + b);
    }
  }

  lemma {:induction false} ArrayJoins(a: seq<Json>)
    ensures StringOf(Arr(a)) == Joined(a)
  {
  }

  lemma {:induction false} JoinedUnfolds(a: seq<Json>)
    ensures a == [] ==> Joined(a) == []
    ensures a != [] ==> var first := if a[0].Null? then [] else StringOf(a[0]);
                        Joined(a) == if |a| == 1 then first else first + [COMMA] + Joined(a[1..])
  {
  }

  /** An array of one element reads as that element, and any object as the same text. */
  lemma {:induction false} StringOfOne(v: Json)
    ensures StringOf(Arr([v])) == if v.Null? then [] else StringOf(v)
    ensures StringOf(Arr([])) == []
    ensures v.Obj? ==> StringOf(v) == Ascii("[object Object]")
    ensures v.Num? ==> StringOf(v) == v.text
    ensures v.Str? ==> StringOf(v) == v.s
    ensures v.Bool? ==> StringOf(v) == Ascii(if v.b then "true" else "false")
  {
    assert TRUE_WORD == Ascii("true") && FALSE_WORD == Ascii("false");
    ArrayJoins([v]);
    JoinedUnfolds([v]);
  }

  function Flag(x: Option<Json>): Text { if x.Some? && Truthy(x.value) then ONE else ZERO }

  function LivePatch(msg: StateMsg): Hash {
    var v := msg.volatile;
    map[TS := msg.ts,
        SCREEN_ON := Flag(Property(v, SCREEN_ON)),
        CHARGING := Flag(Property(v, CHARGING)),
        BATTERY_PCT := TextOr(Property(v, BATTERY_PCT), ZERO),
        NET := TextOr(Property(v, NET), []),
        RSSI := TextOr(Property(v, RSSI), ZERO)] +
    match msg.online
    case Some(Bool(b)) => map[ONLINE := if b then ONE else ZERO]
    case _ => map[]
  }

  method LiveHashPatch(msg: StateMsg) returns (patch: Hash)
    ensures patch == LivePatch(msg)
  {
    var v := msg.volatile;
    patch := map[TS := msg.ts, SCREEN_ON := Flag(Property(v, SCREEN_ON)), CHARGING := Flag(Property(v, CHARGING)),
                 BATTERY_PCT := TextOr(Property(v, BATTERY_PCT), ZERO), NET := TextOr(Property(v, NET), []),
                 RSSI := TextOr(Property(v, RSSI), ZERO)];
    if msg.online.Some? && msg.online.value.Bool? {
      patch := patch[ONLINE := if msg.online.value.b then ONE else ZERO];
    }
  }

  /* ---------- hwLivePatch ---------- */

  /** The message carries at least one hardware metric, whatever its value. */
  predicate HasHw(v: Option<Json>) { exists i | 0 <= i < |HW_NAMES| :: Property(v, HW_NAMES[i]).Some? }

  /** Not a sentinel for "could not be read". */
  predicate Known(k: Text, number: Text) {
    && !(number == MINUS_ONE && k in UNKNOWN_IS_MINUS_ONE)
    && !(k == DISPLAY && number == ZERO)
  }

  /** What is written for metric `k`; `None` means the field is deleted. */
  function Written(v: Option<Json>, k: Text): Option<Text> {
    match Property(v, k)
    case Some(Num(t)) => if k != FG_PKG && Known(k, t) then Some(t) else None
    case Some(Str(s)) => if k == FG_PKG && s != [] then Some(Clean(s)) else None
    case _ => None
  }

  datatype HwPatch = HwPatch(set': Hash, del: seq<Text>)

  /** The patch writes what can be written, and deletes every other hardware field. */
  ghost predicate IsHwPatch(v: Option<Json>, p: HwPatch) {
    if !HasHw(v) then p == HwPatch(map[], [])
    else
      && (forall f :: f in p.set' ==> IsHwField(f))
      && (forall f :: f in p.del <==> IsHwField(f) && f !in p.set')
      && (forall i | 0 <= i < |HW_NAMES| ::
            match Written(v, HW_NAMES[i])
            case None => PREFIX + HW_NAMES[i] !in p.set'
            case Some(t) => PREFIX + HW_NAMES[i] in p.set' && p.set'[PREFIX + HW_NAMES[i]] == t)
  }

  ghost predicate IsHwField(f: Text) { exists i | 0 <= i < |HW_NAMES| :: f == PREFIX + HW_NAMES[i] }

  lemma {:induction false} PrefixInjective(a: Text, b: Text)
    ensures PREFIX + a == PREFIX + b <==> a == b
  {
    assert (PREFIX + a)[3..] == a && (PREFIX + b)[3..] == b;
  }

  /** The metric names are pairwise different. */
  lemma {:induction false} NamesDistinct(i: nat, j: nat)
    requires i < |HW_NAMES| && j < |HW_NAMES|
    ensures HW_NAMES[i] == HW_NAMES[j] <==> i == j
  {
    assert forall n | 0 <= n < 10 :: HW_NAMES[n] == VOLATILE_NUM[n];
    assert HW_NAMES[10] == FG_PKG;
    assert |HW_NAMES[0]| == 7 && |HW_NAMES[1]| == 9 && |HW_NAMES[2]| == 10 && |HW_NAMES[3]| == 10 && |HW_NAMES[4]| == 6
        && |HW_NAMES[5]| == 6 && |HW_NAMES[6]| == 7 && |HW_NAMES[7]| == 9 && |HW_NAMES[8]| == 9 && |HW_NAMES[9]| == 8
        && |HW_NAMES[10]| == 5;
    assert HW_NAMES[0][0] != HW_NAMES[6][0];
    assert HW_NAMES[1][0] != HW_NAMES[7][0] && HW_NAMES[7][0] != HW_NAMES[8][0] && HW_NAMES[1][0] != HW_NAMES[8][0];
    assert HW_NAMES[2][0] != HW_NAMES[3][0] && HW_NAMES[4][0] != HW_NAMES[5][0];
  }

  method HwLivePatch(v: Option<Json>) returns (p: HwPatch)
    ensures IsHwPatch(v, p)
  {
    hide HasHw, Written;
    if !HasHw(v) { return HwPatch(map[], []); }
    var set' := SetFields(v);
    var del: seq<Text> := [];
    for i := 0 to |HW_NAMES|
      invariant forall f :: f in del <==> f !in set' && exists j | 0 <= j < i :: f == PREFIX + HW_NAMES[j]
    {
      if PREFIX + HW_NAMES[i] !in set' { del := del + [PREFIX + HW_NAMES[i]]; }
    }
    p := HwPatch(set', del);
  }

  /** The loop that fills `set`. */
  method SetFields(v: Option<Json>) returns (set': Hash)
    ensures forall f :: f in set' ==> IsHwField(f)
    ensures forall i | 0 <= i < |HW_NAMES| ::
              match Written(v, HW_NAMES[i])
              case None => PREFIX + HW_NAMES[i] !in set'
              case Some(t) => PREFIX + HW_NAMES[i] in set' && set'[PREFIX + HW_NAMES[i]] == t
  {
    hide Written, Property;
    set' := map[];
    for i := 0 to |VOLATILE_NUM|
      invariant forall f :: f in set' ==> exists j | 0 <= j < i :: f == PREFIX + HW_NAMES[j]
      invariant forall j | 0 <= j < i ::
                  match Written(v, HW_NAMES[j])
                  case None => PREFIX + HW_NAMES[j] !in set'
                  case Some(t) => PREFIX + HW_NAMES[j] in set' && set'[PREFIX + HW_NAMES[j]] == t
    {
      var k := VOLATILE_NUM[i];
      assert k == HW_NAMES[i];
      DistinctFrom(i);
      DistinctFrom(10);
      NumberWritten(v, k);
      var x := Property(v, k);
      if x.Some? && x.value.Num? && !(x.value.text == MINUS_ONE && k in UNKNOWN_IS_MINUS_ONE)
         && !(k == DISPLAY && x.value.text == ZERO) {
        set' := set'[PREFIX + k := x.value.text];
      }
    }
    DistinctFrom(10);
    PackageWritten(v);
    var pkg := Property(v, FG_PKG);
    assert FG_PKG == HW_NAMES[10];
    if pkg.Some? && pkg.value.Str? && pkg.value.s != [] {
      set' := set'[PREFIX + FG_PKG := Clean(pkg.value.s)];
    }
  }

  lemma {:induction false} NumberWritten(v: Option<Json>, k: Text)
    requires k != FG_PKG
    ensures var x := Property(v, k);
            Written(v, k) ==
              if x.Some? && x.value.Num? && !(x.value.text == MINUS_ONE && k in UNKNOWN_IS_MINUS_ONE)
                 && !(k == DISPLAY && x.value.text == ZERO)
              then Some(x.value.text) else None
  {
    hide Property;
  }

  lemma {:induction false} PackageWritten(v: Option<Json>)
    ensures var x := Property(v, FG_PKG);
            Written(v, FG_PKG) == if x.Some? && x.value.Str? && x.value.s != [] then Some(Clean(x.value.s)) else None
  {
    hide Property;
  }

  lemma {:induction false} DistinctFrom(i: nat)
    requires i < |HW_NAMES|
    ensures forall j | 0 <= j < |HW_NAMES| && j != i ::
        HW_NAMES[j] != HW_NAMES[i] && PREFIX + HW_NAMES[j] != PREFIX + HW_NAMES[i]
  {
    forall j | 0 <= j < |HW_NAMES| && j != i
      ensures HW_NAMES[j] != HW_NAMES[i] && PREFIX + HW_NAMES[j] != PREFIX + HW_NAMES[i]
    {
      NamesDistinct(i, j);
      PrefixInjective(HW_NAMES[i], HW_NAMES[j]);
    }
  }

  /* ---------- hwFromHash ---------- */

  /**
   * Metric `k` as it is read from the hash. `number` is `Number`: it gives the number that a text denotes, as the text
   * it prints as, or nothing if that is not finite.
   */
  function ReadMetric(h: Hash, k: Text, number: Text -> Option<Text>): Option<Json> {
    if PREFIX + k !in h || h[PREFIX + k] == [] then None
    else
      var raw := h[PREFIX + k];
      if k == FG_PKG then Some(Str(raw))
      else
        match number(raw)
        case Some(n) => Some(Num(n))
        case None => None
  }

  /** `Number` gives back the numbers of a message from the texts they print as. */
  ghost predicate Inverts(number: Text -> Option<Text>, v: Option<Json>) {
    forall k | k in HW_NAMES ::
      match Property(v, k)
      case Some(Num(t)) => t != [] && number(t) == Some(t)
      case _ => true
  }

  /** The metrics a hash holds. */
  function Metrics(h: Hash, number: Text -> Option<Text>): (m: map<Text, Json>)
    ensures forall k :: k in m <==> k in HW_NAMES && ReadMetric(h, k, number).Some?
    ensures forall k | k in m :: ReadMetric(h, k, number) == Some(m[k])
  {
    map k | k in HW_NAMES && ReadMetric(h, k, number).Some? :: ReadMetric(h, k, number).value
  }

  method HwFromHash(h: Hash, number: Text -> Option<Text>) returns (r: Option<map<Text, Json>>)
    ensures r == if Metrics(h, number) == map[] then None else Some(Metrics(h, number))
  {
    hide Metrics, ReadMetric;
    var out: map<Text, Json> := map[];
    for i := 0 to |VOLATILE_NUM|
      invariant forall k :: k in out <==> k in VOLATILE_NUM[..i] && ReadMetric(h, k, number).Some?
      invariant forall k | k in out :: ReadMetric(h, k, number) == Some(out[k])
    {
      var k := VOLATILE_NUM[i];
      NumberRead(h, i, number);
      if PREFIX + k in h && h[PREFIX + k] != [] {
        var n := number(h[PREFIX + k]);
        if n.Some? { out := out[k := Num(n.value)]; }
      }
      assert VOLATILE_NUM[..i + 1] == VOLATILE_NUM[..i] + [k];
    }
    assert VOLATILE_NUM[..|VOLATILE_NUM|] == VOLATILE_NUM;
    PackageRead(h, number);
    if PREFIX + FG_PKG in h && h[PREFIX + FG_PKG] != [] {
      out := out[FG_PKG := Str(h[PREFIX + FG_PKG])];
    }
    assert out == Metrics(h, number);
    r := if out == map[] then None else Some(out);
  }

  lemma {:induction false} NumberRead(h: Hash, i: nat, number: Text -> Option<Text>)
    requires i < |VOLATILE_NUM|
    ensures var k := VOLATILE_NUM[i];
            ReadMetric(h, k, number) ==
              if PREFIX + k in h && h[PREFIX + k] != [] && number(h[PREFIX + k]).Some?
              then Some(Num(number(h[PREFIX + k]).value)) else None
  {
    NamesDistinct(i, 10);
    assert HW_NAMES[i] == VOLATILE_NUM[i] && HW_NAMES[10] == FG_PKG;
  }

  lemma {:induction false} PackageRead(h: Hash, number: Text -> Option<Text>)
    ensures ReadMetric(h, FG_PKG, number) ==
              if PREFIX + FG_PKG in h && h[PREFIX + FG_PKG] != [] then Some(Str(h[PREFIX + FG_PKG])) else None
  {
  }

  /* ---------- what a message means ---------- */

  /** The metrics of a message with sentinels and unusable values left out. */
  function Sanitised(v: Option<Json>): (m: map<Text, Json>)
    ensures forall k :: k in m <==> k in HW_NAMES && Meaning(v, k).Some?
    ensures forall k | k in m :: Meaning(v, k) == Some(m[k])
  {
    map k | k in HW_NAMES && Meaning(v, k).Some? :: Meaning(v, k).value
  }

  /**
   * The metrics that survive: numbers as sent, but not the -1 with which four of them say "unknown", nor a display
   * state of 0.
   */
  lemma {:induction false} SanitisedMeans(v: Option<Json>, k: Text)
    requires k in HW_NAMES && k != FG_PKG
    ensures k in Sanitised(v) <==>
              && Property(v, k).Some? && Property(v, k).value.Num?
              && !(Property(v, k).value.text == Ascii("-1")
                   && k in {Ascii("thermal"), Ascii("diskFreeMb"), Ascii("touchDevs"), Ascii("uiIdleMs")})
              && !(k == Ascii("display") && Property(v, k).value.text == Ascii("0"))
    ensures k in Sanitised(v) ==> Some(Sanitised(v)[k]) == Property(v, k)
  {
    hide Property, Clean;
    assert MINUS_ONE == Ascii("-1") && ZERO == Ascii("0");
  }

  /** The foreground package survives, cleaned, if something is left of it. */
  lemma {:induction false} PackageMeans(v: Option<Json>)
    ensures var p := Property(v, Ascii("fgPkg"));
            && (Ascii("fgPkg") in Sanitised(v) <==> p.Some? && p.value.Str? && Clean(p.value.s) != [])
            && (Ascii("fgPkg") in Sanitised(v) ==> Sanitised(v)[Ascii("fgPkg")] == Str(Clean(p.value.s)))
  {
    hide Property, Clean;
    assert HW_NAMES[10] == FG_PKG;
  }

  function Meaning(v: Option<Json>, k: Text): Option<Json> {
    match Property(v, k)
    case Some(Num(t)) => if k != FG_PKG && Known(k, t) then Some(Num(t)) else None
    case Some(Str(s)) => if k == FG_PKG && Clean(s) != [] then Some(Str(Clean(s))) else None
    case _ => None
  }

  /** `writeLive`: HSET of the base patch, HSET of the metrics, HDEL of the rest. */
  function Patched(h: Hash, msg: StateMsg, p: HwPatch): Hash {
    var h' := h + LivePatch(msg) + p.set';
    map f | f in h' && f !in p.del :: h'[f]
  }

  lemma {:induction false} BaseFieldsAreNotHw(msg: StateMsg, f: Text)
    requires IsHwField(f)
    ensures f !in LivePatch(msg)
  {
    assert f[0] == 104 && f[1] == 119;
    assert TS[0] != 104 && SCREEN_ON[0] != 104 && CHARGING[0] != 104 && BATTERY_PCT[0] != 104 && NET[0] != 104
        && RSSI[0] != 104 && ONLINE[0] != 104;
  }

  lemma {:induction false} PatchedMetric(h: Hash, msg: StateMsg, p: HwPatch, number: Text -> Option<Text>, k: Text)
    requires IsHwPatch(msg.volatile, p) && Inverts(number, msg.volatile) && k in HW_NAMES
    ensures ReadMetric(Patched(h, msg, p), k, number) ==
            if HasHw(msg.volatile) then Meaning(msg.volatile, k) else ReadMetric(h, k, number)
  {
    hide Written, Meaning, HasHw, LivePatch;
    var i :| 0 <= i < |HW_NAMES| && HW_NAMES[i] == k;
    var f := PREFIX + k;
    assert IsHwField(f);
    BaseFieldsAreNotHw(msg, f);
    if HasHw(msg.volatile) {
      WrittenReads(msg.volatile, k, number);
    }
  }

  /** One message replaces all metrics by its own, or leaves them alone when it carries none. */
  lemma {:induction false} PatchedMetrics(h: Hash, msg: StateMsg, p: HwPatch, number: Text -> Option<Text>)
    requires IsHwPatch(msg.volatile, p) && Inverts(number, msg.volatile)
    ensures Metrics(Patched(h, msg, p), number) ==
            if HasHw(msg.volatile) then Sanitised(msg.volatile) else Metrics(h, number)
  {
    hide Written, Meaning, HasHw, LivePatch, Patched, ReadMetric;
    var h' := Patched(h, msg, p);
    forall k | k in HW_NAMES
      ensures ReadMetric(h', k, number) ==
              if HasHw(msg.volatile) then Meaning(msg.volatile, k) else ReadMetric(h, k, number)
    {
      PatchedMetric(h, msg, p, number, k);
    }
    assert HasHw(msg.volatile) ==> Metrics(h', number) == Sanitised(msg.volatile);
    assert !HasHw(msg.volatile) ==> Metrics(h', number) == Metrics(h, number);
  }

  /** What is written for a metric reads back as its meaning. */
  lemma {:induction false} WrittenReads(v: Option<Json>, k: Text, number: Text -> Option<Text>)
    requires Inverts(number, v) && k in HW_NAMES
    ensures match Written(v, k)
            case None => Meaning(v, k) == None
            case Some(t) => ReadMetric(map[PREFIX + k := t], k, number) == Meaning(v, k)
  {
    hide Property, Known;
  }

  /** The device reads as online. */
  predicate ReadsOnline(h: Hash) { ONLINE in h && (h[ONLINE] == ONE || h[ONLINE] == TRUE) }

  lemma {:induction false} PatchedOnline(h: Hash, msg: StateMsg, p: HwPatch)
    requires IsHwPatch(msg.volatile, p)
    ensures ReadsOnline(Patched(h, msg, p)) <==>
              match msg.online
              case Some(Bool(b)) => b
              case _ => ReadsOnline(h)
  {
    hide Property, TextOr, Flag, HasHw;
    assert !IsHwField(ONLINE) by {
      forall i | 0 <= i < |HW_NAMES| ensures ONLINE != PREFIX + HW_NAMES[i] {
        assert (PREFIX + HW_NAMES[i])[0] == 104 && ONLINE[0] == 111;
      }
    }
    assert |TS| == 2 && |SCREEN_ON| == 8 && |CHARGING| == 8 && |BATTERY_PCT| == 10 && |NET| == 3 && |RSSI| == 4
        && |ONLINE| == 6;
  }

  /* ---------- runs ---------- */

  datatype Event = Message(msg: StateMsg, patch: HwPatch) | Expire

  ghost predicate ValidEvents(es: seq<Event>) {
    forall i | 0 <= i < |es| && es[i].Message? :: IsHwPatch(es[i].msg.volatile, es[i].patch)
  }

  function Run(h: Hash, es: seq<Event>): Hash {
    if es == [] then h
    else
      var h' := Run(h, es[..|es| - 1]);
      match es[|es| - 1]
      case Message(m, p) => Patched(h', m, p)
      case Expire => map[]
  }

  /** What the last event that bears on it says: nothing yet, the hash expired, or a value. */
  datatype Last<T> = Nothing | Expired | Said(value: T)

  function LastMetrics(es: seq<Event>): Last<Option<Json>> {
    if es == [] then Nothing
    else
      match es[|es| - 1]
      case Expire => Expired
      case Message(m, _) => if HasHw(m.volatile) then Said(m.volatile) else LastMetrics(es[..|es| - 1])
  }

  function LastOnline(es: seq<Event>): Last<bool> {
    if es == [] then Nothing
    else
      match es[|es| - 1]
      case Expire => Expired
      case Message(m, _) =>
        if m.online.Some? && m.online.value.Bool? then Said(m.online.value.b) else LastOnline(es[..|es| - 1])
  }

  /** Over any run the metrics are those of the last message that carried any since the hash expired. */
  lemma {:induction false} MetricsOverRuns(h: Hash, es: seq<Event>, number: Text -> Option<Text>)
    requires ValidEvents(es)
    requires forall i | 0 <= i < |es| && es[i].Message? :: Inverts(number, es[i].msg.volatile)
    ensures Metrics(Run(h, es), number) ==
              match LastMetrics(es)
              case Nothing => Metrics(h, number)
              case Expired => map[]
              case Said(v) => Sanitised(v)
  {
    hide Metrics, Sanitised, HasHw, Patched, Inverts;
    if es != [] {
      var before := es[..|es| - 1];
      MetricsOverRuns(h, before, number);
      match es[|es| - 1]
      case Expire => assert Metrics(map[], number) == map[];
      case Message(m, p) => PatchedMetrics(Run(h, before), m, p, number);
    }
  }

  /** Over any run the device reads online exactly when the last boolean `online` since expiry was true. */
  lemma {:induction false} OnlineOverRuns(h: Hash, es: seq<Event>)
    requires ValidEvents(es)
    ensures ReadsOnline(Run(h, es)) <==>
              match LastOnline(es)
              case Nothing => ReadsOnline(h)
              case Expired => false
              case Said(b) => b
  {
    hide ReadsOnline, Patched, IsHwPatch;
    if es != [] {
      var before := es[..|es| - 1];
      OnlineOverRuns(h, before);
      match es[|es| - 1]
      case Expire => EmptyIsOffline();
      case Message(m, p) => PatchedOnline(Run(h, before), m, p);
    }
  }

  lemma {:induction false} EmptyIsOffline()
    ensures !ReadsOnline(map[])
  {
  }
}
