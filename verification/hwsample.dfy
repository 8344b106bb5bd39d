/** `normalizeHwSample`: keeps the known fields of an untrusted sample. */
module HwSample {
  import opened Options
  import opened Texts
  import opened JsonText
  import opened Capabilities
  import opened LiveHash

  datatype Kind = Number | Boolean | String | Strings

  const PLATFORM_NUMBERS: set<Text> := {
    Ascii("thermal"), Ascii("battTempC"), Ascii("zoneMaxC"), Ascii("memAvailMb"), Ascii("memTotalMb"),
    Ascii("diskFreeMb"), Ascii("cpuPct"), Ascii("cpuKHz"), Ascii("gpuPct"), Ascii("gpuMHz")}
  const SCREEN_NUMBERS: set<Text> := {
    Ascii("display"), Ascii("touchDevs"), Ascii("mainLagMs"), Ascii("appPssMb"), Ascii("threads"), Ascii("fds"),
    Ascii("uiIdleMs"), Ascii("lockTask")}
  const BOOLEANS: set<Text> := {Ascii("lowMem"), Ascii("interactive"), Ascii("dimmed")}
  const STRINGS: set<Text> := {Ascii("phase"), Ascii("fgPkg")}
  const STRING_LISTS: set<Text> := {Ascii("anomaly")}

  const SAMPLE_FIELDS: map<Text, Kind> :=
    (map k | k in PLATFORM_NUMBERS + SCREEN_NUMBERS :: Number) + (map k | k in BOOLEANS :: Boolean) +
    (map k | k in STRINGS :: String) + (map k | k in STRING_LISTS :: Strings)
  const MAX_ANOMALY: nat := 16

  /** A positive number; the texts of negative numbers start with a minus sign, zero is `0`. */
  predicate Positive(v: Json) { v.Num? && IsNumText(v.text) && v.text[0] != 45 && v.text != ZERO }

  function OnlyStrings(items: seq<Json>): (r: seq<Text>) {
    if items == [] then []
    else (if items[0].Str? then [items[0].s] else []) + OnlyStrings(items[1..])
  }

  function Take<T>(s: seq<T>, n: nat): seq<T> { if |s| <= n then s else s[..n] }

  function CleanAll(s: seq<Text>): (r: seq<Json>)
    ensures |r| == |s| && forall i | 0 <= i < |s| :: r[i] == Str(Clean(s[i]))
  {
    seq(|s|, i requires 0 <= i < |s| => Str(Clean(s[i])))
  }

  /** A field value that fits its kind, cleaned; null is kept; anything else is dropped. */
  function Fitting(kind: Kind, v: Json): Option<Json> {
    match (kind, v)
    case (_, Null) => Some(Null)
    case (Number, Num(_)) => Some(v)
    case (Boolean, Bool(_)) => Some(v)
    case (String, Str(s)) => Some(Str(Clean(s)))
    case (Strings, Arr(items)) => Some(Arr(CleanAll(Take(OnlyStrings(items), MAX_ANOMALY))))
    case _ => None
  }

  function FieldOf(p: map<Text, Json>, k: Text): Option<Json>
    requires k in SAMPLE_FIELDS
  {
    if k in p then Fitting(SAMPLE_FIELDS[k], p[k]) else None
  }

  /** The normalised form of an object with properties `p`; `None` without a positive time stamp. */
  function Normalized(p: map<Text, Json>): Option<map<Text, Json>> {
    if TS in p && Positive(p[TS]) then
      Some(map[TS := p[TS]] + map k | k in SAMPLE_FIELDS && FieldOf(p, k).Some? :: FieldOf(p, k).value)
    else None
  }

  method NormalizeHwSample(raw: Json) returns (out: Option<map<Text, Json>>)
    ensures out == if raw.Obj? then Normalized(Properties(raw)) else None
  {
    hide SAMPLE_FIELDS, Positive, Fitting, Lookup;
    if !raw.Obj? { return None; }
    out := NormalizeProperties(Properties(raw));
  }

  /** The part of `normalizeHwSample` for an object, which is known by its properties. */
  method NormalizeProperties(p: map<Text, Json>) returns (out: Option<map<Text, Json>>)
    ensures out == Normalized(p)
  {
    hide SAMPLE_FIELDS, Positive, Fitting;
    if TS !in p || !Positive(p[TS]) { return None; }
    var fields: map<Text, Json> := map[];
    var todo := SAMPLE_FIELDS.Keys;
    while todo != {}
      invariant todo <= SAMPLE_FIELDS.Keys
      invariant fields == map k | k in SAMPLE_FIELDS.Keys - todo && FieldOf(p, k).Some? :: FieldOf(p, k).value
    {
      var k :| k in todo;
      if k in p {
        var fit := Fitting(SAMPLE_FIELDS[k], p[k]);
        if fit.Some? { fields := fields[k := fit.value]; }
      }
      todo := todo - {k};
    }
    assert fields == map k | k in SAMPLE_FIELDS && FieldOf(p, k).Some? :: FieldOf(p, k).value;
    out := Some(map[TS := p[TS]] + fields);
  }

  /** Among the texts that numbers print as, the positive ones start with a digit and are not `0`. */
  lemma {:induction false} PositiveMeans(t: Text)
    requires IsNumText(t)
    ensures Positive(Num(t)) <==> 48 <= t[0] <= 57 && t != [48]
    ensures forall v: Json | !v.Num? :: !Positive(v)
  {
  }

  /* ---------- what survives ---------- */

  /** Length and first letter tell the number fields from all others. */
  predicate LooksNumeric(k: Text) {
    && |k| != 5 && k != []
    && (|k| == 6 ==> k[0] == 99 || k[0] == 103) && (|k| == 7 ==> k[0] == 116 || k[0] == 100)
    && (|k| == 11 ==> k[0] == 109)
  }

  lemma {:induction false} PlatformNumeric(k: Text)
    requires k in PLATFORM_NUMBERS
    ensures LooksNumeric(k)
  {
  }

  lemma {:induction false} ScreenNumeric(k: Text)
    requires k in SCREEN_NUMBERS
    ensures LooksNumeric(k)
  {
  }

  lemma {:induction false} OthersDiffer(k: Text)
    requires k in BOOLEANS + STRINGS + STRING_LISTS
    ensures !LooksNumeric(k)
  {
  }

  lemma {:induction false} NumberFields(k: Text)
    requires k in PLATFORM_NUMBERS + SCREEN_NUMBERS
    ensures k in SAMPLE_FIELDS && SAMPLE_FIELDS[k] == Number
  {
    hide PLATFORM_NUMBERS, SCREEN_NUMBERS, BOOLEANS, STRINGS, STRING_LISTS, LooksNumeric;
    if k in PLATFORM_NUMBERS { PlatformNumeric(k); } else { ScreenNumeric(k); }
    if k in BOOLEANS + STRINGS + STRING_LISTS { OthersDiffer(k); }
  }

  lemma {:induction false} OtherFields(k: Text)
    ensures k in BOOLEANS ==> k in SAMPLE_FIELDS && SAMPLE_FIELDS[k] == Boolean
    ensures k in STRINGS ==> k in SAMPLE_FIELDS && SAMPLE_FIELDS[k] == String
    ensures k in STRING_LISTS ==> k in SAMPLE_FIELDS && SAMPLE_FIELDS[k] == Strings
  {
  }

  /** What a field of the normalised sample is, if the raw one has it. */
  ghost predicate KeptAs(p: map<Text, Json>, q: map<Text, Json>, k: Text, fits: bool, v: Json) {
    k in p ==> if p[k].Null? then k in q && q[k] == Null else if fits then k in q && q[k] == v else k !in q
  }

  /**
   * What survives of a raw sample: every known field that is null or of its own kind, numbers and booleans as they
   * are, strings cleaned, of a list the first sixteen strings, cleaned. Anything else is dropped, and nothing appears
   * that was not there.
   */
  lemma {:induction false} FieldsSurvive(p: map<Text, Json>, k: Text)
    requires Normalized(p).Some? && k != TS
    ensures var q := Normalized(p).value;
            && (k !in p ==> k !in q)
            && (k in PLATFORM_NUMBERS + SCREEN_NUMBERS && k in p ==> KeptAs(p, q, k, p[k].Num?, p[k]))
            && (k in BOOLEANS && k in p ==> KeptAs(p, q, k, p[k].Bool?, p[k]))
            && (k in STRINGS && k in p ==>
                  KeptAs(p, q, k, p[k].Str?, if p[k].Str? then Str(Clean(p[k].s)) else Null))
            && (k in STRING_LISTS && k in p ==>
                  KeptAs(p, q, k, p[k].Arr?, if p[k].Arr? then Arr(CleanAll(FirstStrings(p[k].items, 16))) else Null))
            && (k in q ==> k in PLATFORM_NUMBERS + SCREEN_NUMBERS + BOOLEANS + STRINGS + STRING_LISTS)
  {
    hide PLATFORM_NUMBERS, SCREEN_NUMBERS, BOOLEANS, STRINGS, STRING_LISTS, Positive, Clean, FirstStrings, OnlyStrings;
    hide SAMPLE_FIELDS, Fitting;
    assert k in SAMPLE_FIELDS ==> k in PLATFORM_NUMBERS + SCREEN_NUMBERS + BOOLEANS + STRINGS + STRING_LISTS by {
      KnownFields(k);
    }
    if k in PLATFORM_NUMBERS + SCREEN_NUMBERS { NumberFields(k); }
    OtherFields(k);
    if k in p {
      FitsMeans(p[k]);
      if p[k].Arr? { FirstStringsIs(p[k].items, MAX_ANOMALY); }
    }
  }

  lemma {:induction false} KnownFields(k: Text)
    ensures k in SAMPLE_FIELDS <==> k in PLATFORM_NUMBERS + SCREEN_NUMBERS + BOOLEANS + STRINGS + STRING_LISTS
  {
    hide PLATFORM_NUMBERS, SCREEN_NUMBERS, BOOLEANS, STRINGS, STRING_LISTS;
  }

  /** What of a value fits each kind. */
  lemma {:induction false} FitsMeans(v: Json)
    ensures Fitting(Number, v) == if v.Null? || v.Num? then Some(v) else None
    ensures Fitting(Boolean, v) == if v.Null? || v.Bool? then Some(v) else None
    ensures Fitting(String, v) == if v.Null? then Some(v) else if v.Str? then Some(Str(Clean(v.s))) else None
    ensures Fitting(Strings, v) ==
            if v.Null? then Some(v)
            else if v.Arr? then Some(Arr(CleanAll(Take(OnlyStrings(v.items), MAX_ANOMALY)))) else None
  {
    hide Clean, OnlyStrings;
  }

  /** The first `n` strings among the items. */
  function FirstStrings(items: seq<Json>, n: nat): seq<Text> {
    if n == 0 || items == [] then []
    else if items[0].Str? then [items[0].s] + FirstStrings(items[1..], n - 1)
    else FirstStrings(items[1..], n)
  }

  lemma {:induction false} FirstStringsIs(items: seq<Json>, n: nat)
    ensures Take(OnlyStrings(items), n) == FirstStrings(items, n)
  {
    if n > 0 && items != [] {
      FirstStringsIs(items[1..], if items[0].Str? then n - 1 else n);
    }
  }

  lemma {:induction false} OnlyStringsOfStrings(s: seq<Text>)
    ensures OnlyStrings(seq(|s|, i requires 0 <= i < |s| => Str(s[i]))) == s
  {
    var items := seq(|s|, i requires 0 <= i < |s| => Str(s[i]));
    if s != [] {
      OnlyStringsOfStrings(s[1..]);
      assert items[1..] == seq(|s[1..]|, i requires 0 <= i < |s[1..]| => Str(s[1..][i]));
      assert s == [s[0]] + s[1..];
    }
  }

  lemma {:induction false} FittingStable(kind: Kind, v: Json)
    ensures Fitting(kind, v).Some? ==> Fitting(kind, Fitting(kind, v).value) == Fitting(kind, v)
  {
    match (kind, v)
    case (String, Str(s)) => CleanStable(s);
    case (Strings, Arr(items)) =>
      var kept := Take(OnlyStrings(items), MAX_ANOMALY);
      var cleaned := seq(|kept|, i requires 0 <= i < |kept| => Clean(kept[i]));
      assert CleanAll(kept) == seq(|cleaned|, i requires 0 <= i < |cleaned| => Str(cleaned[i]));
      OnlyStringsOfStrings(cleaned);
      forall i | 0 <= i < |kept| ensures Clean(cleaned[i]) == cleaned[i] { CleanStable(kept[i]); }
      assert CleanAll(cleaned) == CleanAll(kept);
    case _ =>
  }

  lemma {:induction false} PlatformNamesLong()
    ensures forall k | k in PLATFORM_NUMBERS :: |k| > 2
  {
  }

  lemma {:induction false} ScreenNamesLong()
    ensures forall k | k in SCREEN_NUMBERS :: |k| > 2
  {
  }

  lemma {:induction false} OtherNamesLong()
    ensures forall k | k in BOOLEANS + STRINGS + STRING_LISTS :: |k| > 2
  {
  }

  lemma {:induction false} TsIsNoField()
    ensures TS !in SAMPLE_FIELDS
  {
    hide PLATFORM_NUMBERS, SCREEN_NUMBERS, BOOLEANS, STRINGS, STRING_LISTS;
    PlatformNamesLong();
    ScreenNamesLong();
    OtherNamesLong();
    assert |TS| == 2;
  }

  /** Normalising twice changes nothing, and a normalised sample has a time stamp and known fields only. */
  lemma {:induction false} NormalizedStable(p: map<Text, Json>)
    requires Normalized(p).Some?
    ensures var q := Normalized(p).value;
            && Normalized(q) == Some(q)
            && q.Keys <= SAMPLE_FIELDS.Keys + {TS}
            && TS in q && q[TS] == p[TS] && Positive(q[TS])
  {
    TsIsNoField();
    hide SAMPLE_FIELDS, Positive, Fitting;
    var q := Normalized(p).value;
    forall k | k in SAMPLE_FIELDS ensures FieldOf(q, k) == FieldOf(p, k) {
      assert k != TS;
      if k in p { FittingStable(SAMPLE_FIELDS[k], p[k]); }
    }
    assert (map k | k in SAMPLE_FIELDS && FieldOf(q, k).Some? :: FieldOf(q, k).value) ==
           (map k | k in SAMPLE_FIELDS && FieldOf(p, k).Some? :: FieldOf(p, k).value);
  }
}
