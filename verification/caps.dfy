/** The capability record a device reports, its database columns, and the difference of two records. */
module Capabilities {
  import opened Options
  import opened Texts
  import opened JsonText
  import opened Canonical

  const PROJECT_MEDIA: Text := Ascii("projectMedia")
  const A11Y: Text := Ascii("a11y")
  const KNOX: Text := Ascii("knox")
  const OVERLAY: Text := Ascii("overlay")
  const SECURE_SETTINGS: Text := Ascii("secureSettings")
  const ENCODER: Text := Ascii("encoder")
  const NAME: Text := Ascii("name")
  const HW: Text := Ascii("hw")
  const INITIAL: Text := Ascii("initial")
  const ALLOW: Text := Ascii("allow")
  const BLOCKED: Text := Ascii("blocked")
  const UNLICENSED: Text := Ascii("unlicensed")
  const UNSUPPORTED: Text := Ascii("unsupported")
  const LICENSED: Text := Ascii("licensed")

  lemma {:induction false} NamesDiffer()
    ensures A11Y[0] != KNOX[0] && OVERLAY[0] != ENCODER[0]
    ensures |PROJECT_MEDIA| == 12 && |A11Y| == 4 && |KNOX| == 4 && |OVERLAY| == 7 && |SECURE_SETTINGS| == 14
    ensures |ENCODER| == 7 && |NAME| == 4 && |HW| == 2
  {
  }

  /** `caps[k]`; `None` is `undefined`. */
  function Lookup(caps: Json, k: Text): Option<Json> {
    if caps.Obj? && HasKey(caps.fields, k) then Some(caps.fields[At(caps.fields, k)].value) else None
  }

  function Keys(caps: Json): (ks: set<Text>)
    ensures forall k :: k in ks <==> Lookup(caps, k).Some?
  {
    if !caps.Obj? then {}
    else
      assert forall k :: HasKey(caps.fields, k) <==> k in KeysOf(caps.fields) by { KeysOfHasKey(caps.fields); }
      set k | k in KeysOf(caps.fields)
  }

  lemma {:induction false} KeysOfHasKey(fs: seq<Field>)
    ensures forall k :: HasKey(fs, k) <==> k in KeysOf(fs)
  {
    forall k | HasKey(fs, k) ensures k in KeysOf(fs) {
      var i :| 0 <= i < |fs| && fs[i].key == k;
      assert KeysOf(fs)[i] == k;
    }
  }

  /* ---------- the row of device_capabilities ---------- */

  datatype Columns = Columns(
    projectMedia: Text,
    a11y: bool,
    knox: Text,
    overlay: bool,
    secureSettings: bool,
    encoderName: Option<Text>,
    encoderHw: Option<bool>)

  datatype CapsRow = CapsRow(agentVer: Text, columns: Columns, hash: Text)

  predicate IsStr(v: Option<Json>) { v.Some? && v.value.Str? }

  predicate IsBool(v: Option<Json>) { v.Some? && v.value.Bool? }

  /** The parameter `caps.encoder?.k ?? null`. */
  function EncoderPart(caps: Json, k: Text): Option<Json> {
    match Lookup(caps, ENCODER)
    case None => None
    case Some(e) => if Lookup(e, k) == Some(Null) then None else Lookup(e, k)
  }

  /** The record satisfies the NOT NULL columns and the column types; otherwise the upsert is refused. */
  predicate Writable(caps: Json) {
    && IsStr(Lookup(caps, PROJECT_MEDIA)) && IsBool(Lookup(caps, A11Y)) && IsStr(Lookup(caps, KNOX))
    && IsBool(Lookup(caps, OVERLAY)) && IsBool(Lookup(caps, SECURE_SETTINGS))
    && (EncoderPart(caps, NAME).Some? ==> EncoderPart(caps, NAME).value.Str?)
    && (EncoderPart(caps, HW).Some? ==> EncoderPart(caps, HW).value.Bool?)
  }

  function ColumnsOf(caps: Json): Columns
    requires Writable(caps)
  {
    var name, hw := EncoderPart(caps, NAME), EncoderPart(caps, HW);
    Columns(
      Lookup(caps, PROJECT_MEDIA).value.s, Lookup(caps, A11Y).value.b, Lookup(caps, KNOX).value.s,
      Lookup(caps, OVERLAY).value.b, Lookup(caps, SECURE_SETTINGS).value.b,
      if name.Some? then Some(name.value.s) else None,
      if hw.Some? then Some(hw.value.b) else None)
  }

  function EncoderObject(name: Text, hw: bool): Json { Obj([Field(NAME, Str(name)), Field(HW, Bool(hw))]) }

  /** `findCaps`: the record read back from the columns. */
  function ReadBack(c: Columns): Json {
    Obj([Field(PROJECT_MEDIA, Str(c.projectMedia)), Field(A11Y, Bool(c.a11y)), Field(KNOX, Str(c.knox)),
         Field(OVERLAY, Bool(c.overlay)), Field(SECURE_SETTINGS, Bool(c.secureSettings))] +
        if c.encoderName.Some? && c.encoderName.value != []
        then [Field(ENCODER, EncoderObject(c.encoderName.value, c.encoderHw == Some(true)))]
        else [])
  }

  lemma {:induction false} LookupAt(v: Json, i: nat)
    requires v.Obj? && i < |v.fields| && DistinctKeys(v.fields)
    ensures Lookup(v, v.fields[i].key) == Some(v.fields[i].value)
  {
  }

  lemma {:induction false} ReadBackFields(c: Columns)
    ensures WellFormed(ReadBack(c))
    ensures var r := ReadBack(c);
            && Lookup(r, PROJECT_MEDIA) == Some(Str(c.projectMedia)) && Lookup(r, A11Y) == Some(Bool(c.a11y))
            && Lookup(r, KNOX) == Some(Str(c.knox)) && Lookup(r, OVERLAY) == Some(Bool(c.overlay))
            && Lookup(r, SECURE_SETTINGS) == Some(Bool(c.secureSettings))
            && Lookup(r, ENCODER) == if c.encoderName.Some? && c.encoderName.value != []
                                     then Some(EncoderObject(c.encoderName.value, c.encoderHw == Some(true))) else None
    ensures forall k :: k !in KNOWN ==> Lookup(ReadBack(c), k) == None
  {
    var r := ReadBack(c);
    ReadBackWellFormed(c);
    ReadBackKeys(c);
    hide Lookup, WellFormed;
    LookupAt(r, 0);
    LookupAt(r, 1);
    LookupAt(r, 2);
    LookupAt(r, 3);
    LookupAt(r, 4);
    if |r.fields| == 6 { LookupAt(r, 5); }
  }

  /** Every choice of columns is that of a record, up to an encoder without a name or without its flag. */
  lemma {:induction false} EveryColumnsWritten(c: Columns)
    ensures Writable(ReadBack(c))
    ensures ColumnsOf(ReadBack(c)) ==
            if c.encoderName.Some? && c.encoderName.value != [] then c.(encoderHw := Some(c.encoderHw == Some(true)))
            else c.(encoderName := None, encoderHw := None)
  {
    hide ReadBack, Lookup, EncoderObject;
    ReadBackFields(c);
    if c.encoderName.Some? { EncoderFields(c.encoderName.value, c.encoderHw == Some(true)); }
  }

  lemma {:induction false} EncoderFields(name: Text, hw: bool)
    ensures Lookup(EncoderObject(name, hw), NAME) == Some(Str(name))
    ensures Lookup(EncoderObject(name, hw), HW) == Some(Bool(hw))
  {
    NamesDiffer();
    var e := EncoderObject(name, hw);
    assert DistinctKeys(e.fields);
    LookupAt(e, 0);
    LookupAt(e, 1);
  }

  lemma {:induction false} ReadBackWellFormed(c: Columns)
    ensures WellFormed(ReadBack(c))
  {
    NamesDiffer();
    var fs := ReadBack(c).fields;
    assert DistinctKeys(fs);
    if |fs| == 6 {
      assert DistinctKeys(fs[5].value.fields);
    }
  }

  lemma {:induction false} ReadBackKeys(c: Columns)
    ensures forall k :: k !in KNOWN ==> Lookup(ReadBack(c), k) == None
    ensures c.encoderName.None? || c.encoderName.value == [] ==> Lookup(ReadBack(c), ENCODER) == None
  {
    NamesDiffer();
  }

  const KNOWN: set<Text> := {PROJECT_MEDIA, A11Y, KNOX, OVERLAY, SECURE_SETTINGS, ENCODER}

  /** The record has exactly the shape the columns can hold: no other property, and an encoder, if any, in full. */
  predicate Plain(caps: Json) {
    && Keys(caps) <= KNOWN
    && match Lookup(caps, ENCODER)
       case None => true
       case Some(e) =>
         && e.Obj? && |e.fields| == 2
         && e.fields[0].key == NAME && e.fields[0].value.Str? && e.fields[0].value.s != []
         && e.fields[1].key == HW && e.fields[1].value.Bool?
  }

  /* ---------- capsDiff ---------- */

  type Changes = map<Text, (Option<Json>, Option<Json>)>

  /** The properties on which the records differ, with old and new value; a first record is logged whole. */
  function Diff(prev: Option<Json>, next: Json): Changes {
    match prev
    case None => map[INITIAL := (None, Some(next))]
    case Some(p) =>
      map k | k in Keys(p) + Keys(next) && Lookup(p, k) != Lookup(next, k) :: (Lookup(p, k), Lookup(next, k))
  }

  /** `JSON.stringify` of a possibly undefined value. */
  function PrintOption(v: Option<Json>): Option<Text> {
    if v.Some? then Some(Print(v.value)) else None
  }

  method CapsDiff(prev: Option<Json>, next: Json) returns (changed: Changes)
    requires WellFormed(next) && (prev.Some? ==> WellFormed(prev.value))
    ensures changed == Diff(prev, next)
  {
    hide Lookup, Keys, Print, WellFormed;
    if prev.None? {
      return map[INITIAL := (None, Some(next))];
    }
    changed := map[];
    var all := Keys(prev.value) + Keys(next);
    var todo := all;
    while todo != {}
      invariant todo <= all
      invariant changed == map k | k in all - todo && Lookup(prev.value, k) != Lookup(next, k) ::
                             (Lookup(prev.value, k), Lookup(next, k))
    {
      var k :| k in todo;
      var a, b := Lookup(prev.value, k), Lookup(next, k);
      LookupWellFormed(prev.value, k);
      LookupWellFormed(next, k);
      if a.Some? && b.Some? { PrintInjective(a.value, b.value); }
      if PrintOption(a) != PrintOption(b) {
        changed := changed[k := (a, b)];
      }
      todo := todo - {k};
    }
  }

  lemma {:induction false} LookupWellFormed(v: Json, k: Text)
    requires WellFormed(v)
    ensures Lookup(v, k).Some? ==> WellFormed(Lookup(v, k).value)
  {
  }

  /** The properties of a record as a map. */
  function Properties(v: Json): (m: map<Text, Json>)
    ensures forall k :: k in m <==> Lookup(v, k).Some?
    ensures forall k | k in m :: Lookup(v, k) == Some(m[k])
  {
    map k | k in Keys(v) :: Lookup(v, k).value
  }

  function Apply(m: map<Text, Json>, d: Changes): map<Text, Json> {
    map k | k in m.Keys + d.Keys && (k in d ==> d[k].1.Some?) :: if k in d then d[k].1.value else m[k]
  }

  function Inverse(d: Changes): Changes { map k | k in d :: (d[k].1, d[k].0) }

  /** A difference is a patch: it turns the old record into the new one, and its inverse undoes it. */
  lemma {:induction false} DiffPatches(prev: Json, next: Json)
    ensures Apply(Properties(prev), Diff(Some(prev), next)) == Properties(next)
    ensures Apply(Properties(next), Inverse(Diff(Some(prev), next))) == Properties(prev)
  {
    hide Lookup, Keys;
    var d := Diff(Some(prev), next);
    forall k ensures k in Apply(Properties(prev), d) <==> k in Properties(next) {}
    forall k ensures k in Apply(Properties(next), Inverse(d)) <==> k in Properties(prev) {}
  }

  /** The difference is empty exactly for records with the same properties. */
  lemma {:induction false} DiffEmpty(prev: Json, next: Json)
    ensures Diff(Some(prev), next) == map[] <==> Properties(prev) == Properties(next)
  {
    var d := Diff(Some(prev), next);
    if Properties(prev) == Properties(next) {
      forall k ensures k !in d {
        assert k in Properties(prev) <==> k in Properties(next);
      }
    }
    if d == map[] {
      forall k ensures Lookup(prev, k) == Lookup(next, k) {
        assert k !in d;
      }
    }
  }

  /* ---------- what the columns lose ---------- */

  /** Reading the stored record back shows no difference exactly for a plain record. */
  lemma {:induction false} ReadBackIsPlain(caps: Json)
    requires Writable(caps) && WellFormed(caps)
    ensures Diff(Some(ReadBack(ColumnsOf(caps))), caps) == map[] <==> Plain(caps)
  {
    hide Lookup, Keys, ReadBack, Diff, WellFormed;
    var r := ReadBack(ColumnsOf(caps));
    ReadBackFields(ColumnsOf(caps));
    DiffEmpty(r, caps);
    ColumnsRead(caps);
    if Plain(caps) {
      PlainEncoder(caps);
      forall k ensures Lookup(r, k) == Lookup(caps, k) {
        if k !in KNOWN { assert k !in Keys(caps); }
      }
      assert Properties(r) == Properties(caps);
    }
    if Properties(r) == Properties(caps) {
      forall k ensures Lookup(r, k) == Lookup(caps, k) {
        assert k in Properties(r) <==> k in Properties(caps);
      }
      assert Keys(caps) <= KNOWN by {
        forall k | k in Keys(caps) ensures k in KNOWN {
          assert Lookup(r, k).Some?;
        }
      }
    }
  }

  /** The five required columns hold the properties they come from. */
  lemma {:induction false} ColumnsRead(caps: Json)
    requires Writable(caps)
    ensures var c := ColumnsOf(caps);
            && Lookup(caps, PROJECT_MEDIA) == Some(Str(c.projectMedia)) && Lookup(caps, A11Y) == Some(Bool(c.a11y))
            && Lookup(caps, KNOX) == Some(Str(c.knox)) && Lookup(caps, OVERLAY) == Some(Bool(c.overlay))
            && Lookup(caps, SECURE_SETTINGS) == Some(Bool(c.secureSettings))
  {
    hide Lookup;
  }

  lemma {:induction false} PlainEncoder(caps: Json)
    requires Writable(caps) && Plain(caps)
    ensures var c := ColumnsOf(caps);
            Lookup(caps, ENCODER) ==
              if c.encoderName.Some? && c.encoderName.value != []
              then Some(EncoderObject(c.encoderName.value, c.encoderHw == Some(true))) else None
  {
    hide Lookup, Keys;
    NamesDiffer();
    if Lookup(caps, ENCODER).Some? {
      var e := Lookup(caps, ENCODER).value;
      assert DistinctKeys(e.fields);
      LookupAt(e, 0);
      LookupAt(e, 1);
      assert e.fields == [Field(NAME, e.fields[0].value), Field(HW, e.fields[1].value)];
    }
  }

  /** Records equal up to property order are stored alike. */
  lemma {:induction false} SameColumns(v: Json, w: Json)
    requires Same(v, w)
    ensures Writable(v) <==> Writable(w)
    ensures Writable(v) ==> ColumnsOf(v) == ColumnsOf(w)
  {
    hide Lookup, Same;
    SameLookup(v, w, PROJECT_MEDIA);
    SameLookup(v, w, A11Y);
    SameLookup(v, w, KNOX);
    SameLookup(v, w, OVERLAY);
    SameLookup(v, w, SECURE_SETTINGS);
    SameEncoder(v, w, NAME);
    SameEncoder(v, w, HW);
  }

  /** Not an array and not an object. */
  predicate Scalar(v: Option<Json>) { v.Some? ==> !v.value.Arr? && !v.value.Obj? }

  lemma {:induction false} SameLookup(v: Json, w: Json, k: Text)
    requires Same(v, w)
    ensures Lookup(v, k).Some? <==> Lookup(w, k).Some?
    ensures Lookup(v, k).Some? ==> Same(Lookup(v, k).value, Lookup(w, k).value)
    ensures Lookup(v, k) == Lookup(w, k) || (!Scalar(Lookup(v, k)) && !Scalar(Lookup(w, k)))
  {
    if v.Obj? && Lookup(v, k).Some? {
      assert v.fields[At(v.fields, k)].key == w.fields[At(w.fields, k)].key;
    }
  }

  lemma {:induction false} SameEncoder(v: Json, w: Json, k: Text)
    requires Same(v, w)
    ensures EncoderPart(v, k) == EncoderPart(w, k) || (!Scalar(EncoderPart(v, k)) && !Scalar(EncoderPart(w, k)))
  {
    hide Lookup, Same;
    SameLookup(v, w, ENCODER);
    if Lookup(v, ENCODER).Some? {
      SameLookup(Lookup(v, ENCODER).value, Lookup(w, ENCODER).value, k);
    }
  }
}
