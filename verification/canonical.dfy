/** `stableStringify` and the pre-image of `capsHash`: what equal texts say about the values. */
module Canonical {
  import opened Texts
  import opened JsonText

  predicate HasKey(fs: seq<Field>, k: Text) { exists i | 0 <= i < |fs| :: fs[i].key == k }

  /** Position of a property. */
  function At(fs: seq<Field>, k: Text): (i: nat)
    requires HasKey(fs, k)
    ensures i < |fs| && fs[i].key == k
  {
    if fs[0].key == k then 0
    else
      assert HasKey(fs[1..], k) by {
        var i :| 0 <= i < |fs| && fs[i].key == k;
        assert fs[1..][i - 1].key == k;
      }
      1 + At(fs[1..], k)
  }

  function KeysOf(fs: seq<Field>): (ks: seq<Text>)
    ensures |ks| == |fs| && forall i | 0 <= i < |ks| :: ks[i] == fs[i].key
  {
    seq(|fs|, i requires 0 <= i < |fs| => fs[i].key)
  }

  /* ---------- sorting keys ---------- */

  function Insert(k: Text, ks: seq<Text>): seq<Text> {
    if ks == [] || Before(k, ks[0]) then [k] + ks else [ks[0]] + Insert(k, ks[1..])
  }

  function SortKeys(ks: seq<Text>): seq<Text> {
    if ks == [] then [] else Insert(ks[0], SortKeys(ks[1..]))
  }

  predicate Increasing(ks: seq<Text>) {
    forall i, j | 0 <= i < j < |ks| :: Before(ks[i], ks[j])
  }

  lemma {:induction false} InsertProperties(k: Text, ks: seq<Text>)
    requires Increasing(ks) && k !in ks
    ensures Increasing(Insert(k, ks))
    ensures forall x :: x in Insert(k, ks) <==> x == k || x in ks
  {
    if ks == [] {
    } else if Before(k, ks[0]) {
      forall i | 0 <= i < |ks| ensures Before(k, ks[i]) {
        if i > 0 { BeforeTransitive(k, ks[0], ks[i]); }
      }
    } else {
      BeforeTotal(k, ks[0]);
      InsertProperties(k, ks[1..]);
      var r := Insert(k, ks[1..]);
      forall i | 0 <= i < |r| ensures Before(ks[0], r[i]) {
        assert r[i] in r;
        assert r[i] == k || r[i] in ks[1..];
      }
      assert ks == [ks[0]] + ks[1..];
    }
  }

  predicate Distinct(ks: seq<Text>) {
    forall i, j | 0 <= i < j < |ks| :: ks[i] != ks[j]
  }

  lemma {:induction false} SortProperties(ks: seq<Text>)
    requires Distinct(ks)
    ensures Increasing(SortKeys(ks))
    ensures forall x :: x in SortKeys(ks) <==> x in ks
  {
    if ks != [] {
      SortProperties(ks[1..]);
      assert ks == [ks[0]] + ks[1..];
      InsertProperties(ks[0], SortKeys(ks[1..]));
    }
  }

  /** An increasing list is determined by its elements. */
  lemma {:induction false} IncreasingUnique(a: seq<Text>, b: seq<Text>)
    requires Increasing(a) && Increasing(b)
    requires forall x :: x in a <==> x in b
    ensures a == b
  {
    if a != [] { assert a[0] in b; }
    if b != [] { assert b[0] in a; }
    if a != [] && b != [] {
      if a[0] != b[0] {
        BeforeAsymmetric(a[0], b[0]);
      }
      BeforeIrreflexive(a[0]);
      assert a == [a[0]] + a[1..] && b == [b[0]] + b[1..];
      assert forall i | 0 <= i < |a[1..]| :: a[1..][i] == a[1 + i] && Before(a[0], a[1 + i]);
      assert forall i | 0 <= i < |b[1..]| :: b[1..][i] == b[1 + i] && Before(b[0], b[1 + i]);
      forall x ensures x in a[1..] <==> x in b[1..] {
        assert x in a <==> x == a[0] || x in a[1..];
        assert x in b <==> x == a[0] || x in b[1..];
      }
      IncreasingUnique(a[1..], b[1..]);
      assert a == [a[0]] + a[1..] && b == [b[0]] + b[1..];
    }
  }

  /* ---------- stableStringify ---------- */

  function Stringify(v: Json): Text
    decreases v, 1
  {
    match v
    case Arr(items) => [OPEN_BRACKET] + StringifyItems(items) + [CLOSE_BRACKET]
    case Obj(fs) => [OPEN_BRACE] + StringifyKeys(SortedKeys(fs), fs) + [CLOSE_BRACE]
    case _ => Print(v)
  }

  function SortedKeys(fs: seq<Field>): (ks: seq<Text>)
    ensures forall k | k in ks :: HasKey(fs, k)
  {
    SortedKeysExist(fs);
    SortKeys(KeysOf(fs))
  }

  lemma {:induction false} SortKeepsElements(ks: seq<Text>)
    ensures forall x | x in SortKeys(ks) :: x in ks
  {
    if ks != [] {
      SortKeepsElements(ks[1..]);
      InsertKeepsElements(ks[0], SortKeys(ks[1..]));
    }
  }

  lemma {:induction false} InsertKeepsElements(k: Text, ks: seq<Text>)
    ensures forall x | x in Insert(k, ks) :: x == k || x in ks
  {
    if ks != [] && !Before(k, ks[0]) {
      InsertKeepsElements(k, ks[1..]);
    }
  }

  lemma {:induction false} SortedKeysExist(fs: seq<Field>)
    ensures forall k | k in SortKeys(KeysOf(fs)) :: HasKey(fs, k)
  {
    SortKeepsElements(KeysOf(fs));
  }

  function StringifyItems(items: seq<Json>): Text
    decreases items, 0
  {
    if items == [] then []
    else Stringify(items[0]) + (if |items| == 1 then [] else [COMMA] + StringifyItems(items[1..]))
  }

  /** The properties named by `ks`, each looked up in the object. */
  function StringifyKeys(ks: seq<Text>, fs: seq<Field>): Text
    requires forall k | k in ks :: HasKey(fs, k)
    decreases fs, |ks|
  {
    if ks == [] then []
    else
      Quote(ks[0]) + [COLON] + Stringify(fs[At(fs, ks[0])].value) +
      (if |ks| == 1 then [] else [COMMA] + StringifyKeys(ks[1..], fs))
  }

  /** The same value with the properties of every object in key order. */
  function Canon(v: Json): Json
    decreases v, 1
  {
    match v
    case Arr(items) => Arr(CanonItems(items))
    case Obj(fs) => Obj(CanonKeys(SortedKeys(fs), fs))
    case _ => v
  }

  function CanonItems(items: seq<Json>): (r: seq<Json>)
    ensures |r| == |items| && forall i | 0 <= i < |r| :: r[i] == Canon(items[i])
    decreases items, 0
  {
    if items == [] then [] else [Canon(items[0])] + CanonItems(items[1..])
  }

  function CanonKeys(ks: seq<Text>, fs: seq<Field>): (r: seq<Field>)
    requires forall k | k in ks :: HasKey(fs, k)
    ensures |r| == |ks| && forall i | 0 <= i < |r| :: r[i] == Field(ks[i], Canon(fs[At(fs, ks[i])].value))
    decreases fs, |ks|
  {
    if ks == [] then [] else [Field(ks[0], Canon(fs[At(fs, ks[0])].value))] + CanonKeys(ks[1..], fs)
  }

  lemma {:induction false} StringifyPrintsCanon(v: Json)
    ensures Stringify(v) == Print(Canon(v))
    decreases v, 1
  {
    match v
    case Arr(items) => StringifyItemsPrints(items);
    case Obj(fs) => StringifyKeysPrints(SortedKeys(fs), fs);
    case _ =>
  }

  lemma {:induction false} StringifyItemsPrints(items: seq<Json>)
    ensures StringifyItems(items) == PrintItems(CanonItems(items))
    decreases items, 0
  {
    if items != [] {
      StringifyPrintsCanon(items[0]);
      StringifyItemsPrints(items[1..]);
      assert CanonItems(items)[1..] == CanonItems(items[1..]);
    }
  }

  lemma {:induction false} StringifyKeysPrints(ks: seq<Text>, fs: seq<Field>)
    requires forall k | k in ks :: HasKey(fs, k)
    ensures StringifyKeys(ks, fs) == PrintFields(CanonKeys(ks, fs))
    decreases fs, |ks|
  {
    if ks != [] {
      StringifyPrintsCanon(fs[At(fs, ks[0])].value);
      StringifyKeysPrints(ks[1..], fs);
      assert CanonKeys(ks, fs)[1..] == CanonKeys(ks[1..], fs);
    }
  }

  lemma {:induction false} CanonWellFormed(v: Json)
    requires WellFormed(v)
    ensures WellFormed(Canon(v))
    decreases v
  {
    match v
    case Arr(items) =>
      forall i | 0 <= i < |items| ensures WellFormed(Canon(items[i])) { CanonWellFormed(items[i]); }
    case Obj(fs) =>
      var ks := SortedKeys(fs);
      forall i | 0 <= i < |ks| ensures WellFormed(Canon(fs[At(fs, ks[i])].value)) {
        CanonWellFormed(fs[At(fs, ks[i])].value);
      }
      SortProperties(KeysOf(fs));
      forall i, j | 0 <= i < j < |ks| ensures ks[i] != ks[j] { BeforeIrreflexive(ks[i]); }
    case _ =>
  }

  /* ---------- equality up to property order ---------- */

  /** Equal JSON values when the order of properties does not matter. */
  ghost predicate Same(v: Json, w: Json)
    decreases v
  {
    match (v, w)
    case (Arr(a), Arr(b)) => |a| == |b| && forall i | 0 <= i < |a| :: Same(a[i], b[i])
    case (Obj(a), Obj(b)) =>
      && (forall k :: HasKey(a, k) <==> HasKey(b, k))
      && (forall i, j | 0 <= i < |a| && 0 <= j < |b| && a[i].key == b[j].key :: Same(a[i].value, b[j].value))
    case _ => v == w
  }

  lemma {:induction false} SameIffCanonEqual(v: Json, w: Json)
    requires WellFormed(v) && WellFormed(w)
    ensures Same(v, w) <==> Canon(v) == Canon(w)
    decreases v
  {
    if v.Arr? && w.Arr? {
      SameItems(v.items, w.items);
    } else if v.Obj? && w.Obj? {
      var a, b := v.fields, w.fields;
      forall i, j | 0 <= i < |a| && 0 <= j < |b|
        ensures Same(a[i].value, b[j].value) <==> Canon(a[i].value) == Canon(b[j].value)
      {
        SameIffCanonEqual(a[i].value, b[j].value);
      }
      SameFields(a, b);
    }
  }

  lemma {:induction false} SameItems(a: seq<Json>, b: seq<Json>)
    requires forall i | 0 <= i < |a| :: WellFormed(a[i])
    requires forall i | 0 <= i < |b| :: WellFormed(b[i])
    ensures CanonItems(a) == CanonItems(b) <==> |a| == |b| && forall i | 0 <= i < |a| :: Same(a[i], b[i])
    decreases a
  {
    if |a| == |b| {
      forall i | 0 <= i < |a| ensures Same(a[i], b[i]) <==> Canon(a[i]) == Canon(b[i]) {
        SameIffCanonEqual(a[i], b[i]);
      }
      assert CanonItems(a) == CanonItems(b) <==> forall i | 0 <= i < |a| :: CanonItems(a)[i] == CanonItems(b)[i];
    }
  }

  /** The object case, given the equivalence for all pairs of property values. */
  lemma {:induction false} SameFields(a: seq<Field>, b: seq<Field>)
    requires DistinctKeys(a) && DistinctKeys(b)
    requires forall i, j | 0 <= i < |a| && 0 <= j < |b| ::
               Same(a[i].value, b[j].value) <==> Canon(a[i].value) == Canon(b[j].value)
    ensures Same(Obj(a), Obj(b)) <==> Canon(Obj(a)) == Canon(Obj(b))
  {
    SortedKeysOf(a);
    SortedKeysOf(b);
    if Same(Obj(a), Obj(b)) { SameFieldsCanon(a, b); }
    if Canon(Obj(a)) == Canon(Obj(b)) { CanonFieldsSame(a, b); }
  }

  lemma {:induction false} SameFieldsCanon(a: seq<Field>, b: seq<Field>)
    requires DistinctKeys(a) && DistinctKeys(b)
    requires forall i, j | 0 <= i < |a| && 0 <= j < |b| && Same(a[i].value, b[j].value) ::
               Canon(a[i].value) == Canon(b[j].value)
    requires Same(Obj(a), Obj(b))
    ensures CanonKeys(SortedKeys(a), a) == CanonKeys(SortedKeys(b), b)
  {
    hide Canon, SortedKeys;
    var ka, kb := SortedKeys(a), SortedKeys(b);
    SortedKeysOf(a);
    SortedKeysOf(b);
    IncreasingUnique(ka, kb);
    forall i | 0 <= i < |ka| ensures CanonKeys(ka, a)[i] == CanonKeys(kb, b)[i] {
      assert a[At(a, ka[i])].key == b[At(b, ka[i])].key;
    }
  }

  lemma {:induction false} CanonFieldsSame(a: seq<Field>, b: seq<Field>)
    requires DistinctKeys(a) && DistinctKeys(b)
    requires forall i, j | 0 <= i < |a| && 0 <= j < |b| && Canon(a[i].value) == Canon(b[j].value) ::
               Same(a[i].value, b[j].value)
    requires CanonKeys(SortedKeys(a), a) == CanonKeys(SortedKeys(b), b)
    ensures Same(Obj(a), Obj(b))
  {
    hide Canon, SortedKeys;
    var ka, kb := SortedKeys(a), SortedKeys(b);
    var ca, cb := CanonKeys(ka, a), CanonKeys(kb, b);
    SortedKeysOf(a);
    SortedKeysOf(b);
    forall i | 0 <= i < |ka| ensures ka[i] == kb[i] { assert ca[i].key == cb[i].key; }
    assert ka == kb;
    forall i, j | 0 <= i < |a| && 0 <= j < |b| && a[i].key == b[j].key
      ensures Same(a[i].value, b[j].value)
    {
      assert HasKey(a, a[i].key);
      var n :| 0 <= n < |ka| && ka[n] == a[i].key;
      assert At(a, ka[n]) == i && At(b, kb[n]) == j;
      assert ca[n] == cb[n];
    }
  }

  lemma {:induction false} SortedKeysOf(fs: seq<Field>)
    requires DistinctKeys(fs)
    ensures Increasing(SortedKeys(fs))
    ensures forall k :: k in SortedKeys(fs) <==> HasKey(fs, k)
  {
    SortProperties(KeysOf(fs));
    forall k ensures k in KeysOf(fs) <==> HasKey(fs, k) {
      if HasKey(fs, k) {
        var i :| 0 <= i < |fs| && fs[i].key == k;
        assert KeysOf(fs)[i] == k;
      }
    }
  }

  /** `stableStringify` is a canonical form: equal texts exactly for values equal up to property order. */
  lemma {:induction false} StringifyCanonical(v: Json, w: Json)
    requires WellFormed(v) && WellFormed(w)
    ensures Stringify(v) == Stringify(w) <==> Same(v, w)
  {
    StringifyPrintsCanon(v);
    StringifyPrintsCanon(w);
    CanonWellFormed(v);
    CanonWellFormed(w);
    PrintInjective(Canon(v), Canon(w));
    SameIffCanonEqual(v, w);
  }

  /* ---------- the pre-image of capsHash ---------- */

  /** The string that is hashed. The digest is taken to be as good as this string. */
  function Preimage(caps: Json, agentVer: Text): Text { Stringify(caps) + agentVer }

  /** Any value but a number can be read off the front of the pre-image; the rest is the version. */
  lemma {:induction false} PreimageReads(caps: Json, agentVer: Text)
    requires WellFormed(caps) && !caps.Num?
    ensures ReadValue(Preimage(caps, agentVer)) == Got(Canon(caps), agentVer)
  {
    StringifyPrintsCanon(caps);
    CanonWellFormed(caps);
    ReadPrinted(Canon(caps), agentVer);
  }

  /** No two versions make the pre-images of `v` and `w` collide unless the values and versions agree. */
  ghost predicate DecodesUniquely(v: Json, w: Json) {
    forall a: Text, b: Text :: Preimage(v, a) == Preimage(w, b) ==> Same(v, w) && a == b
  }

  /** One number text continues the other. */
  predicate NumberExtends(v: Json, w: Json) { v.Num? && w.Num? && (v.text < w.text || w.text < v.text) }

  /** The pre-image is ambiguous for two values exactly when both are numbers and one text extends the other. */
  lemma {:induction false} PreimageUnique(v: Json, w: Json)
    requires WellFormed(v) && WellFormed(w)
    ensures DecodesUniquely(v, w) <==> !NumberExtends(v, w)
  {
    if NumberExtends(v, w) {
      var a := if v.text < w.text then w.text[|v.text|..] else [];
      var b := if v.text < w.text then [] else v.text[|w.text|..];
      assert Preimage(v, a) == Preimage(w, b);
    } else {
      forall a: Text, b: Text | Preimage(v, a) == Preimage(w, b) ensures Same(v, w) && a == b {
        SamePreimage(v, a, w, b);
      }
    }
  }

  lemma {:induction false} SamePreimage(v: Json, a: Text, w: Json, b: Text)
    requires WellFormed(v) && WellFormed(w) && !NumberExtends(v, w)
    requires Preimage(v, a) == Preimage(w, b)
    ensures Same(v, w) && a == b
  {
    if v.Num? && w.Num? {
      var t := Preimage(v, a);
      assert v.text == t[..|v.text|] && w.text == t[..|w.text|];
      assert |v.text| == |w.text|;
      assert a == t[|v.text|..];
    } else {
      CanonWellFormed(v);
      CanonWellFormed(w);
      StringifyPrintsCanon(v);
      StringifyPrintsCanon(w);
      PrintHead(Canon(v));
      PrintHead(Canon(w));
      assert Preimage(v, a)[0] == Print(Canon(v))[0] == Print(Canon(w))[0];
      PreimageReads(v, a);
      PreimageReads(w, b);
      SameIffCanonEqual(v, w);
    }
  }
}
