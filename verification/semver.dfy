/** Version order of `semver.ts`. */
module Semver {
  import opened Texts

  const DOT: Unit := 46
  const LETTER_V: Unit := 118

  predicate Digit(u: Unit) { 48 <= u <= 57 }

  /** White space and line terminators that `parseInt` skips. */
  predicate Space(u: Unit) {
    9 <= u <= 13 || u == 32 || u == 0xA0 || u == 0x1680 || 0x2000 <= u <= 0x200A || u == 0x2028 || u == 0x2029
    || u == 0x202F || u == 0x205F || u == 0x3000 || u == 0xFEFF
  }

  /** The value of the leading digits; 0 when there are none. */
  function DigitsValue(t: Text, acc: nat): nat {
    if t == [] || !Digit(t[0]) then acc else DigitsValue(t[1..], acc * 10 + (t[0] - 48))
  }

  /** `parseInt(t, 10) || 0`. */
  function ParseInt(t: Text): int {
    if t == [] then 0
    else if Space(t[0]) then ParseInt(t[1..])
    else if t[0] == 45 then 0 - DigitsValue(t[1..], 0)
    else if t[0] == 43 then DigitsValue(t[1..], 0)
    else DigitsValue(t, 0)
  }

  /** `t.split('.')`. */
  function Split(t: Text): (parts: seq<Text>)
    ensures parts != []
  {
    if t == [] then [[]]
    else
      var rest := Split(t[1..]);
      if t[0] == DOT then [[]] + rest else [[t[0]] + rest[0]] + rest[1..]
  }

  /** Major, minor and patch; missing parts are 0. */
  function Parse(v: Text): (c: seq<int>)
    ensures |c| == 3
  {
    var parts := Split(if v != [] && v[0] == LETTER_V then v[1..] else v);
    seq(3, i requires 0 <= i < 3 => if i < |parts| then ParseInt(parts[i]) else 0)
  }

  /** The first component that differs decides. */
  predicate Less(a: Text, b: Text) {
    var pa, pb := Parse(a), Parse(b);
    exists i | 0 <= i < 3 :: pa[..i] == pb[..i] && pa[i] < pb[i]
  }

  method SemverLt(a: Text, b: Text) returns (lt: bool)
    ensures lt <==> Less(a, b)
  {
    var pa, pb := Parse(a), Parse(b);
    for i := 0 to 3
      invariant pa[..i] == pb[..i]
    {
      if pa[i] < pb[i] { return true; }
      if pa[i] > pb[i] {
        forall j | 0 <= j < i ensures pa[j] == pb[j] { assert pa[..i][j] == pb[..i][j]; }
        forall j | i < j < 3 ensures pa[..j] != pb[..j] { assert pa[..j][i] != pb[..j][i]; }
        return false;
      }
      assert pa[..i + 1] == pa[..i] + [pa[i]] && pb[..i + 1] == pb[..i] + [pb[i]];
    }
    assert forall j | 0 <= j < 3 :: pa[..3][j] == pb[..3][j];
    return false;
  }

  /** `Less` compares component by component. */
  lemma {:induction false} LessByComponents(a: Text, b: Text)
    ensures var pa, pb := Parse(a), Parse(b);
            Less(a, b) <==>
              || pa[0] < pb[0]
              || (pa[0] == pb[0] && (pa[1] < pb[1] || (pa[1] == pb[1] && pa[2] < pb[2])))
  {
    hide Parse;
    var pa, pb := Parse(a), Parse(b);
    assert pa[..0] == pb[..0];
    assert pa[0] == pb[0] <==> pa[..1] == pb[..1] by {
      assert pa[..1] == [pa[0]] && pb[..1] == [pb[0]];
    }
    assert pa[0] == pb[0] && pa[1] == pb[1] <==> pa[..2] == pb[..2] by {
      assert pa[..2] == [pa[0], pa[1]] && pb[..2] == [pb[0], pb[1]];
    }
  }

  /** A strict weak order: the versions form a line of classes, each class holding the equal triples. */
  lemma {:induction false} LessIsWeakOrder(a: Text, b: Text, c: Text)
    ensures !Less(a, a)
    ensures Less(a, b) && Less(b, c) ==> Less(a, c)
    ensures Less(a, c) ==> Less(a, b) || Less(b, c)
    ensures !Less(a, b) && !Less(b, a) <==> Parse(a) == Parse(b)
  {
    hide Parse, Less;
    LessByComponents(a, a);
    LessByComponents(a, b);
    LessByComponents(b, a);
    LessByComponents(b, c);
    LessByComponents(a, c);
  }

  /* ---------- versions and their numbers ---------- */

  /** A natural number in decimal digits. */
  function Decimal(n: nat): Text { if n < 10 then [48 + n] else Decimal(n / 10) + [48 + n % 10] }

  /** A component: a number and whatever follows it up to the next dot. */
  datatype Part = Part(n: nat, tail: Text)

  predicate ValidPart(p: Part) { DOT !in p.tail && (p.tail != [] ==> !Digit(p.tail[0])) }

  function PartText(p: Part): Text { Decimal(p.n) + p.tail }

  /** The components, joined with dots. */
  function Dotted(parts: seq<Part>): Text
    requires parts != []
  {
    if |parts| == 1 then PartText(parts[0]) else PartText(parts[0]) + [DOT] + Dotted(parts[1..])
  }

  lemma {:induction false} DecimalDigits(n: nat)
    ensures Decimal(n) != [] && forall i | 0 <= i < |Decimal(n)| :: Digit(Decimal(n)[i])
  {
    if n >= 10 { DecimalDigits(n / 10); }
  }

  /** One more digit at the end. */
  lemma {:induction false} DigitsAppend(ds: Text, d: Unit, rest: Text, acc: nat)
    requires (forall i | 0 <= i < |ds| :: Digit(ds[i])) && Digit(d)
    ensures DigitsValue(ds + [d] + rest, acc) == DigitsValue([d] + rest, DigitsValue(ds, acc))
  {
    if ds == [] {
      assert ds + [d] + rest == [d] + rest;
    } else {
      assert (ds + [d] + rest)[1..] == ds[1..] + [d] + rest;
      DigitsAppend(ds[1..], d, rest, acc * 10 + (ds[0] - 48));
    }
  }

  lemma {:induction false} DigitsOfDecimal(n: nat, rest: Text)
    requires rest != [] ==> !Digit(rest[0])
    ensures DigitsValue(Decimal(n) + rest, 0) == n
  {
    if n < 10 {
      assert (Decimal(n) + rest)[1..] == rest;
    } else {
      var ds, d := Decimal(n / 10), 48 + n % 10;
      DecimalDigits(n / 10);
      DigitsAppend(ds, d, rest, 0);
      DigitsOfDecimal(n / 10, []);
      assert ds + [] == ds;
      assert ([d] + rest)[1..] == rest;
      assert Decimal(n) + rest == ds + [d] + rest;
    }
  }

  lemma {:induction false} SkipsSpace(space: Text, t: Text)
    requires forall i | 0 <= i < |space| :: Space(space[i])
    ensures ParseInt(space + t) == ParseInt(t)
  {
    if space == [] {
      assert space + t == t;
    } else {
      assert (space + t)[1..] == space[1..] + t;
      SkipsSpace(space[1..], t);
    }
  }

  lemma {:induction false} NoSpaces(d: Unit)
    requires Digit(d)
    ensures !Space(d) && !Space(43) && !Space(45)
  {
  }

  /** `parseInt` reads a decimal number after white space and a sign, and stops at the first other character. */
  lemma {:induction false} ParseIntReads(space: Text, n: nat, rest: Text)
    requires (forall i | 0 <= i < |space| :: Space(space[i])) && (rest != [] ==> !Digit(rest[0]))
    ensures var t := Decimal(n) + rest;
            && ParseInt(space + t) == ParseInt(space + ([43] + t)) == n
            && ParseInt(space + ([45] + t)) == 0 - n
  {
    hide Decimal;
    var t := Decimal(n) + rest;
    DecimalDigits(n);
    DigitsOfDecimal(n, rest);
    SkipsSpace(space, t);
    SkipsSpace(space, [43] + t);
    SkipsSpace(space, [45] + t);
    assert ([43] + t)[1..] == t && ([45] + t)[1..] == t;
    hide Space;
    assert !Space(t[0]) && !Space(43) && !Space(45) by { NoSpaces(t[0]); }
  }

  lemma {:induction false} SplitAt(a: Text, rest: Text)
    requires DOT !in a
    ensures Split(a) == [a] && Split(a + [DOT] + rest) == [a] + Split(rest)
  {
    if a == [] {
      assert a + [DOT] + rest == [DOT] + rest && ([DOT] + rest)[1..] == rest;
    } else {
      assert (a + [DOT] + rest)[1..] == a[1..] + [DOT] + rest;
      SplitAt(a[1..], rest);
      assert a == [a[0]] + a[1..];
    }
  }

  lemma {:induction false} NoDot(p: Part)
    requires ValidPart(p)
    ensures DOT !in PartText(p)
  {
    DecimalDigits(p.n);
    hide Decimal;
  }

  lemma {:induction false} SplitDotted(parts: seq<Part>)
    requires parts != [] && forall i | 0 <= i < |parts| :: ValidPart(parts[i])
    ensures |Split(Dotted(parts))| == |parts|
    ensures forall i | 0 <= i < |parts| :: Split(Dotted(parts))[i] == PartText(parts[i])
  {
    hide PartText, ValidPart, Split;
    NoDot(parts[0]);
    if |parts| == 1 {
      SplitAt(PartText(parts[0]), []);
    } else {
      SplitDotted(parts[1..]);
      SplitAt(PartText(parts[0]), Dotted(parts[1..]));
    }
  }

  /**
   * A version of any number of components, each a decimal number with whatever follows it, with or without the
   * leading `v`: its numbers are those of the first three components, 0 for the missing ones.
   */
  lemma {:induction false} ParseReads(parts: seq<Part>)
    requires parts != [] && forall i | 0 <= i < |parts| :: ValidPart(parts[i])
    ensures Parse(Dotted(parts)) == Parse([LETTER_V] + Dotted(parts))
    ensures forall i | 0 <= i < 3 :: Parse(Dotted(parts))[i] == if i < |parts| then parts[i].n else 0
  {
    hide Split, ParseInt;
    var t := Dotted(parts);
    assert t != [] && Digit(t[0]) by { DecimalDigits(parts[0].n); }
    assert ([LETTER_V] + t)[1..] == t;
    SplitDotted(parts);
    forall i | 0 <= i < |parts| ensures ParseInt(PartText(parts[i])) == parts[i].n {
      assert ValidPart(parts[i]);
      ParseIntReads([], parts[i].n, parts[i].tail);
      assert [] + (Decimal(parts[i].n) + parts[i].tail) == PartText(parts[i]);
    }
  }

  /** On versions of three numbers the order is the lexicographic order of the numbers. */
  lemma {:induction false} LessOnNumbers(a: (nat, nat, nat), b: (nat, nat, nat))
    ensures Less(Dotted(Plain(a)), Dotted(Plain(b))) <==>
              a.0 < b.0 || (a.0 == b.0 && (a.1 < b.1 || (a.1 == b.1 && a.2 < b.2)))
  {
    hide Less, Parse, Dotted;
    ParseReads(Plain(a));
    ParseReads(Plain(b));
    LessByComponents(Dotted(Plain(a)), Dotted(Plain(b)));
  }

  function Plain(v: (nat, nat, nat)): (parts: seq<Part>)
    ensures |parts| == 3 && forall i | 0 <= i < 3 :: ValidPart(parts[i])
  {
    [Part(v.0, []), Part(v.1, []), Part(v.2, [])]
  }
}
