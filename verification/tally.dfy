/** Counting by name in a `Map`, which keeps the order of first appearance. */
module Tally {
  import opened Texts
  import opened Sorting

  datatype Count = Count(name: Text, n: nat)

  /** `m.set(name, (m.get(name) ?? 0) + 1)`. */
  function Bump(t: seq<Count>, name: Text): seq<Count> {
    if t == [] then [Count(name, 1)]
    else if t[0].name == name then [Count(name, t[0].n + 1)] + t[1..]
    else [t[0]] + Bump(t[1..], name)
  }

  function CountOf(t: seq<Count>, name: Text): nat {
    if t == [] then 0 else if t[0].name == name then t[0].n else CountOf(t[1..], name)
  }

  function Total(t: seq<Count>): nat { if t == [] then 0 else t[0].n + Total(t[1..]) }

  /** Each name once, and no name with a count of 0. */
  ghost predicate Proper(t: seq<Count>) {
    && (forall i, j | 0 <= i < j < |t| :: t[i].name != t[j].name)
    && (forall i | 0 <= i < |t| :: t[i].n > 0)
  }

  lemma {:induction false} BumpNames(t: seq<Count>, name: Text)
    ensures forall c | c in Bump(t, name) :: c.name == name || c in t
    ensures Proper(t) ==> Proper(Bump(t, name))
  {
    if t != [] && t[0].name != name {
      BumpNames(t[1..], name);
      var b := Bump(t[1..], name);
      if Proper(t) {
        assert Proper(t[1..]);
        forall j | 0 <= j < |b| ensures b[j].name != t[0].name {
          assert b[j] in b;
          if b[j].name != name {
            var i :| 0 <= i < |t[1..]| && t[1..][i] == b[j];
            assert t[i + 1] == b[j];
          }
        }
      }
    } else if t != [] {
      assert t == [t[0]] + t[1..];
    }
  }

  lemma {:induction false} BumpCounts(t: seq<Count>, name: Text, m: Text)
    ensures CountOf(Bump(t, name), m) == CountOf(t, m) + if m == name then 1 else 0
    ensures Total(Bump(t, name)) == Total(t) + 1
  {
    if t != [] && t[0].name != name { BumpCounts(t[1..], name, m); }
  }

  /** In a proper tally an entry is what is counted for its name. */
  lemma {:induction false} EntryIsCount(t: seq<Count>, c: Count)
    requires Proper(t)
    ensures c in t <==> c.n > 0 && CountOf(t, c.name) == c.n
  {
    if t != [] {
      assert Proper(t[1..]);
      EntryIsCount(t[1..], c);
      assert t == [t[0]] + t[1..];
      if t[0].name == c.name { NotAgain(t, 0); }
    }
  }

  lemma {:induction false} NotAgain(t: seq<Count>, i: nat)
    requires Proper(t) && i < |t|
    ensures forall c | c in t && c.name == t[i].name :: c == t[i]
    ensures i == 0 ==> forall c | c in t[1..] :: c.name != t[0].name
  {
    forall c | c in t && c.name == t[i].name ensures c == t[i] {
      var j :| 0 <= j < |t| && t[j] == c;
    }
  }

  predicate MoreOften(a: Count, b: Count) { a.n > b.n }

  /** The entries, the most frequent first. */
  function Ranked(t: seq<Count>): seq<Count> { StableSort(t, MoreOften) }

  /** Ranking keeps the entries and sorts them by falling count. */
  lemma {:induction false} RankedMeans(t: seq<Count>)
    requires Proper(t)
    ensures multiset(Ranked(t)) == multiset(t)
    ensures forall c :: c in Ranked(t) <==> c.n > 0 && CountOf(t, c.name) == c.n
    ensures forall i, j | 0 <= i < j < |Ranked(t)| :: Ranked(t)[i].n >= Ranked(t)[j].n
  {
    SortPermutes(t, MoreOften);
    SortSorted(t, MoreOften);
    forall c ensures c in Ranked(t) <==> c.n > 0 && CountOf(t, c.name) == c.n {
      assert c in Ranked(t) <==> c in multiset(Ranked(t));
      assert c in t <==> c in multiset(t);
      EntryIsCount(t, c);
    }
    var s := Ranked(t);
    forall i, j | 0 <= i < j < |s| ensures s[i].n >= s[j].n { assert !MoreOften(s[j], s[i]); }
  }

  lemma {:induction false} TotalAppend(s: seq<Count>, c: Count)
    ensures Total(s + [c]) == Total(s) + c.n
  {
    if s == [] {
      assert s + [c] == [c];
    } else {
      assert (s + [c])[1..] == s[1..] + [c];
      TotalAppend(s[1..], c);
    }
  }

  lemma {:induction false} TotalInsert(s: seq<Count>, c: Count)
    ensures Total(Insert(s, c, MoreOften)) == Total(s) + c.n
  {
    if s != [] && !MoreOften(c, s[0]) {
      TotalInsert(s[1..], c);
      assert ([s[0]] + Insert(s[1..], c, MoreOften))[1..] == Insert(s[1..], c, MoreOften);
    }
  }

  /** Ranking loses no count. */
  lemma {:induction false} TotalRanked(t: seq<Count>)
    ensures Total(Ranked(t)) == Total(t)
  {
    if t != [] {
      var init, c := t[..|t| - 1], t[|t| - 1];
      TotalRanked(init);
      TotalInsert(StableSort(init, MoreOften), c);
      TotalAppend(init, c);
      assert t == init + [c];
    }
  }

  /* ---------- tallies of a sequence, and the order of their entries ---------- */

  /** Counting the names one after another. */
  function TallyOf(xs: seq<Text>): seq<Count> {
    if xs == [] then [] else Bump(TallyOf(xs[..|xs| - 1]), xs[|xs| - 1])
  }

  lemma {:induction false} TallyAppend(xs: seq<Text>, x: Text)
    ensures TallyOf(xs + [x]) == Bump(TallyOf(xs), x)
  {
    assert (xs + [x])[..|xs|] == xs;
  }

  /** The names without repetitions, each where it came first: `new Set(xs)`. */
  function FirstOnes(xs: seq<Text>): seq<Text> {
    if xs == [] then []
    else
      var init, x := xs[..|xs| - 1], xs[|xs| - 1];
      if x in init then FirstOnes(init) else FirstOnes(init) + [x]
  }

  function Names(t: seq<Count>): seq<Text> { seq(|t|, i requires 0 <= i < |t| => t[i].name) }

  lemma {:induction false} NamesHead(c: Count, t: seq<Count>)
    ensures Names([c] + t) == [c.name] + Names(t)
  {
  }

  lemma {:induction false} BumpOrder(t: seq<Count>, name: Text)
    ensures Names(Bump(t, name)) == if name in Names(t) then Names(t) else Names(t) + [name]
  {
    hide Names;
    if t == [] {
      assert Names([]) == [] by { NoNames(); }
      NamesHead(Count(name, 1), []);
      assert [Count(name, 1)] + [] == [Count(name, 1)];
    } else {
      assert t == [t[0]] + t[1..];
      NamesHead(t[0], t[1..]);
      NamesHead(Count(name, t[0].n + 1), t[1..]);
      NamesHead(t[0], Bump(t[1..], name));
      BumpOrder(t[1..], name);
    }
  }

  /** A tally lists the names in the order in which they came first. */
  lemma {:induction false} TallyOrder(xs: seq<Text>)
    ensures Names(TallyOf(xs)) == FirstOnes(xs)
    ensures forall x :: x in FirstOnes(xs) <==> x in xs
  {
    hide Bump, Names;
    if xs == [] {
      assert Names([]) == [] by { NoNames(); }
    } else {
      var init, x := xs[..|xs| - 1], xs[|xs| - 1];
      TallyOrder(init);
      BumpOrder(TallyOf(init), x);
      assert xs == init + [x];
    }
  }

  lemma {:induction false} NoNames()
    ensures Names([]) == []
  {
  }

  /** A tally counts each name as often as it occurs. */
  lemma {:induction false} TallyCounts(xs: seq<Text>)
    ensures Proper(TallyOf(xs)) && Total(TallyOf(xs)) == |xs|
    ensures forall x :: CountOf(TallyOf(xs), x) == multiset(xs)[x]
  {
    hide Proper, CountOf, Total, Bump;
    if xs == [] {
      NothingCounted();
    } else {
      var init, x := xs[..|xs| - 1], xs[|xs| - 1];
      TallyCounts(init);
      BumpNames(TallyOf(init), x);
      assert xs == init + [x];
      forall y ensures CountOf(TallyOf(xs), y) == multiset(xs)[y] { BumpCounts(TallyOf(init), x, y); }
      BumpCounts(TallyOf(init), x, x);
    }
  }

  lemma {:induction false} NothingCounted()
    ensures Proper([]) && Total([]) == 0 && forall x :: CountOf([], x) == 0
  {
  }

  /** Where a name comes first. */
  function FirstIndex(xs: seq<Text>, x: Text): nat { if xs == [] || xs[0] == x then 0 else 1 + FirstIndex(xs[1..], x) }

  lemma {:induction false} FirstIndexIs(xs: seq<Text>, i: nat)
    requires i < |xs| && forall j | 0 <= j < i :: xs[j] != xs[i]
    ensures FirstIndex(xs, xs[i]) == i
  {
    if i > 0 { FirstIndexIs(xs[1..], i - 1); }
  }

  /** The names in `f` come first in `xs` in this order. */
  ghost predicate InOrder(f: seq<Text>, xs: seq<Text>) {
    && (forall i | 0 <= i < |f| :: f[i] in xs && FirstIndex(xs, f[i]) < |xs|)
    && (forall i, j | 0 <= i < j < |f| :: FirstIndex(xs, f[i]) < FirstIndex(xs, f[j]))
  }

  /** The order without repetitions is the order in which the names come first. */
  lemma {:induction false} FirstOnesOrdered(xs: seq<Text>)
    ensures InOrder(FirstOnes(xs), xs)
  {
    hide InOrder;
    if xs == [] {
      assert InOrder([], []) by { NothingInOrder(); }
    } else {
      var init, x := xs[..|xs| - 1], xs[|xs| - 1];
      FirstOnesOrdered(init);
      assert xs == init + [x];
      OrderGrows(FirstOnes(init), init, x);
    }
  }

  lemma {:induction false} NothingInOrder()
    ensures InOrder([], [])
  {
  }

  lemma {:induction false} OrderGrows(f: seq<Text>, xs: seq<Text>, x: Text)
    requires InOrder(f, xs)
    ensures InOrder(if x in xs then f else f + [x], xs + [x])
  {
    hide FirstIndex;
    var ys := xs + [x];
    forall i | 0 <= i < |f| ensures FirstIndex(ys, f[i]) == FirstIndex(xs, f[i]) && f[i] in ys {
      FirstIndexAppend(xs, x, f[i]);
    }
    if x !in xs {
      forall j | 0 <= j < |xs| ensures ys[j] != ys[|xs|] { assert ys[j] == xs[j] && xs[j] in xs; }
      FirstIndexIs(ys, |xs|);
    }
  }

  lemma {:induction false} FirstIndexAppend(xs: seq<Text>, x: Text, y: Text)
    requires y in xs
    ensures FirstIndex(xs + [x], y) == FirstIndex(xs, y)
  {
    if xs[0] != y {
      assert (xs + [x])[1..] == xs[1..] + [x];
      assert xs == [xs[0]] + xs[1..];
      FirstIndexAppend(xs[1..], x, y);
    }
  }

  /** The order of the ranking with ties broken by where the names come first. */
  function Finer(xs: seq<Text>): (Count, Count) -> bool {
    (a: Count, b: Count) => a.n > b.n || (a.n == b.n && FirstIndex(xs, a.name) < FirstIndex(xs, b.name))
  }

  lemma {:induction false} FinerOrders(xs: seq<Text>)
    ensures Orders(Finer(xs))
  {
  }

  lemma {:induction false} InsertLast(s: seq<Count>, c: Count, xs: seq<Text>)
    requires forall i | 0 <= i < |s| :: FirstIndex(xs, s[i].name) < FirstIndex(xs, c.name)
    ensures Insert(s, c, MoreOften) == Insert(s, c, Finer(xs))
  {
    hide FirstIndex;
    if s != [] { InsertLast(s[1..], c, xs); }
  }

  /** Sorting entries that stand in the order of first appearance keeps that order among ties. */
  lemma {:induction false} SortsFiner(t: seq<Count>, xs: seq<Text>)
    requires forall i, j | 0 <= i < j < |t| :: FirstIndex(xs, t[i].name) < FirstIndex(xs, t[j].name)
    ensures StableSort(t, MoreOften) == StableSort(t, Finer(xs))
  {
    hide FirstIndex, Finer, MoreOften, Insert;
    if t != [] {
      var init, c := t[..|t| - 1], t[|t| - 1];
      SortsFiner(init, xs);
      var s := StableSort(init, Finer(xs));
      SortPermutes(init, Finer(xs));
      forall i | 0 <= i < |s| ensures FirstIndex(xs, s[i].name) < FirstIndex(xs, c.name) {
        assert s[i] in multiset(s);
        assert s[i] in init;
      }
      InsertLast(s, c, xs);
    }
  }

  /** In a ranked tally of a sequence, entries with equal counts stand in the order in which their names came first. */
  lemma {:induction false} TiesByFirstAppearance(xs: seq<Text>)
    ensures var v := Ranked(TallyOf(xs));
            forall i, j | 0 <= i < j < |v| :: v[i].n > v[j].n
                || (v[i].n == v[j].n && FirstIndex(xs, v[i].name) <= FirstIndex(xs, v[j].name))
  {
    var t := TallyOf(xs);
    TallyOrder(xs);
    FirstOnesOrdered(xs);
    forall i, j | 0 <= i < j < |t| ensures FirstIndex(xs, t[i].name) < FirstIndex(xs, t[j].name) {
      assert Names(t)[i] == t[i].name && Names(t)[j] == t[j].name;
    }
    SortsFiner(t, xs);
    FinerOrders(xs);
    SortSorted(t, Finer(xs));
    var v := Ranked(t);
    forall i, j | 0 <= i < j < |v|
      ensures v[i].n > v[j].n || (v[i].n == v[j].n && FirstIndex(xs, v[i].name) <= FirstIndex(xs, v[j].name))
    {
      assert !Finer(xs)(v[j], v[i]);
    }
  }
}
