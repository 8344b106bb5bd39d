/** `Array.prototype.sort`, which is stable, as insertion into a sorted sequence. */
module Sorting {
  function Insert<T>(s: seq<T>, x: T, before: (T, T) -> bool): seq<T> {
    if s == [] then [x]
    else if before(x, s[0]) then [x] + s
    else [s[0]] + Insert(s[1..], x, before)
  }

  function StableSort<T>(s: seq<T>, before: (T, T) -> bool): seq<T> {
    if s == [] then [] else Insert(StableSort(s[..|s| - 1], before), s[|s| - 1], before)
  }

  /** `before` is a strict weak order. */
  ghost predicate Orders<T(!new)>(before: (T, T) -> bool) {
    && (forall a, b :: before(a, b) ==> !before(b, a))
    && (forall a, b, c :: before(a, c) ==> before(a, b) || before(b, c))
  }

  /** Nothing comes after something it belongs before. */
  ghost predicate Sorted<T>(s: seq<T>, before: (T, T) -> bool) {
    forall i, j | 0 <= i < j < |s| :: !before(s[j], s[i])
  }

  lemma {:induction false} InsertPermutes<T>(s: seq<T>, x: T, before: (T, T) -> bool)
    ensures multiset(Insert(s, x, before)) == multiset(s) + multiset{x}
    ensures |Insert(s, x, before)| == |s| + 1
  {
    if s != [] && !before(x, s[0]) {
      InsertPermutes(s[1..], x, before);
      assert s == [s[0]] + s[1..];
    }
  }

  lemma {:induction false} SortPermutes<T>(s: seq<T>, before: (T, T) -> bool)
    ensures multiset(StableSort(s, before)) == multiset(s)
    ensures |StableSort(s, before)| == |s|
  {
    if s != [] {
      var init, x := s[..|s| - 1], s[|s| - 1];
      SortPermutes(init, before);
      InsertPermutes(StableSort(init, before), x, before);
      assert s == init + [x];
    }
  }

  lemma {:induction false} InsertSorted<T(!new)>(s: seq<T>, x: T, before: (T, T) -> bool)
    requires Orders(before) && Sorted(s, before)
    ensures Sorted(Insert(s, x, before), before)
  {
    if s != [] && !before(x, s[0]) {
      InsertSorted(s[1..], x, before);
      InsertPermutes(s[1..], x, before);
      var t := Insert(s[1..], x, before);
      forall j | 0 <= j < |t| ensures !before(t[j], s[0]) {
        assert t[j] in multiset(t);
        assert t[j] == x || t[j] in multiset(s[1..]);
        if t[j] != x {
          var i :| 0 <= i < |s[1..]| && s[1..][i] == t[j];
          assert s[i + 1] == t[j];
        }
      }
    }
  }

  lemma {:induction false} SortSorted<T(!new)>(s: seq<T>, before: (T, T) -> bool)
    requires Orders(before)
    ensures Sorted(StableSort(s, before), before)
  {
    if s != [] {
      SortSorted(s[..|s| - 1], before);
      InsertSorted(StableSort(s[..|s| - 1], before), s[|s| - 1], before);
    }
  }

  /** An element at two places occurs twice. */
  lemma {:induction false} Twice<T>(s: seq<T>, i: nat, j: nat)
    requires i < j < |s| && s[i] == s[j]
    ensures multiset(s)[s[i]] >= 2
  {
    assert s == s[..j] + s[j..];
    assert s[..j][i] == s[i] && s[j..][0] == s[j];
    assert s[i] in multiset(s[..j]) && s[j] in multiset(s[j..]);
  }

  /** The elements that `x` is neither before nor after. */
  function Level<T>(s: seq<T>, x: T, before: (T, T) -> bool): seq<T> {
    if s == [] then []
    else (if before(x, s[0]) || before(s[0], x) then [] else [s[0]]) + Level(s[1..], x, before)
  }

  lemma {:induction false} LevelAppend<T>(s: seq<T>, t: seq<T>, x: T, before: (T, T) -> bool)
    ensures Level(s + t, x, before) == Level(s, x, before) + Level(t, x, before)
  {
    if s == [] {
      assert s + t == t;
    } else {
      assert (s + t)[1..] == s[1..] + t;
      LevelAppend(s[1..], t, x, before);
    }
  }

  /** Everything in a sorted sequence from an element after `y` on is after all that is level with `y`. */
  lemma {:induction false} LevelAfter<T(!new)>(s: seq<T>, y: T, x: T, before: (T, T) -> bool)
    requires Orders(before) && Sorted(s, before) && s != [] && before(y, s[0])
    requires !before(x, y) && !before(y, x)
    ensures Level(s, x, before) == []
  {
    assert before(x, s[0]);
    if |s| > 1 {
      assert !before(s[1], s[0]);
      assert Sorted(s[1..], before);
      LevelAfter(s[1..], y, x, before);
    }
  }

  lemma {:induction false} InsertLevel<T(!new)>(s: seq<T>, y: T, x: T, before: (T, T) -> bool)
    requires Orders(before) && Sorted(s, before)
    ensures Level(Insert(s, y, before), x, before) == Level(s + [y], x, before)
  {
    LevelAppend(s, [y], x, before);
    if s == [] {
      assert s + [y] == [y];
    } else if before(y, s[0]) {
      LevelAppend([y], s, x, before);
      if !before(x, y) && !before(y, x) { LevelAfter(s, y, x, before); }
    } else {
      assert Sorted(s[1..], before);
      InsertLevel(s[1..], y, x, before);
      LevelAppend(s[1..], [y], x, before);
      var t := Insert(s[1..], y, before);
      assert ([s[0]] + t)[1..] == t;
    }
  }

  /** Elements that compare equal keep their order. */
  lemma {:induction false} SortStable<T(!new)>(s: seq<T>, x: T, before: (T, T) -> bool)
    requires Orders(before)
    ensures Level(StableSort(s, before), x, before) == Level(s, x, before)
  {
    if s != [] {
      var init, y := s[..|s| - 1], s[|s| - 1];
      SortStable(init, x, before);
      SortSorted(init, before);
      InsertLevel(StableSort(init, before), y, x, before);
      LevelAppend(StableSort(init, before), [y], x, before);
      LevelAppend(init, [y], x, before);
      assert s == init + [y];
    }
  }
}
