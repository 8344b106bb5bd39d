/** `allow`: INCR, and EXPIRE on the first hit of a key lifetime. */
module RateLimit {
  import opened Options

  /** A live counter: hits so far, and when its lifetime began. */
  datatype Counter = Counter(hits: nat, start: int)

  /** One call: when it came, whether it was allowed, and the lifetime it fell into. */
  datatype Call = Call(at: int, allowed: bool, start: int)

  class Limiter {
    const max: nat
    const windowSec: nat
    var counter: Option<Counter>
    ghost var calls: seq<Call>

    constructor (max: nat, windowSec: nat)
      requires windowSec > 0
      ensures this.max == max && this.windowSec == windowSec && counter == None && calls == []
    {
      this.max, this.windowSec, counter, calls := max, windowSec, None, [];
    }

    /** The calls so far are a run of the limiter that has led to its present counter. */
    ghost predicate Valid() reads this {
      windowSec > 0 && IsRun(max, windowSec, calls) && counter == After(calls)
    }

    /** A key whose lifetime is over is gone when the call comes. */
    method Allow(now: int) returns (ok: bool)
      requires Valid() && (calls != [] ==> calls[|calls| - 1].at <= now)
      modifies this`counter, this`calls
      ensures Valid()
      ensures counter.Some?
      ensures calls == old(calls) + [Call(now, ok, counter.value.start)]
    {
      hide IsRun, After;
      ghost var before := calls;
      if counter.Some? && counter.value.start + windowSec <= now { counter := None; }
      var n := (if counter.Some? then counter.value.hits else 0) + 1;
      counter := if n == 1 then Some(Counter(1, now)) else Some(counter.value.(hits := n));
      ok := n <= max;
      calls := before + [Call(now, ok, counter.value.start)];
      NextCall(max, windowSec, before, now);
    }
  }

  /** The answer to a call at `now`, computed from the counter that the calls so far have left. */
  lemma {:induction false} NextCall(max: nat, windowSec: nat, cs: seq<Call>, now: int)
    requires windowSec > 0 && IsRun(max, windowSec, cs) && (cs != [] ==> cs[|cs| - 1].at <= now)
    ensures After(cs).Some? ==> After(cs).value.hits >= 1
    ensures var k := After(cs);
            var live := k.Some? && now < k.value.start + windowSec;
            var next := if live then Counter(k.value.hits + 1, k.value.start) else Counter(1, now);
            var all := cs + [Call(now, next.hits <= max, next.start)];
            IsRun(max, windowSec, all) && After(all) == Some(next)
  {
    hide IsRun;
    var live := cs != [] && now < cs[|cs| - 1].start + windowSec;
    var start := if live then cs[|cs| - 1].start else now;
    RunExtends(max, windowSec, cs, Call(now, (if live then Hits(cs) + 1 else 1) <= max, start));
  }

  /** The hits of the lifetime that the last call belongs to. */
  ghost function Hits(cs: seq<Call>): nat {
    if cs == [] then 0
    else if |cs| >= 2 && cs[|cs| - 2].start == cs[|cs| - 1].start then Hits(cs[..|cs| - 1]) + 1
    else 1
  }

  ghost function After(cs: seq<Call>): Option<Counter> {
    if cs == [] then None else Some(Counter(Hits(cs), cs[|cs| - 1].start))
  }

  /** `c` is what a limiter answers after `cs`. */
  ghost predicate Follows(max: nat, windowSec: nat, cs: seq<Call>, c: Call) {
    var live := cs != [] && c.at < cs[|cs| - 1].start + windowSec;
    && (cs != [] ==> cs[|cs| - 1].at <= c.at)
    && c.start == (if live then cs[|cs| - 1].start else c.at)
    && (c.allowed <==> (if live then Hits(cs) + 1 else 1) <= max)
  }

  ghost predicate IsRun(max: nat, windowSec: nat, cs: seq<Call>) {
    forall i | 0 <= i < |cs| :: Follows(max, windowSec, cs[..i], cs[i])
  }

  lemma {:induction false} RunExtends(max: nat, windowSec: nat, cs: seq<Call>, c: Call)
    requires windowSec > 0 && IsRun(max, windowSec, cs) && Follows(max, windowSec, cs, c)
    ensures IsRun(max, windowSec, cs + [c])
    ensures var live := cs != [] && c.at < cs[|cs| - 1].start + windowSec;
            After(cs + [c]) == Some(Counter(if live then Hits(cs) + 1 else 1, c.start))
  {
    hide Follows, Hits;
    HitsAppend(cs, c);
    var all := cs + [c];
    assert all[..|cs|] == cs;
    forall i | 0 <= i < |all| ensures Follows(max, windowSec, all[..i], all[i]) {
      if i < |cs| { assert all[..i] == cs[..i] && all[i] == cs[i]; }
    }
    StartsBehind(max, windowSec, cs);
    FollowsStart(max, windowSec, cs, c);
  }

  lemma {:induction false} HitsAppend(cs: seq<Call>, c: Call)
    ensures Hits(cs + [c]) == if cs != [] && cs[|cs| - 1].start == c.start then Hits(cs) + 1 else 1
  {
    assert (cs + [c])[..|cs|] == cs;
  }

  lemma {:induction false} FollowsStart(max: nat, windowSec: nat, cs: seq<Call>, c: Call)
    requires Follows(max, windowSec, cs, c)
    ensures cs != [] ==> cs[|cs| - 1].at <= c.at
    ensures c.start == if cs != [] && c.at < cs[|cs| - 1].start + windowSec then cs[|cs| - 1].start else c.at
  {
  }

  /** A lifetime holds the call it was found for. */
  lemma {:induction false} StartsBehind(max: nat, windowSec: nat, cs: seq<Call>)
    requires windowSec > 0 && IsRun(max, windowSec, cs)
    ensures forall i | 0 <= i < |cs| :: cs[i].start <= cs[i].at < cs[i].start + windowSec
  {
    for n := 0 to |cs|
      invariant forall i | 0 <= i < n :: cs[i].start <= cs[i].at < cs[i].start + windowSec
    {
      assert Follows(max, windowSec, cs[..n], cs[n]);
    }
  }

  /** Allowed calls of one lifetime. */
  ghost function AllowedIn(cs: seq<Call>, start: int): nat {
    if cs == [] then 0
    else AllowedIn(cs[..|cs| - 1], start) + if cs[|cs| - 1].allowed && cs[|cs| - 1].start == start then 1 else 0
  }

  /** Allowed calls at times from `a` up to, not including, `b`. */
  ghost function AllowedBetween(cs: seq<Call>, a: int, b: int): nat {
    if cs == [] then 0
    else AllowedBetween(cs[..|cs| - 1], a, b) + if cs[|cs| - 1].allowed && a <= cs[|cs| - 1].at < b then 1 else 0
  }

  ghost function Min(x: nat, y: nat): nat { if x < y then x else y }

  lemma {:induction false} RunPrefix(max: nat, windowSec: nat, cs: seq<Call>)
    requires cs != [] && IsRun(max, windowSec, cs)
    ensures IsRun(max, windowSec, cs[..|cs| - 1]) && Follows(max, windowSec, cs[..|cs| - 1], cs[|cs| - 1])
  {
    hide Follows;
    var before := cs[..|cs| - 1];
    forall i | 0 <= i < |before| ensures Follows(max, windowSec, before[..i], before[i]) {
      assert before[..i] == cs[..i];
    }
  }

  /** Lifetimes come one after the other. */
  lemma {:induction false} StartsOrdered(max: nat, windowSec: nat, cs: seq<Call>)
    requires windowSec > 0 && IsRun(max, windowSec, cs)
    ensures forall i | 0 <= i < |cs| ::
              cs[i].start == cs[|cs| - 1].start || cs[i].start + windowSec <= cs[|cs| - 1].start
  {
    hide Follows;
    if |cs| >= 2 {
      var before := cs[..|cs| - 1];
      RunPrefix(max, windowSec, cs);
      StartsOrdered(max, windowSec, before);
      FollowsStart(max, windowSec, before, cs[|cs| - 1]);
      StartsBehind(max, windowSec, cs);
      forall i | 0 <= i < |before|
        ensures cs[i].start == cs[|cs| - 1].start || cs[i].start + windowSec <= cs[|cs| - 1].start
      {
        assert cs[i] == before[i] && before[|before| - 1] == cs[|cs| - 2];
      }
    }
  }

  /** Each lifetime allows as many calls as it has hits, up to `max`; a closed one stays where it was. */
  lemma {:induction false} LifetimeBound(max: nat, windowSec: nat, cs: seq<Call>, start: int)
    requires windowSec > 0 && IsRun(max, windowSec, cs)
    ensures AllowedIn(cs, start) <= max
    ensures cs != [] && start == cs[|cs| - 1].start ==> AllowedIn(cs, start) == Min(Hits(cs), max)
    ensures (forall i | 0 <= i < |cs| :: cs[i].start != start) ==> AllowedIn(cs, start) == 0
  {
    if cs != [] {
      var before, c := cs[..|cs| - 1], cs[|cs| - 1];
      RunPrefix(max, windowSec, cs);
      LifetimeBound(max, windowSec, before, start);
      StartsOrdered(max, windowSec, cs);
      StartsOrdered(max, windowSec, before);
      StartsBehind(max, windowSec, cs);
      if before != [] {
        assert before[|before| - 1] == cs[|cs| - 2];
        if c.start != before[|before| - 1].start {
          forall i | 0 <= i < |before| ensures before[i].start != c.start {
            assert before[i] == cs[i];
          }
        }
      }
    }
  }

  /** Two lifetimes are equal or at least a window apart. */
  lemma {:induction false} PairwiseStarts(max: nat, windowSec: nat, cs: seq<Call>)
    requires windowSec > 0 && IsRun(max, windowSec, cs)
    ensures forall i, j | 0 <= i < |cs| && 0 <= j < |cs| ::
              || cs[i].start == cs[j].start
              || cs[i].start + windowSec <= cs[j].start || cs[j].start + windowSec <= cs[i].start
  {
    hide Follows;
    forall i, j | 0 <= i <= j < |cs|
      ensures cs[i].start == cs[j].start || cs[i].start + windowSec <= cs[j].start
    {
      var pre := cs[..j + 1];
      forall k | 0 <= k < |pre| ensures Follows(max, windowSec, pre[..k], pre[k]) {
        assert pre[..k] == cs[..k];
      }
      StartsOrdered(max, windowSec, pre);
      assert pre[i] == cs[i] && pre[j] == cs[j];
    }
  }

  /** Every lifetime begins with a call of its own, allowed unless nothing is. */
  lemma {:induction false} FirstOfLifetime(max: nat, windowSec: nat, cs: seq<Call>, i: nat) returns (f: nat)
    requires windowSec > 0 && IsRun(max, windowSec, cs) && i < |cs|
    ensures f <= i && cs[f].start == cs[i].start == cs[f].at
    ensures cs[f].allowed <==> 1 <= max
    decreases i
  {
    assert Follows(max, windowSec, cs[..i], cs[i]);
    if i > 0 && cs[i].start == cs[i - 1].start {
      f := FirstOfLifetime(max, windowSec, cs, i - 1);
    } else {
      f := i;
      if i > 0 {
        assert cs[..i][i - 1] == cs[i - 1];
      }
    }
  }

  /** The calls from `a` on, for one window, fall into lifetimes `s1` and `s2`. */
  ghost predicate Covers(cs: seq<Call>, a: int, windowSec: nat, s1: int, s2: int) {
    forall i | 0 <= i < |cs| && a <= cs[i].at < a + windowSec :: cs[i].start == s1 || cs[i].start == s2
  }

  /** The first call of lifetime `s` came before the window and was allowed. */
  ghost predicate FirstOutside(cs: seq<Call>, a: int, s: int) {
    exists f :: 0 <= f < |cs| && cs[f].start == s && cs[f].at < a && cs[f].allowed
  }

  lemma {:induction false} OutsideEarlier(cs: seq<Call>, a: int, s: int)
    requires cs != [] && FirstOutside(cs, a, s)
    ensures var c := cs[|cs| - 1]; FirstOutside(cs[..|cs| - 1], a, s) || (c.start == s && c.at < a && c.allowed)
  {
    var f :| 0 <= f < |cs| && cs[f].start == s && cs[f].at < a && cs[f].allowed;
    if f < |cs| - 1 { assert cs[..|cs| - 1][f] == cs[f]; }
  }

  lemma {:induction false} BetweenByLifetimes(cs: seq<Call>, a: int, windowSec: nat, s1: int, s2: int)
    requires s1 != s2 && Covers(cs, a, windowSec, s1, s2)
    ensures AllowedBetween(cs, a, a + windowSec) + (if FirstOutside(cs, a, s1) then 1 else 0) <=
            AllowedIn(cs, s1) + AllowedIn(cs, s2)
  {
    if cs != [] {
      var before := cs[..|cs| - 1];
      forall i | 0 <= i < |before| && a <= before[i].at < a + windowSec
        ensures before[i].start == s1 || before[i].start == s2
      {
        assert before[i] == cs[i];
      }
      BetweenByLifetimes(before, a, windowSec, s1, s2);
      if FirstOutside(cs, a, s1) { OutsideEarlier(cs, a, s1); }
    }
  }

  lemma {:induction false} BetweenInLifetime(cs: seq<Call>, a: int, windowSec: nat, s: int)
    requires Covers(cs, a, windowSec, s, s)
    ensures AllowedBetween(cs, a, a + windowSec) <= AllowedIn(cs, s)
  {
    if cs != [] {
      var before := cs[..|cs| - 1];
      forall i | 0 <= i < |before| && a <= before[i].at < a + windowSec ensures before[i].start == s {
        assert before[i] == cs[i];
      }
      BetweenInLifetime(before, a, windowSec, s);
    }
  }

  /**
   * An interval as long as the window meets at most two lifetimes, and the first call of the earlier one lies
   * outside.
   */
  lemma {:induction false} TwoLifetimes(max: nat, windowSec: nat, cs: seq<Call>, a: int)
    requires windowSec > 0 && IsRun(max, windowSec, cs)
    ensures AllowedBetween(cs, a, a + windowSec) <= if max == 0 then 0 else 2 * max - 1
  {
    hide Follows;
    StartsBehind(max, windowSec, cs);
    PairwiseStarts(max, windowSec, cs);
    if i, j :| 0 <= i < |cs| && 0 <= j < |cs| && a <= cs[i].at < a + windowSec && a <= cs[j].at < a + windowSec
               && cs[i].start < cs[j].start {
      var s1, s2 := cs[i].start, cs[j].start;
      var f := FirstOfLifetime(max, windowSec, cs, i);
      assert max > 0 ==> FirstOutside(cs, a, s1);
      BetweenByLifetimes(cs, a, windowSec, s1, s2);
      LifetimeBound(max, windowSec, cs, s1);
      LifetimeBound(max, windowSec, cs, s2);
    } else {
      var s := if i :| 0 <= i < |cs| && a <= cs[i].at < a + windowSec then cs[i].start else 0;
      BetweenInLifetime(cs, a, windowSec, s);
      LifetimeBound(max, windowSec, cs, s);
    }
  }

  /** The most allowed calls that fit into a window: with a window of one unit, only those of one lifetime. */
  function MostAllowed(max: nat, windowSec: nat): nat {
    if max == 0 then 0 else if windowSec == 1 then max else 2 * max - 1
  }

  /** In every run any half-open interval as long as the window contains at most `MostAllowed` allowed calls. */
  lemma {:induction false} WindowBound(max: nat, windowSec: nat, cs: seq<Call>, a: int)
    requires windowSec > 0 && IsRun(max, windowSec, cs)
    ensures AllowedBetween(cs, a, a + windowSec) <= MostAllowed(max, windowSec)
  {
    TwoLifetimes(max, windowSec, cs, a);
    if windowSec == 1 {
      StartsBehind(max, windowSec, cs);
      BetweenInLifetime(cs, a, windowSec, a);
      LifetimeBound(max, windowSec, cs, a);
    }
  }

  /** One call at 0, and `n - 1` in the last unit of its lifetime. */
  function Filled(windowSec: nat, n: nat): seq<Call> {
    if n == 0 then []
    else Filled(windowSec, n - 1) + [Call(if n == 1 then 0 else windowSec - 1, true, 0)]
  }

  /** A filled lifetime, and `n` calls right at the beginning of the next. */
  function Burst(max: nat, windowSec: nat, n: nat): seq<Call> {
    if n == 0 then Filled(windowSec, max) else Burst(max, windowSec, n - 1) + [Call(windowSec, true, windowSec)]
  }

  lemma {:induction false} BetweenAppend(cs: seq<Call>, c: Call, a: int, b: int)
    ensures AllowedBetween(cs + [c], a, b) == AllowedBetween(cs, a, b) + if c.allowed && a <= c.at < b then 1 else 0
  {
    assert (cs + [c])[..|cs|] == cs;
  }

  lemma {:induction false} FilledRuns(max: nat, windowSec: nat, n: nat)
    requires windowSec > 0 && n <= max
    ensures var cs := Filled(windowSec, n);
            && IsRun(max, windowSec, cs) && |cs| == n && After(cs) == (if n == 0 then None else Some(Counter(n, 0)))
            && (n > 0 ==> cs[n - 1].at <= windowSec - 1)
  {
    hide IsRun, Hits, Follows, After;
    if n == 0 {
      EmptyRun(max, windowSec);
    } else {
      var cs, c := Filled(windowSec, n - 1), Call(if n == 1 then 0 else windowSec - 1, true, 0);
      FilledRuns(max, windowSec, n - 1);
      CallFollows(max, windowSec, cs, c, n);
      RunExtends(max, windowSec, cs, c);
      AfterLast(cs);
    }
  }

  /** A call in the lifetime that `After` tells of is its next hit; any other call is the first of a new one. */
  lemma {:induction false} CallFollows(max: nat, windowSec: nat, cs: seq<Call>, c: Call, n: nat)
    requires cs != [] ==> cs[|cs| - 1].at <= c.at
    requires c.allowed && n <= max
    requires if After(cs) == None || After(cs).value.start + windowSec <= c.at then c.start == c.at && n == 1
             else c.start == After(cs).value.start && n == After(cs).value.hits + 1
    ensures Follows(max, windowSec, cs, c)
  {
    hide Hits;
  }

  lemma {:induction false} AfterLast(cs: seq<Call>)
    ensures After(cs) == None <==> cs == []
    ensures cs != [] ==> After(cs).value == Counter(Hits(cs), cs[|cs| - 1].start)
  {
    hide Hits;
  }

  lemma {:induction false} FilledBetween(windowSec: nat, n: nat)
    requires windowSec > 0
    ensures AllowedBetween(Filled(windowSec, n), windowSec - 1, 2 * windowSec - 1) ==
            if n == 0 || windowSec == 1 then n else n - 1
  {
    hide AllowedBetween;
    if n == 0 {
      NothingBetween(windowSec - 1, 2 * windowSec - 1);
    } else {
      FilledBetween(windowSec, n - 1);
      BetweenAppend(Filled(windowSec, n - 1), Call(if n == 1 then 0 else windowSec - 1, true, 0), windowSec - 1,
          2 * windowSec - 1);
    }
  }

  lemma {:induction false} NothingBetween(a: int, b: int)
    ensures AllowedBetween([], a, b) == 0
  {
  }

  lemma {:induction false} EmptyRun(max: nat, windowSec: nat)
    ensures IsRun(max, windowSec, []) && After([]) == None
  {
  }

  lemma {:induction false} BurstRuns(max: nat, windowSec: nat, n: nat)
    requires windowSec > 0 && 1 <= max && n <= max
    ensures var cs := Burst(max, windowSec, n);
            && IsRun(max, windowSec, cs) && cs != [] && cs[|cs| - 1].at <= windowSec
            && After(cs) == (if n == 0 then Some(Counter(max, 0)) else Some(Counter(n, windowSec)))
  {
    hide IsRun, Hits, Follows, After, Filled;
    if n == 0 {
      FilledRuns(max, windowSec, max);
    } else {
      var cs, c := Burst(max, windowSec, n - 1), Call(windowSec, true, windowSec);
      BurstRuns(max, windowSec, n - 1);
      CallFollows(max, windowSec, cs, c, n);
      RunExtends(max, windowSec, cs, c);
      AfterLast(cs);
    }
  }

  lemma {:induction false} BurstBetween(max: nat, windowSec: nat, n: nat)
    requires windowSec > 0 && 1 <= max
    ensures AllowedBetween(Burst(max, windowSec, n), windowSec - 1, 2 * windowSec - 1) ==
            if windowSec == 1 then max else max - 1 + n
  {
    hide AllowedBetween, Filled;
    if n == 0 {
      FilledBetween(windowSec, max);
    } else {
      BurstBetween(max, windowSec, n - 1);
      BetweenAppend(Burst(max, windowSec, n - 1), Call(windowSec, true, windowSec), windowSec - 1, 2 * windowSec - 1);
    }
  }

  /** The bound is the best one, for every limit and every window: some run reaches it. */
  lemma {:induction false} WindowBoundReached(max: nat, windowSec: nat) returns (cs: seq<Call>, a: int)
    requires windowSec > 0
    ensures IsRun(max, windowSec, cs) && AllowedBetween(cs, a, a + windowSec) == MostAllowed(max, windowSec)
  {
    hide IsRun, Burst;
    if max == 0 {
      EmptyRun(max, windowSec);
      cs, a := [], 0;
    } else {
      BurstRuns(max, windowSec, max);
      BurstBetween(max, windowSec, max);
      cs, a := Burst(max, windowSec, max), windowSec - 1;
    }
  }
}
