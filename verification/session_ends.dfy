/**
 * The device lock when sessions end: an API close or a relay teardown deletes the lock without asking whose it is,
 * as often as it happens; so does the removal of the device; and the key expires.
 */
module SessionEnds {
  import opened Options
  import opened SessionLock

  /**
   * `ended` are the sessions that have been closed or torn down at least once, `removals` what each removal of the
   * device that is under way has read from the lock.
   */
  datatype World = World(sys: Sys, ended: set<nat>, removals: map<nat, Option<nat>>)

  datatype Act = Take(step: Step) | End(sid: nat) | Look(removal: nat) | Drop(removal: nat) | Expire

  /** The session row is there, so the session can be closed: from the insert on, whatever becomes of the call. */
  predicate HasRow(pc: Pc) {
    match pc
    case Claim => false
    case ReadState => false
    case InsertRow => false
    case UnlockNotReady => false
    case GetLock => false
    case GetHash(_) => false
    case Done(r) => r == Started || r == Failed
    case _ => true
  }

  ghost predicate ActNext(a: World, b: World, act: Act) {
    match act
    case Take(st) => SessionLock.Next(a.sys, b.sys, st) && b == a.(sys := b.sys)
    case End(p) =>
      && p in a.sys.calls && HasRow(a.sys.calls[p].pc)
      && b == a.(sys := a.sys.(lock := None, hashes := a.sys.hashes - {p}), ended := a.ended + {p})
    case Look(r) => r !in a.removals && b == a.(removals := a.removals[r := a.sys.lock])
    case Drop(r) =>
      && r in a.removals
      && var hashes := match a.removals[r] case Some(p) => a.sys.hashes - {p} case None => a.sys.hashes;
         b == a.(sys := a.sys.(lock := None, hashes := hashes), removals := a.removals - {r})
    case Expire => b == a.(sys := a.sys.(lock := None))
  }

  ghost predicate IsActRun(run: seq<World>, acts: seq<Act>) {
    && |run| == |acts| + 1
    && run[0] == World(Sys(None, map[], map[]), {}, map[])
    && forall i | 0 <= i < |acts| :: ActNext(run[i], run[i + 1], acts[i])
  }

  /** The call is inside the critical section, or its session runs: it won the lock and has not ended. */
  ghost predicate Live(a: World, p: nat) { p in a.sys.calls && Critical(a.sys.calls[p].pc) && p !in a.ended }

  /** Whoever is live holds the lock. */
  ghost predicate Exclusive(a: World) { forall p: nat | Live(a, p) :: a.sys.lock == Some(p) }

  /** A held lock belongs to a live call, and only sessions with a row have ended. */
  ghost predicate HeldByLive(a: World) {
    && (a.sys.lock.Some? ==> Live(a, a.sys.lock.value))
    && (forall p | p in a.ended :: p in a.sys.calls && HasRow(a.sys.calls[p].pc))
  }

  /** The lock is deleted only while it is free, or on behalf of the call that holds it. */
  ghost predicate Clean(a: World, act: Act) {
    match act
    case Take(Run(p, _)) =>
      p in a.sys.calls && (a.sys.calls[p].pc.UnlockFailed? || a.sys.calls[p].pc.UnlockNotReady?) ==>
        a.sys.lock.None? || a.sys.lock == Some(p)
    case Take(_) => true
    case End(p) => a.sys.lock.None? || a.sys.lock == Some(p)
    case Look(_) => true
    case Drop(_) => a.sys.lock.None?
    case Expire => a.sys.lock.None?
  }

  lemma {:induction false} HeldKept(a: World, b: World, act: Act)
    requires HeldByLive(a) && ActNext(a, b, act)
    ensures HeldByLive(b)
  {
    match act
    case Take(st) => HeldTaken(a, b, st);
    case _ =>
  }

  lemma {:induction false} HeldTaken(a: World, b: World, st: Step)
    requires HeldByLive(a) && ActNext(a, b, Take(st))
    ensures HeldByLive(b)
  {
    hide HasRow, Live, ActNext;
    if b.sys.lock.Some? { HolderTaken(a, b, st); }
    forall p | p in b.ended ensures p in b.sys.calls && HasRow(b.sys.calls[p].pc) {
      RowTaken(a, b, st, p);
    }
  }

  lemma {:induction false} HolderTaken(a: World, b: World, st: Step)
    requires HeldByLive(a) && ActNext(a, b, Take(st)) && b.sys.lock.Some?
    ensures Live(b, b.sys.lock.value)
  {
  }

  lemma {:induction false} RowTaken(a: World, b: World, st: Step, p: nat)
    requires HeldByLive(a) && ActNext(a, b, Take(st)) && p in b.ended
    ensures p in b.sys.calls && HasRow(b.sys.calls[p].pc)
  {
    hide Live;
  }

  /** From an exclusive state one step leads to an exclusive state if and only if it is clean. */
  lemma {:induction false} CleanKeeps(a: World, b: World, act: Act)
    requires Exclusive(a) && HeldByLive(a) && ActNext(a, b, act)
    ensures Exclusive(b) <==> Clean(a, act)
  {
    match act
    case Take(Arrive(p, op)) =>
    case Take(Run(p, ok)) => TakeKeeps(a, b, p, ok);
    case End(p) => if a.sys.lock.Some? && a.sys.lock != Some(p) { assert Live(b, a.sys.lock.value); }
    case Look(_) =>
    case Drop(_) => if a.sys.lock.Some? { assert Live(b, a.sys.lock.value); }
    case Expire => if a.sys.lock.Some? { assert Live(b, a.sys.lock.value); }
  }

  lemma {:induction false} TakeKeeps(a: World, b: World, p: nat, ok: bool)
    requires Exclusive(a) && HeldByLive(a) && ActNext(a, b, Take(Run(p, ok)))
    ensures Exclusive(b) <==> Clean(a, Take(Run(p, ok)))
  {
    var pc := a.sys.calls[p].pc;
    if pc.UnlockFailed? || pc.UnlockNotReady? {
      if a.sys.lock.Some? && a.sys.lock != Some(p) { assert Live(b, a.sys.lock.value); }
    }
    forall q: nat | Live(b, q) && q != p ensures Live(a, q) {}
  }

  lemma {:induction false} HeldInRuns(run: seq<World>, acts: seq<Act>)
    requires IsActRun(run, acts)
    ensures forall i | 0 <= i < |run| :: HeldByLive(run[i])
  {
    hide ActNext;
    for n := 0 to |acts|
      invariant forall i | 0 <= i <= n :: HeldByLive(run[i])
    {
      HeldKept(run[n], run[n + 1], acts[n]);
    }
  }

  /**
   * In every run of starts, closes, teardowns, removals and expiries the lock is exclusive throughout if and only if
   * every step that deletes it finds it free or held by the call it deletes it for.
   */
  lemma {:induction false} ExclusiveIff(run: seq<World>, acts: seq<Act>)
    requires IsActRun(run, acts)
    ensures (forall i | 0 <= i < |run| :: Exclusive(run[i])) <==> (forall i | 0 <= i < |acts| :: Clean(run[i], acts[i]))
  {
    hide ActNext, Exclusive, HeldByLive, Clean;
    HeldInRuns(run, acts);
    assert Exclusive(run[0]) by { NobodyLive(run[0]); }
    if forall i | 0 <= i < |run| :: Exclusive(run[i]) {
      forall i | 0 <= i < |acts| ensures Clean(run[i], acts[i]) { CleanKeeps(run[i], run[i + 1], acts[i]); }
    }
    if forall i | 0 <= i < |acts| :: Clean(run[i], acts[i]) {
      for n := 0 to |acts|
        invariant forall i | 0 <= i <= n :: Exclusive(run[i])
      {
        CleanKeeps(run[n], run[n + 1], acts[n]);
      }
    }
  }

  lemma {:induction false} NobodyLive(a: World)
    requires a.sys.calls == map[]
    ensures Exclusive(a)
  {
  }

  /** An exclusive state has at most one live call. */
  lemma {:induction false} AtMostOne(a: World, p: nat, q: nat)
    requires Exclusive(a) && Live(a, p) && Live(a, q)
    ensures p == q
  {
  }

  /** Once a live call does not hold a free lock, the next `start` gets in beside it. */
  lemma {:induction false} NextGetsIn(a: World, q: nat, n: nat, operator: nat) returns (b: World, c: World)
    requires Live(a, q) && a.sys.lock.None? && n !in a.sys.calls && n !in a.ended
    ensures ActNext(a, b, Take(Arrive(n, operator))) && ActNext(b, c, Take(Run(n, true)))
    ensures q != n && Live(c, q) && Live(c, n)
  {
    b := a.(sys := a.sys.(calls := a.sys.calls[n := Call(operator, Claim)]));
    c := b.(sys := Do(b.sys, n, true));
  }

  /* ---------- the second end of an older session ---------- */

  function Stage(n: nat): Pc {
    if n == 0 then Claim else if n == 1 then ReadState else if n == 2 then InsertRow else if n == 3 then Probe
    else if n == 4 then MarkStarting else if n == 5 then PutHash else if n == 6 then ExpireHash
    else if n == 7 then Publish else Done(Started)
  }

  /** The first call of operator 0, alone, after `n` awaits. */
  function Alone(n: nat): World {
    var hashes := if n <= 5 then map[] else map[0 := 0];
    World(Sys(if n == 0 then None else Some(0), hashes, map[0 := Call(0, Stage(n))]), {}, map[])
  }

  lemma {:induction false} AloneStep(n: nat)
    requires n < 8
    ensures ActNext(Alone(n), Alone(n + 1), Take(Run(0, true)))
  {
  }

  /**
   * A session is closed, a second `start` wins the lock, and the relay's later teardown of the first session frees
   * it.
   */
  lemma {:induction false} SecondEnd(operator: nat) returns (run: seq<World>, acts: seq<Act>)
    ensures IsActRun(run, acts) && |acts| == 15
    ensures acts[9] == End(0) && acts[12] == End(0) && !Clean(run[12], acts[12])
    ensures run[12].sys.lock == Some(1) && Live(run[15], 1) && Live(run[15], 2)
  {
    hide ActNext;
    var first := [World(Sys(None, map[], map[]), {}, map[])] + seq(9, n requires 0 <= n < 9 => Alone(n));
    var acts0 := [Take(Arrive(0, 0))] + seq(8, n => Take(Run(0, true)));
    forall i | 0 <= i < 9 ensures ActNext(first[i], first[i + 1], acts0[i]) {
      if i == 0 { assert ActNext(first[0], Alone(0), acts0[0]) by { ArriveFirst(); } } else { AloneStep(i - 1); }
    }
    var w10 := World(Sys(None, map[], map[0 := Call(0, Done(Started))]), {0}, map[]);
    var rest, acts1 := Takeover(w10, operator);
    assert ActNext(first[9], w10, End(0)) by { FirstEnd(); }
    run, acts := first + rest, acts0 + [End(0)] + acts1;
    forall i | 0 <= i < |acts| ensures ActNext(run[i], run[i + 1], acts[i]) {
      if i < 9 {
        assert run[i] == first[i] && run[i + 1] == first[i + 1] && acts[i] == acts0[i];
      } else if i == 9 {
        assert run[9] == first[9] && run[10] == rest[0] && acts[9] == End(0);
      } else {
        assert run[i] == rest[i - 10] && run[i + 1] == rest[i - 9] && acts[i] == acts1[i - 10];
      }
    }
    assert run[12] == rest[2] && run[15] == rest[5] && acts[12] == acts1[2];
  }

  lemma {:induction false} ArriveFirst()
    ensures ActNext(World(Sys(None, map[], map[]), {}, map[]), Alone(0), Take(Arrive(0, 0)))
  {
  }

  lemma {:induction false} FirstEnd()
    ensures ActNext(Alone(8), World(Sys(None, map[], map[0 := Call(0, Done(Started))]), {0}, map[]), End(0))
  {
    assert map[0 := 0] - {0} == map[];
  }

  lemma {:induction false} Takeover(w: World, operator: nat) returns (run: seq<World>, acts: seq<Act>)
    requires w == World(Sys(None, map[], map[0 := Call(0, Done(Started))]), {0}, map[])
    ensures |run| == 6 && |acts| == 5 && run[0] == w
    ensures forall i | 0 <= i < 5 :: ActNext(run[i], run[i + 1], acts[i])
    ensures acts[2] == End(0) && run[2].sys.lock == Some(1) && !Clean(run[2], acts[2])
    ensures Live(run[5], 1) && Live(run[5], 2)
  {
    var w1 := w.(sys := w.sys.(calls := w.sys.calls[1 := Call(operator, Claim)]));
    var w2 := w1.(sys := Do(w1.sys, 1, true));
    var w3 := World(w2.sys.(lock := None, hashes := w2.sys.hashes - {0}), {0}, map[]);
    var w4, w5 := NextGetsIn(w3, 1, 2, operator);
    run := [w, w1, w2, w3, w4, w5];
    acts := [Take(Arrive(1, operator)), Take(Run(1, true)), End(0), Take(Arrive(2, operator)), Take(Run(2, true))];
    assert {0} + {0} == {0};
  }
}
