/** The device lock of `SessionsService`: any number of concurrent `start` calls on one device. */
module SessionLock {
  import opened Options

  datatype Reply = Started | Reissued(sid: nat) | Busy | NotReady | Failed

  /** The next await of one call. Readiness and probe answers are choices of the environment. */
  datatype Pc =
    | Claim
    | ReadState
    | InsertRow
    | Probe
    | MarkFailed
    | UnlockFailed
    | UnlockNotReady
    | MarkStarting
    | PutHash
    | ExpireHash
    | Publish
    | GetLock
    | GetHash(sid: nat)
    | Done(reply: Reply)

  /** A call is named by the session id it draws; ids are random and never repeat. */
  datatype Call = Call(operator: nat, pc: Pc)

  /** The lock key, the `session:` hashes by owner, and the calls. */
  datatype Sys = Sys(lock: Option<nat>, hashes: map<nat, nat>, calls: map<nat, Call>)

  datatype Step = Arrive(sid: nat, operator: nat) | Run(sid: nat, ok: bool)

  function At(a: Sys, p: nat, pc: Pc): Sys
    requires p in a.calls
  {
    a.(calls := a.calls[p := a.calls[p].(pc := pc)])
  }

  function Do(a: Sys, p: nat, ok: bool): Sys
    requires p in a.calls
  {
    match a.calls[p].pc
    // SET NX
    case Claim => if a.lock.None? then At(a, p, ReadState).(lock := Some(p)) else At(a, p, GetLock)
    case ReadState => At(a, p, if ok then InsertRow else UnlockNotReady)
    case InsertRow => At(a, p, Probe)
    case Probe => At(a, p, if ok then MarkStarting else MarkFailed)
    case MarkFailed => At(a, p, UnlockFailed)
    // `return this.fail(...)` is not awaited inside the try block: the catch does not delete a second time.
    case UnlockFailed => At(a, p, Done(Failed)).(lock := None)
    case UnlockNotReady => At(a, p, Done(NotReady)).(lock := None)
    case MarkStarting => At(a, p, PutHash)
    case PutHash => At(a, p, ExpireHash).(hashes := a.hashes[p := a.calls[p].operator])
    case ExpireHash => At(a, p, Publish)
    case Publish => At(a, p, Done(Started))
    case GetLock => At(a, p, if a.lock.Some? then GetHash(a.lock.value) else Done(Busy))
    case GetHash(q) =>
      At(a, p, if q in a.hashes && a.hashes[q] == a.calls[p].operator then Done(Reissued(q)) else Done(Busy))
    case Done(_) => a
  }

  ghost predicate Next(a: Sys, b: Sys, st: Step) {
    match st
    case Arrive(p, op) => p !in a.calls && b == a.(calls := a.calls[p := Call(op, Claim)])
    case Run(p, ok) => p in a.calls && !a.calls[p].pc.Done? && b == Do(a, p, ok)
  }

  ghost predicate IsRun(run: seq<Sys>, steps: seq<Step>) {
    && |run| == |steps| + 1
    && run[0] == Sys(None, map[], map[])
    && forall i | 0 <= i < |steps| :: Next(run[i], run[i + 1], steps[i])
  }

  /** Between winning the lock and giving it back; a started session keeps it. */
  predicate Critical(pc: Pc) {
    match pc
    case Claim => false
    case GetLock => false
    case GetHash(_) => false
    case Done(r) => r == Started
    case _ => true
  }

  /** The session hash is written; nothing can fail any more. */
  predicate SetUp(pc: Pc) { pc.ExpireHash? || pc.Publish? || pc == Done(Started) }

  /** The lock names the one critical call. */
  ghost predicate LockInv(a: Sys) {
    && (forall p | p in a.calls && Critical(a.calls[p].pc) :: a.lock == Some(p))
    && (a.lock.Some? ==> a.lock.value in a.calls && Critical(a.calls[a.lock.value].pc))
  }

  /** A session hash belongs to a call that can no longer fail; reissued tokens rest on one. */
  ghost predicate HashInv(a: Sys) { HashesOwned(a) && ReissuedOwned(a) }

  ghost predicate HashesOwned(a: Sys) {
    && (forall p | p in a.hashes :: p in a.calls && SetUp(a.calls[p].pc) && a.hashes[p] == a.calls[p].operator)
    && (forall p | p in a.calls && SetUp(a.calls[p].pc) :: p in a.hashes)
  }

  ghost predicate ReissuedOwned(a: Sys) {
    forall p | p in a.calls && a.calls[p].pc.Done? && a.calls[p].pc.reply.Reissued? ::
      var q := a.calls[p].pc.reply.sid;
      q in a.hashes && a.hashes[q] == a.calls[p].operator
  }

  ghost predicate Inv(a: Sys) { LockInv(a) && HashInv(a) }

  lemma {:induction false} LockInvKept(a: Sys, p: nat, ok: bool)
    requires LockInv(a) && p in a.calls && !a.calls[p].pc.Done?
    ensures LockInv(Do(a, p, ok))
  {
  }

  lemma {:induction false} HashInvKept(a: Sys, p: nat, ok: bool)
    requires HashInv(a) && p in a.calls && !a.calls[p].pc.Done?
    ensures HashInv(Do(a, p, ok))
  {
    HashesKept(a, p, ok);
    ReissuedKept(a, p, ok);
  }

  lemma {:induction false} HashesKept(a: Sys, p: nat, ok: bool)
    requires HashInv(a) && p in a.calls && !a.calls[p].pc.Done?
    ensures HashesOwned(Do(a, p, ok))
  {
  }

  lemma {:induction false} ReissuedKept(a: Sys, p: nat, ok: bool)
    requires HashInv(a) && p in a.calls && !a.calls[p].pc.Done?
    ensures ReissuedOwned(Do(a, p, ok))
  {
  }

  lemma {:induction false} InvKept(a: Sys, b: Sys, st: Step)
    requires Inv(a) && Next(a, b, st)
    ensures Inv(b)
  {
    hide Do, Critical, SetUp;
    match st
    case Run(p, ok) =>
      LockInvKept(a, p, ok);
      HashInvKept(a, p, ok);
    case Arrive(p, op) => ArriveKeeps(a, p, op);
  }

  lemma {:induction false} ArriveKeeps(a: Sys, p: nat, op: nat)
    requires Inv(a) && p !in a.calls
    ensures Inv(a.(calls := a.calls[p := Call(op, Claim)]))
  {
  }

  lemma {:induction false} InvInRuns(run: seq<Sys>, steps: seq<Step>)
    requires IsRun(run, steps)
    ensures forall i | 0 <= i < |run| :: Inv(run[i])
  {
    hide Next, Inv;
    InvInitially(run[0]);
    for n := 0 to |steps|
      invariant forall i | 0 <= i <= n :: Inv(run[i])
    {
      InvKept(run[n], run[n + 1], steps[n]);
    }
  }

  /**
   * In every run of concurrent `start` calls at most one is inside the critical section, and it holds the lock;
   * every token handed out is for the session that holds the lock, and a token is reissued to its own operator only.
   */
  lemma {:induction false} OneHolder(run: seq<Sys>, steps: seq<Step>)
    requires IsRun(run, steps)
    ensures forall i, p, q | 0 <= i < |run| && p in run[i].calls && q in run[i].calls ::
              Critical(run[i].calls[p].pc) && Critical(run[i].calls[q].pc) ==> p == q
    ensures forall i, p | 0 <= i < |run| && p in run[i].calls && run[i].calls[p].pc.Done? ::
              && (run[i].calls[p].pc.reply.Started? ==> run[i].lock == Some(p))
              && (run[i].calls[p].pc.reply.Reissued? ==>
                    var q := run[i].calls[p].pc.reply.sid;
                    run[i].lock == Some(q) && q in run[i].calls && run[i].calls[q].operator == run[i].calls[p].operator)
  {
    hide Inv, IsRun;
    InvInRuns(run, steps);
    forall i | 0 <= i < |run| ensures Holder(run[i]) { InvHolder(run[i]); }
  }

  ghost predicate Holder(a: Sys) {
    && (forall p, q | p in a.calls && q in a.calls && Critical(a.calls[p].pc) && Critical(a.calls[q].pc) :: p == q)
    && (forall p | p in a.calls && a.calls[p].pc.Done? ::
          && (a.calls[p].pc.reply.Started? ==> a.lock == Some(p))
          && (a.calls[p].pc.reply.Reissued? ==>
                var q := a.calls[p].pc.reply.sid;
                a.lock == Some(q) && q in a.calls && a.calls[q].operator == a.calls[p].operator))
  }

  lemma {:induction false} InvHolder(a: Sys)
    requires Inv(a)
    ensures Holder(a)
  {
  }

  lemma {:induction false} InvInitially(a: Sys)
    requires a == Sys(None, map[], map[])
    ensures Inv(a)
  {
  }

  /**
   * In every run only the holder deletes the lock, on its way out, and it never passes from one call to another in
   * one step.
   */
  lemma {:induction false} OnlyHolderReleases(run: seq<Sys>, steps: seq<Step>, i: nat)
    requires IsRun(run, steps) && i < |steps| && run[i].lock.Some? && run[i + 1].lock != run[i].lock
    ensures run[i + 1].lock == None && steps[i].Run? && steps[i].sid == run[i].lock.value
    ensures steps[i].sid in run[i + 1].calls
    ensures run[i + 1].calls[steps[i].sid].pc == Done(Failed) || run[i + 1].calls[steps[i].sid].pc == Done(NotReady)
  {
    InvInRuns(run, steps);
    assert Next(run[i], run[i + 1], steps[i]);
    hide IsRun;
  }

  /**
   * In every run a reply given while the lock is held is the holder's own start, a token for the holder, or
   * DEVICE_BUSY.
   */
  lemma {:induction false} ReplyWhileHeld(run: seq<Sys>, steps: seq<Step>, i: nat)
    requires IsRun(run, steps) && i < |steps| && steps[i].Run? && run[i + 1].lock.Some?
    requires steps[i].sid in run[i + 1].calls && run[i + 1].calls[steps[i].sid].pc.Done?
    ensures var r := run[i + 1].calls[steps[i].sid].pc.reply;
            || r == Busy || r == Reissued(run[i + 1].lock.value)
            || (r == Started && steps[i].sid == run[i + 1].lock.value)
  {
    InvInRuns(run, steps);
    assert Next(run[i], run[i + 1], steps[i]);
    hide IsRun;
    InvHolder(run[i + 1]);
  }

  /**
   * In every run a call that found the lock taken is given a token for the session it found if and only if that
   * session has got as far as its hash and is the same operator's; otherwise the answer is DEVICE_BUSY.
   */
  lemma {:induction false} ReissuedIff(run: seq<Sys>, steps: seq<Step>, i: nat)
    requires IsRun(run, steps) && i < |steps| && steps[i].Run? && steps[i].sid in run[i].calls
    requires run[i].calls[steps[i].sid].pc.GetHash?
    ensures var p, a := steps[i].sid, run[i];
            var q := a.calls[p].pc.sid;
            && p in run[i + 1].calls
            && run[i + 1].calls[p].pc ==
                 if q in a.calls && SetUp(a.calls[q].pc) && a.calls[q].operator == a.calls[p].operator
                 then Done(Reissued(q)) else Done(Busy)
  {
    InvInRuns(run, steps);
    assert Next(run[i], run[i + 1], steps[i]);
    hide IsRun;
  }

  /** A call claims the lock if and only if it is free, and otherwise goes on to ask whose it is. */
  lemma {:induction false} ClaimIff(a: Sys, b: Sys, p: nat, ok: bool)
    requires p in a.calls && a.calls[p].pc == Claim && Next(a, b, Run(p, ok))
    ensures p in b.calls && b.hashes == a.hashes
    ensures a.lock.None? ==> b.lock == Some(p) && Critical(b.calls[p].pc)
    ensures a.lock.Some? ==> b.lock == a.lock && b.calls[p].pc == GetLock
  {
  }

  /* ---------- choosing the relay ---------- */

  /** A load that `Number` reads; anything else compares as not smaller. */
  datatype Load = Finite(x: real) | NotANumber

  predicate Better(a: Load, b: Load) { a.Finite? && (b.NotANumber? || a.x < b.x) }

  /** The first node whose load is smallest; with no readable load, the first node. */
  method PickLeastLoaded(nodes: seq<nat>, loads: seq<Load>, fallback: nat) returns (best: nat)
    requires |loads| == |nodes|
    ensures nodes == [] ==> best == fallback
    ensures nodes != [] ==>
              exists i | 0 <= i < |nodes| :: best == nodes[i] &&
                (forall j | 0 <= j < |nodes| :: !Better(loads[j], loads[i])) &&
                (forall j | 0 <= j < i :: Better(loads[i], loads[j]))
  {
    if nodes == [] { return fallback; }
    best := nodes[0];
    var bestLoad := NotANumber;
    ghost var at := 0;
    for i := 0 to |nodes|
      invariant 0 <= at < |nodes| && (at < i || (i == 0 && at == 0)) && best == nodes[at]
      invariant i == 0 ==> bestLoad == NotANumber
      invariant i > 0 ==> bestLoad == loads[at]
      invariant forall j | 0 <= j < i :: !Better(loads[j], bestLoad)
      invariant forall j | 0 <= j < at :: Better(loads[at], loads[j])
    {
      if Better(loads[i], bestLoad) {
        best, bestLoad, at := nodes[i], loads[i], i;
      }
    }
  }
}
