/** `SessionsService` as the object the API runs: `start` from claim to reply, and `close`. */
module SessionsServices {
  import opened Options
  import opened SessionLock
  import opened SessionRows

  /** What the environment answers to one `start`. */
  datatype Answers = Answers(ready: bool, probed: bool, node: nat, now: int)

  /** The lock, the hashes and the reply after an undisturbed `start`. */
  function Outcome(lock: Option<nat>, hashes: map<nat, nat>, sid: nat, operator: nat, e: Answers)
    : (Option<nat>, map<nat, nat>, Reply)
  {
    if lock.Some? then
      (lock, hashes,
       if lock.value in hashes && hashes[lock.value] == operator then Reissued(lock.value) else Busy)
    else if !e.ready then (None, hashes, NotReady)
    else if !e.probed then (None, hashes, SessionLock.Failed)
    else (Some(sid), hashes[sid := operator], Started)
  }

  /** The row of the session after an undisturbed `start`; refused calls insert none. */
  function RowOutcome(rows: map<nat, Row>, sid: nat, reply: Reply, e: Answers): map<nat, Row> {
    match reply
    case Started => rows[sid := SetStarting(NewRow(), e.node)]
    case Failed => rows[sid := SetFailed(NewRow(), e.now)]
    case _ => rows
  }

  class SessionsService {
    var lock: Option<nat>
    var hashes: map<nat, nat>
    var rows: map<nat, Row>

    constructor ()
      ensures lock == None && hashes == map[] && rows == map[]
    {
      lock, hashes, rows := None, map[], map[];
    }

    method Start(sid: nat, operator: nat, e: Answers) returns (reply: Reply)
      modifies this
      ensures (lock, hashes, reply) == Outcome(old(lock), old(hashes), sid, operator, e)
      ensures rows == RowOutcome(old(rows), sid, reply, e)
    {
      if lock.Some? {
        reply := ReissueViewer(operator);
        return;
      }
      lock := Some(sid);
      if !e.ready {
        lock := None;
        return NotReady;
      }
      rows := rows[sid := NewRow()];
      if !e.probed {
        reply := Fail(sid, e.now);
        return;
      }
      rows := rows[sid := SetStarting(rows[sid], e.node)];
      hashes := hashes[sid := operator];
      reply := Started;
    }

    method ReissueViewer(operator: nat) returns (reply: Reply)
      ensures reply ==
              if lock.Some? && lock.value in hashes && hashes[lock.value] == operator
              then Reissued(lock.value) else Busy
    {
      if lock.None? { return Busy; }
      if lock.value !in hashes || hashes[lock.value] != operator { return Busy; }
      reply := Reissued(lock.value);
    }

    method Fail(sid: nat, now: int) returns (reply: Reply)
      requires sid in rows
      modifies this`rows, this`lock
      ensures rows == old(rows)[sid := SetFailed(old(rows)[sid], now)] && lock == None && reply == SessionLock.Failed
    {
      rows := rows[sid := SetFailed(rows[sid], now)];
      lock := None;
      reply := SessionLock.Failed;
    }

    /** False when there is no such session, or the caller may not close it. */
    method Close(id: nat, allowed: bool, now: int) returns (ok: bool)
      modifies this
      ensures ok <==> id in old(rows) && allowed
      ensures !ok ==> lock == old(lock) && hashes == old(hashes) && rows == old(rows)
      ensures ok ==>
                && rows == old(rows)[id := ApiClose(old(rows)[id], now)]
                && lock == None
                && hashes == old(hashes) - {id}
    {
      if id !in rows || !allowed { return false; }
      rows := rows[id := ApiClose(rows[id], now)];
      lock, hashes := None, hashes - {id};
      ok := true;
    }
  }

  /**
   * What an undisturbed `start` comes to: it starts exactly on a free lock with a device that is ready and answers;
   * then it holds the lock and its hash, and its row is starting on the node. On a free lock it gives the lock back
   * otherwise, and leaves a failed row only if the device did not answer. A taken lock it leaves alone.
   */
  lemma {:induction false} OutcomeMeans(lock: Option<nat>, hashes: map<nat, nat>, rows: map<nat, Row>, sid: nat,
                                        operator: nat, e: Answers)
    ensures var (lock', hashes', reply) := Outcome(lock, hashes, sid, operator, e);
            var rows' := RowOutcome(rows, sid, reply, e);
            && (reply == Started <==> lock.None? && e.ready && e.probed)
            && (reply == Started ==>
                  && lock' == Some(sid) && sid in hashes' && hashes'[sid] == operator
                  && sid in rows' && rows'[sid].state == SessionRows.Starting && rows'[sid].relayNode == e.node
                  && rows'[sid].connectedAt.None? && rows'[sid].endedAt.None?)
            && (reply == NotReady <==> lock.None? && !e.ready)
            && (reply == SessionLock.Failed <==> lock.None? && e.ready && !e.probed)
            && (reply == NotReady || reply == SessionLock.Failed ==> lock' == None && hashes' == hashes)
            && (reply == NotReady ==> rows' == rows)
            && (reply == SessionLock.Failed ==>
                  sid in rows' && rows'[sid].state == SessionRows.Failed && rows'[sid].endedAt == Some(e.now)
                  && rows'[sid].failReason.Some?)
            && (lock.Some? ==> lock' == lock && hashes' == hashes && rows' == rows)
            && (forall r | r in rows && r != sid :: r in rows' && rows'[r] == rows[r])
            && (forall q :: reply == Reissued(q) <==> lock == Some(q) && q in hashes && hashes[q] == operator)
  {
  }

  /* ---------- the awaits of one call, undisturbed, compute the outcome ---------- */

  function Rank(pc: Pc): nat {
    match pc
    case Claim => 9
    case ReadState => 8
    case InsertRow => 7
    case Probe => 6
    case MarkFailed => 5
    case UnlockFailed => 4
    case UnlockNotReady => 4
    case MarkStarting => 5
    case PutHash => 4
    case ExpireHash => 3
    case Publish => 2
    case GetLock => 3
    case GetHash(_) => 2
    case Done(_) => 0
  }

  function Finish(a: SessionLock.Sys, p: nat, e: Answers): SessionLock.Sys
    requires p in a.calls
    decreases Rank(a.calls[p].pc)
  {
    if a.calls[p].pc.Done? then a
    else Finish(SessionLock.Do(a, p, if a.calls[p].pc.ReadState? then e.ready else e.probed), p, e)
  }

  function Place(a: SessionLock.Sys, p: nat, pc: Pc, lock: Option<nat>, hashes: map<nat, nat>): SessionLock.Sys
    requires p in a.calls
  {
    SessionLock.Sys(lock, hashes, a.calls[p := a.calls[p].(pc := pc)])
  }

  lemma {:induction false} SoloStart(a: SessionLock.Sys, p: nat, e: Answers)
    requires p in a.calls && a.calls[p].pc == Claim
    ensures var o := Outcome(a.lock, a.hashes, p, a.calls[p].operator, e);
            Finish(a, p, e) == Place(a, p, Done(o.2), o.0, o.1)
  {
    if a.lock.Some? {
      var q := a.lock.value;
      SoloStep(a, p, e, GetLock, a.lock, a.hashes);
      SoloStep(Place(a, p, GetLock, a.lock, a.hashes), p, e, GetHash(q), a.lock, a.hashes);
    } else {
      SoloStep(a, p, e, ReadState, Some(p), a.hashes);
      SoloHolder(Place(a, p, ReadState, Some(p), a.hashes), p, e);
    }
  }

  lemma {:induction false} SoloHolder(a: SessionLock.Sys, p: nat, e: Answers)
    requires p in a.calls && a.calls[p].pc == ReadState && a.lock == Some(p)
    ensures Finish(a, p, e) ==
              if !e.ready then Place(a, p, Done(NotReady), None, a.hashes)
              else if !e.probed then Place(a, p, Done(SessionLock.Failed), None, a.hashes)
              else Place(a, p, Done(Started), Some(p), a.hashes[p := a.calls[p].operator])
  {
    var h, mine := a.hashes, Some(p);
    if e.ready {
      SoloStep(a, p, e, InsertRow, mine, h);
      SoloStep(Place(a, p, InsertRow, mine, h), p, e, Probe, mine, h);
      if e.probed {
        SoloStep(Place(a, p, Probe, mine, h), p, e, MarkStarting, mine, h);
        SoloStarted(Place(a, p, MarkStarting, mine, h), p, e);
      } else {
        SoloStep(Place(a, p, Probe, mine, h), p, e, MarkFailed, mine, h);
        SoloStep(Place(a, p, MarkFailed, mine, h), p, e, UnlockFailed, mine, h);
        SoloStep(Place(a, p, UnlockFailed, mine, h), p, e, Done(SessionLock.Failed), None, h);
      }
    } else {
      SoloStep(a, p, e, UnlockNotReady, mine, h);
      SoloStep(Place(a, p, UnlockNotReady, mine, h), p, e, Done(NotReady), None, h);
    }
  }

  lemma {:induction false} SoloStarted(a: SessionLock.Sys, p: nat, e: Answers)
    requires p in a.calls && a.calls[p].pc == MarkStarting && a.lock == Some(p)
    ensures Finish(a, p, e) == Place(a, p, Done(Started), Some(p), a.hashes[p := a.calls[p].operator])
  {
    var h, mine := a.hashes, Some(p);
    var h' := h[p := a.calls[p].operator];
    SoloStep(a, p, e, PutHash, mine, h);
    SoloStep(Place(a, p, PutHash, mine, h), p, e, ExpireHash, mine, h');
    SoloStep(Place(a, p, ExpireHash, mine, h'), p, e, Publish, mine, h');
    SoloStep(Place(a, p, Publish, mine, h'), p, e, Done(Started), mine, h');
  }

  /** One unfolding of `Finish`. */
  lemma {:induction false} SoloStep(a: SessionLock.Sys, p: nat, e: Answers, pc: Pc, lock: Option<nat>,
      hashes: map<nat, nat>)
    requires p in a.calls && !a.calls[p].pc.Done?
    requires SessionLock.Do(a, p, if a.calls[p].pc.ReadState? then e.ready else e.probed) ==
        Place(a, p, pc, lock, hashes)
    ensures Finish(a, p, e) == Finish(Place(a, p, pc, lock, hashes), p, e)
    ensures forall pc', lock', hashes' ::
              Place(Place(a, p, pc, lock, hashes), p, pc', lock', hashes') == Place(a, p, pc', lock', hashes')
  {
    var calls := a.calls;
    forall pc' ensures calls[p := calls[p].(pc := pc)][p := calls[p].(pc := pc')] == calls[p := calls[p].(pc := pc')] {}
  }
}
