/** What each callback does to a session object and to the effects the relay asks for. */
module RelaySessions {
  import opened Options
  import opened Texts
  import opened Relay
  import opened RelayState
  import opened RelayRuns
  import opened RelayTimers

  /** The step joins a socket to session `s`. */
  predicate Joins(b: World, st: Step, s: nat) {
    && st.Authenticate? && st.k < |b.peers|
    && b.peers[st.k].role == if st.agent then AgentOf(s) else ViewerOf(s)
  }

  /** The step tears session `s` down. */
  predicate Ends(a: World, st: Step, s: nat)
    requires s < |a.store|
  {
    match st
    case EndClose(k) => a.store[s].agent == Some(k)
    case Fire(t) => t in a.timers && a.timers[t].session == s
    case Sweep(_) => Listed(a, s) && Idle(a, s)
    case _ => false
  }

  /** The current viewer of session `s` closes. */
  predicate LosesViewer(a: World, st: Step, s: nat)
    requires s < |a.store|
  {
    st.EndClose? && a.store[s].viewer == Some(st.k)
  }

  /** A message reaches session `s`: one that arrives now, or one stashed before the join of its socket. */
  predicate Hears(a: World, b: World, st: Step, s: nat) {
    Handed(a, b, st, AgentOf(s)) != [] || Handed(a, b, st, ViewerOf(s)) != []
  }

  /** The fields of a session object after a step. */
  ghost predicate Moves(a: World, b: World, st: Step, s: nat)
    requires s < |a.store|
  {
    && s < |b.store|
    && var x, y := a.store[s], b.store[s];
       && y.id == x.id && y.operatorId == x.operatorId
       && y.deviceId == (if Joins(b, st, s) && st.did != [] then st.did else x.deviceId)
       && y.agent == (if Joins(b, st, s) && st.agent then Some(st.k) else x.agent)
       && y.viewer == (if Joins(b, st, s) && !st.agent then Some(st.k)
                       else if LosesViewer(a, st, s) then None else x.viewer)
       && y.lastActivity == (if Hears(a, b, st, s) then a.now else x.lastActivity)
  }

  /** No field but the timer handle changes. */
  ghost predicate SameSeats(a: World, b: World, s: nat)
    requires s < |a.store|
  {
    s < |b.store| && b.store[s] == a.store[s].(timer := b.store[s].timer)
  }

  lemma {:induction false} MessageMoves(w: World, k: nat, p: Packet, s: nat)
    requires Inv(w) && k < |w.peers| && s < |w.store|
    ensures var v := OnMessage(w, k, p);
            var x := w.store[s];
            var mine := w.peers[k].role == AgentOf(s) || w.peers[k].role == ViewerOf(s);
            && s < |v.store| && v.now == w.now && k < |v.peers| && v.peers[k].role == w.peers[k].role
            && v.store[s] == x.(config := v.store[s].config, bytesOut := v.store[s].bytesOut,
                                inputEvents := v.store[s].inputEvents, fromAgents := v.store[s].fromAgents,
                                fromViewers := v.store[s].fromViewers,
                                lastActivity := if mine then w.now else x.lastActivity)
  {
    hide TableInv, SessionInv, TimerInv, HearAgent, HearViewer, Relayed;
    assert PeerInv(w, k);
    match w.peers[k].role
    case AgentOf(r) => HearShape(w.store[r], p, w.now);
    case ViewerOf(r) => HearShape(w.store[r], p, w.now);
    case _ =>
  }

  /** Joined sockets hear nothing of other sessions. */
  lemma {:induction false} MessagesMove(w: World, k: nat, ps: seq<Packet>, s: nat)
    requires Inv(w) && k < |w.peers| && s < |w.store|
    ensures var v := OnMessages(w, k, ps);
            var x := w.store[s];
            var mine := w.peers[k].role == AgentOf(s) || w.peers[k].role == ViewerOf(s);
            && s < |v.store| && v.now == w.now && k < |v.peers| && v.peers[k].role == w.peers[k].role
            && v.store[s] == x.(config := v.store[s].config, bytesOut := v.store[s].bytesOut,
                                inputEvents := v.store[s].inputEvents, fromAgents := v.store[s].fromAgents,
                                fromViewers := v.store[s].fromViewers,
                                lastActivity := if mine && ps != [] then w.now else x.lastActivity)
  {
    hide Inv, OnMessage;
    if ps != [] {
      MessagesMove(w, k, ps[..|ps| - 1], s);
      MessagesKeep(w, k, ps[..|ps| - 1]);
      MessageMoves(OnMessages(w, k, ps[..|ps| - 1]), k, ps[|ps| - 1], s);
    }
  }

  /* ---------- joining ---------- */

  /** A token's session id finds the listed session or makes a new one, which is listed from then on. */
  lemma {:induction false} EnterMeans(w: World, sid: Text, did: Text, uid: int)
    requires Inv(w)
    ensures var (v, s) := Enter(w, sid, did, uid);
            && s < |v.store| && v.peers == w.peers && v.now == w.now && v.log == w.log && v.timers == w.timers
            && v.table == w.table[sid := s] && v.store[s].id == sid
            && (sid in w.table ==>
                  s == w.table[sid] && |v.store| == |w.store|
                  && v.store[s] == w.store[s].(deviceId := if did != [] then did else w.store[s].deviceId))
            && (sid !in w.table ==>
                  s == |w.store| && |v.store| == |w.store| + 1 && v.store[s] == NewSession(sid, did, uid, w.now))
            && (forall r: nat | r < |w.store| && r != s :: v.store[r] == w.store[r])
  {
    hide SessionInv, PeerInv, TimerInv;
    if sid in w.table { assert w.table[sid := w.table[sid]] == w.table; }
  }

  /** A join seats its socket, and asks to mark the row active exactly if both sides are open then. */
  lemma {:induction false} AgentJoinMeans(w: World, k: nat, s: nat)
    requires Inv(w) && k < |w.peers| && s < |w.store| && w.peers[k].role.Pending?
    ensures var v := AgentJoin(w, k, s);
            && |v.store| == |w.store| && v.store == w.store[s := w.store[s].(agent := Some(k))]
            && v.table == w.table && v.now == w.now && |v.peers| == |w.peers|
            && (forall q: Option<nat> :: IsOpen(v, q) <==> IsOpen(w, q))
            && v.log == w.log + if IsOpen(w, Some(k)) && IsOpen(w, w.store[s].viewer)
                                then [Activate(w.store[s].id)] else []
  {
    hide Inv;
  }

  lemma {:induction false} ViewerJoinMeans(w: World, k: nat, s: nat)
    requires Inv(w) && k < |w.peers| && s < |w.store| && w.peers[k].role.Pending?
    ensures var v := ViewerJoin(w, k, s);
            && |v.store| == |w.store| && v.store == w.store[s := w.store[s].(viewer := Some(k), timer := None)]
            && v.table == w.table && v.now == w.now && |v.peers| == |w.peers|
            && (forall q: Option<nat> :: IsOpen(v, q) <==> IsOpen(w, q))
            && v.log == w.log + if IsOpen(w, w.store[s].agent) && IsOpen(w, Some(k))
                                then [Activate(w.store[s].id)] else []
  {
    hide Inv, StopTimer, Seat, MarkActive;
    StopTimerMeans(w, s);
    StopTimerKeeps(w, s);
    var u := StopTimer(w, s);
    SeatIsJoin(u, k, s);
    SeatShape(u, k, s);
    var x := Seat(u, k, s);
    var y := if IsOpen(x, x.store[s].agent) then Send(x, x.store[s].agent, VIEWER_JOIN) else x;
    MarkActiveMeans(y, s);
  }

  lemma {:induction false} StopTimerMeans(w: World, s: nat)
    requires s < |w.store|
    ensures var v := StopTimer(w, s);
            && v.peers == w.peers && v.table == w.table && v.log == w.log && v.now == w.now
            && v.store == w.store[s := w.store[s].(timer := None)]
  {
  }

  lemma {:induction false} MarkActiveMeans(w: World, s: nat)
    requires s < |w.store|
    ensures var v := MarkActive(w, s);
            && v == w.(log := v.log)
            && v.log == w.log + if IsOpen(w, w.store[s].agent) && IsOpen(w, w.store[s].viewer)
                                then [Activate(w.store[s].id)] else []
  {
  }

  /** What a whole join does: the session of its token, the seat, the replayed stash and the effect. */
  lemma {:induction false} JoinMeans(w: World, st: Step) returns (s: nat)
    requires Inv(w) && st.Authenticate? && Enabled(w, st)
    ensures var v := Join(w, st.k, st.agent, st.sid, st.did, st.uid);
            && s < |v.store| && Joins(v, st, s) && v.table == w.table[st.sid := s]
            && (st.sid in w.table ==> s == w.table[st.sid] && |v.store| == |w.store|)
            && (st.sid !in w.table ==>
                  && s == |w.store| && |v.store| == |w.store| + 1 && v.store[s].lastActivity == w.now
                  && v.store[s].id == st.sid && v.store[s].deviceId == st.did && v.store[s].operatorId == st.uid
                  && v.store[s].agent == (if st.agent then Some(st.k) else None)
                  && v.store[s].viewer == (if st.agent then None else Some(st.k)))
            && v.log == w.log + if IsOpen(v, v.store[s].agent) && IsOpen(v, v.store[s].viewer)
                                then [Activate(st.sid)] else []
  {
    hide Inv, Enter, AgentJoin, ViewerJoin, OnMessages, Spoke, Quiet;
    var k, early := st.k, w.peers[st.k].early;
    var u := Enter(w, st.sid, st.did, st.uid).0;
    s := Enter(w, st.sid, st.did, st.uid).1;
    EnterKeeps(w, st.sid, st.did, st.uid);
    EnterMeans(w, st.sid, st.did, st.uid);
    var x := if st.agent then AgentJoin(u, k, s) else ViewerJoin(u, k, s);
    JoinRole(u, k, s);
    if st.agent {
      AgentJoinKeeps(u, k, s);
      AgentJoinMeans(u, k, s);
    } else {
      ViewerJoinKeeps(u, k, s);
      ViewerJoinMeans(u, k, s);
    }
    var v := OnMessages(x, k, early);
    MessagesWorld(x, k, early);
    MessagesMove(x, k, early, s);
  }

  lemma {:induction false} JoinMoves(w: World, st: Step, r: nat)
    requires Inv(w) && st.Authenticate? && Enabled(w, st) && r < |w.store|
    ensures Moves(w, Join(w, st.k, st.agent, st.sid, st.did, st.uid), st, r)
  {
    hide Inv, Enter, AgentJoin, ViewerJoin, OnMessages, Spoke, Quiet;
    var k, early := st.k, w.peers[st.k].early;
    var (u, s) := Enter(w, st.sid, st.did, st.uid);
    EnterKeeps(w, st.sid, st.did, st.uid);
    EnterMeans(w, st.sid, st.did, st.uid);
    var x := if st.agent then AgentJoin(u, k, s) else ViewerJoin(u, k, s);
    JoinRole(u, k, s);
    if st.agent {
      AgentJoinKeeps(u, k, s);
      AgentJoinMeans(u, k, s);
    } else {
      ViewerJoinKeeps(u, k, s);
      ViewerJoinMeans(u, k, s);
    }
    MessagesMove(x, k, early, r);
  }

  lemma {:induction false} MessagesWorld(w: World, k: nat, ps: seq<Packet>)
    requires Inv(w) && k < |w.peers|
    ensures var v := OnMessages(w, k, ps);
            && v.table == w.table && v.log == w.log && v.timers == w.timers && v.now == w.now
            && |v.store| == |w.store| && k < |v.peers| && v.peers[k].role == w.peers[k].role
            && (forall q: Option<nat> :: IsOpen(v, q) <==> IsOpen(w, q))
  {
    hide Inv, OnMessage;
    MessagesKeep(w, k, ps);
    if ps != [] {
      MessagesWorld(w, k, ps[..|ps| - 1]);
      MessageWorld(OnMessages(w, k, ps[..|ps| - 1]), k, ps[|ps| - 1]);
    }
  }

  lemma {:induction false} MessageWorld(w: World, k: nat, p: Packet)
    requires k < |w.peers|
    ensures var v := OnMessage(w, k, p);
            && v.table == w.table && v.log == w.log && v.timers == w.timers && v.now == w.now
            && |v.store| == |w.store| && |v.peers| == |w.peers| && v.peers[k].role == w.peers[k].role
            && (forall q: Option<nat> :: IsOpen(v, q) <==> IsOpen(w, q))
  {
    hide HearAgent, HearViewer;
  }

  /* ---------- ending ---------- */

  /** What is left of a session that has been torn down: no entry under its id, no open socket, no timer. */
  ghost predicate Gone(b: World, s: nat, x: Session)
    requires s < |b.store|
  {
    && x.id !in b.table && !IsOpen(b, x.agent) && !IsOpen(b, x.viewer) && b.store[s].timer.None?
    && (x.timer.Some? ==> x.timer.value !in b.timers)
  }

  lemma {:induction false} CloseMeans(w: World, s: nat, reason: Reason)
    requires s < |w.store|
    ensures var v, x := CloseSession(w, s, reason), w.store[s];
            && |v.store| == |w.store| && Gone(v, s, x)
            && v.store == w.store[s := x.(timer := None)] && v.now == w.now && v.nextTimer == w.nextTimer
            && v.log == w.log + [TearDown(s, x.id, x.deviceId, reason, x.bytesOut, x.inputEvents)]
  {
    hide StopTimer;
    StopTimerMeans(w, s);
    StopTimerDrops(w, s);
  }

  lemma {:induction false} StopTimerDrops(w: World, s: nat)
    requires s < |w.store|
    ensures var v := StopTimer(w, s);
            v.nextTimer == w.nextTimer && (w.store[s].timer.Some? ==> w.store[s].timer.value !in v.timers)
  {
  }

  lemma {:induction false} SeatRole(w: World, s: nat, k: nat)
    requires Inv(w) && s < |w.store| && k < |w.peers|
    ensures w.store[s].agent == Some(k) ==> w.peers[k].role == AgentOf(s)
    ensures w.store[s].viewer == Some(k) ==> w.peers[k].role == ViewerOf(s)
  {
    hide Counted, Told, FieldInv, PeerInv, TimerInv, TableInv;
    assert SessionInv(w, s);
  }

  lemma {:induction false} RoleExists(w: World, k: nat)
    requires Inv(w) && k < |w.peers|
    ensures w.peers[k].role.AgentOf? || w.peers[k].role.ViewerOf? ==> w.peers[k].role.session < |w.store|
  {
    hide SessionInv, TimerInv, TableInv;
    assert PeerInv(w, k);
  }

  /** The close of a current agent tears its session down with its counters; any other close writes nothing. */
  lemma {:induction false} EndCloseMeans(a: World, k: nat)
    requires Inv(a) && k < |a.peers|
    ensures var b := OnClose(a, k);
            && |b.store| == |a.store|
            && (forall s: nat | s < |a.store| && a.store[s].agent == Some(k) ::
                  var x := a.store[s];
                  && Gone(b, s, x)
                  && b.log == a.log + [TearDown(s, x.id, x.deviceId, AgentDisconnect, x.bytesOut, x.inputEvents)])
            && ((forall s: nat | s < |a.store| :: a.store[s].agent != Some(k)) ==> b.log == a.log && b.table == a.table)
            && (forall s: nat | s < |a.store| :: Moves(a, b, EndClose(k), s))
            && (forall s: nat | s < |a.store| && a.store[s].viewer == Some(k) ::
                  b.store[s].timer == Some(a.nextTimer) && a.nextTimer in b.timers
                  && b.timers[a.nextTimer] == Timer(s, a.now))
  {
    hide CloseSession, Inv;
    var v := a.(peers := a.peers[k := a.peers[k].(ready := Closed)]);
    forall s: nat | s < |a.store|
      ensures a.store[s].agent == Some(k) ==> a.peers[k].role == AgentOf(s)
      ensures a.store[s].viewer == Some(k) ==> a.peers[k].role == ViewerOf(s)
    {
      SeatRole(a, s, k);
    }
    RoleExists(a, k);
    if a.peers[k].role.AgentOf? && a.store[a.peers[k].role.session].agent == Some(k) {
      CloseMeans(v, a.peers[k].role.session, AgentDisconnect);
    }
  }

  /** A timer that goes off tears its session down with its counters. */
  lemma {:induction false} FireMeans(a: World, t: nat)
    requires Inv(a) && t in a.timers
    ensures var b, s := OnTimer(a, t), a.timers[t].session;
            && s < |a.store| && |b.store| == |a.store|
            && var x := a.store[s];
               && Gone(b, s, x)
               && b.log == a.log + [TearDown(s, x.id, x.deviceId, ViewerDisconnect, x.bytesOut, x.inputEvents)]
               && (forall r: nat | r < |a.store| :: Moves(a, b, Fire(t), r))
  {
    hide Inv, OnTimer, CloseSession;
    OnTimerKeeps(a, t);
    CloseMeans(a, a.timers[t].session, ViewerDisconnect);
  }

  lemma {:induction false} SweepMoves(a: World, buffered: map<nat, nat>, s: nat)
    requires Inv(a) && s < |a.store|
    ensures Moves(a, Tick(a, buffered, |a.store|), Sweep(buffered), s)
  {
    hide Inv, Tick, SweptPeer;
    SweptAll(a, buffered, |a.store|);
  }

  /* ---------- one step ---------- */

  /** The fields of every session object after any step. */
  lemma {:induction false} StepMoves(a: World, b: World, st: Step, s: nat)
    requires Inv(a) && Next(a, b, st) && s < |a.store|
    ensures Moves(a, b, st, s)
  {
    hide Inv, Join, OnMessage, OnClose, OnTimer, Tick;
    match st
    case Authenticate(_, _, _, _, _) => hide Moves; JoinMoves(a, st, s);
    case Message(k, p) => MessageMoves(a, k, p, s);
    case EndClose(k) => hide Moves; EndCloseMeans(a, k);
    case Fire(t) => hide Moves; FireMeans(a, t);
    case Sweep(buffered) => hide Moves; SweepMoves(a, buffered, s);
    case _ =>
  }

  /* ---------- activity ---------- */

  /** In step `i` session `s` is created or hears a message. */
  ghost predicate Stirs(run: seq<World>, steps: seq<Step>, i: nat, s: nat)
    requires i < |steps| < |run|
  {
    Hears(run[i], run[i + 1], steps[i], s) || |run[i].store| <= s < |run[i + 1].store|
  }

  lemma {:induction false} StepTime(a: World, b: World, st: Step)
    requires Inv(a) && Next(a, b, st)
    ensures a.now <= b.now && (!st.Elapse? ==> a.now == b.now) && |a.store| <= |b.store|
    ensures forall s: nat | |a.store| <= s < |b.store| :: b.store[s].lastActivity == a.now
  {
    hide Inv, Join, OnMessage, OnClose, OnTimer, Tick, Moves;
    match st
    case Authenticate(_, _, _, _, _) => JoinTime(a, st); var r := JoinMeans(a, st);
    case Message(k, p) => MessageWorld(a, k, p);
    case EndClose(k) => EndCloseMeans(a, k); CloseTime(a, k);
    case Fire(t) => FireMeans(a, t); OnTimerKeeps(a, t); CloseMeans(a, a.timers[t].session, ViewerDisconnect);
    case Sweep(buffered) => SweptAll(a, buffered, |a.store|);
    case _ =>
  }

  lemma {:induction false} CloseTime(a: World, k: nat)
    requires k < |a.peers|
    ensures OnClose(a, k).now == a.now
  {
    hide StopTimer;
    var v := a.(peers := a.peers[k := a.peers[k].(ready := Closed)]);
    if a.peers[k].role.AgentOf? && a.peers[k].role.session < |a.store| {
      CloseMeans(v, a.peers[k].role.session, AgentDisconnect);
    }
  }

  lemma {:induction false} JoinTime(w: World, st: Step)
    requires Inv(w) && st.Authenticate? && Enabled(w, st)
    ensures Join(w, st.k, st.agent, st.sid, st.did, st.uid).now == w.now
  {
    hide Inv, Enter, AgentJoin, ViewerJoin, OnMessages;
    var (u, s) := Enter(w, st.sid, st.did, st.uid);
    EnterKeeps(w, st.sid, st.did, st.uid);
    EnterMeans(w, st.sid, st.did, st.uid);
    var x := if st.agent then AgentJoin(u, st.k, s) else ViewerJoin(u, st.k, s);
    JoinRole(u, st.k, s);
    if st.agent {
      AgentJoinKeeps(u, st.k, s);
      AgentJoinMeans(u, st.k, s);
    } else {
      ViewerJoinKeeps(u, st.k, s);
      ViewerJoinMeans(u, st.k, s);
    }
    MessagesWorld(x, st.k, w.peers[st.k].early);
  }

  lemma {:induction false} BornStirs(run: seq<World>, steps: seq<Step>, m: nat, s: nat)
    requires m < |steps| < |run| && |run[m].store| <= s < |run[m + 1].store|
    ensures Stirs(run, steps, m, s)
  {
  }

  lemma {:induction false} StepActivity(run: seq<World>, steps: seq<Step>, m: nat, s: nat)
    requires IsRun(run, steps) && m < |steps| && s < |run[m].store|
    ensures s < |run[m + 1].store|
    ensures run[m + 1].store[s].lastActivity ==
            if Stirs(run, steps, m, s) then run[m].now else run[m].store[s].lastActivity
  {
    hide Inv, Next, Hears;
    InvInRuns(run, steps);
    StepMoves(run[m], run[m + 1], steps[m], s);
  }

  /** The activity of a session is the time of the last step in which it was created or heard a message. */
  lemma {:induction false} ActivityIs(run: seq<World>, steps: seq<Step>, n: nat, s: nat)
    requires IsRun(run, steps) && n < |run| && s < |run[n].store|
    ensures run[n].store[s].lastActivity <= run[n].now
    ensures forall i: nat | i < n && Stirs(run, steps, i, s) :: run[i].now <= run[n].store[s].lastActivity
    ensures exists i: nat :: i < n && Stirs(run, steps, i, s) && run[i].now == run[n].store[s].lastActivity
  {
    hide Inv, Next, Stirs;
    InvInRuns(run, steps);
    if n > 0 {
      var m := n - 1;
      StepTime(run[m], run[n], steps[m]);
      if s < |run[m].store| {
        ActivityIs(run, steps, m, s);
        StepActivity(run, steps, m, s);
        if !Stirs(run, steps, m, s) {
          var i: nat :| i < m && Stirs(run, steps, i, s) && run[i].now == run[m].store[s].lastActivity;
          assert i < n && run[i].now == run[n].store[s].lastActivity;
        }
      } else {
        assert Stirs(run, steps, m, s) by { BornStirs(run, steps, m, s); }
        NotBefore(run, steps, m, s);
      }
    }
  }

  /** A session that does not exist yet has heard nothing. */
  lemma {:induction false} NotBefore(run: seq<World>, steps: seq<Step>, n: nat, s: nat)
    requires IsRun(run, steps) && n < |run| && s >= |run[n].store|
    ensures forall i: nat | i < n :: !Stirs(run, steps, i, s)
  {
    hide Inv, Next, Handed;
    if n > 0 {
      InvInRuns(run, steps);
      StepTime(run[n - 1], run[n], steps[n - 1]);
      NotBefore(run, steps, n - 1, s);
      NothingHeard(run[n - 1], run[n], steps[n - 1], s);
    }
  }

  lemma {:induction false} NothingHeard(a: World, b: World, st: Step, s: nat)
    requires Inv(a) && Inv(b) && |a.store| <= |b.store| <= s
    ensures !Hears(a, b, st, s)
  {
    hide Inv;
    match st
    case Message(k, _) => if k < |a.peers| { RoleExists(a, k); }
    case Authenticate(k, _, _, _, _) => if k < |b.peers| { RoleExists(b, k); }
    case _ =>
  }

  /**
   * In every run a sweep takes a listed session out of the table if and only if it was created, and heard every one
   * of its messages, more than ten minutes before.
   */
  lemma {:induction false} SweptIff(run: seq<World>, steps: seq<Step>, n: nat, s: nat)
    requires IsRun(run, steps) && n < |steps| && steps[n].Sweep? && Listed(run[n], s)
    ensures !Listed(run[n + 1], s) <==>
            forall i: nat | i < n && Stirs(run, steps, i, s) :: run[n].now - run[i].now > 600_000
  {
    hide Inv, Next, Stirs, Tick;
    InvInRuns(run, steps);
    ActivityIs(run, steps, n, s);
    SweepUnlisted(run[n], run[n + 1], steps[n], s);
  }

  lemma {:induction false} SweepUnlisted(a: World, b: World, st: Step, s: nat)
    requires Inv(a) && Next(a, b, st) && st.Sweep? && Listed(a, s)
    ensures !Listed(b, s) <==> a.now - a.store[s].lastActivity > 600_000
  {
    hide Inv, Tick, SweptPeer;
    SweptAll(a, st.buffered, |a.store|);
  }

  /* ---------- the timer ---------- */

  lemma {:induction false} JoinTimer(w: World, st: Step, s: nat)
    requires Inv(w) && st.Authenticate? && Enabled(w, st) && s < |w.store|
    ensures var v := Join(w, st.k, st.agent, st.sid, st.did, st.uid);
            s < |v.store| && v.store[s].timer == if Joins(v, st, s) && !st.agent then None else w.store[s].timer
  {
    hide Inv, Enter, AgentJoin, ViewerJoin, OnMessages;
    var (u, r) := Enter(w, st.sid, st.did, st.uid);
    EnterKeeps(w, st.sid, st.did, st.uid);
    EnterMeans(w, st.sid, st.did, st.uid);
    var x := if st.agent then AgentJoin(u, st.k, r) else ViewerJoin(u, st.k, r);
    JoinRole(u, st.k, r);
    if st.agent {
      AgentJoinKeeps(u, st.k, r);
      AgentJoinMeans(u, st.k, r);
    } else {
      ViewerJoinKeeps(u, st.k, r);
      ViewerJoinMeans(u, st.k, r);
    }
    MessagesWorld(x, st.k, w.peers[st.k].early);
    MessagesMove(x, st.k, w.peers[st.k].early, s);
  }

  /** A timer handle stays until a viewer joins or the session ends. */
  lemma {:induction false} StepTimer(a: World, b: World, st: Step, s: nat)
    requires Inv(a) && Next(a, b, st) && s < |a.store| && !Ends(a, st, s)
    ensures s < |b.store|
    ensures LosesViewer(a, st, s) ==> b.store[s].timer == Some(a.nextTimer)
    ensures !LosesViewer(a, st, s) && !(Joins(b, st, s) && !st.agent) ==> b.store[s].timer == a.store[s].timer
  {
    hide Inv, Join, OnMessage, OnTimer, Tick, Moves, CloseSession, OnClose;
    match st
    case Authenticate(_, _, _, _, _) => JoinTimer(a, st, s);
    case Message(k, p) => MessageMoves(a, k, p, s);
    case EndClose(k) => EndCloseMeans(a, k); if !LosesViewer(a, st, s) { EndCloseTimer(a, k, s); }
    case Fire(t) => OnTimerKeeps(a, t); CloseMeans(a, a.timers[t].session, ViewerDisconnect);
    case Sweep(buffered) => SweepTimer(a, buffered, |a.store|, s);
    case _ =>
  }

  lemma {:induction false} EndCloseTimer(a: World, k: nat, s: nat)
    requires Inv(a) && k < |a.peers| && s < |a.store| && a.store[s].agent != Some(k) && a.store[s].viewer != Some(k)
    ensures s < |OnClose(a, k).store| && OnClose(a, k).store[s].timer == a.store[s].timer
  {
    hide CloseSession, Inv;
    RoleExists(a, k);
    var v := a.(peers := a.peers[k := a.peers[k].(ready := Closed)]);
    if a.peers[k].role.AgentOf? { CloseMeans(v, a.peers[k].role.session, AgentDisconnect); }
  }

  lemma {:induction false} SweepTimer(a: World, buffered: map<nat, nat>, n: nat, s: nat)
    requires Inv(a) && s < |a.store| && !(Listed(a, s) && Idle(a, s))
    ensures var v := Tick(a, buffered, n); s < |v.store| && v.store[s].timer == a.store[s].timer
  {
    hide Inv, TickOne, SweptPeer;
    if n > 0 {
      SweepTimer(a, buffered, n - 1, s);
      SweptAll(a, buffered, n - 1);
      TickTimer(a, Tick(a, buffered, n - 1), buffered, n - 1, s);
    }
  }

  lemma {:induction false} TickTimer(a: World, w: World, buffered: map<nat, nat>, n: nat, s: nat)
    requires Inv(a) && Swept(a, buffered, n, w) && s < |w.store| && s < |a.store|
    requires s == n ==> !(Listed(a, s) && Idle(a, s))
    ensures var v := TickOne(w, buffered, n); s < |v.store| && v.store[s].timer == w.store[s].timer
  {
    hide Inv, CloseSession, SweptPeer;
    if Listed(w, n) {
      ListedSame(a, buffered, n, w);
      CloseMeans(w, n, IdleTimeout);
      CloseMeans(Send(w, w.store[n].agent, LOW_QUALITY), n, IdleTimeout);
    }
  }

  /** Since step `i` no viewer has joined session `s`, and it has not been torn down. */
  ghost predicate Waits(run: seq<World>, steps: seq<Step>, i: nat, n: nat, s: nat)
    requires n <= |steps| < |run|
  {
    forall j: nat | i <= j < n ::
      s < |run[j].store| && !(Joins(run[j + 1], steps[j], s) && !steps[j].agent) && !Ends(run[j], steps[j], s)
  }

  /**
   * In every run a session that has lost its viewer has a grace timer pending until a viewer joins again or the
   * session is torn down.
   */
  lemma {:induction false} WaitsOnTimer(run: seq<World>, steps: seq<Step>, i: nat, n: nat, s: nat)
    requires IsRun(run, steps) && i < n < |run| && s < |run[i].store| && LosesViewer(run[i], steps[i], s)
    requires Waits(run, steps, i, n, s)
    ensures s < |run[n].store| && run[n].store[s].viewer.None? && run[n].store[s].timer.Some?
    ensures run[n].store[s].timer.value in run[n].timers
    ensures run[n].timers[run[n].store[s].timer.value].session == s
  {
    hide Inv, Next, Joins, Ends;
    InvInRuns(run, steps);
    var m := n - 1;
    if i < m { WaitsOnTimer(run, steps, i, m, s); }
    StepMoves(run[m], run[n], steps[m], s);
    StepTimer(run[m], run[n], steps[m], s);
    TimerThere(run[n], s);
  }

  lemma {:induction false} TimerThere(w: World, s: nat)
    requires Inv(w) && s < |w.store| && w.store[s].timer.Some?
    ensures w.store[s].timer.value in w.timers && w.timers[w.store[s].timer.value].session == s
  {
    hide Counted, Told, AgentInv, ViewerInv, PeerInv, TimerInv, TableInv;
    assert SessionInv(w, s);
  }

  /* ---------- what the relay asks for ---------- */

  function Farewell(w: World, s: nat, reason: Reason): Effect
    requires s < |w.store|
  {
    var x := w.store[s];
    TearDown(s, x.id, x.deviceId, reason, x.bytesOut, x.inputEvents)
  }

  /** The farewell of an idle session among the first `n`. */
  ghost predicate SweptAway(a: World, n: nat, x: Effect)
    requires n <= |a.store|
  {
    exists s: nat :: s < n && Listed(a, s) && Idle(a, s) && x == Farewell(a, s, IdleTimeout)
  }

  /** A sweep asks to give up exactly the idle sessions. */
  ghost predicate SweptLog(a: World, n: nat, log: seq<Effect>)
    requires n <= |a.store|
  {
    && a.log <= log
    && (forall e: nat | |a.log| <= e < |log| :: SweptAway(a, n, log[e]))
    && (forall s: nat | s < n && Listed(a, s) && Idle(a, s) :: Farewell(a, s, IdleTimeout) in log)
  }

  lemma {:induction false} SweptLogStep(a: World, n: nat, log: seq<Effect>)
    requires n < |a.store| && SweptLog(a, n, log)
    ensures SweptLog(a, n + 1, log + if Listed(a, n) && Idle(a, n) then [Farewell(a, n, IdleTimeout)] else [])
  {
    hide Listed, Idle, Farewell;
    var x := Farewell(a, n, IdleTimeout);
    var log' := log + if Listed(a, n) && Idle(a, n) then [x] else [];
    forall e: nat | |a.log| <= e < |log'| ensures SweptAway(a, n + 1, log'[e]) {
      if e < |log| {
        assert SweptAway(a, n, log[e]);
        var s: nat :| s < n && Listed(a, s) && Idle(a, s) && log[e] == Farewell(a, s, IdleTimeout);
        assert s < n + 1;
      }
    }
  }

  lemma {:induction false} SweepLog(a: World, buffered: map<nat, nat>, n: nat)
    requires Inv(a) && n <= |a.store|
    ensures SweptLog(a, n, Tick(a, buffered, n).log)
  {
    hide Inv, TickOne, SweptPeer, SweptLog;
    assert SweptLog(a, 0, a.log) by { SweptNothing(a); }
    if n > 0 {
      SweepLog(a, buffered, n - 1);
      SweptAll(a, buffered, n - 1);
      TickLog(a, Tick(a, buffered, n - 1), buffered, n - 1);
      SweptLogStep(a, n - 1, Tick(a, buffered, n - 1).log);
    }
  }

  lemma {:induction false} SweptNothing(a: World)
    ensures SweptLog(a, 0, a.log)
  {
  }

  lemma {:induction false} TickLog(a: World, w: World, buffered: map<nat, nat>, n: nat)
    requires Inv(a) && Swept(a, buffered, n, w) && n < |a.store|
    ensures TickOne(w, buffered, n).log ==
            w.log + if Listed(a, n) && Idle(a, n) then [Farewell(a, n, IdleTimeout)] else []
  {
    hide Inv, CloseSession, SweptPeer;
    ListedSame(a, buffered, n, w);
    if Listed(w, n) {
      CloseMeans(w, n, IdleTimeout);
      CloseMeans(Send(w, w.store[n].agent, LOW_QUALITY), n, IdleTimeout);
    }
  }

  /**
   * What each callback asks of Redis and Postgres: a join to mark the row active, exactly if both sides are open then;
   * the close of a current agent, a timer and the sweep to give up the row and keys of the sessions they end, with
   * the session's counters; anything else nothing.
   */
  lemma {:induction false} StepLog(a: World, b: World, st: Step)
    requires Inv(a) && Next(a, b, st)
    ensures match st
            case Authenticate(_, _, sid, _, _) =>
              && sid in b.table && Joins(b, st, b.table[sid]) && b.table[sid] < |b.store|
              && var s := b.store[b.table[sid]];
                 b.log == a.log + if IsOpen(b, s.agent) && IsOpen(b, s.viewer) then [Activate(sid)] else []
            case EndClose(k) =>
              && (forall s: nat | s < |a.store| && a.store[s].agent == Some(k) ::
                    b.log == a.log + [Farewell(a, s, AgentDisconnect)] && s < |b.store| && Gone(b, s, a.store[s]))
              && ((forall s: nat | s < |a.store| :: a.store[s].agent != Some(k)) ==> b.log == a.log)
            case Fire(t) =>
              && t in a.timers && a.timers[t].session < |a.store| && a.timers[t].session < |b.store|
              && b.log == a.log + [Farewell(a, a.timers[t].session, ViewerDisconnect)]
              && Gone(b, a.timers[t].session, a.store[a.timers[t].session])
            case Sweep(_) => SweptLog(a, |a.store|, b.log)
            case _ => b.log == a.log
  {
    hide Inv, Join, OnMessage, OnClose, OnTimer, Tick, Moves, Gone, SweptLog;
    match st
    case Authenticate(_, _, _, _, _) => var s := JoinMeans(a, st);
    case Message(k, p) => MessageWorld(a, k, p);
    case EndClose(k) => EndCloseMeans(a, k);
    case Fire(t) => FireMeans(a, t);
    case Sweep(buffered) => SweepLog(a, buffered, |a.store|);
    case _ =>
  }

  /* ---------- refused sockets ---------- */

  /** No socket is reopened, and only a refusal makes a socket a refused one, which it leaves not open. */
  ghost predicate Settles(a: World, b: World, st: Step) {
    && |a.peers| <= |b.peers|
    && (forall k: nat | k < |a.peers| ::
          && (b.peers[k].ready.Open? ==> a.peers[k].ready.Open?)
          && (b.peers[k].role.Rejected? ==> a.peers[k].role.Rejected? || (st == Reject(k) && !b.peers[k].ready.Open?)))
    && (forall k: nat | |a.peers| <= k < |b.peers| :: !b.peers[k].role.Rejected?)
  }

  lemma {:induction false} JoinSettles(w: World, st: Step)
    requires Inv(w) && st.Authenticate? && Enabled(w, st)
    ensures Settles(w, Join(w, st.k, st.agent, st.sid, st.did, st.uid), st)
  {
    hide Inv, Enter, OnMessages, MarkActive, StopTimer;
    var (u, s) := Enter(w, st.sid, st.did, st.uid);
    EnterKeeps(w, st.sid, st.did, st.uid);
    var x := if st.agent then AgentJoin(u, st.k, s) else ViewerJoin(u, st.k, s);
    JoinRole(u, st.k, s);
    if st.agent {
      AgentJoinKeeps(u, st.k, s);
      var v := Put(Take(u, st.k, AgentOf(s)), s, u.store[s].(agent := Some(st.k)));
      MarkActiveShape(if IsOpen(v, v.store[s].viewer) then Send(v, Some(st.k), VIEWER_JOIN) else v, s);
    } else {
      ViewerJoinKeeps(u, st.k, s);
      ViewerSettles(u, st.k, s);
    }
    MessagesKeep(x, st.k, w.peers[st.k].early);
  }

  lemma {:induction false} ViewerSettles(w: World, k: nat, s: nat)
    requires Inv(w) && k < |w.peers| && s < |w.store| && w.peers[k].role.Pending?
    ensures var v := ViewerJoin(w, k, s);
            && |v.peers| == |w.peers|
            && forall j: nat | j < |w.peers| ::
                 && v.peers[j].ready == w.peers[j].ready
                 && v.peers[j].role == if j == k then ViewerOf(s) else w.peers[j].role
  {
    hide Inv, StopTimer, Seat, MarkActive;
    StopTimerMeans(w, s);
    StopTimerKeeps(w, s);
    var u := StopTimer(w, s);
    SeatIsJoin(u, k, s);
    SeatShape(u, k, s);
    var x := Seat(u, k, s);
    MarkActiveMeans(if IsOpen(x, x.store[s].agent) then Send(x, x.store[s].agent, VIEWER_JOIN) else x, s);
  }

  lemma {:induction false} StepSettles(a: World, b: World, st: Step)
    requires Inv(a) && Next(a, b, st)
    ensures Settles(a, b, st)
  {
    hide Inv, Join, OnMessage, OnTimer, Tick, CloseSession;
    match st
    case Authenticate(_, _, _, _, _) => JoinSettles(a, st);
    case Message(k, p) => MessageKeeps(a, k, p);
    case EndClose(k) =>
      var v := a.(peers := a.peers[k := a.peers[k].(ready := Closed)]);
      RoleExists(a, k);
      if a.peers[k].role.AgentOf? { CloseShape(v, a.peers[k].role.session, AgentDisconnect); }
    case Fire(t) =>
      OnTimerKeeps(a, t);
      CloseShape(a, a.timers[t].session, ViewerDisconnect);
    case Sweep(buffered) => SweptAll(a, buffered, |a.store|);
    case _ =>
  }

  /** In every run a socket that was refused is never open. */
  lemma {:induction false} RefusedStaysShut(run: seq<World>, steps: seq<Step>, n: nat, k: nat)
    requires IsRun(run, steps) && n < |run| && k < |run[n].peers| && run[n].peers[k].role.Rejected?
    ensures !run[n].peers[k].ready.Open?
  {
    hide Inv, Next;
    if n > 0 {
      InvInRuns(run, steps);
      StepSettles(run[n - 1], run[n], steps[n - 1]);
      if k < |run[n - 1].peers| && run[n - 1].peers[k].role.Rejected? { RefusedStaysShut(run, steps, n - 1, k); }
    }
  }
}
