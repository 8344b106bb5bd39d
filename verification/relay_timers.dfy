/** Grace timers, teardowns and the idle sweep of the relay. */
module RelayTimers {
  import opened Options
  import opened Texts
  import opened Relay
  import opened RelayState
  import opened RelayRuns

  predicate Goodbye(e: Effect) { e.TearDown? && e.reason == ViewerDisconnect }

  /** No timer is set, and no session is torn down for want of a viewer. */
  ghost predicate Calm(a: World, b: World) {
    && b.timers.Items <= a.timers.Items
    && a.log <= b.log
    && (forall i | |a.log| <= i < |b.log| :: !Goodbye(b.log[i]))
  }

  lemma {:induction false} CalmTransitive(a: World, b: World, c: World)
    requires Calm(a, b) && Calm(b, c)
    ensures Calm(a, c)
  {
  }

  lemma {:induction false} MessageCalm(w: World, k: nat, p: Packet)
    requires k < |w.peers|
    ensures Calm(w, OnMessage(w, k, p))
  {
    hide HearAgent, HearViewer;
  }

  lemma {:induction false} MessagesCalm(w: World, k: nat, ps: seq<Packet>)
    requires k < |w.peers|
    ensures Calm(w, OnMessages(w, k, ps))
  {
    hide OnMessage;
    if ps != [] {
      MessagesCalm(w, k, ps[..|ps| - 1]);
      MessageCalm(OnMessages(w, k, ps[..|ps| - 1]), k, ps[|ps| - 1]);
    }
  }

  lemma {:induction false} JoinCalm(w: World, k: nat, agent: bool, sid: Text, did: Text, uid: int)
    requires k < |w.peers| && Inv(w)
    ensures Calm(w, Join(w, k, agent, sid, did, uid))
  {
    hide Inv, OnMessages, Enter, AgentJoin, ViewerJoin, Quiet, Calm;
    var (v, s) := Enter(w, sid, did, uid);
    EnterKeeps(w, sid, did, uid);
    EnterCalm(w, sid, did, uid);
    var x := if agent then AgentJoin(v, k, s) else ViewerJoin(v, k, s);
    JoinRole(v, k, s);
    AgentJoinCalm(v, k, s);
    ViewerJoinCalm(v, k, s);
    MessagesCalm(x, k, w.peers[k].early);
    CalmTransitive(w, v, x);
    CalmTransitive(w, x, OnMessages(x, k, w.peers[k].early));
  }

  lemma {:induction false} EnterCalm(w: World, sid: Text, did: Text, uid: int)
    ensures Calm(w, Enter(w, sid, did, uid).0)
  {
  }

  lemma {:induction false} AgentJoinCalm(w: World, k: nat, s: nat)
    requires k < |w.peers| && s < |w.store|
    ensures Calm(w, AgentJoin(w, k, s))
  {
  }

  lemma {:induction false} ViewerJoinCalm(w: World, k: nat, s: nat)
    requires k < |w.peers| && s < |w.store|
    ensures Calm(w, ViewerJoin(w, k, s))
  {
  }

  lemma {:induction false} CloseCalm(w: World, s: nat, reason: Reason)
    requires s < |w.store|
    ensures var v := CloseSession(w, s, reason);
            && v.timers.Items <= w.timers.Items && |v.log| == |w.log| + 1 && w.log <= v.log
            && v.log[|w.log|].TearDown? && v.log[|w.log|].session == s && v.log[|w.log|].reason == reason
  {
  }

  lemma {:induction false} TickOneCalm(w: World, buffered: map<nat, nat>, s: nat)
    ensures Calm(w, TickOne(w, buffered, s))
  {
    hide CloseSession;
    if Listed(w, s) {
      CloseCalm(w, s, IdleTimeout);
      CloseCalm(Send(w, w.store[s].agent, LOW_QUALITY), s, IdleTimeout);
    }
  }

  lemma {:induction false} TickCalm(w: World, buffered: map<nat, nat>, n: nat)
    ensures Calm(w, Tick(w, buffered, n))
  {
    hide TickOne;
    if n > 0 {
      TickCalm(w, buffered, n - 1);
      TickOneCalm(Tick(w, buffered, n - 1), buffered, n - 1);
    }
  }

  /** Only the close event of a current viewer sets a timer, and only a timer says goodbye. */
  ghost predicate Orderly(a: World, b: World, st: Step) {
    && a.log <= b.log
    && (forall t | t in b.timers ::
          || (t in a.timers && a.timers[t] == b.timers[t])
          || (st.EndClose? && b.timers[t].session < |a.store| && b.timers[t].setAt == a.now
              && a.store[b.timers[t].session].viewer == Some(st.k)))
    && (forall i | |a.log| <= i < |b.log| && Goodbye(b.log[i]) ::
          st.Fire? && st.t in a.timers && b.log[i].session == a.timers[st.t].session)
  }

  lemma {:induction false} CalmOrderly(a: World, b: World, st: Step)
    requires Calm(a, b)
    ensures Orderly(a, b, st)
  {
    forall t | t in b.timers ensures t in a.timers && a.timers[t] == b.timers[t] {
      assert (t, b.timers[t]) in b.timers.Items;
    }
  }

  lemma {:induction false} EndCloseOrderly(a: World, k: nat)
    requires k < |a.peers|
    ensures Orderly(a, OnClose(a, k), EndClose(k))
  {
    hide CloseSession;
    var v := a.(peers := a.peers[k := a.peers[k].(ready := Closed)]);
    if a.peers[k].role.AgentOf? && a.peers[k].role.session < |a.store| {
      CloseCalm(v, a.peers[k].role.session, AgentDisconnect);
      if a.store[a.peers[k].role.session].agent == Some(k) {
        CalmOrderly(a, OnClose(a, k), EndClose(k));
      }
    }
  }

  lemma {:induction false} FireOrderly(a: World, t: nat)
    requires Inv(a) && t in a.timers
    ensures Orderly(a, OnTimer(a, t), Fire(t))
  {
    hide CloseSession, Inv, OnTimer;
    OnTimerKeeps(a, t);
    var b := OnTimer(a, t);
    CloseCalm(a, a.timers[t].session, ViewerDisconnect);
    forall r | r in b.timers ensures r in a.timers && a.timers[r] == b.timers[r] {
      assert (r, b.timers[r]) in b.timers.Items;
    }
  }

  lemma {:induction false} StepOrderly(a: World, b: World, st: Step)
    requires Inv(a) && Next(a, b, st)
    ensures Orderly(a, b, st)
  {
    hide Inv, Join, OnMessage, OnClose, OnTimer, Tick, Orderly;
    match st
    case Authenticate(k, agent, sid, did, uid) => JoinCalm(a, k, agent, sid, did, uid); CalmOrderly(a, b, st);
    case Message(k, p) => MessageCalm(a, k, p); CalmOrderly(a, b, st);
    case EndClose(k) => EndCloseOrderly(a, k);
    case Fire(t) => FireOrderly(a, t);
    case Sweep(buffered) => TickCalm(a, buffered, |a.store|); CalmOrderly(a, b, st);
    case _ => CalmOrderly(a, b, st);
  }

  /** In step `i` the current viewer of `s` closed, and in the states after it up to `n` the session had no viewer. */
  ghost predicate GoneSince(run: seq<World>, steps: seq<Step>, i: nat, n: nat, s: nat)
    requires n < |run| && |steps| < |run|
  {
    && i < n && i < |steps| && steps[i].EndClose?
    && s < |run[i].store| && run[i].store[s].viewer == Some(steps[i].k)
    && (forall m: nat | i < m <= n :: s < |run[m].store| && run[m].store[s].viewer.None?)
  }

  /** Every pending timer was set by the close of the viewer its session has been without ever since. */
  lemma {:induction false} TimerSince(run: seq<World>, steps: seq<Step>, n: nat, t: nat) returns (i: nat)
    requires IsRun(run, steps) && n < |run| && t in run[n].timers
    ensures GoneSince(run, steps, i, n, run[n].timers[t].session) && run[n].timers[t].setAt == run[i].now
  {
    hide Inv, Next;
    InvInRuns(run, steps);
    SessionOf(run[n], t);
    if n == 0 {
      assert false;
    } else {
      StepOrderly(run[n - 1], run[n], steps[n - 1]);
      if t in run[n - 1].timers && run[n - 1].timers[t] == run[n].timers[t] {
        i := TimerSince(run, steps, n - 1, t);
      } else {
        i := n - 1;
      }
    }
  }

  lemma {:induction false} SessionOf(w: World, t: nat)
    requires Inv(w) && t in w.timers
    ensures w.timers[t].session < |w.store| && w.store[w.timers[t].session].viewer.None?
  {
    assert TimerInv(w, t);
  }

  /**
   * In every run, a session torn down for want of a viewer (entry `e` of the log, written in step `j`) had lost its
   * current viewer in an earlier step and had none for at least the whole grace period.
   */
  lemma {:induction false} GraceKept(run: seq<World>, steps: seq<Step>, j: nat, e: nat) returns (i: nat)
    requires IsRun(run, steps) && j < |steps| && |run[j].log| <= e < |run[j + 1].log| && Goodbye(run[j + 1].log[e])
    ensures GoneSince(run, steps, i, j, run[j + 1].log[e].session)
    ensures run[j].now - run[i].now >= 1_500
  {
    hide Inv, Do;
    InvInRuns(run, steps);
    assert Next(run[j], run[j + 1], steps[j]);
    StepOrderly(run[j], run[j + 1], steps[j]);
    i := TimerSince(run, steps, j, steps[j].t);
  }

  /** In every reachable state a pending timer's session has no viewer, and no session has two timers. */
  lemma {:induction false} OneTimer(run: seq<World>, steps: seq<Step>, n: nat, t: nat, u: nat)
    requires IsRun(run, steps) && n < |run| && t in run[n].timers && u in run[n].timers
    ensures run[n].timers[t].session < |run[n].store| && run[n].store[run[n].timers[t].session].viewer.None?
    ensures run[n].timers[t].session == run[n].timers[u].session ==> t == u
  {
    InvInRuns(run, steps);
    hide IsRun;
    assert TimerInv(run[n], t) && TimerInv(run[n], u);
  }

  /* ---------- the sweep ---------- */

  predicate Jammed(w: World, buffered: map<nat, nat>, s: nat)
    requires s < |w.store|
  {
    var v := w.store[s].viewer;
    v.Some? && v.value in buffered && buffered[v.value] > BACKPRESSURE_BYTES
  }

  /** The socket is the current one of a listed session below `n`. */
  predicate Seated(w: World, k: nat, n: nat)
    requires k < |w.peers|
  {
    match w.peers[k].role
    case AgentOf(s) => s < n && Listed(w, s) && w.store[s].agent == Some(k)
    case ViewerOf(s) => s < n && Listed(w, s) && w.store[s].viewer == Some(k)
    case _ => false
  }

  function SweptPeer(w: World, buffered: map<nat, nat>, n: nat, k: nat): Peer
    requires k < |w.peers|
  {
    var p := w.peers[k];
    if !Seated(w, k, n) then p else
    var q := if p.role.AgentOf? && Jammed(w, buffered, p.role.session) then Deliver(p, LOW_QUALITY) else p;
    if Idle(w, p.role.session) then HangUp(q) else q
  }

  ghost predicate Swept(w: World, buffered: map<nat, nat>, n: nat, v: World) {
    && |v.peers| == |w.peers| && |v.store| == |w.store| && v.now == w.now
    && (forall s: nat | s < |w.store| :: v.store[s] == w.store[s].(timer := v.store[s].timer))
    && (forall id ::
          id in v.table <==>
            && id in w.table
            && (w.table[id] < n ==> !(w.table[id] < |w.store| && Idle(w, w.table[id]))))
    && (forall id | id in v.table :: v.table[id] == w.table[id])
    && (forall k: nat | k < |w.peers| :: v.peers[k] == SweptPeer(w, buffered, n, k))
    && (forall s: nat | s < n && Listed(w, s) && Idle(w, s) ::
          TearDown(s, w.store[s].id, w.store[s].deviceId, IdleTimeout, w.store[s].bytesOut,
              w.store[s].inputEvents) in v.log)
    && w.log <= v.log
  }

  lemma {:induction false} CloseShape(w: World, s: nat, reason: Reason)
    requires s < |w.store|
    ensures var v := CloseSession(w, s, reason);
            var x := w.store[s];
            && |v.peers| == |w.peers| && |v.store| == |w.store| && v.now == w.now
            && (forall r: nat | r < |w.store| :: v.store[r] == w.store[r].(timer := v.store[r].timer))
            && v.table == w.table - {x.id}
            && v.log == w.log + [TearDown(s, x.id, x.deviceId, reason, x.bytesOut, x.inputEvents)]
            && (forall k: nat | k < |w.peers| ::
                  v.peers[k] == if x.agent == Some(k) || x.viewer == Some(k) then HangUp(w.peers[k]) else w.peers[k])
  {
  }

  /** What the sweep does to one socket because of session `s`. */
  function SweepPeer(w: World, buffered: map<nat, nat>, s: nat, k: nat): Peer
    requires s < |w.store| && k < |w.peers|
  {
    var x := w.store[s];
    var q := if Jammed(w, buffered, s) && x.agent == Some(k) then Deliver(w.peers[k], LOW_QUALITY) else w.peers[k];
    if Idle(w, s) && (x.agent == Some(k) || x.viewer == Some(k)) then HangUp(q) else q
  }

  lemma {:induction false} TickOneShape(w: World, buffered: map<nat, nat>, s: nat)
    requires Listed(w, s)
    ensures var v := TickOne(w, buffered, s);
            var x := w.store[s];
            && |v.peers| == |w.peers| && |v.store| == |w.store| && v.now == w.now
            && (forall r: nat | r < |w.store| :: v.store[r] == w.store[r].(timer := v.store[r].timer))
            && v.table == (if Idle(w, s) then w.table - {x.id} else w.table)
            && v.log == w.log + (if Idle(w, s) then [TearDown(s, x.id, x.deviceId, IdleTimeout, x.bytesOut,
                x.inputEvents)] else [])
            && (forall k: nat | k < |w.peers| :: v.peers[k] == SweepPeer(w, buffered, s, k))
  {
    hide CloseSession, HangUp, Deliver;
    CloseShape(w, s, IdleTimeout);
    CloseShape(Send(w, w.store[s].agent, LOW_QUALITY), s, IdleTimeout);
  }

  lemma {:induction false} SweptOne(w: World, buffered: map<nat, nat>, n: nat, v: World)
    requires Inv(w) && Swept(w, buffered, n, v)
    ensures Swept(w, buffered, n + 1, TickOne(v, buffered, n))
  {
    hide Inv, TickOne, SweptPeer, SweepPeer;
    var b := TickOne(v, buffered, n);
    if Listed(v, n) {
      TickOneShape(v, buffered, n);
      forall k: nat | k < |w.peers| ensures b.peers[k] == SweptPeer(w, buffered, n + 1, k) {
        SweptPeerStep(w, buffered, n, v, k);
      }
      TableStep(w, buffered, n, v);
    } else {
      assert b == v by { UnlistedStays(v, buffered, n); }
      forall k: nat | k < |w.peers| ensures b.peers[k] == SweptPeer(w, buffered, n + 1, k) {
        SweptPeerUnlisted(w, buffered, n, v, k);
      }
      TableSame(w, n, v, buffered);
    }
  }

  lemma {:induction false} UnlistedStays(w: World, buffered: map<nat, nat>, n: nat)
    requires !Listed(w, n)
    ensures TickOne(w, buffered, n) == w
  {
  }

  /** A session not yet reached is listed as it was before the sweep. */
  lemma {:induction false} ListedSame(w: World, buffered: map<nat, nat>, n: nat, v: World)
    requires Swept(w, buffered, n, v)
    ensures Listed(v, n) == Listed(w, n)
  {
    hide SweptPeer;
  }

  lemma {:induction false} TableStep(w: World, buffered: map<nat, nat>, n: nat, v: World)
    requires Inv(w) && Swept(w, buffered, n, v) && Listed(v, n)
    ensures var t := if Idle(v, n) then v.table - {v.store[n].id} else v.table;
            && (forall id ::
                  id in t <==>
                    && id in w.table
                    && (w.table[id] < n + 1 ==> !(w.table[id] < |w.store| && Idle(w, w.table[id]))))
            && (forall id | id in t :: t[id] == w.table[id])
  {
    hide SweptPeer, SessionInv, PeerInv, TimerInv;
    ListedSame(w, buffered, n, v);
  }

  lemma {:induction false} TableSame(w: World, n: nat, v: World, buffered: map<nat, nat>)
    requires Inv(w) && Swept(w, buffered, n, v) && !Listed(v, n)
    ensures forall id ::
              id in v.table <==>
                && id in w.table
                && (w.table[id] < n + 1 ==> !(w.table[id] < |w.store| && Idle(w, w.table[id])))
    ensures !Listed(w, n)
  {
    hide SweptPeer, SessionInv, PeerInv, TimerInv;
    ListedSame(w, buffered, n, v);
  }

  lemma {:induction false} SweptPeerUnlisted(w: World, buffered: map<nat, nat>, n: nat, v: World, k: nat)
    requires Swept(w, buffered, n, v) && !Listed(v, n) && k < |w.peers|
    ensures SweptPeer(w, buffered, n + 1, k) == SweptPeer(w, buffered, n, k)
  {
    ListedSame(w, buffered, n, v);
  }

  lemma {:induction false} SweptPeerStep(w: World, buffered: map<nat, nat>, n: nat, v: World, k: nat)
    requires Inv(w) && Swept(w, buffered, n, v) && Listed(v, n) && k < |w.peers|
    ensures SweepPeer(v, buffered, n, k) == SweptPeer(w, buffered, n + 1, k)
  {
    ListedSame(w, buffered, n, v);
    hide TableInv, Counted, TimerInv, Told, FieldInv, PeerInv;
    assert SessionInv(w, n);
    assert v.peers[k] == SweptPeer(w, buffered, n, k);
    assert v.store[n] == w.store[n].(timer := v.store[n].timer);
    hide Inv, SessionInv, Swept, Deliver, HangUp;
  }

  lemma {:induction false} SweptAll(w: World, buffered: map<nat, nat>, n: nat)
    requires Inv(w)
    ensures Swept(w, buffered, n, Tick(w, buffered, n))
  {
    hide Inv, TickOne, Swept;
    if n == 0 {
      assert Swept(w, buffered, 0, w) by { SweptNone(w, buffered); }
    } else {
      SweptAll(w, buffered, n - 1);
      SweptOne(w, buffered, n - 1, Tick(w, buffered, n - 1));
    }
  }

  lemma {:induction false} SweptNone(w: World, buffered: map<nat, nat>)
    ensures Swept(w, buffered, 0, w)
  {
  }

  /**
   * One sweep leaves exactly the listed sessions that are not idle. The sockets of an idle one are hung up and its
   * row is closed with its counters; the open agent of a jammed viewer is asked for less; nothing else changes.
   */
  lemma {:induction false} SweepExact(w: World, buffered: map<nat, nat>)
    requires Inv(w)
    ensures var v := Do(w, Sweep(buffered));
            && (forall id :: id in v.table <==> id in w.table && w.now - w.store[w.table[id]].lastActivity <= IDLE_MS)
            && (forall id | id in v.table :: v.table[id] == w.table[id])
            && |v.peers| == |w.peers|
            && (forall k: nat | k < |w.peers| :: v.peers[k] == SweptPeer(w, buffered, |w.store|, k))
            && (forall s: nat | Listed(w, s) && Idle(w, s) ::
                  TearDown(s, w.store[s].id, w.store[s].deviceId, IdleTimeout, w.store[s].bytesOut,
                      w.store[s].inputEvents) in v.log)
  {
    hide Tick, SweptPeer, SessionInv, PeerInv, TimerInv;
    SweptAll(w, buffered, |w.store|);
  }
}
