/** What holds over whole runs of the relay: viewer streams, the stash, timers, counters and the sweep. */
module RelayRuns {
  import opened Options
  import opened Texts
  import opened Relay
  import opened RelayState

  function RelayAll(ps: seq<Packet>): seq<Packet> { seq(|ps|, i requires 0 <= i < |ps| => Relayed(ps[i])) }

  /** The relay passes the bytes on as they are, marked binary if they were sent so or start like a frame. */
  lemma {:induction false} RelayedMeans(ps: seq<Packet>)
    ensures |RelayAll(ps)| == |ps|
    ensures forall i | 0 <= i < |ps| ::
              && RelayAll(ps)[i].data == ps[i].data
              && (RelayAll(ps)[i].binary <==> ps[i].binary || (ps[i].data != [] && ps[i].data[0] in {1, 2, 3, 4}))
  {
  }

  /** The first byte is 1. */
  predicate Configures(p: Packet) { p.data != [] && p.data[0] == 1 }

  /** Message `i` is the last whose first byte is 1. */
  ghost predicate LastConfig(ps: seq<Packet>, i: nat) {
    i < |ps| && Configures(ps[i]) && forall j: nat | i < j < |ps| :: !Configures(ps[j])
  }

  /** The newest config is the last message whose first byte is 1, and missing if there is none. */
  lemma {:induction false} NewestMeans(ps: seq<Packet>) returns (i: nat)
    ensures Newest(ps).None? ==> forall j: nat | j < |ps| :: !Configures(ps[j])
    ensures Newest(ps).Some? ==> LastConfig(ps, i) && Newest(ps) == Some(ps[i].data)
  {
    i := 0;
    if ps != [] {
      var init, p := ps[..|ps| - 1], ps[|ps| - 1];
      assert IsConfig(p) <==> Configures(p);
      hide Configures, IsConfig;
      i := NewestMeans(init);
      if Configures(p) { i := |ps| - 1; }
      forall j: nat | j < |init| ensures ps[j] == init[j] {}
    }
  }

  /** Socket `k` said `ps`: they reach its own session, and that session's current open viewer, if it is an agent. */
  ghost predicate Spoke(a: World, b: World, k: nat, ps: seq<Packet>)
    requires k < |a.peers|
  {
    && |b.peers| == |a.peers| && |b.store| == |a.store|
    && (forall j: nat | j < |a.peers| ::
          && b.peers[j].role == a.peers[j].role && b.peers[j].ready == a.peers[j].ready
          && b.peers[j].early == a.peers[j].early + (if j == k && Unknown(a, k) then ps else []))
    && (forall s: nat | s < |a.store| ::
          && b.store[s].viewer == a.store[s].viewer
          && b.store[s].fromAgents == a.store[s].fromAgents + (if a.peers[k].role == AgentOf(s) then ps else [])
          && b.store[s].fromViewers == a.store[s].fromViewers + (if a.peers[k].role == ViewerOf(s) then ps else []))
    && (forall v: nat, s: nat | IsViewer(a, v, s) ::
          b.peers[v].outbox == a.peers[v].outbox +
                               (if a.peers[k].role == AgentOf(s) && Current(a, v, s) then RelayAll(ps) else []))
  }

  lemma {:induction false} HeardAppend(x: Session, p: Packet, now: int)
    requires Counted(x)
    ensures Counted(HearAgent(x, p, now)) && Counted(HearViewer(x, p, now))
  {
    assert (x.fromAgents + [p])[..|x.fromAgents|] == x.fromAgents;
  }

  lemma {:induction false} HearShape(x: Session, p: Packet, now: int)
    ensures var y := HearAgent(x, p, now);
            && y == x.(config := y.config, bytesOut := y.bytesOut, lastActivity := now,
                fromAgents := x.fromAgents + [p])
    ensures var y := HearViewer(x, p, now);
            && y == x.(inputEvents := y.inputEvents, lastActivity := now, fromViewers := x.fromViewers + [p])
  {
  }

  /** A message reaches the handler of its session. */
  lemma {:induction false} HearKeeps(w: World, s: nat, x: Session)
    requires Inv(w) && s < |w.store|
    requires x.id == w.store[s].id && x.agent == w.store[s].agent && x.viewer == w.store[s].viewer
    requires x.timer == w.store[s].timer && Counted(x)
    ensures Inv(Put(w, s, x))
  {
    hide Counted;
    var v := Put(w, s, x);
    forall t: nat ensures TimerInv(v, t) { assert TimerInv(w, t); }
    forall r: nat | r < |w.store| ensures SessionInv(v, r) { assert SessionInv(w, r); }
    forall j: nat | j < |w.peers| ensures PeerInv(v, j) { assert PeerInv(w, j); }
  }

  /** Forwarding to either side of a session. */
  lemma {:induction false} ForwardKeeps(w: World, s: nat, k: Option<nat>, p: Packet)
    requires Inv(w) && s < |w.store| && (k == w.store[s].agent || k == w.store[s].viewer)
    ensures Inv(Send(w, k, p))
  {
    hide Counted;
    var v := Send(w, k, p);
    assert SessionInv(w, s);
    forall t: nat ensures TimerInv(v, t) { assert TimerInv(w, t); }
    forall r: nat | r < |w.store| ensures SessionInv(v, r) { assert SessionInv(w, r); }
    forall j: nat | j < |w.peers| ensures PeerInv(v, j) { assert PeerInv(w, j); }
  }

  lemma {:induction false} AgentMessageSpoke(w: World, k: nat, s: nat, p: Packet)
    requires Inv(w) && k < |w.peers| && s < |w.store| && w.peers[k].role == AgentOf(s)
    ensures Spoke(w, AgentMessage(w, s, p), k, [p])
  {
    hide HearAgent, Counted, Relayed, TimerInv, PeerInv, FieldInv, Told, TableInv;
    HearShape(w.store[s], p, w.now);
    assert SessionInv(w, s);
    assert RelayAll([p]) == [Relayed(p)];
    hide RelayAll;
  }

  lemma {:induction false} ViewerMessageSpoke(w: World, k: nat, s: nat, p: Packet)
    requires Inv(w) && k < |w.peers| && s < |w.store| && w.peers[k].role == ViewerOf(s)
    ensures Spoke(w, ViewerMessage(w, s, p), k, [p])
  {
    hide HearViewer, Counted, RelayAll, TimerInv, PeerInv, FieldInv, Told, TableInv;
    HearShape(w.store[s], p, w.now);
    assert SessionInv(w, s);
  }

  lemma {:induction false} StashKeeps(w: World, k: nat, p: Packet)
    requires Inv(w) && k < |w.peers| && (w.peers[k].role.Pending? || w.peers[k].role.Rejected?)
    ensures Inv(OnMessage(w, k, p)) && Spoke(w, OnMessage(w, k, p), k, [p])
  {
    hide BinaryBytes, Newest;
    var v := OnMessage(w, k, p);
    forall t: nat ensures TimerInv(v, t) { assert TimerInv(w, t); }
    forall r: nat | r < |w.store| ensures SessionInv(v, r) { assert SessionInv(w, r); }
    forall j: nat | j < |w.peers| ensures PeerInv(v, j) { assert PeerInv(w, j); }
  }

  lemma {:induction false} CountedAt(w: World, s: nat)
    requires Inv(w) && s < |w.store|
    ensures Counted(w.store[s])
  {
    assert SessionInv(w, s);
  }

  lemma {:induction false} MessageKeeps(w: World, k: nat, p: Packet)
    requires Inv(w) && k < |w.peers|
    ensures Inv(OnMessage(w, k, p)) && Spoke(w, OnMessage(w, k, p), k, [p])
  {
    hide SessionInv, TimerInv, TableInv, Spoke, Current, Counted, HearAgent, HearViewer;
    assert PeerInv(w, k);
    match w.peers[k].role
    case AgentOf(s) =>
      CountedAt(w, s);
      HeardAppend(w.store[s], p, w.now);
      HearShape(w.store[s], p, w.now);
      HearKeeps(w, s, HearAgent(w.store[s], p, w.now));
      ForwardKeeps(Put(w, s, HearAgent(w.store[s], p, w.now)), s, w.store[s].viewer, Relayed(p));
      AgentMessageSpoke(w, k, s, p);
    case ViewerOf(s) =>
      CountedAt(w, s);
      HeardAppend(w.store[s], p, w.now);
      HearShape(w.store[s], p, w.now);
      HearKeeps(w, s, HearViewer(w.store[s], p, w.now));
      ForwardKeeps(Put(w, s, HearViewer(w.store[s], p, w.now)), s, w.store[s].agent, p);
      ViewerMessageSpoke(w, k, s, p);
    case _ => StashKeeps(w, k, p);
  }

  lemma {:induction false} RelayAppend(a: seq<Packet>, b: seq<Packet>)
    ensures RelayAll(a + b) == RelayAll(a) + RelayAll(b)
  {
  }

  lemma {:induction false} SpokeTwice(a: World, b: World, c: World, k: nat, ps: seq<Packet>, p: Packet)
    requires k < |a.peers| && Spoke(a, b, k, ps) && Spoke(b, c, k, [p])
    ensures Spoke(a, c, k, ps + [p])
  {
    hide RelayAll;
    RelayAppend(ps, [p]);
    forall v: nat, s: nat | IsViewer(a, v, s)
      ensures c.peers[v].outbox == a.peers[v].outbox +
            (if a.peers[k].role == AgentOf(s) && Current(a, v, s) then RelayAll(ps + [p]) else [])
    {
      assert IsViewer(b, v, s) && (s < |a.store| ==> Current(a, v, s) == Current(b, v, s));
    }
  }

  lemma {:induction false} SpokeNothing(a: World, k: nat)
    requires k < |a.peers|
    ensures Spoke(a, a, k, [])
  {
  }

  lemma {:induction false} MessagesKeep(w: World, k: nat, ps: seq<Packet>)
    requires Inv(w) && k < |w.peers|
    ensures Inv(OnMessages(w, k, ps)) && Spoke(w, OnMessages(w, k, ps), k, ps)
  {
    hide OnMessage, Inv, Spoke;
    if ps == [] {
      SpokeNothing(w, k);
    } else {
      var init, p := ps[..|ps| - 1], ps[|ps| - 1];
      MessagesKeep(w, k, init);
      MessageKeeps(OnMessages(w, k, init), k, p);
      SpokeTwice(w, OnMessages(w, k, init), OnMessages(w, k, ps), k, init, p);
      assert init + [p] == ps;
    }
  }

  /* ---------- one step ---------- */

  /**
   * What a step does to the stream of a joined viewer: while it is current and open it gets every message the
   * session's agents said, relayed; afterwards it gets nothing and is never current again.
   */
  ghost predicate Streams(a: World, b: World, v: nat, s: nat)
    requires s < |a.store| && v < |a.peers|
  {
    && s < |b.store| && IsViewer(b, v, s)
    && a.store[s].fromAgents <= b.store[s].fromAgents
    && if Current(a, v, s)
       then b.peers[v].outbox == a.peers[v].outbox + RelayAll(b.store[s].fromAgents[|a.store[s].fromAgents|..])
       else b.peers[v].outbox == a.peers[v].outbox && !Current(b, v, s)
  }

  lemma {:induction false} SpokeStreams(a: World, b: World, k: nat, ps: seq<Packet>, v: nat, s: nat)
    requires k < |a.peers| && Spoke(a, b, k, ps) && IsViewer(a, v, s) && s < |a.store|
    ensures Streams(a, b, v, s)
  {
    assert Current(a, v, s) == Current(b, v, s);
    var fa, fb := a.store[s].fromAgents, b.store[s].fromAgents;
    assert fb[|fa|..] == if a.peers[k].role == AgentOf(s) then ps else [];
    assert RelayAll([]) == [];
  }

  lemma {:induction false} QuietStreams(a: World, b: World, v: nat, s: nat)
    requires Quiet(a, b) && IsViewer(a, v, s) && s < |a.store|
    ensures Streams(a, b, v, s)
  {
    assert b.store[s].fromAgents[|a.store[s].fromAgents|..] == [];
    assert RelayAll([]) == [];
  }

  /** A quiet change that unseats `v` is followed by nothing an agent says. */
  lemma {:induction false} QuietThenStreams(a: World, b: World, c: World, v: nat, s: nat)
    requires Quiet(a, b) && IsViewer(a, v, s) && s < |a.store| && Streams(b, c, v, s)
    requires Current(a, v, s) && !Current(b, v, s) ==> b.store[s].fromAgents == c.store[s].fromAgents
    ensures Streams(a, c, v, s)
  {
    if Current(a, v, s) && !Current(b, v, s) {
      assert RelayAll(c.store[s].fromAgents[|a.store[s].fromAgents|..]) == [];
    }
  }

  lemma {:induction false} JoinKeeps(w: World, k: nat, agent: bool, sid: Text, did: Text, uid: int)
    requires Inv(w) && k < |w.peers| && w.peers[k].role.Pending?
    ensures Inv(Join(w, k, agent, sid, did, uid))
    ensures forall v: nat, s: nat | IsViewer(w, v, s) && s < |w.store| ::
        Streams(w, Join(w, k, agent, sid, did, uid), v, s)
  {
    hide Inv, Enter, AgentJoin, ViewerJoin, OnMessages, Streams, Quiet, Spoke, Current;
    var (u, s0) := Enter(w, sid, did, uid);
    EnterKeeps(w, sid, did, uid);
    var x := if agent then AgentJoin(u, k, s0) else ViewerJoin(u, k, s0);
    if agent { AgentJoinKeeps(u, k, s0); } else { ViewerJoinKeeps(u, k, s0); }
    JoinRole(u, k, s0);
    var y := OnMessages(x, k, w.peers[k].early);
    MessagesKeep(x, k, w.peers[k].early);
    forall v: nat, s: nat | IsViewer(w, v, s) && s < |w.store| ensures Streams(w, y, v, s) {
      QuietIsViewer(w, u, v, s);
      QuietIsViewer(u, x, v, s);
      SpokeStreams(x, y, k, w.peers[k].early, v, s);
      if agent {
        AgentJoinSeats(u, k, s0, v, s);
      } else {
        ViewerSilent(x, y, k, w.peers[k].early, s);
      }
      QuietThenStreams(u, x, y, v, s);
      EnterSeats(w, sid, did, uid, v, s);
      QuietThenStreams(w, u, y, v, s);
    }
  }

  lemma {:induction false} QuietIsViewer(a: World, b: World, v: nat, s: nat)
    requires Quiet(a, b) && IsViewer(a, v, s) && s < |a.store|
    ensures IsViewer(b, v, s) && s < |b.store|
  {
  }

  lemma {:induction false} AgentJoinSeats(w: World, k: nat, s0: nat, v: nat, s: nat)
    requires k < |w.peers| && s0 < |w.store|
    ensures Current(w, v, s) == Current(AgentJoin(w, k, s0), v, s)
  {
  }

  lemma {:induction false} ViewerSilent(a: World, b: World, k: nat, ps: seq<Packet>, s: nat)
    requires k < |a.peers| && Spoke(a, b, k, ps) && a.peers[k].role.ViewerOf? && s < |a.store|
    ensures b.store[s].fromAgents == a.store[s].fromAgents
  {
  }

  lemma {:induction false} EnterSeats(w: World, sid: Text, did: Text, uid: int, v: nat, s: nat)
    requires s < |w.store|
    ensures Current(w, v, s) == Current(Enter(w, sid, did, uid).0, v, s)
  {
  }

  lemma {:induction false} ClosedKeeps(w: World, k: nat)
    requires Inv(w) && k < |w.peers|
    ensures var v := w.(peers := w.peers[k := w.peers[k].(ready := Closed)]); Inv(v) && Quiet(w, v)
  {
    hide Counted;
    var v := w.(peers := w.peers[k := w.peers[k].(ready := Closed)]);
    forall t: nat ensures TimerInv(v, t) { assert TimerInv(w, t); }
    forall s: nat | s < |w.store| ensures SessionInv(v, s) { assert SessionInv(w, s); }
    forall j: nat | j < |w.peers| ensures PeerInv(v, j) { assert PeerInv(w, j); }
  }

  /** The viewer leaves and the grace timer starts. */
  function Leave(w: World, s: nat): World
    requires s < |w.store|
  {
    Put(w.(timers := w.timers[w.nextTimer := Timer(s, w.now)], nextTimer := w.nextTimer + 1),
        s, w.store[s].(viewer := None, timer := Some(w.nextTimer)))
  }

  lemma {:induction false} CountedAlike(x: Session, y: Session)
    requires Counted(x) && y == x.(viewer := y.viewer, timer := y.timer)
    ensures Counted(y)
  {
  }

  lemma {:induction false} LeaveKeeps(w: World, s: nat)
    requires Inv(w) && s < |w.store| && w.store[s].viewer.Some?
    ensures Inv(Leave(w, s)) && Quiet(w, Leave(w, s))
  {
    hide Counted;
    var v := Leave(w, s);
    assert SessionInv(w, s);
    CountedAlike(w.store[s], v.store[s]);
    forall t: nat ensures TimerInv(v, t) { assert TimerInv(w, t) && TimerInv(w, w.nextTimer); }
    forall r: nat | r < |w.store| ensures SessionInv(v, r) {
      assert SessionInv(w, r) && (w.store[r].timer.Some? ==> TimerInv(w, w.store[r].timer.value));
    }
    forall j: nat | j < |w.peers| ensures PeerInv(v, j) { assert PeerInv(w, j); }
  }

  lemma {:induction false} OnCloseKeeps(w: World, k: nat)
    requires Inv(w) && k < |w.peers|
    ensures Inv(OnClose(w, k)) && Quiet(w, OnClose(w, k))
  {
    hide SessionInv, PeerInv, TimerInv, TableInv, CloseSession, Leave, Current, Put;
    ClosedKeeps(w, k);
    var v := w.(peers := w.peers[k := w.peers[k].(ready := Closed)]);
    match w.peers[k].role
    case AgentOf(s) => if s < |w.store| { CloseKeeps(v, s, AgentDisconnect); }
    case ViewerOf(s) =>
      if s < |w.store| && w.store[s].viewer == Some(k) {
        LeaveKeeps(v, s);
        assert OnClose(w, k) == Leave(v, s) by { LeaveIs(v, s); }
      }
    case _ =>
  }

  lemma {:induction false} LeaveIs(w: World, s: nat)
    requires s < |w.store|
    ensures Leave(w, s) == Put(w.(timers := w.timers[w.nextTimer := Timer(s, w.now)], nextTimer := w.nextTimer + 1),
                               s, w.store[s].(viewer := None, timer := Some(w.nextTimer)))
  {
  }

  /**
   * A grace timer that goes off always finds its session without a viewer, so the check in the callback never fails;
   * the teardown clears the session's own timer handle.
   */
  lemma {:induction false} OnTimerKeeps(w: World, t: nat)
    requires Inv(w) && t in w.timers
    ensures w.timers[t].session < |w.store| && w.store[w.timers[t].session].viewer.None?
    ensures OnTimer(w, t) == CloseSession(w, w.timers[t].session, ViewerDisconnect)
    ensures Inv(OnTimer(w, t)) && Quiet(w, OnTimer(w, t))
  {
    hide Counted, Told, Hang;
    assert TimerInv(w, t);
    var s := w.timers[t].session;
    CloseKeeps(w, s, ViewerDisconnect);
    hide Inv, Quiet, SessionInv;
    assert w.timers - {t} - {t} == w.timers - {t};
  }

  lemma {:induction false} TickOneKeeps(w: World, buffered: map<nat, nat>, s: nat)
    requires Inv(w)
    ensures Inv(TickOne(w, buffered, s)) && Quiet(w, TickOne(w, buffered, s))
  {
    hide SessionInv, PeerInv, TimerInv, TableInv, CloseSession, Send, Current;
    if Listed(w, s) {
      NoticeKeeps(w, s, LOW_QUALITY);
      SendShape(w, w.store[s].agent, LOW_QUALITY);
      CloseKeeps(w, s, IdleTimeout);
      CloseKeeps(Send(w, w.store[s].agent, LOW_QUALITY), s, IdleTimeout);
    }
  }

  lemma {:induction false} SendShape(w: World, k: Option<nat>, p: Packet)
    ensures Send(w, k, p) == w.(peers := Send(w, k, p).peers)
  {
  }

  lemma {:induction false} TickKeeps(w: World, buffered: map<nat, nat>, n: nat)
    requires Inv(w)
    ensures Inv(Tick(w, buffered, n)) && Quiet(w, Tick(w, buffered, n))
  {
    hide Inv, TickOne, Current;
    if n > 0 {
      TickKeeps(w, buffered, n - 1);
      TickOneKeeps(Tick(w, buffered, n - 1), buffered, n - 1);
    }
  }

  lemma {:induction false} AcceptKeeps(w: World)
    requires Inv(w)
    ensures Inv(Do(w, Accept)) && Quiet(w, Do(w, Accept))
  {
    hide Counted;
    var v := Do(w, Accept);
    forall t: nat ensures TimerInv(v, t) { assert TimerInv(w, t); }
    forall s: nat | s < |w.store| ensures SessionInv(v, s) { assert SessionInv(w, s); }
    forall j: nat | j < |v.peers| ensures PeerInv(v, j) { assert j < |w.peers| ==> PeerInv(w, j); }
  }

  lemma {:induction false} RejectKeeps(w: World, k: nat)
    requires Inv(w) && k < |w.peers| && w.peers[k].role.Pending?
    ensures Inv(Do(w, Reject(k))) && Quiet(w, Do(w, Reject(k)))
  {
    hide Counted;
    var v := Do(w, Reject(k));
    forall t: nat ensures TimerInv(v, t) { assert TimerInv(w, t); }
    forall s: nat | s < |w.store| ensures SessionInv(v, s) { assert SessionInv(w, s); }
    forall j: nat | j < |v.peers| ensures PeerInv(v, j) { assert PeerInv(w, j); }
  }

  /** Every step keeps the invariant and does to every joined viewer's stream what `Streams` says. */
  lemma {:induction false} StepKeeps(a: World, b: World, st: Step)
    requires Inv(a) && Next(a, b, st)
    ensures Inv(b)
    ensures forall v: nat, s: nat | IsViewer(a, v, s) && s < |a.store| :: Streams(a, b, v, s)
  {
    hide Inv, Join, OnMessage, OnClose, OnTimer, Tick, Streams, Hang, Quiet, Spoke;
    match st
    case Elapse(_) => LogKeeps(a, b); AllStream(a, b);
    case Accept => AcceptKeeps(a); AllStream(a, b);
    case Reject(k) => RejectKeeps(a, k); AllStream(a, b);
    case Authenticate(k, agent, sid, did, uid) => JoinKeeps(a, k, agent, sid, did, uid);
    case Message(k, p) =>
      MessageKeeps(a, k, p);
      forall v: nat, s: nat | IsViewer(a, v, s) && s < |a.store| ensures Streams(a, b, v, s) {
        SpokeStreams(a, b, k, [p], v, s);
      }
    case BeginClose(k) => HangKeeps(a, Some(k)); AllStream(a, b);
    case EndClose(k) => OnCloseKeeps(a, k); AllStream(a, b);
    case Fire(t) => OnTimerKeeps(a, t); AllStream(a, b);
    case Sweep(buffered) => TickKeeps(a, buffered, |a.store|); AllStream(a, b);
  }

  lemma {:induction false} AllStream(a: World, b: World)
    requires Quiet(a, b)
    ensures forall v: nat, s: nat | IsViewer(a, v, s) && s < |a.store| :: Streams(a, b, v, s)
  {
    hide Quiet, Streams;
    forall v: nat, s: nat | IsViewer(a, v, s) && s < |a.store| ensures Streams(a, b, v, s) { QuietStreams(a, b, v, s); }
  }

  /* ---------- what a step hands to a session ---------- */

  /** The messages a step hands to session `s` from the sockets of the given role. */
  function Handed(a: World, b: World, st: Step, role: Role): seq<Packet> {
    match st
    case Message(k, p) => if k < |a.peers| && a.peers[k].role == role then [p] else []
    case Authenticate(k, _, _, _, _) =>
      if k < |a.peers| && k < |b.peers| && b.peers[k].role == role then a.peers[k].early else []
    case _ => []
  }

  function AgentsOf(w: World, s: nat): seq<Packet> { if s < |w.store| then w.store[s].fromAgents else [] }

  function ViewersOf(w: World, s: nat): seq<Packet> { if s < |w.store| then w.store[s].fromViewers else [] }

  function StashOf(w: World, k: nat): seq<Packet> { if k < |w.peers| then w.peers[k].early else [] }

  ghost predicate HandsOver(a: World, b: World, st: Step) {
    && |a.peers| <= |b.peers| && |a.store| <= |b.store|
    && (forall s: nat | s < |b.store| ::
          && b.store[s].fromAgents == AgentsOf(a, s) + Handed(a, b, st, AgentOf(s))
          && b.store[s].fromViewers == ViewersOf(a, s) + Handed(a, b, st, ViewerOf(s)))
    && (forall k: nat | k < |b.peers| && Unknown(b, k) ::
          && (k < |a.peers| ==> Unknown(a, k))
          && b.peers[k].early == StashOf(a, k) + (if st.Message? && st.k == k then [st.p] else []))
  }

  lemma {:induction false} SilentHands(a: World, b: World, st: Step)
    requires Silent(a, b) && !st.Message? && !st.Authenticate?
    ensures HandsOver(a, b, st)
  {
  }

  lemma {:induction false} MessageHands(a: World, k: nat, p: Packet)
    requires Inv(a) && k < |a.peers|
    ensures HandsOver(a, OnMessage(a, k, p), Message(k, p))
  {
    MessageKeeps(a, k, p);
    hide Inv, OnMessage, IsViewer, Current, RelayAll;
  }

  lemma {:induction false} JoinHands(w: World, k: nat, agent: bool, sid: Text, did: Text, uid: int)
    requires Inv(w) && k < |w.peers| && w.peers[k].role.Pending?
    ensures HandsOver(w, Join(w, k, agent, sid, did, uid), Authenticate(k, agent, sid, did, uid))
  {
    hide Inv, Enter, AgentJoin, ViewerJoin, OnMessages, IsViewer, Current, RelayAll;
    var (u, s0) := Enter(w, sid, did, uid);
    EnterKeeps(w, sid, did, uid);
    var x := if agent then AgentJoin(u, k, s0) else ViewerJoin(u, k, s0);
    if agent { AgentJoinKeeps(u, k, s0); } else { ViewerJoinKeeps(u, k, s0); }
    JoinRole(u, k, s0);
    MessagesKeep(x, k, w.peers[k].early);
    QuietTransitive(w, u, x);
    SilentSpoke(w, x, OnMessages(x, k, w.peers[k].early), k, Authenticate(k, agent, sid, did, uid));
  }

  lemma {:induction false} SilentSpoke(w: World, x: World, y: World, k: nat, st: Step)
    requires k < |w.peers| && k < |x.peers| && Silent(w, x) && Spoke(x, y, k, w.peers[k].early)
    requires st.Authenticate? && st.k == k && !Unknown(x, k)
    ensures HandsOver(w, y, st)
  {
    hide IsViewer, Current, RelayAll;
  }

  lemma {:induction false} StepHands(a: World, b: World, st: Step)
    requires Inv(a) && Next(a, b, st)
    ensures HandsOver(a, b, st)
  {
    hide Inv, Join, OnMessage, OnClose, OnTimer, Tick, Hang, HandsOver, Silent, IsViewer, Current;
    match st
    case Elapse(_) => LogKeeps(a, b); SilentHands(a, b, st);
    case Accept => AcceptKeeps(a); SilentHands(a, b, st);
    case Reject(k) => RejectKeeps(a, k); SilentHands(a, b, st);
    case Authenticate(k, agent, sid, did, uid) => JoinHands(a, k, agent, sid, did, uid);
    case Message(k, p) => MessageHands(a, k, p);
    case BeginClose(k) => HangKeeps(a, Some(k)); SilentHands(a, b, st);
    case EndClose(k) => OnCloseKeeps(a, k); SilentHands(a, b, st);
    case Fire(t) => OnTimerKeeps(a, t); SilentHands(a, b, st);
    case Sweep(buffered) => TickKeeps(a, buffered, |a.store|); SilentHands(a, b, st);
  }

  lemma {:induction false} InvInRuns(run: seq<World>, steps: seq<Step>)
    requires IsRun(run, steps)
    ensures forall i | 0 <= i < |run| :: Inv(run[i])
  {
    hide Inv, Next;
    BootInv(run[0].now);
    for n := 0 to |steps|
      invariant forall i | 0 <= i <= n :: Inv(run[i])
    {
      StepKeeps(run[n], run[n + 1], steps[n]);
    }
  }

  lemma {:induction false} BootInv(now: int)
    ensures Inv(Boot(now))
  {
  }
}
