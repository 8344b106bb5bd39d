/**
 * The relay as a state machine over its callbacks: sockets, session objects, the table of sessions and grace
 * timers.
 */
module Relay {
  import opened Options
  import opened Texts

  const IDLE_MS: int := 600_000
  const BACKPRESSURE_BYTES: int := 1_000_000
  const VIEWER_GONE_MS: int := 1_500

  type Byte = b: int | 0 <= b < 256

  datatype Packet = Packet(data: seq<Byte>, binary: bool)

  function Utf8(s: string): seq<Byte>
    requires forall i | 0 <= i < |s| :: s[i] < 128 as char
  {
    seq(|s|, i requires 0 <= i < |s| => s[i] as int)
  }

  const VIEWER_JOIN: Packet := Packet(Utf8("{\"t\":\"viewer.join\"}"), false)
  const LOW_QUALITY: Packet := Packet(Utf8("{\"t\":\"quality\",\"bitrate\":600000}"), false)

  /** A message counts as binary if it was sent so or if it starts like a frame. */
  predicate Binary(p: Packet) { p.binary || (p.data != [] && 1 <= p.data[0] <= 4) }

  predicate IsConfig(p: Packet) { p.data != [] && p.data[0] == 1 }

  /** An agent message as the viewer gets it. */
  function Relayed(p: Packet): Packet { Packet(p.data, Binary(p)) }

  datatype Ready = Open | Closing | Closed

  /** What authentication made of a socket; a session object is known by its number. */
  datatype Role = Pending | Rejected | AgentOf(session: nat) | ViewerOf(session: nat)

  /** A WebSocket. `early` is the stash of messages that came before authentication. */
  datatype Peer = Peer(ready: Ready, role: Role, early: seq<Packet>, outbox: seq<Packet>)

  /** `fromAgents` and `fromViewers` remember every message handled; the program does not keep them. */
  datatype Session = Session(
    id: Text,
    deviceId: Text,
    operatorId: int,
    agent: Option<nat>,
    viewer: Option<nat>,
    config: Option<seq<Byte>>,
    bytesOut: nat,
    inputEvents: nat,
    lastActivity: int,
    timer: Option<nat>,
    fromAgents: seq<Packet>,
    fromViewers: seq<Packet>)

  datatype Reason = AgentDisconnect | ViewerDisconnect | IdleTimeout

  /** What the relay asks of Redis and Postgres. */
  datatype Effect =
    | Activate(id: Text)
    | TearDown(session: nat, id: Text, deviceId: Text, reason: Reason, bytesOut: nat, inputEvents: nat)

  datatype Timer = Timer(session: nat, setAt: int)

  /**
   * `store` holds every session object ever created, `table` the relay's own map of sessions, `timers` the pending
   * timers.
   */
  datatype World = World(
    now: int,
    peers: seq<Peer>,
    store: seq<Session>,
    table: map<Text, nat>,
    timers: map<nat, Timer>,
    nextTimer: nat,
    log: seq<Effect>)

  function Boot(now: int): World { World(now, [], [], map[], map[], 0, []) }

  function NewSession(id: Text, deviceId: Text, operatorId: int, now: int): Session {
    Session(id, deviceId, operatorId, None, None, None, 0, 0, now, None, [], [])
  }

  /* ---------- one socket, one session ---------- */

  /** A message sent on a socket that is not open is lost. */
  function Deliver(k: Peer, p: Packet): Peer { if k.ready.Open? then k.(outbox := k.outbox + [p]) else k }

  function HangUp(k: Peer): Peer { if k.ready.Open? then k.(ready := Closing) else k }

  function HearAgent(s: Session, p: Packet, now: int): Session {
    s.(config := if Binary(p) && IsConfig(p) then Some(p.data) else s.config,
       bytesOut := s.bytesOut + if Binary(p) then |p.data| else 0,
       lastActivity := now,
       fromAgents := s.fromAgents + [p])
  }

  function HearViewer(s: Session, p: Packet, now: int): Session {
    s.(inputEvents := s.inputEvents + 1, lastActivity := now, fromViewers := s.fromViewers + [p])
  }

  /* ---------- the callbacks ---------- */

  predicate IsOpen(w: World, k: Option<nat>) { k.Some? && k.value < |w.peers| && w.peers[k.value].ready.Open? }

  function Send(w: World, k: Option<nat>, p: Packet): World {
    if k.Some? && k.value < |w.peers| then w.(peers := w.peers[k.value := Deliver(w.peers[k.value], p)]) else w
  }

  function Hang(w: World, k: Option<nat>): World {
    if k.Some? && k.value < |w.peers| then w.(peers := w.peers[k.value := HangUp(w.peers[k.value])]) else w
  }

  function Put(w: World, s: nat, v: Session): World
    requires s < |w.store|
  {
    w.(store := w.store[s := v])
  }

  function StopTimer(w: World, s: nat): World
    requires s < |w.store|
  {
    match w.store[s].timer
    case None => w
    case Some(t) => Put(w.(timers := w.timers - {t}), s, w.store[s].(timer := None))
  }

  function MarkActive(w: World, s: nat): World
    requires s < |w.store|
  {
    if IsOpen(w, w.store[s].agent) && IsOpen(w, w.store[s].viewer)
    then w.(log := w.log + [Activate(w.store[s].id)]) else w
  }

  function CloseSession(w: World, s: nat, reason: Reason): World
    requires s < |w.store|
  {
    var x := w.store[s];
    var v := Hang(Hang(StopTimer(w, s), x.agent), x.viewer);
    v.(table := v.table - {x.id},
       log := v.log + [TearDown(s, x.id, x.deviceId, reason, x.bytesOut, x.inputEvents)])
  }

  function AgentMessage(w: World, s: nat, p: Packet): World
    requires s < |w.store|
  {
    Send(Put(w, s, HearAgent(w.store[s], p, w.now)), w.store[s].viewer, Relayed(p))
  }

  function ViewerMessage(w: World, s: nat, p: Packet): World
    requires s < |w.store|
  {
    Send(Put(w, s, HearViewer(w.store[s], p, w.now)), w.store[s].agent, p)
  }

  /** The message handler of a socket; before authentication it is the stash. */
  function OnMessage(w: World, k: nat, p: Packet): World
    requires k < |w.peers|
  {
    match w.peers[k].role
    case AgentOf(s) => if s < |w.store| then AgentMessage(w, s, p) else w
    case ViewerOf(s) => if s < |w.store| then ViewerMessage(w, s, p) else w
    case _ => w.(peers := w.peers[k := w.peers[k].(early := w.peers[k].early + [p])])
  }

  function OnMessages(w: World, k: nat, ps: seq<Packet>): (r: World)
    requires k < |w.peers|
    ensures |r.peers| == |w.peers|
  {
    if ps == [] then w else OnMessage(OnMessages(w, k, ps[..|ps| - 1]), k, ps[|ps| - 1])
  }

  /** `getOrCreate`, then the device id of the token. */
  function Enter(w: World, sid: Text, did: Text, uid: int): (World, nat) {
    if sid in w.table && w.table[sid] < |w.store| then
      var s := w.table[sid];
      (if did != [] then Put(w, s, w.store[s].(deviceId := did)) else w, s)
    else
      (w.(store := w.store + [NewSession(sid, did, uid, w.now)], table := w.table[sid := |w.store|]), |w.store|)
  }

  function Take(w: World, k: nat, role: Role): World
    requires k < |w.peers|
  {
    w.(peers := w.peers[k := w.peers[k].(role := role, early := [])])
  }

  function AgentJoin(w: World, k: nat, s: nat): World
    requires k < |w.peers| && s < |w.store|
  {
    var v := Put(Take(w, k, AgentOf(s)), s, w.store[s].(agent := Some(k)));
    MarkActive(if IsOpen(v, v.store[s].viewer) then Send(v, Some(k), VIEWER_JOIN) else v, s)
  }

  function ViewerJoin(w: World, k: nat, s: nat): World
    requires k < |w.peers| && s < |w.store|
  {
    var u := StopTimer(w, s);
    var v := Put(Take(u, k, ViewerOf(s)), s, u.store[s].(viewer := Some(k)));
    var x := if v.store[s].config.Some? then Send(v, Some(k), Packet(v.store[s].config.value, true)) else v;
    MarkActive(if IsOpen(x, x.store[s].agent) then Send(x, x.store[s].agent, VIEWER_JOIN) else x, s)
  }

  /** A join gives the socket its role. */
  lemma {:induction false} JoinRole(w: World, k: nat, s: nat)
    requires k < |w.peers| && s < |w.store|
    ensures |AgentJoin(w, k, s).peers| == |ViewerJoin(w, k, s).peers| == |w.peers|
    ensures AgentJoin(w, k, s).peers[k].role == AgentOf(s) && ViewerJoin(w, k, s).peers[k].role == ViewerOf(s)
  {
  }

  /** Authentication succeeds: join, then replay the stash. */
  function Join(w: World, k: nat, agent: bool, sid: Text, did: Text, uid: int): World
    requires k < |w.peers|
  {
    var (v, s) := Enter(w, sid, did, uid);
    OnMessages(if agent then AgentJoin(v, k, s) else ViewerJoin(v, k, s), k, w.peers[k].early)
  }

  function OnClose(w: World, k: nat): World
    requires k < |w.peers|
  {
    var v := w.(peers := w.peers[k := w.peers[k].(ready := Closed)]);
    match w.peers[k].role
    case AgentOf(s) =>
      if s < |w.store| && w.store[s].agent == Some(k) then CloseSession(v, s, AgentDisconnect) else v
    case ViewerOf(s) =>
      if s < |w.store| && w.store[s].viewer == Some(k) then
        Put(v.(timers := v.timers[v.nextTimer := Timer(s, v.now)], nextTimer := v.nextTimer + 1),
            s, v.store[s].(viewer := None, timer := Some(v.nextTimer)))
      else v
    case _ => v
  }

  /** A timer that goes off is no longer pending. */
  function OnTimer(w: World, t: nat): World
    requires t in w.timers
  {
    var s := w.timers[t].session;
    var v := w.(timers := w.timers - {t});
    if s < |w.store| && w.store[s].viewer.None? then CloseSession(v, s, ViewerDisconnect) else v
  }

  predicate Listed(w: World, s: nat) { s < |w.store| && w.store[s].id in w.table && w.table[w.store[s].id] == s }

  predicate Idle(w: World, s: nat)
    requires s < |w.store|
  {
    w.now - w.store[s].lastActivity > IDLE_MS
  }

  function TickOne(w: World, buffered: map<nat, nat>, s: nat): World {
    if !Listed(w, s) then w else
    var x := w.store[s];
    var v := if x.viewer.Some? && x.viewer.value in buffered && buffered[x.viewer.value] > BACKPRESSURE_BYTES
             then Send(w, x.agent, LOW_QUALITY) else w;
    if Idle(v, s) then CloseSession(v, s, IdleTimeout) else v
  }

  /** The sweep over the first `n` session objects; a map iterates in the order of insertion. */
  function Tick(w: World, buffered: map<nat, nat>, n: nat): World {
    if n == 0 then w else TickOne(Tick(w, buffered, n - 1), buffered, n - 1)
  }

  /* ---------- runs ---------- */

  datatype Step =
    | Elapse(ms: nat)
    | Accept
    | Reject(k: nat)
    | Authenticate(k: nat, agent: bool, sid: Text, did: Text, uid: int)
    | Message(k: nat, p: Packet)
    | BeginClose(k: nat)
    | EndClose(k: nat)
    | Fire(t: nat)
    | Sweep(buffered: map<nat, nat>)

  predicate Enabled(w: World, st: Step) {
    match st
    case Elapse(_) => true
    case Accept => true
    case Reject(k) => k < |w.peers| && w.peers[k].role.Pending?
    case Authenticate(k, _, _, _, _) => k < |w.peers| && w.peers[k].role.Pending?
    case Message(k, _) => k < |w.peers| && !w.peers[k].ready.Closed?
    case BeginClose(k) => k < |w.peers| && w.peers[k].ready.Open?
    case EndClose(k) => k < |w.peers| && !w.peers[k].ready.Closed?
    case Fire(t) => t in w.timers && w.now - w.timers[t].setAt >= VIEWER_GONE_MS
    case Sweep(_) => true
  }

  function Do(w: World, st: Step): World
    requires Enabled(w, st)
  {
    match st
    case Elapse(ms) => w.(now := w.now + ms)
    case Accept => w.(peers := w.peers + [Peer(Open, Pending, [], [])])
    case Reject(k) => w.(peers := w.peers[k := HangUp(w.peers[k]).(role := Rejected)])
    case Authenticate(k, agent, sid, did, uid) => Join(w, k, agent, sid, did, uid)
    case Message(k, p) => OnMessage(w, k, p)
    case BeginClose(k) => Hang(w, Some(k))
    case EndClose(k) => OnClose(w, k)
    case Fire(t) => OnTimer(w, t)
    case Sweep(buffered) => Tick(w, buffered, |w.store|)
  }

  ghost predicate Next(a: World, b: World, st: Step) { Enabled(a, st) && b == Do(a, st) }

  ghost predicate IsRun(run: seq<World>, steps: seq<Step>) {
    && |run| == |steps| + 1
    && run[0] == Boot(run[0].now)
    && forall i | 0 <= i < |steps| :: Next(run[i], run[i + 1], steps[i])
  }
}
