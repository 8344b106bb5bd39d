/**
 * The relay server with its sockets and sessions as objects; each method does what the state machine's callback
 * does.
 */
module RelayServers {
  import opened Options
  import opened Texts
  import opened Relay

  class Socket {
    const id: nat
    var ready: Ready
    var role: Role
    var early: seq<Packet>
    var outbox: seq<Packet>

    ghost function Value(): Peer reads this { Peer(ready, role, early, outbox) }

    constructor (id: nat)
      ensures this.id == id && Value() == Peer(Open, Pending, [], [])
    {
      this.id := id;
      ready, role, early, outbox := Open, Pending, [], [];
    }

    method Send(p: Packet)
      modifies this`outbox
      ensures Value() == Deliver(old(Value()), p)
    {
      if ready.Open? { outbox := outbox + [p]; }
    }

    method Close()
      modifies this`ready
      ensures Value() == HangUp(old(Value()))
    {
      if ready.Open? { ready := Closing; }
    }

    /** The stash gives way to the message handler of a session. */
    method Attach(role: Role)
      modifies this`role, this`early
      ensures Value() == old(Value()).(role := role, early := [])
    {
      this.role, early := role, [];
    }
  }

  function IdOf(k: Socket?): Option<nat> { if k == null then None else Some(k.id) }

  class RelaySession {
    const number: nat
    const id: Text
    var deviceId: Text
    var operatorId: int
    var agent: Socket?
    var viewer: Socket?
    var codecConfig: Option<seq<Byte>>
    var bytesOut: nat
    var inputEvents: nat
    var lastActivity: int
    var viewerGoneTimer: Option<nat>
    ghost var fromAgents: seq<Packet>
    ghost var fromViewers: seq<Packet>

    ghost function Value(): Session
      reads this
    {
      Session(id, deviceId, operatorId, IdOf(agent), IdOf(viewer), codecConfig, bytesOut, inputEvents, lastActivity,
              viewerGoneTimer, fromAgents, fromViewers)
    }

    constructor (number: nat, id: Text, deviceId: Text, operatorId: int, now: int)
      ensures this.number == number && agent == null && viewer == null
          && Value() == NewSession(id, deviceId, operatorId, now)
    {
      this.number, this.id, this.deviceId, this.operatorId := number, id, deviceId, operatorId;
      agent, viewer, codecConfig, viewerGoneTimer := null, null, None, None;
      bytesOut, inputEvents, lastActivity := 0, 0, now;
      fromAgents, fromViewers := [], [];
    }

    method CountAgent(p: Packet, now: int)
      modifies this`codecConfig, this`bytesOut, this`lastActivity, this`fromAgents
      ensures Value() == HearAgent(old(Value()), p, now)
    {
      if Binary(p) {
        if p.data != [] && p.data[0] == 1 { codecConfig := Some(p.data); }
        bytesOut := bytesOut + |p.data|;
      }
      lastActivity := now;
      fromAgents := fromAgents + [p];
    }

    method CountViewer(p: Packet, now: int)
      modifies this`inputEvents, this`lastActivity, this`fromViewers
      ensures Value() == HearViewer(old(Value()), p, now)
    {
      inputEvents := inputEvents + 1;
      lastActivity := now;
      fromViewers := fromViewers + [p];
    }
  }

  datatype Timeout = Timeout(session: RelaySession, setAt: int)

  ghost function PeersOf(ks: seq<Socket>): (r: seq<Peer>)
    reads ks
    ensures |r| == |ks| && forall i | 0 <= i < |ks| :: r[i] == ks[i].Value()
  {
    if ks == [] then [] else PeersOf(ks[..|ks| - 1]) + [ks[|ks| - 1].Value()]
  }

  ghost function SessionsOf(ss: seq<RelaySession>): (r: seq<Session>)
    reads ss
    ensures |r| == |ss| && forall i | 0 <= i < |ss| :: r[i] == ss[i].Value()
  {
    if ss == [] then [] else SessionsOf(ss[..|ss| - 1]) + [ss[|ss| - 1].Value()]
  }

  function TableOf(m: map<Text, RelaySession>): map<Text, nat> { map id | id in m :: m[id].number }

  function TimersOf(m: map<nat, Timeout>): map<nat, Timer> { map t | t in m :: Timer(m[t].session.number, m[t].setAt) }

  lemma {:induction false} Removed(m: map<Text, RelaySession>, id: Text, n: map<nat, Timeout>, t: nat)
    ensures TableOf(m - {id}) == TableOf(m) - {id}
    ensures TimersOf(n - {t}) == TimersOf(n) - {t}
  {
  }

  lemma {:induction false} Added(n: map<nat, Timeout>, t: nat, x: Timeout)
    ensures TimersOf(n[t := x]) == TimersOf(n)[t := Timer(x.session.number, x.setAt)]
  {
  }

  /**
   * `sockets` and `store` list every socket and every session object ever made; a map of sessions iterates in the
   * order of `store`.
   */
  class RelayServer {
    var clock: int
    var sessions: map<Text, RelaySession>
    var timers: map<nat, Timeout>
    var nextTimer: nat
    var log: seq<Effect>
    ghost var sockets: seq<Socket>
    var store: seq<RelaySession>

    ghost predicate Has(k: Socket?) reads this { k != null ==> k.id < |sockets| && sockets[k.id] == k }

    ghost predicate Holds(s: RelaySession) reads this { s.number < |store| && store[s.number] == s }

    ghost predicate Shaped()
      reads this, sockets, store
    {
      && (forall i | 0 <= i < |sockets| :: sockets[i].id == i)
      && (forall i | 0 <= i < |store| :: store[i].number == i && Has(store[i].agent) && Has(store[i].viewer))
    }

    ghost predicate Linked()
      reads this
    {
      && (forall id | id in sessions :: Holds(sessions[id]))
      && (forall t | t in timers :: Holds(timers[t].session))
    }

    ghost predicate Valid()
      reads this, sockets, store
    {
      Shaped() && Linked()
    }

    ghost function Contents(): World
      reads this, sockets, store
    {
      World(clock, PeersOf(sockets), SessionsOf(store), TableOf(sessions), TimersOf(timers), nextTimer, log)
    }

    constructor (now: int)
      ensures Valid() && Contents() == Boot(now)
    {
      clock, sessions, timers, nextTimer, log := now, map[], map[], 0, [];
      sockets, store := [], [];
    }

    /** A change of the server's own fields. */
    twostate lemma {:induction false} SameObjects()
      requires old(Shaped()) && Linked()
      requires sockets == old(sockets) && store == old(store) && unchanged(sockets) && unchanged(store)
      ensures Valid() && PeersOf(sockets) == old(PeersOf(sockets)) && SessionsOf(store) == old(SessionsOf(store))
    {
      SameShaped();
      hide Shaped;
      SamePeers(sockets);
      SameSessions(store);
    }

    twostate lemma {:induction false} SameShaped()
      requires old(Shaped()) && sockets == old(sockets) && store == old(store) && unchanged(sockets) && unchanged(store)
      ensures Shaped()
    {
      hide Has;
      forall i | 0 <= i < |store| ensures store[i].number == i && Has(store[i].agent) && Has(store[i].viewer) {
        assert store[i] in store;
        assert unchanged(store[i]);
        assert old(Has(store[i].agent)) && old(Has(store[i].viewer));
        HasStill(store[i].agent);
        HasStill(store[i].viewer);
      }
    }

    twostate lemma {:induction false} HasStill(k: Socket?)
      requires sockets == old(sockets) && old(Has(k))
      ensures Has(k)
    {
    }

    static twostate lemma {:induction false} SamePeers(ks: seq<Socket>)
      requires unchanged(ks)
      ensures PeersOf(ks) == old(PeersOf(ks))
    {
      hide PeersOf;
      forall i | 0 <= i < |ks| ensures ks[i].Value() == old(ks[i].Value()) { assert ks[i] in ks; }
    }

    static twostate lemma {:induction false} SameSessions(ss: seq<RelaySession>)
      requires unchanged(ss)
      ensures SessionsOf(ss) == old(SessionsOf(ss))
    {
      hide SessionsOf;
      forall i | 0 <= i < |ss| ensures ss[i].Value() == old(ss[i].Value()) { assert ss[i] in ss; }
    }

    /** If only one session object changed, the contents change in that place. */
    twostate lemma {:induction false} OneSession(s: RelaySession)
      requires old(Valid()) && old(Holds(s)) && unchanged(this) && unchanged(sockets)
      requires forall r | r in store && r != s :: unchanged(r)
      requires Has(s.agent) && Has(s.viewer)
      ensures Valid() && Contents() == Put(old(Contents()), s.number, s.Value())
    {
      forall i | 0 <= i < |store|
        ensures Has(store[i].agent) && Has(store[i].viewer)
        ensures i != s.number ==> store[i].Value() == old(store[i].Value())
      {
        assert store[i] in store && store[i].number == i;
        if i != s.number { assert unchanged(store[i]); }
      }
      assert SessionsOf(store) == old(SessionsOf(store))[s.number := s.Value()];
      assert PeersOf(sockets) == old(PeersOf(sockets));
    }

    twostate lemma {:induction false} OneSocket(k: Socket)
      requires old(Valid()) && old(Has(k)) && unchanged(this) && unchanged(store)
      requires forall r | r in sockets && r != k :: unchanged(r)
      ensures Valid() && Contents() == old(Contents()).(peers := old(Contents()).peers[k.id := k.Value()])
    {
      forall i | 0 <= i < |sockets| && i != k.id ensures sockets[i].Value() == old(sockets[i].Value()) {
        assert sockets[i] in sockets && sockets[i].id == i;
        assert unchanged(sockets[i]);
      }
      assert PeersOf(sockets) == old(PeersOf(sockets))[k.id := k.Value()];
      assert SessionsOf(store) == old(SessionsOf(store));
    }

    method SendTo(k: Socket?, p: Packet)
      requires Valid() && Has(k)
      modifies sockets
      ensures Valid() && Contents() == Send(old(Contents()), IdOf(k), p)
    {
      if k != null {
        k.Send(p);
        OneSocket(k);
      }
    }

    method HangUpOn(k: Socket?)
      requires Valid() && Has(k)
      modifies sockets
      ensures Valid() && Contents() == Hang(old(Contents()), IdOf(k))
    {
      if k != null {
        k.Close();
        OneSocket(k);
      }
    }

    method OnAgentMessage(s: RelaySession, p: Packet)
      requires Valid() && Holds(s)
      modifies sockets, store
      ensures Valid() && Contents() == AgentMessage(old(Contents()), s.number, p)
    {
      hide HearAgent, Binary;
      HearAgentSides(s.Value(), p, clock);
      s.CountAgent(p, clock);
      OneSession(s);
      hide Contents;
      SendTo(s.viewer, Packet(p.data, Binary(p)));
    }

    method OnViewerMessage(s: RelaySession, p: Packet)
      requires Valid() && Holds(s)
      modifies sockets, store
      ensures Valid() && Contents() == ViewerMessage(old(Contents()), s.number, p)
    {
      hide HearViewer;
      s.CountViewer(p, clock);
      OneSession(s);
      SendTo(s.agent, p);
    }

    lemma {:induction false} At(s: RelaySession)
      requires Valid() && Holds(s)
      ensures s.number < |Contents().store| && Contents().store[s.number] == s.Value()
      ensures Has(s.agent) && Has(s.viewer)
    {
    }

    lemma {:induction false} SocketAt(k: Socket?)
      requires Valid() && Has(k)
      ensures IsOpen(Contents(), IdOf(k)) == (k != null && k.ready.Open?)
      ensures k != null ==> k.id < |Contents().peers| && Contents().peers[k.id] == k.Value()
    {
    }

    /** Redis and Postgres are asked without waiting for the answer. */
    method Ask(e: Effect)
      requires Valid()
      modifies this`log
      ensures Valid() && Contents() == old(Contents()).(log := old(Contents()).log + [e])
    {
      hide PeersOf, SessionsOf, TableOf, TimersOf, Shaped;
      log := log + [e];
      SameObjects();
    }

    method Unlist(id: Text)
      requires Valid()
      modifies this`sessions
      ensures Valid() && Contents() == old(Contents()).(table := old(Contents()).table - {id})
    {
      hide PeersOf, SessionsOf, TableOf, TimersOf, Shaped;
      Removed(sessions, id, timers, 0);
      sessions := sessions - {id};
      SameObjects();
    }

    method DropTimer(t: nat)
      requires Valid()
      modifies this`timers
      ensures Valid() && Contents() == old(Contents()).(timers := old(Contents()).timers - {t})
      ensures timers == old(timers) - {t}
    {
      hide PeersOf, SessionsOf, TableOf, TimersOf, Shaped;
      Removed(sessions, [], timers, t);
      timers := timers - {t};
      SameObjects();
    }

    method ClearTimer(s: RelaySession)
      requires Valid() && Holds(s)
      modifies this`timers, store
      ensures Valid() && Contents() == StopTimer(old(Contents()), s.number)
      ensures s.agent == old(s.agent) && s.viewer == old(s.viewer)
    {
      At(s);
      if s.viewerGoneTimer.Some? {
        var t := s.viewerGoneTimer.value;
        s.viewerGoneTimer := None;
        OneSession(s);
        hide Contents;
        DropTimer(t);
      }
    }

    method MarkRowActive(s: RelaySession)
      requires Valid() && Holds(s)
      modifies this`log
      ensures Valid() && Contents() == MarkActive(old(Contents()), s.number)
    {
      At(s);
      SocketAt(s.agent);
      SocketAt(s.viewer);
      hide Contents, IsOpen;
      if s.agent == null || !s.agent.ready.Open? || s.viewer == null || !s.viewer.ready.Open? { return; }
      Ask(Activate(s.id));
    }

    method Teardown(s: RelaySession, reason: Reason)
      requires Valid() && Holds(s)
      modifies this, sockets, store
      ensures Valid() && Contents() == CloseSession(old(Contents()), s.number, reason)
      ensures sockets == old(sockets) && store == old(store)
    {
      hide Contents, Hang, StopTimer;
      At(s);
      StopTimerSides(Contents(), s.number);
      ClearTimer(s);
      At(s);
      HangUpOn(s.agent);
      HangUpOn(s.viewer);
      Unlist(s.id);
      Ask(TearDown(s.number, s.id, s.deviceId, reason, s.bytesOut, s.inputEvents));
    }

    method AttachTo(k: Socket, role: Role)
      requires Valid() && Has(k)
      modifies sockets
      ensures Valid() && k.id < |old(Contents()).peers| && Contents() == Take(old(Contents()), k.id, role)
    {
      k.Attach(role);
      OneSocket(k);
    }

    method OnAgentJoin(s: RelaySession, k: Socket)
      requires Valid() && Holds(s) && Has(k)
      modifies this`log, sockets, store
      ensures Valid() && k.id < |old(Contents()).peers| && Contents() == AgentJoin(old(Contents()), k.id, s.number)
    {
      hide MarkActive, Send, IsOpen, Contents;
      At(s);
      AttachTo(k, AgentOf(s.number));
      At(s);
      label Attached:
      s.agent := k;
      OneSession@Attached(s);
      SocketAt(s.viewer);
      if s.viewer != null && s.viewer.ready.Open? { SendTo(k, VIEWER_JOIN); }
      MarkRowActive(s);
    }

    /** The first half of a viewer's join: it becomes the session's current viewer. */
    method SeatViewer(s: RelaySession, k: Socket)
      requires Valid() && Holds(s) && Has(k)
      modifies this`timers, sockets, store
      ensures Valid() && s.number < |old(Contents()).store| && k.id < |old(Contents()).peers| && s.agent == old(s.agent)
      ensures var u := StopTimer(old(Contents()), s.number);
              Contents() == Put(Take(u, k.id, ViewerOf(s.number)), s.number, u.store[s.number].(viewer := Some(k.id)))
    {
      hide StopTimer, Contents;
      At(s);
      StopTimerSides(Contents(), s.number);
      ClearTimer(s);
      At(s);
      AttachTo(k, ViewerOf(s.number));
      At(s);
      label Attached:
      s.viewer := k;
      OneSession@Attached(s);
    }

    method OnViewerJoin(s: RelaySession, k: Socket)
      requires Valid() && Holds(s) && Has(k)
      modifies this`log, this`timers, sockets, store
      ensures Valid() && k.id < |old(Contents()).peers| && Contents() == ViewerJoin(old(Contents()), k.id, s.number)
    {
      hide MarkActive, Send, IsOpen, StopTimer, Contents, Shaped, Linked;
      SeatViewer(s, k);
      At(s);
      SendSides(Contents(), Some(k.id), Packet(if s.codecConfig.Some? then s.codecConfig.value else [], true));
      if s.codecConfig.Some? { SendTo(k, Packet(s.codecConfig.value, true)); }
      SocketAt(s.agent);
      if s.agent != null && s.agent.ready.Open? { SendTo(s.agent, VIEWER_JOIN); }
      MarkRowActive(s);
    }

    /** The socket is closed when the close event is raised. */
    method MarkClosed(k: Socket)
      requires Valid() && Has(k)
      modifies sockets
      ensures Valid() && k.id < |old(Contents()).peers|
      ensures var w := old(Contents()); Contents() == w.(peers := w.peers[k.id := w.peers[k.id].(ready := Closed)])
    {
      k.ready := Closed;
      OneSocket(k);
    }

    method OnAgentClose(s: RelaySession, k: Socket)
      requires Valid() && Holds(s) && Has(k) && k.role == AgentOf(s.number)
      modifies this, sockets, store
      ensures Valid() && k.id < |old(Contents()).peers| && Contents() == OnClose(old(Contents()), k.id)
    {
      hide CloseSession, Contents, Shaped, Linked;
      At(s);
      SocketAt(k);
      MarkClosed(k);
      if s.agent == k { Teardown(s, AgentDisconnect); }
    }

    method OnViewerClose(s: RelaySession, k: Socket)
      requires Valid() && Holds(s) && Has(k) && k.role == ViewerOf(s.number)
      modifies this, sockets, store
      ensures Valid() && k.id < |old(Contents()).peers| && Contents() == OnClose(old(Contents()), k.id)
    {
      hide Contents, Shaped, Linked;
      At(s);
      SocketAt(k);
      MarkClosed(k);
      if s.viewer == k { StartGrace(s); }
    }

    method StartGrace(s: RelaySession)
      requires Valid() && Holds(s)
      modifies this`timers, this`nextTimer, store
      ensures Valid() && s.number < |old(Contents()).store|
      ensures var w := old(Contents());
              Contents() == Put(w.(timers := w.timers[w.nextTimer := Timer(s.number, w.now)],
                  nextTimer := w.nextTimer + 1),
                                s.number, w.store[s.number].(viewer := None, timer := Some(w.nextTimer)))
    {
      At(s);
      hide Contents, Shaped, Linked;
      Unseat(s);
      SetTimer(s);
    }

    /** The viewer leaves, and the session takes the handle of the timer that is about to be set. */
    method Unseat(s: RelaySession)
      requires Valid() && Holds(s)
      modifies store
      ensures Valid() && Holds(s) && store == old(store) && s.number < |old(Contents()).store|
      ensures var w := old(Contents());
              Contents() == Put(w, s.number, w.store[s.number].(viewer := None, timer := Some(w.nextTimer)))
    {
      At(s);
      s.viewer := null;
      s.viewerGoneTimer := Some(nextTimer);
      OneSession(s);
    }

    /** `setTimeout` under the next handle. */
    method SetTimer(s: RelaySession)
      requires Valid() && Holds(s)
      modifies this`timers, this`nextTimer
      ensures Valid()
      ensures var w := old(Contents());
              Contents() == w.(timers := w.timers[w.nextTimer := Timer(s.number, w.now)], nextTimer := w.nextTimer + 1)
    {
      hide PeersOf, SessionsOf, TableOf, TimersOf, Shaped;
      Added(timers, nextTimer, Timeout(s, clock));
      timers := timers[nextTimer := Timeout(s, clock)];
      nextTimer := nextTimer + 1;
      SameObjects();
    }

    method OnTimeout(t: nat)
      requires Valid() && t in timers
      modifies this, sockets, store
      ensures Valid() && t in old(Contents()).timers && Contents() == OnTimer(old(Contents()), t)
    {
      hide CloseSession, PeersOf, SessionsOf;
      var s := timers[t].session;
      At(s);
      hide Contents, Shaped, Linked;
      DropTimer(t);
      if s.viewer == null { Teardown(s, ViewerDisconnect); }
    }

    twostate lemma {:induction false} StoreExtended(s: RelaySession)
      requires old(Shaped()) && s.number == |old(store)| && s.agent == null && s.viewer == null
      requires sockets == old(sockets) && store == old(store) + [s] && unchanged(sockets) && unchanged(old(store))
      ensures Shaped() && PeersOf(sockets) == old(PeersOf(sockets))
          && SessionsOf(store) == old(SessionsOf(store)) + [s.Value()]
    {
      SamePeers(sockets);
      SameSessions(old(store));
      SessionsAppend(old(store), s);
      hide Has, PeersOf, SessionsOf;
      forall i | 0 <= i < |store| ensures store[i].number == i && Has(store[i].agent) && Has(store[i].viewer) {
        if i < |old(store)| {
          assert store[i] == old(store)[i] && store[i] in old(store);
          assert unchanged(store[i]);
          assert old(Has(store[i].agent)) && old(Has(store[i].viewer));
          HasStill(store[i].agent);
          HasStill(store[i].viewer);
        } else {
          HasStill(null);
        }
      }
    }

    method List(s: RelaySession)
      requires Valid() && s.number == |store| && s.agent == null && s.viewer == null
      modifies this`sessions, this`store
      ensures Valid() && Holds(s) && |old(Contents()).store| == s.number && store == old(store) + [s]
      ensures var w := old(Contents());
              Contents() == w.(store := w.store + [s.Value()], table := w.table[s.id := s.number])
    {
      hide PeersOf, SessionsOf, TableOf, TimersOf, Shaped;
      Listing(sessions, s.id, s);
      store := store + [s];
      sessions := sessions[s.id := s];
      StoreExtended(s);
    }

    method Create(sid: Text, did: Text, uid: int) returns (s: RelaySession)
      requires Valid()
      modifies this`sessions, this`store
      ensures Valid() && Holds(s) && fresh(s) && store == old(store) + [s]
      ensures var w := old(Contents());
              && s.number == |w.store|
              && Contents() == w.(store := w.store + [NewSession(sid, did, uid, w.now)],
                  table := w.table[sid := |w.store|])
    {
      hide PeersOf, SessionsOf, TableOf, TimersOf, Shaped;
      s := new RelaySession(|store|, sid, did, uid, clock);
      SameObjects();
      List(s);
    }

    method GetOrCreate(sid: Text, did: Text, uid: int) returns (s: RelaySession)
      requires Valid()
      modifies this`sessions, this`store, store
      ensures Valid() && Holds(s) && (Contents(), s.number) == Enter(old(Contents()), sid, did, uid)
      ensures store == old(store) || (fresh(s) && store == old(store) + [s])
    {
      hide PeersOf, SessionsOf;
      if sid in sessions {
        s := sessions[sid];
        At(s);
        if did != [] {
          s.deviceId := did;
          OneSession(s);
        }
      } else {
        s := Create(sid, did, uid);
      }
    }

    /** The end of `onConnection` for a token that is accepted. */
    method OnConnection(k: Socket, agent: bool, sid: Text, did: Text, uid: int)
      requires Valid() && Has(k)
      modifies this, sockets, store
      ensures Valid() && k.id < |old(Contents()).peers|
          && Contents() == Join(old(Contents()), k.id, agent, sid, did, uid)
    {
      hide Contents, Shaped, Linked, OnMessages, AgentJoin, ViewerJoin, Enter;
      SocketAt(k);
      ghost var w := Contents();
      var early := k.early;
      EnterPeers(w, sid, did, uid);
      var s := GetOrCreate(sid, did, uid);
      if agent { OnAgentJoin(s, k); } else { OnViewerJoin(s, k); }
      ghost var j := Contents();
      JoinRole(Enter(w, sid, did, uid).0, k.id, s.number);
      At(s);
      Replay(s, k, agent, early);
    }

    method Replay(s: RelaySession, k: Socket, agent: bool, early: seq<Packet>)
      requires Valid() && Holds(s) && Has(k)
      requires k.id < |Contents().peers| && Contents().peers[k.id].role ==
          (if agent then AgentOf(s.number) else ViewerOf(s.number))
      modifies sockets, store
      ensures Valid() && k.id < |old(Contents()).peers| && Contents() == OnMessages(old(Contents()), k.id, early)
    {
      hide Contents, Shaped, Linked, AgentMessage, ViewerMessage;
      ghost var w := Contents();
      At(s);
      assert early[..0] == [];
      for i := 0 to |early|
        invariant Valid() && Holds(s) && Has(k) && Contents() == OnMessages(w, k.id, early[..i])
      {
        RolesKept(w, k.id, early[..i]);
        assert early[..i + 1][..i] == early[..i];
        if agent { OnAgentMessage(s, early[i]); } else { OnViewerMessage(s, early[i]); }
      }
      assert early[..|early|] == early;
    }

    method Sweep(buffered: map<nat, nat>)
      requires Valid()
      modifies this, sockets, store
      ensures Valid() && Contents() == Tick(old(Contents()), buffered, |old(Contents()).store|)
    {
      hide Shaped, Linked, TickOne;
      StoreLength();
      hide Contents;
      ghost var w := Contents();
      for n := 0 to |store|
        invariant Valid() && store == old(store) && sockets == old(sockets)
        invariant Contents() == Tick(w, buffered, n)
      {
        SweepOne(n, buffered);
      }
    }

    lemma {:induction false} StoreLength()
      ensures |Contents().store| == |store|
    {
    }

    method SweepOne(n: nat, buffered: map<nat, nat>)
      requires Valid() && n < |store|
      modifies this, sockets, store
      ensures Valid() && store == old(store) && sockets == old(sockets)
      ensures Contents() == TickOne(old(Contents()), buffered, n)
    {
      hide Contents, Shaped, Linked, CloseSession, Listed, Send, Idle;
      var s := store[n];
      HeldAt(n);
      At(s);
      ListedHere(s);
      if s.id in sessions && sessions[s.id] == s {
        SendSides(Contents(), IdOf(s.agent), LOW_QUALITY);
        AskForLess(s, buffered);
        CloseIfIdle(s);
      }
    }

    lemma {:induction false} HeldAt(n: nat)
      requires Valid() && n < |store|
      ensures Holds(store[n]) && store[n].number == n
    {
    }

    method CloseIfIdle(s: RelaySession)
      requires Valid() && Holds(s)
      modifies this, sockets, store
      ensures Valid() && store == old(store) && sockets == old(sockets) && s.number < |old(Contents()).store|
      ensures var w := old(Contents());
              Contents() == if Idle(w, s.number) then CloseSession(w, s.number, IdleTimeout) else w
    {
      hide CloseSession;
      At(s);
      ClockIs();
      hide Contents, Shaped, Linked;
      if clock - s.lastActivity > IDLE_MS { Teardown(s, IdleTimeout); }
    }

    method AskForLess(s: RelaySession, buffered: map<nat, nat>)
      requires Valid() && Holds(s)
      modifies sockets
      ensures Valid()
      ensures var v := IdOf(s.viewer);
              Contents() == if v.Some? && v.value in buffered && buffered[v.value] > BACKPRESSURE_BYTES
                            then Send(old(Contents()), IdOf(s.agent), LOW_QUALITY) else old(Contents())
    {
      At(s);
      hide Contents, Shaped, Linked, Send;
      if s.viewer != null && s.viewer.id in buffered && buffered[s.viewer.id] > BACKPRESSURE_BYTES {
        SendTo(s.agent, LOW_QUALITY);
      }
    }

    lemma {:induction false} ClockIs()
      ensures Contents().now == clock
    {
    }

    lemma {:induction false} ListedHere(s: RelaySession)
      requires Valid() && Holds(s)
      ensures Listed(Contents(), s.number) == (s.id in sessions && sessions[s.id] == s)
    {
      At(s);
    }
  }

  lemma {:induction false} EnterPeers(w: World, sid: Text, did: Text, uid: int)
    ensures Enter(w, sid, did, uid).0.peers == w.peers && Enter(w, sid, did, uid).1 < |Enter(w, sid, did, uid).0.store|
  {
  }

  lemma {:induction false} RolesKept(w: World, k: nat, ps: seq<Packet>)
    requires k < |w.peers|
    ensures OnMessages(w, k, ps).peers[k].role == w.peers[k].role
    ensures |OnMessages(w, k, ps).store| == |w.store|
  {
    if ps != [] {
      RolesKept(w, k, ps[..|ps| - 1]);
      RoleKept(OnMessages(w, k, ps[..|ps| - 1]), k, ps[|ps| - 1]);
    }
  }

  lemma {:induction false} RoleKept(w: World, k: nat, p: Packet)
    requires k < |w.peers|
    ensures OnMessage(w, k, p).peers[k].role == w.peers[k].role
    ensures |OnMessage(w, k, p).store| == |w.store|
  {
    hide HearAgent, HearViewer;
  }

  lemma {:induction false} SessionsAppend(ss: seq<RelaySession>, s: RelaySession)
    ensures SessionsOf(ss + [s]) == SessionsOf(ss) + [s.Value()]
  {
    assert (ss + [s])[..|ss|] == ss;
  }

  lemma {:induction false} Listing(m: map<Text, RelaySession>, id: Text, s: RelaySession)
    ensures TableOf(m[id := s]) == TableOf(m)[id := s.number]
  {
  }

  lemma {:induction false} SendSides(w: World, k: Option<nat>, p: Packet)
    ensures Send(w, k, p) == w.(peers := Send(w, k, p).peers) && |Send(w, k, p).peers| == |w.peers|
  {
  }

  lemma {:induction false} StopTimerSides(w: World, s: nat)
    requires s < |w.store|
    ensures StopTimer(w, s).peers == w.peers && StopTimer(w, s).log == w.log && StopTimer(w, s).table == w.table
        && |StopTimer(w, s).store| == |w.store|
    ensures StopTimer(w, s).store[s] == w.store[s].(timer := StopTimer(w, s).store[s].timer)
  {
  }

  lemma {:induction false} HearAgentSides(x: Session, p: Packet, now: int)
    ensures HearAgent(x, p, now).agent == x.agent && HearAgent(x, p, now).viewer == x.viewer
  {
  }
}
