/** What every reachable state of the relay satisfies. */
module RelayState {
  import opened Options
  import opened Texts
  import opened Relay

  /** The payload bytes of the messages that count as binary. */
  function BinaryBytes(ps: seq<Packet>): nat {
    if ps == [] then 0
    else BinaryBytes(ps[..|ps| - 1]) + if Binary(ps[|ps| - 1]) then |ps[|ps| - 1].data| else 0
  }

  /** The newest config frame among the messages. */
  function Newest(ps: seq<Packet>): Option<seq<Byte>> {
    if ps == [] then None
    else if IsConfig(ps[|ps| - 1]) then Some(ps[|ps| - 1].data)
    else Newest(ps[..|ps| - 1])
  }

  /** The counters and the cached config are those of all messages handled so far. */
  ghost predicate Counted(s: Session) {
    && s.bytesOut == BinaryBytes(s.fromAgents)
    && s.inputEvents == |s.fromViewers|
    && s.config == Newest(s.fromAgents)
  }

  ghost predicate TableInv(w: World) {
    forall id | id in w.table :: w.table[id] < |w.store| && w.store[w.table[id]].id == id
  }

  ghost predicate AgentInv(w: World, s: nat)
    requires s < |w.store|
  {
    forall k | w.store[s].agent == Some(k) :: k < |w.peers| && w.peers[k].role == AgentOf(s)
  }

  ghost predicate ViewerInv(w: World, s: nat)
    requires s < |w.store|
  {
    forall k | w.store[s].viewer == Some(k) :: k < |w.peers| && w.peers[k].role == ViewerOf(s)
  }

  ghost predicate PeerInv(w: World, k: nat)
    requires k < |w.peers|
  {
    match w.peers[k].role
    case AgentOf(s) => s < |w.store|
    case ViewerOf(s) => s < |w.store|
    case _ => w.peers[k].outbox == []
  }

  /** A pending timer is its session's own, and that session has no viewer. */
  ghost predicate TimerInv(w: World, t: nat) {
    t in w.timers ==>
      && t < w.nextTimer
      && w.timers[t].session < |w.store|
      && w.store[w.timers[t].session].timer == Some(t)
      && w.store[w.timers[t].session].viewer.None?
  }

  ghost predicate FieldInv(w: World, s: nat)
    requires s < |w.store|
  {
    forall t | w.store[s].timer == Some(t) :: t in w.timers && w.timers[t].session == s
  }

  /** An agent that can see a viewer has been told that one is there. */
  ghost predicate Told(w: World, s: nat)
    requires s < |w.store|
  {
    IsOpen(w, w.store[s].agent) && IsOpen(w, w.store[s].viewer) ==>
      VIEWER_JOIN in w.peers[w.store[s].agent.value].outbox
  }

  ghost predicate SessionInv(w: World, s: nat)
    requires s < |w.store|
  {
    AgentInv(w, s) && ViewerInv(w, s) && FieldInv(w, s) && Told(w, s) && Counted(w.store[s])
  }

  ghost predicate Inv(w: World) {
    && TableInv(w)
    && (forall s: nat | s < |w.store| :: SessionInv(w, s))
    && (forall k: nat | k < |w.peers| :: PeerInv(w, k))
    && (forall t: nat :: TimerInv(w, t))
  }

  /** Viewer `v` is the session's current viewer and its socket is open. */
  ghost predicate Current(w: World, v: nat, s: nat) {
    s < |w.store| && w.store[s].viewer == Some(v) && IsOpen(w, Some(v))
  }

  ghost predicate IsViewer(w: World, v: nat, s: nat) { v < |w.peers| && w.peers[v].role == ViewerOf(s) }

  /** Socket `k` is not part of a session. */
  ghost predicate Unknown(w: World, k: nat)
    requires k < |w.peers|
  {
    w.peers[k].role.Pending? || w.peers[k].role.Rejected?
  }

  /** No message is handled or stashed. */
  ghost predicate Silent(a: World, b: World) {
    && |a.peers| <= |b.peers| && |a.store| <= |b.store|
    && (forall s: nat | s < |b.store| ::
          if s < |a.store| then b.store[s].fromAgents == a.store[s].fromAgents
              && b.store[s].fromViewers == a.store[s].fromViewers
          else b.store[s].fromAgents == b.store[s].fromViewers == [])
    && (forall k: nat | k < |b.peers| && Unknown(b, k) ::
          if k < |a.peers| then Unknown(a, k) && b.peers[k].early == a.peers[k].early else b.peers[k].early == [])
  }

  /** No message is handled, no joined viewer is sent anything, and none of them becomes current. */
  ghost predicate Quiet(a: World, b: World) {
    && Silent(a, b)
    && (forall v: nat, s: nat | IsViewer(a, v, s) ::
          IsViewer(b, v, s) && b.peers[v].outbox == a.peers[v].outbox && (Current(b, v, s) ==> Current(a, v, s)))
  }

  /* ---------- hanging up ---------- */

  lemma {:induction false} HangKeeps(w: World, k: Option<nat>)
    requires Inv(w)
    ensures Inv(Hang(w, k)) && Quiet(w, Hang(w, k))
  {
    hide BinaryBytes, Newest;
    var v := Hang(w, k);
    forall t: nat ensures TimerInv(v, t) { assert TimerInv(w, t); }
    forall s: nat | s < |w.store| ensures SessionInv(v, s) { assert SessionInv(w, s); }
    forall j: nat | j < |w.peers| ensures PeerInv(v, j) { assert PeerInv(w, j); }
  }

  lemma {:induction false} StopTimerKeeps(w: World, s: nat)
    requires Inv(w) && s < |w.store|
    ensures Inv(StopTimer(w, s)) && Quiet(w, StopTimer(w, s)) && StopTimer(w, s).store[s].timer.None?
  {
    hide BinaryBytes, Newest;
    var v := StopTimer(w, s);
    assert SessionInv(w, s);
    forall t: nat ensures TimerInv(v, t) { assert TimerInv(w, t); }
    forall r: nat | r < |w.store| ensures SessionInv(v, r) { assert SessionInv(w, r); }
    forall k: nat | k < |w.peers| ensures PeerInv(v, k) { assert PeerInv(w, k); }
  }

  /** The log and the clock are free, and the table may lose entries. */
  lemma {:induction false} LogKeeps(w: World, v: World)
    requires Inv(w) && v == w.(log := v.log, table := v.table, now := v.now) && v.table.Items <= w.table.Items
    ensures Inv(v) && Quiet(w, v)
  {
    hide BinaryBytes, Newest;
    forall id | id in v.table ensures id in w.table && w.table[id] == v.table[id] {
      assert (id, v.table[id]) in v.table.Items;
    }
    forall t: nat ensures TimerInv(v, t) { assert TimerInv(w, t); }
    forall s: nat | s < |w.store| ensures SessionInv(v, s) { assert SessionInv(w, s); }
    forall k: nat | k < |w.peers| ensures PeerInv(v, k) { assert PeerInv(w, k); }
  }

  lemma {:induction false} CloseKeeps(w: World, s: nat, reason: Reason)
    requires Inv(w) && s < |w.store|
    ensures Inv(CloseSession(w, s, reason)) && Quiet(w, CloseSession(w, s, reason))
  {
    hide StopTimer, Hang, SessionInv, PeerInv, TimerInv;
    var x := w.store[s];
    StopTimerKeeps(w, s);
    HangKeeps(StopTimer(w, s), x.agent);
    HangKeeps(Hang(StopTimer(w, s), x.agent), x.viewer);
    LogKeeps(Hang(Hang(StopTimer(w, s), x.agent), x.viewer), CloseSession(w, s, reason));
  }

  /** A notice to a session's agent. */
  lemma {:induction false} NoticeKeeps(w: World, s: nat, p: Packet)
    requires Inv(w) && s < |w.store|
    ensures Inv(Send(w, w.store[s].agent, p)) && Quiet(w, Send(w, w.store[s].agent, p))
  {
    hide BinaryBytes, Newest;
    var v := Send(w, w.store[s].agent, p);
    assert SessionInv(w, s);
    forall t: nat ensures TimerInv(v, t) { assert TimerInv(w, t); }
    forall r: nat | r < |w.store| ensures SessionInv(v, r) { assert SessionInv(w, r); }
    forall k: nat | k < |w.peers| ensures PeerInv(v, k) { assert PeerInv(w, k); }
  }

  lemma {:induction false} ActiveKeeps(w: World, s: nat)
    requires Inv(w) && s < |w.store|
    ensures Inv(MarkActive(w, s)) && Quiet(w, MarkActive(w, s))
  {
    hide SessionInv, PeerInv, TimerInv, IsOpen;
    LogKeeps(w, MarkActive(w, s));
  }

  /* ---------- joining ---------- */

  lemma {:induction false} RenameKeeps(w: World, s: nat, did: Text)
    requires Inv(w) && s < |w.store|
    ensures var v := Put(w, s, w.store[s].(deviceId := did)); Inv(v) && Quiet(w, v)
  {
    hide BinaryBytes, Newest, Told;
    var v := Put(w, s, w.store[s].(deviceId := did));
    forall t: nat ensures TimerInv(v, t) { assert TimerInv(w, t); }
    forall r: nat | r < |v.store| ensures SessionInv(v, r) { assert SessionInv(w, r); ToldSame(w, v, r); }
    forall k: nat | k < |w.peers| ensures PeerInv(v, k) { assert PeerInv(w, k); }
  }

  lemma {:induction false} CreateKeeps(w: World, x: Session)
    requires Inv(w) && x == NewSession(x.id, x.deviceId, x.operatorId, x.lastActivity)
    ensures var v := w.(store := w.store + [x], table := w.table[x.id := |w.store|]); Inv(v) && Quiet(w, v)
  {
    hide BinaryBytes, Newest, Told;
    var v := w.(store := w.store + [x], table := w.table[x.id := |w.store|]);
    NothingSaid();
    forall t: nat ensures TimerInv(v, t) { assert TimerInv(w, t); }
    forall r: nat | r < |v.store| ensures SessionInv(v, r) {
      assert r < |w.store| ==> SessionInv(w, r);
      ToldSame(w, v, r);
    }
    forall k: nat | k < |w.peers| ensures PeerInv(v, k) { assert PeerInv(w, k); }
  }

  lemma {:induction false} EnterKeeps(w: World, sid: Text, did: Text, uid: int)
    requires Inv(w)
    ensures var (v, s) := Enter(w, sid, did, uid);
            Inv(v) && Quiet(w, v) && s < |v.store| && v.peers == w.peers && sid in v.table && v.table[sid] == s
  {
    hide SessionInv, PeerInv, TimerInv, Current;
    if sid in w.table {
      RenameKeeps(w, w.table[sid], did);
    } else {
      CreateKeeps(w, NewSession(sid, did, uid, w.now));
    }
  }

  lemma {:induction false} ToldSame(w: World, v: World, r: nat)
    requires r < |v.store| && v.peers == w.peers
    requires if r < |w.store| then Told(w, r) && v.store[r].agent == w.store[r].agent
        && v.store[r].viewer == w.store[r].viewer
             else v.store[r].agent.None?
    ensures Told(v, r)
  {
  }

  lemma {:induction false} NothingSaid()
    ensures BinaryBytes([]) == 0 && Newest([]) == None
  {
  }

  /** What a viewer is sent when it joins. */
  function Greeting(config: Option<seq<Byte>>): seq<Packet> {
    match config
    case Some(c) => [Packet(c, true)]
    case None => []
  }

  /** A viewer becomes current; its socket gets the cached config if it is open. */
  function Seat(w: World, k: nat, s: nat): World
    requires k < |w.peers| && s < |w.store|
  {
    var v := Put(Take(w, k, ViewerOf(s)), s, w.store[s].(viewer := Some(k)));
    if v.store[s].config.Some? then Send(v, Some(k), Packet(v.store[s].config.value, true)) else v
  }

  lemma {:induction false} SeatShape(w: World, k: nat, s: nat)
    requires Inv(w) && k < |w.peers| && s < |w.store| && w.peers[k].role.Pending?
    ensures var v := Seat(w, k, s);
            && |v.peers| == |w.peers| && v.store == w.store[s := w.store[s].(viewer := Some(k))]
            && v == w.(peers := v.peers, store := v.store)
            && (forall j: nat | j < |w.peers| && j != k :: v.peers[j] == w.peers[j])
            && v.peers[k] == w.peers[k].(role := ViewerOf(s), early := [],
                               outbox := if w.peers[k].ready.Open? then Greeting(w.store[s].config) else [])
  {
    hide SessionInv, TimerInv;
    assert PeerInv(w, k);
  }

  lemma {:induction false} SeatKeeps(w: World, k: nat, s: nat)
    requires Inv(w) && k < |w.peers| && s < |w.store| && w.peers[k].role.Pending? && w.store[s].timer.None?
    ensures var v := Seat(w, k, s);
            && TableInv(v) && (forall r: nat | r < |v.store| && r != s :: SessionInv(v, r))
            && AgentInv(v, s) && ViewerInv(v, s) && FieldInv(v, s) && Counted(v.store[s])
            && (forall j: nat | j < |v.peers| :: PeerInv(v, j)) && (forall t: nat :: TimerInv(v, t)) && Quiet(w, v)
  {
    hide BinaryBytes, Newest, Seat;
    var v := Seat(w, k, s);
    SeatShape(w, k, s);
    assert SessionInv(w, s);
    forall t: nat ensures TimerInv(v, t) { assert TimerInv(w, t); }
    forall r: nat | r < |w.store| && r != s ensures SessionInv(v, r) { assert SessionInv(w, r); }
    forall j: nat | j < |w.peers| ensures PeerInv(v, j) { assert PeerInv(w, j); }
  }

  /** Telling the agent completes a join; it may be left out if one side is not open. */
  lemma {:induction false} TellKeeps(w: World, s: nat, tell: bool)
    requires s < |w.store|
    requires IsOpen(w, w.store[s].agent) && IsOpen(w, w.store[s].viewer) ==> tell
    requires TableInv(w) && (forall r: nat | r < |w.store| && r != s :: SessionInv(w, r))
    requires AgentInv(w, s) && ViewerInv(w, s) && FieldInv(w, s) && Counted(w.store[s])
    requires (forall j: nat | j < |w.peers| :: PeerInv(w, j)) && (forall t: nat :: TimerInv(w, t))
    ensures var v := if tell then Send(w, w.store[s].agent, VIEWER_JOIN) else w;
            && Inv(v) && Quiet(w, v)
            && (forall k: nat | k < |w.peers| && w.peers[k].role == ViewerOf(s) :: v.peers[k] == w.peers[k])
  {
    hide BinaryBytes, Newest;
    var v := if tell then Send(w, w.store[s].agent, VIEWER_JOIN) else w;
    forall t: nat ensures TimerInv(v, t) { assert TimerInv(w, t); }
    forall r: nat | r < |w.store| ensures SessionInv(v, r) { assert r != s ==> SessionInv(w, r); }
    forall j: nat | j < |w.peers| ensures PeerInv(v, j) { assert PeerInv(w, j); }
  }

  lemma {:induction false} AgentSeatKeeps(w: World, k: nat, s: nat)
    requires Inv(w) && k < |w.peers| && s < |w.store| && w.peers[k].role.Pending?
    ensures var v := Put(Take(w, k, AgentOf(s)), s, w.store[s].(agent := Some(k)));
            && TableInv(v) && (forall r: nat | r < |v.store| && r != s :: SessionInv(v, r))
            && AgentInv(v, s) && ViewerInv(v, s) && FieldInv(v, s) && Counted(v.store[s])
            && (forall j: nat | j < |v.peers| :: PeerInv(v, j)) && (forall t: nat :: TimerInv(v, t)) && Quiet(w, v)
  {
    hide BinaryBytes, Newest;
    var v := Put(Take(w, k, AgentOf(s)), s, w.store[s].(agent := Some(k)));
    assert SessionInv(w, s);
    forall t: nat ensures TimerInv(v, t) { assert TimerInv(w, t); }
    forall r: nat | r < |w.store| && r != s ensures SessionInv(v, r) { assert SessionInv(w, r); }
    forall j: nat | j < |w.peers| ensures PeerInv(v, j) { assert PeerInv(w, j); }
  }

  lemma {:induction false} AgentJoinKeeps(w: World, k: nat, s: nat)
    requires Inv(w) && k < |w.peers| && s < |w.store| && w.peers[k].role.Pending?
    ensures Inv(AgentJoin(w, k, s)) && Quiet(w, AgentJoin(w, k, s))
  {
    hide SessionInv, PeerInv, TimerInv, TableInv, AgentInv, ViewerInv, FieldInv, Counted;
    var v := Put(Take(w, k, AgentOf(s)), s, w.store[s].(agent := Some(k)));
    AgentSeatKeeps(w, k, s);
    TellKeeps(v, s, IsOpen(v, v.store[s].viewer));
    ActiveKeeps(if IsOpen(v, v.store[s].viewer) then Send(v, Some(k), VIEWER_JOIN) else v, s);
  }

  lemma {:induction false} ViewerJoinKeeps(w: World, k: nat, s: nat)
    requires Inv(w) && k < |w.peers| && s < |w.store| && w.peers[k].role.Pending?
    ensures Inv(ViewerJoin(w, k, s)) && Quiet(w, ViewerJoin(w, k, s))
    ensures var v := ViewerJoin(w, k, s);
            && v.store[s].viewer == Some(k) && IsViewer(v, k, s)
            && v.peers[k].ready == w.peers[k].ready
            && v.peers[k].outbox == if w.peers[k].ready.Open? then Greeting(w.store[s].config) else []
  {
    hide Inv, SessionInv, PeerInv, TimerInv, TableInv, AgentInv, ViewerInv, FieldInv, Counted, Seat, Quiet,
        StopTimer, Current, MarkActive;
    StopTimerShape(w, s);
    var u := StopTimer(w, s);
    StopTimerKeeps(w, s);
    var x := Seat(u, k, s);
    SeatIsJoin(u, k, s);
    SeatShape(u, k, s);
    SeatKeeps(u, k, s);
    TellKeeps(x, s, IsOpen(x, x.store[s].agent));
    var y := if IsOpen(x, x.store[s].agent) then Send(x, x.store[s].agent, VIEWER_JOIN) else x;
    ActiveKeeps(y, s);
    MarkActiveShape(y, s);
    QuietTransitive(w, u, x);
    QuietTransitive(w, x, y);
    QuietTransitive(w, y, MarkActive(y, s));
  }

  lemma {:induction false} StopTimerShape(w: World, s: nat)
    requires s < |w.store|
    ensures var v := StopTimer(w, s);
            v.peers == w.peers && |v.store| == |w.store| && v.store[s] == w.store[s].(timer := v.store[s].timer)
  {
  }

  lemma {:induction false} MarkActiveShape(w: World, s: nat)
    requires s < |w.store|
    ensures MarkActive(w, s) == w.(log := MarkActive(w, s).log)
  {
  }

  lemma {:induction false} QuietTransitive(a: World, b: World, c: World)
    requires Quiet(a, b) && Quiet(b, c)
    ensures Quiet(a, c)
  {
    hide Current;
  }

  lemma {:induction false} SeatIsJoin(w: World, k: nat, s: nat)
    requires k < |w.peers| && s < |w.store|
    ensures Seat(w, k, s) == (var v := Put(Take(w, k, ViewerOf(s)), s, w.store[s].(viewer := Some(k)));
                              if v.store[s].config.Some?
                                  then Send(v, Some(k), Packet(v.store[s].config.value, true)) else v)
  {
  }
}
