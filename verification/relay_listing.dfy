/** Which callbacks of the relay take a session out of its table, and when they hit another one than their own. */
module RelayListing {
  import opened Options
  import opened Texts
  import opened Relay
  import opened RelayState
  import opened RelayRuns
  import opened RelayTimers

  /** The table keeps its entries, and session objects keep their ids. */
  ghost predicate KeepsListed(a: World, b: World) {
    && a.table.Items <= b.table.Items
    && |a.store| <= |b.store|
    && (forall s: nat | s < |a.store| :: b.store[s].id == a.store[s].id)
  }

  lemma {:induction false} StillListed(a: World, b: World, o: nat)
    requires KeepsListed(a, b) && Listed(a, o)
    ensures Listed(b, o)
  {
    assert (a.store[o].id, o) in a.table.Items;
  }

  lemma {:induction false} KeepsTwice(a: World, b: World, c: World)
    requires KeepsListed(a, b) && KeepsListed(b, c)
    ensures KeepsListed(a, c)
  {
  }

  lemma {:induction false} MessageKeepsListed(w: World, k: nat, p: Packet)
    requires k < |w.peers|
    ensures KeepsListed(w, OnMessage(w, k, p))
  {
  }

  lemma {:induction false} MessagesKeepListed(w: World, k: nat, ps: seq<Packet>)
    requires k < |w.peers|
    ensures KeepsListed(w, OnMessages(w, k, ps))
  {
    hide OnMessage;
    if ps != [] {
      MessagesKeepListed(w, k, ps[..|ps| - 1]);
      MessageKeepsListed(OnMessages(w, k, ps[..|ps| - 1]), k, ps[|ps| - 1]);
    }
  }

  lemma {:induction false} EnterKeepsListed(w: World, sid: Text, did: Text, uid: int)
    requires Inv(w)
    ensures KeepsListed(w, Enter(w, sid, did, uid).0)
  {
    hide SessionInv, PeerInv, TimerInv;
  }

  lemma {:induction false} AgentKeepsListed(w: World, k: nat, s: nat)
    requires k < |w.peers| && s < |w.store|
    ensures KeepsListed(w, AgentJoin(w, k, s))
  {
  }

  lemma {:induction false} ViewerKeepsListed(w: World, k: nat, s: nat)
    requires k < |w.peers| && s < |w.store|
    ensures KeepsListed(w, ViewerJoin(w, k, s))
  {
    hide IsOpen, Send, MarkActive;
    var u := StopTimer(w, s);
    var v := Put(Take(u, k, ViewerOf(s)), s, u.store[s].(viewer := Some(k)));
    var x := if v.store[s].config.Some? then Send(v, Some(k), Packet(v.store[s].config.value, true)) else v;
    if v.store[s].config.Some? { SendKeepsListed(v, Some(k), Packet(v.store[s].config.value, true)); }
    SendKeepsListed(x, x.store[s].agent, VIEWER_JOIN);
    MarkActiveShape(if IsOpen(x, x.store[s].agent) then Send(x, x.store[s].agent, VIEWER_JOIN) else x, s);
  }

  lemma {:induction false} SendKeepsListed(w: World, k: Option<nat>, p: Packet)
    ensures Send(w, k, p) == w.(peers := Send(w, k, p).peers)
  {
  }

  lemma {:induction false} JoinKeepsListed(w: World, k: nat, agent: bool, sid: Text, did: Text, uid: int)
    requires Inv(w) && k < |w.peers| && w.peers[k].role.Pending?
    ensures KeepsListed(w, Join(w, k, agent, sid, did, uid))
  {
    hide Inv, Enter, AgentJoin, ViewerJoin, OnMessages, KeepsListed, Quiet;
    var (u, s) := Enter(w, sid, did, uid);
    EnterKeeps(w, sid, did, uid);
    EnterKeepsListed(w, sid, did, uid);
    var x := if agent then AgentJoin(u, k, s) else ViewerJoin(u, k, s);
    JoinRole(u, k, s);
    AgentKeepsListed(u, k, s);
    ViewerKeepsListed(u, k, s);
    MessagesKeepListed(x, k, w.peers[k].early);
    KeepsTwice(w, u, x);
    KeepsTwice(w, x, OnMessages(x, k, w.peers[k].early));
  }

  /** The session that a step tears down because of its own timer or socket. */
  function TornBy(w: World, st: Step): Option<nat> {
    match st
    case Fire(t) => if t in w.timers then Some(w.timers[t].session) else None
    case EndClose(k) =>
      if k < |w.peers| && w.peers[k].role.AgentOf? && w.peers[k].role.session < |w.store|
         && w.store[w.peers[k].role.session].agent == Some(k)
      then Some(w.peers[k].role.session) else None
    case _ => None
  }

  /**
   * A step takes the listed session `o` out of the table: it is swept for idleness, or shares its id with one torn
   * down.
   */
  ghost predicate Unlists(w: World, st: Step, o: nat) {
    o < |w.store| &&
    match TornBy(w, st)
    case Some(s) => s < |w.store| && w.store[s].id == w.store[o].id
    case None => st.Sweep? && Idle(w, o)
  }

  lemma {:induction false} CloseUnlists(w: World, s: nat, reason: Reason, o: nat)
    requires s < |w.store| && Listed(w, o)
    ensures Listed(CloseSession(w, s, reason), o) <==> w.store[s].id != w.store[o].id
  {
    hide CloseSession;
    CloseShape(w, s, reason);
  }

  lemma {:induction false} EndCloseUnlists(w: World, k: nat, o: nat)
    requires Inv(w) && k < |w.peers| && Listed(w, o)
    ensures Listed(OnClose(w, k), o) <==> !Unlists(w, EndClose(k), o)
  {
    hide CloseSession, Inv;
    var v := w.(peers := w.peers[k := w.peers[k].(ready := Closed)]);
    assert Listed(v, o);
    if TornBy(w, EndClose(k)).Some? { CloseUnlists(v, w.peers[k].role.session, AgentDisconnect, o); }
  }

  /** In one step a listed session leaves the table if and only if `Unlists` says so. */
  lemma {:induction false} StepUnlists(a: World, b: World, st: Step, o: nat)
    requires Inv(a) && Next(a, b, st) && Listed(a, o)
    ensures !Listed(b, o) <==> Unlists(a, st, o)
  {
    assert o < |a.store|;
    hide Inv, Join, OnMessage, OnClose, OnTimer, Tick, CloseSession, KeepsListed, Listed;
    match st
    case Authenticate(k, agent, sid, did, uid) =>
      JoinKeepsListed(a, k, agent, sid, did, uid);
      StillListed(a, b, o);
    case Message(k, p) =>
      MessageKeepsListed(a, k, p);
      StillListed(a, b, o);
    case EndClose(k) => EndCloseUnlists(a, k, o);
    case Fire(t) =>
      OnTimerKeeps(a, t);
      CloseUnlists(a, a.timers[t].session, ViewerDisconnect, o);
    case Sweep(buffered) => SweepUnlists(a, buffered, o);
    case _ =>
      assert KeepsListed(a, b) by { PlainKeepsListed(a, b, st); }
      StillListed(a, b, o);
  }

  lemma {:induction false} SweepUnlists(a: World, buffered: map<nat, nat>, o: nat)
    requires Inv(a) && Listed(a, o)
    ensures !Listed(Do(a, Sweep(buffered)), o) <==> Idle(a, o)
  {
    hide Inv, Do, SweptPeer, TickOne;
    SweepExact(a, buffered);
    SweptAll(a, buffered, |a.store|);
    assert Do(a, Sweep(buffered)) == Tick(a, buffered, |a.store|) by { SweepIs(a, buffered); }
    hide Tick;
  }

  lemma {:induction false} SweepIs(a: World, buffered: map<nat, nat>)
    ensures Do(a, Sweep(buffered)) == Tick(a, buffered, |a.store|)
  {
  }

  lemma {:induction false} PlainKeepsListed(a: World, b: World, st: Step)
    requires Next(a, b, st) && (st.Elapse? || st.Accept? || st.Reject? || st.BeginClose?)
    ensures KeepsListed(a, b)
  {
  }

  /** In every run a listed session leaves the table in a step if and only if `Unlists` says so. */
  lemma {:induction false} UnlistedInRuns(run: seq<World>, steps: seq<Step>, i: nat, o: nat)
    requires IsRun(run, steps) && i < |steps| && Listed(run[i], o)
    ensures !Listed(run[i + 1], o) <==> Unlists(run[i], steps[i], o)
  {
    hide Inv, Next, Unlists, Listed;
    InvInRuns(run, steps);
    StepUnlists(run[i], run[i + 1], steps[i], o);
  }

  /** A newer session of the same id has taken the place of `s`. */
  ghost predicate Superseded(w: World, s: nat) { s < |w.store| && w.store[s].id in w.table && !Listed(w, s) }

  /** Another session than `s` leaves the table. */
  ghost predicate HitsAnother(a: World, b: World, s: nat) { exists o :: o != s && Listed(a, o) && !Listed(b, o) }

  /** A teardown takes another session out of the table if and only if its own has been superseded. */
  lemma {:induction false} TeardownHits(w: World, s: nat, reason: Reason)
    requires Inv(w) && s < |w.store|
    ensures HitsAnother(w, CloseSession(w, s, reason), s) <==> Superseded(w, s)
  {
    hide CloseSession, SessionInv, PeerInv, TimerInv;
    if Superseded(w, s) {
      var o := w.table[w.store[s].id];
      CloseUnlists(w, s, reason, o);
      assert o != s && Listed(w, o);
    }
    if HitsAnother(w, CloseSession(w, s, reason), s) {
      var o :| o != s && Listed(w, o) && !Listed(CloseSession(w, s, reason), o);
      CloseUnlists(w, s, reason, o);
    }
  }

  /**
   * In every run a grace timer, or the close of a session's agent, takes another session out of the table if and only
   * if its own has been superseded; a sweep never takes out a session that is not idle, and no other callback takes
   * out any.
   */
  lemma {:induction false} CallbackHits(run: seq<World>, steps: seq<Step>, i: nat)
    requires IsRun(run, steps) && i < |steps|
    ensures match TornBy(run[i], steps[i])
            case Some(s) => HitsAnother(run[i], run[i + 1], s) <==> Superseded(run[i], s)
            case None => forall o | Listed(run[i], o) && !(steps[i].Sweep? && Idle(run[i], o)) :: Listed(run[i + 1], o)
  {
    hide Inv, Next, Do;
    InvInRuns(run, steps);
    forall o: nat | Listed(run[i], o) ensures !Listed(run[i + 1], o) <==> Unlists(run[i], steps[i], o) {
      UnlistedInRuns(run, steps, i, o);
    }
    match TornBy(run[i], steps[i])
    case Some(s) =>
      TornExists(run[i], steps[i]);
      if Superseded(run[i], s) { Newer(run[i], s); }
      forall o: nat | o != s && Listed(run[i], o) && run[i].store[o].id == run[i].store[s].id
        ensures Superseded(run[i], s)
      {
        SameIdListed(run[i], s, o);
      }
    case None =>
  }

  lemma {:induction false} TornExists(w: World, st: Step)
    requires Inv(w) && TornBy(w, st).Some?
    ensures TornBy(w, st).value < |w.store|
  {
    if st.Fire? { assert TimerInv(w, st.t); }
  }

  lemma {:induction false} Newer(w: World, s: nat)
    requires Inv(w) && Superseded(w, s)
    ensures var o := w.table[w.store[s].id]; o != s && Listed(w, o) && w.store[o].id == w.store[s].id
  {
    hide SessionInv, PeerInv, TimerInv;
  }

  lemma {:induction false} SameIdListed(w: World, s: nat, o: nat)
    requires s < |w.store| && Listed(w, o) && o != s && w.store[o].id == w.store[s].id
    ensures Superseded(w, s)
  {
  }
}
