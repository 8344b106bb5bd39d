/** What an agent is sent: the input of its session's viewers and the relay's own notices, and nothing else. */
module RelayAgents {
  import opened Options
  import opened Texts
  import opened Relay
  import opened RelayState
  import opened RelayRuns
  import opened RelayStreams
  import opened RelayTimers

  ghost predicate IsAgent(w: World, k: nat, s: nat) { k < |w.peers| && w.peers[k].role == AgentOf(s) }

  /** Agent `k` is the session's current agent and its socket is open. */
  ghost predicate Serving(w: World, k: nat, s: nat) {
    s < |w.store| && w.store[s].agent == Some(k) && IsOpen(w, Some(k))
  }

  /** From `a` to `b` agent `k` is sent `ps` if it is serving; otherwise nothing, and it never serves again. */
  ghost predicate Gets(a: World, b: World, k: nat, s: nat, ps: seq<Packet>)
    requires IsAgent(a, k, s)
  {
    && IsAgent(b, k, s) && s < |b.store|
    && if Serving(a, k, s) then b.peers[k].outbox == a.peers[k].outbox + ps
       else b.peers[k].outbox == a.peers[k].outbox && !Serving(b, k, s)
  }

  lemma {:induction false} GetsTwice(a: World, b: World, c: World, k: nat, s: nat, ps: seq<Packet>, qs: seq<Packet>)
    requires IsAgent(a, k, s) && Gets(a, b, k, s, ps) && Gets(b, c, k, s, qs)
    requires Serving(a, k, s) && !Serving(b, k, s) ==> qs == []
    ensures Gets(a, c, k, s, ps + qs)
  {
  }

  /** The socket is sent nothing and not reopened, and it does not become the current one. */
  lemma {:induction false} Untouched(a: World, b: World, k: nat, s: nat)
    requires IsAgent(a, k, s) && IsAgent(b, k, s) && s < |a.store| <= |b.store|
    requires b.peers[k].outbox == a.peers[k].outbox && (b.peers[k].ready.Open? ==> a.peers[k].ready.Open?)
    requires b.store[s].agent == Some(k) ==> a.store[s].agent == Some(k)
    ensures Gets(a, b, k, s, [])
  {
  }

  /** A notice for whoever is the agent of session `r`. */
  lemma {:induction false} NoticeGets(w: World, r: nat, p: Packet, k: nat, s: nat)
    requires Inv(w) && IsAgent(w, k, s) && s < |w.store| && r < |w.store|
    ensures Gets(w, Send(w, w.store[r].agent, p), k, s, if r == s then [p] else [])
    ensures Serving(w, k, s) <==> Serving(Send(w, w.store[r].agent, p), k, s)
  {
    hide TableInv, PeerInv, TimerInv, Counted, Told, FieldInv, ViewerInv;
    assert SessionInv(w, r);
  }

  lemma {:induction false} MessageGets(w: World, j: nat, p: Packet, k: nat, s: nat)
    requires Inv(w) && j < |w.peers| && IsAgent(w, k, s) && s < |w.store|
    ensures var v := OnMessage(w, j, p);
            && Gets(w, v, k, s, if w.peers[j].role == ViewerOf(s) then [p] else [])
            && (Serving(w, k, s) <==> Serving(v, k, s))
  {
    hide TableInv, TimerInv, Counted, Told, FieldInv, HearAgent, HearViewer, Relayed;
    assert PeerInv(w, j);
    match w.peers[j].role
    case AgentOf(r) => assert SessionInv(w, r); HearShape(w.store[r], p, w.now);
    case ViewerOf(r) => assert SessionInv(w, r); HearShape(w.store[r], p, w.now);
    case _ =>
  }

  lemma {:induction false} MessagesGets(w: World, j: nat, ps: seq<Packet>, k: nat, s: nat)
    requires Inv(w) && j < |w.peers| && IsAgent(w, k, s) && s < |w.store|
    ensures var v := OnMessages(w, j, ps);
            && Gets(w, v, k, s, if w.peers[j].role == ViewerOf(s) then ps else [])
            && (Serving(w, k, s) <==> Serving(v, k, s))
  {
    hide Inv, OnMessage, Serving;
    if ps == [] {
      Untouched(w, w, k, s);
    } else {
      var init, p := ps[..|ps| - 1], ps[|ps| - 1];
      var u := OnMessages(w, j, init);
      MessagesGets(w, j, init, k, s);
      MessagesKeep(w, j, init);
      assert u.peers[j].role == w.peers[j].role && |u.store| == |w.store|;
      MessageGets(u, j, p, k, s);
      var mine := w.peers[j].role == ViewerOf(s);
      GetsTwice(w, u, OnMessages(w, j, ps), k, s, if mine then init else [], if mine then [p] else []);
      assert init + [p] == ps;
    }
  }

  /* ---------- joining ---------- */

  lemma {:induction false} EnterGets(w: World, sid: Text, did: Text, uid: int, k: nat, s: nat)
    requires Inv(w) && IsAgent(w, k, s) && s < |w.store|
    ensures var v := Enter(w, sid, did, uid).0; Gets(w, v, k, s, []) && (Serving(w, k, s) <==> Serving(v, k, s))
  {
    hide Inv;
  }

  /** A new agent of session `r` is told of an open viewer; the one before it is sent nothing and serves no more. */
  lemma {:induction false} AgentJoinGets(w: World, j: nat, r: nat, k: nat, s: nat)
    requires Inv(w) && j < |w.peers| && r < |w.store| && w.peers[j].role.Pending?
    requires IsAgent(w, k, s) && s < |w.store|
    ensures Gets(w, AgentJoin(w, j, r), k, s, [])
  {
    hide Inv, MarkActive;
    var v := Put(Take(w, j, AgentOf(r)), r, w.store[r].(agent := Some(j)));
    MarkActiveShape(if IsOpen(v, v.store[r].viewer) then Send(v, Some(j), VIEWER_JOIN) else v, r);
  }

  lemma {:induction false} AgentStarts(w: World, k: nat, r: nat)
    requires Inv(w) && k < |w.peers| && r < |w.store| && w.peers[k].role.Pending?
    ensures var v := AgentJoin(w, k, r);
            && IsAgent(v, k, r) && r < |v.store|
            && v.store[r].agent == Some(k) && v.store[r].viewer == w.store[r].viewer
            && (forall q: Option<nat> :: IsOpen(v, q) <==> IsOpen(w, q))
            && v.peers[k].outbox ==
                 if IsOpen(w, Some(k)) && IsOpen(w, w.store[r].viewer) then [VIEWER_JOIN] else []
  {
    hide TableInv, SessionInv, TimerInv, MarkActive;
    assert PeerInv(w, k);
    hide Inv, PeerInv;
    var v := Put(Take(w, k, AgentOf(r)), r, w.store[r].(agent := Some(k)));
    MarkActiveShape(if IsOpen(v, v.store[r].viewer) then Send(v, Some(k), VIEWER_JOIN) else v, r);
  }

  /** A viewer that joins session `r` makes the relay tell the agent that serves there. */
  lemma {:induction false} ViewerJoinGets(w: World, j: nat, r: nat, k: nat, s: nat)
    requires Inv(w) && j < |w.peers| && r < |w.store| && w.peers[j].role.Pending?
    requires IsAgent(w, k, s) && s < |w.store|
    ensures var v := ViewerJoin(w, j, r);
            && Gets(w, v, k, s, if r == s then [VIEWER_JOIN] else [])
            && (Serving(w, k, s) <==> Serving(v, k, s))
  {
    hide TableInv, TimerInv, Counted, Told, ViewerInv, MarkActive, StopTimer, Seat;
    StopTimerKeeps(w, r);
    StopTimerAgents(w, r);
    assert AgentInv(w, r) by { assert SessionInv(w, r); }
    hide SessionInv, PeerInv, Inv, Quiet;
    var u := StopTimer(w, r);
    var x := Seat(u, j, r);
    SeatIsJoin(u, j, r);
    SeatShape(u, j, r);
    var y := if IsOpen(x, x.store[r].agent) then Send(x, x.store[r].agent, VIEWER_JOIN) else x;
    MarkActiveShape(y, r);
  }

  lemma {:induction false} StopTimerAgents(w: World, s: nat)
    requires s < |w.store|
    ensures var v := StopTimer(w, s);
            && v.peers == w.peers && |v.store| == |w.store|
            && forall r: nat | r < |w.store| :: v.store[r].agent == w.store[r].agent
  {
  }

  lemma {:induction false} JoinGets(w: World, st: Step, k: nat, s: nat)
    requires Inv(w) && st.Authenticate? && Enabled(w, st) && IsAgent(w, k, s) && s < |w.store|
    ensures var v := Join(w, st.k, st.agent, st.sid, st.did, st.uid);
            && st.k < |v.peers|
            && Gets(w, v, k, s, Notices(w, v, st, s) + Handed(w, v, st, ViewerOf(s)))
  {
    hide Inv, Enter, AgentJoin, ViewerJoin, OnMessages, Serving, Spoke, Quiet;
    var j, early := st.k, w.peers[st.k].early;
    var (u, r) := Enter(w, st.sid, st.did, st.uid);
    EnterKeeps(w, st.sid, st.did, st.uid);
    EnterGets(w, st.sid, st.did, st.uid, k, s);
    var x := if st.agent then AgentJoin(u, j, r) else ViewerJoin(u, j, r);
    JoinRole(u, j, r);
    if st.agent {
      AgentJoinKeeps(u, j, r);
      AgentJoinGets(u, j, r, k, s);
    } else {
      ViewerJoinKeeps(u, j, r);
      ViewerJoinGets(u, j, r, k, s);
    }
    var v := OnMessages(x, j, early);
    JoinedStays(x, j, early);
    MessagesGets(x, j, early, k, s);
    var notice := if !st.agent && r == s then [VIEWER_JOIN] else [];
    var said := if x.peers[j].role == ViewerOf(s) then early else [];
    GetsTwice(w, u, x, k, s, [], notice);
    GetsTwice(w, x, v, k, s, [] + notice, said);
    assert [] + notice == notice;
    assert Notices(w, v, st, s) == notice && Handed(w, v, st, ViewerOf(s)) == said;
  }

  lemma {:induction false} JoinedStays(x: World, j: nat, early: seq<Packet>)
    requires Inv(x) && j < |x.peers|
    ensures var v := OnMessages(x, j, early); j < |v.peers| && v.peers[j].role == x.peers[j].role
  {
    hide Inv;
    MessagesKeep(x, j, early);
  }

  /* ---------- one step ---------- */

  /** What the relay itself tells the agent of session `s`: that a viewer has joined, or to send less. */
  function Notices(a: World, b: World, st: Step, s: nat): seq<Packet> {
    match st
    case Authenticate(k, agent, _, _, _) =>
      if !agent && k < |b.peers| && b.peers[k].role == ViewerOf(s) then [VIEWER_JOIN] else []
    case Sweep(buffered) => if Listed(a, s) && Jammed(a, buffered, s) then [LOW_QUALITY] else []
    case _ => []
  }

  /** A sweep tells an agent to send less exactly if more than a million bytes wait for the viewer of its session. */
  lemma {:induction false} SweepNotice(a: World, b: World, buffered: map<nat, nat>, s: nat)
    ensures Notices(a, b, Sweep(buffered), s) != [] <==>
              && Listed(a, s) && a.store[s].viewer.Some? && a.store[s].viewer.value in buffered
              && buffered[a.store[s].viewer.value] > 1_000_000
  {
  }

  lemma {:induction false} SweepGets(a: World, buffered: map<nat, nat>, k: nat, s: nat)
    requires Inv(a) && IsAgent(a, k, s) && s < |a.store|
    ensures Gets(a, Do(a, Sweep(buffered)), k, s, Notices(a, Do(a, Sweep(buffered)), Sweep(buffered), s))
  {
    hide Inv, Do, Tick;
    SweepExact(a, buffered);
    SweptAll(a, buffered, |a.store|);
    assert Do(a, Sweep(buffered)) == Tick(a, buffered, |a.store|) by { SweepTicks(a, buffered); }
  }

  lemma {:induction false} SweepTicks(a: World, buffered: map<nat, nat>)
    ensures Do(a, Sweep(buffered)) == Tick(a, buffered, |a.store|)
  {
  }

  lemma {:induction false} CloseGets(w: World, r: nat, reason: Reason, k: nat, s: nat)
    requires IsAgent(w, k, s) && s < |w.store| && r < |w.store|
    ensures Gets(w, CloseSession(w, r, reason), k, s, [])
  {
    hide CloseSession;
    CloseShape(w, r, reason);
  }

  lemma {:induction false} EndCloseGets(w: World, j: nat, k: nat, s: nat)
    requires Inv(w) && j < |w.peers| && IsAgent(w, k, s) && s < |w.store|
    ensures Gets(w, OnClose(w, j), k, s, [])
  {
    hide Inv, CloseSession, Gets;
    var v := w.(peers := w.peers[j := w.peers[j].(ready := Closed)]);
    Untouched(w, v, k, s);
    if w.peers[j].role.AgentOf? {
      var r := w.peers[j].role.session;
      if r < |w.store| && w.store[r].agent == Some(j) {
        CloseGets(v, r, AgentDisconnect, k, s);
        GetsNothing(w, v, OnClose(w, j), k, s);
      }
    } else if w.peers[j].role.ViewerOf? {
      Untouched(w, OnClose(w, j), k, s);
    }
  }

  lemma {:induction false} GetsNothing(a: World, b: World, c: World, k: nat, s: nat)
    requires IsAgent(a, k, s) && Gets(a, b, k, s, []) && Gets(b, c, k, s, [])
    ensures Gets(a, c, k, s, [])
  {
    GetsTwice(a, b, c, k, s, [], []);
    var none: seq<Packet> := [];
    assert none + none == none;
  }

  /** Every step sends a serving agent the relay's notices and then the input its viewers said, and others nothing. */
  lemma {:induction false} StepGets(a: World, b: World, st: Step, k: nat, s: nat)
    requires Inv(a) && Next(a, b, st) && IsAgent(a, k, s) && s < |a.store|
    ensures Gets(a, b, k, s, Notices(a, b, st, s) + Handed(a, b, st, ViewerOf(s)))
  {
    hide Inv, Join, OnMessage, OnClose, OnTimer, Tick, Gets, CloseSession;
    var due := Notices(a, b, st, s) + Handed(a, b, st, ViewerOf(s));
    assert !st.Authenticate? && !st.Message? && !st.Sweep? ==> due == [];
    match st
    case Authenticate(_, _, _, _, _) => JoinGets(a, st, k, s);
    case Message(j, p) =>
      MessageGets(a, j, p, k, s);
      assert [] + Handed(a, b, st, ViewerOf(s)) == Handed(a, b, st, ViewerOf(s));
    case EndClose(j) => EndCloseGets(a, j, k, s);
    case Fire(t) =>
      OnTimerKeeps(a, t);
      CloseGets(a, a.timers[t].session, ViewerDisconnect, k, s);
    case Sweep(buffered) =>
      SweepGets(a, buffered, k, s);
      assert Notices(a, b, st, s) + [] == Notices(a, b, st, s);
    case Elapse(_) => Untouched(a, b, k, s);
    case Accept => Untouched(a, b, k, s);
    case Reject(_) => Untouched(a, b, k, s);
    case BeginClose(_) => Untouched(a, b, k, s);
  }

  /* ---------- over runs ---------- */

  /** What is due to the agent of session `s` in the steps from `i` up to `m`: notices, and what the viewers said. */
  function Due(run: seq<World>, steps: seq<Step>, i: nat, m: nat, s: nat): seq<Packet>
    requires i <= m <= |steps| < |run|
  {
    if m == i then []
    else
      Due(run, steps, i, m - 1, s) +
      Notices(run[m - 1], run[m], steps[m - 1], s) + Share(run, steps, m - 1, ViewerOf(s))
  }

  /** In states `i` to `j` agent `k` served until `m`, and never from `m` on. */
  ghost predicate Served(run: seq<World>, i: nat, m: nat, j: nat, k: nat, s: nat)
    requires j < |run|
  {
    && i <= m <= j
    && (forall n: nat | i <= n < m :: Serving(run[n], k, s))
    && (forall n: nat | m <= n <= j && m < j :: !Serving(run[n], k, s))
  }

  lemma {:induction false} ShareIs(run: seq<World>, steps: seq<Step>, n: nat, s: nat)
    requires IsRun(run, steps) && n < |steps|
    ensures Handed(run[n], run[n + 1], steps[n], ViewerOf(s)) == Share(run, steps, n, ViewerOf(s))
  {
    hide Inv, Next, Handed, Share, Stashed;
    InvInRuns(run, steps);
    StashedInRuns(run, steps, n);
    StepHands(run[n], run[n + 1], steps[n]);
    HandedIsShare(run, steps, n, ViewerOf(s));
  }

  lemma {:induction false} StashedInRuns(run: seq<World>, steps: seq<Step>, n: nat)
    requires IsRun(run, steps) && n <= |steps|
    ensures Stashed(run[n], steps[..n])
  {
    hide Inv, Next, Stashed;
    if n == 0 {
      HeardBoot(run, steps);
    } else {
      InvInRuns(run, steps);
      StashedInRuns(run, steps, n - 1);
      StepHands(run[n - 1], run[n], steps[n - 1]);
      StashStep(run[n - 1], run[n], steps[n - 1], steps[..n - 1]);
      assert steps[..n - 1] + [steps[n - 1]] == steps[..n];
    }
  }

  lemma {:induction false} ServedExists(run: seq<World>, steps: seq<Step>, i: nat, j: nat, k: nat, s: nat)
      returns (m: nat)
    requires IsRun(run, steps) && i <= j < |run| && IsAgent(run[i], k, s) && s < |run[i].store|
    ensures Served(run, i, m, j, k, s) && IsAgent(run[j], k, s) && s < |run[j].store|
    ensures run[j].peers[k].outbox == run[i].peers[k].outbox + Due(run, steps, i, m, s)
  {
    hide Inv, Next, Notices, Share, Handed, Serving;
    if i == j {
      m := i;
    } else {
      m := ServedExists(run, steps, i, j - 1, k, s);
      InvInRuns(run, steps);
      StepGets(run[j - 1], run[j], steps[j - 1], k, s);
      ShareIs(run, steps, j - 1, s);
      if Serving(run[j - 1], k, s) {
        assert m == j - 1;
        m := j;
      }
    }
  }

  ghost predicate AgentJoins(st: Step, k: nat) { st.Authenticate? && st.agent && st.k == k }

  /** Right after its join an agent is its session's current one, told of the viewer if both are open. */
  lemma {:induction false} AgentStart(a: World, b: World, st: Step, k: nat) returns (s: nat)
    requires Inv(a) && Next(a, b, st) && AgentJoins(st, k)
    ensures IsAgent(b, k, s) && s < |b.store| && b.store[s].agent == Some(k)
    ensures b.peers[k].outbox == if IsOpen(b, Some(k)) && IsOpen(b, b.store[s].viewer) then [VIEWER_JOIN] else []
  {
    hide Inv, Enter, AgentJoin, OnMessages, Spoke, Quiet;
    var u, early := Enter(a, st.sid, st.did, st.uid).0, a.peers[k].early;
    s := Enter(a, st.sid, st.did, st.uid).1;
    EnterKeeps(a, st.sid, st.did, st.uid);
    var x := AgentJoin(u, k, s);
    AgentJoinKeeps(u, k, s);
    AgentStarts(u, k, s);
    MessagesGets(x, k, early, k, s);
    MessagesSeats(x, k, early, s);
    assert b == OnMessages(x, k, early);
    assert x.peers[k].outbox + [] == x.peers[k].outbox;
  }

  lemma {:induction false} MessagesSeats(w: World, k: nat, ps: seq<Packet>, s: nat)
    requires Inv(w) && k < |w.peers| && s < |w.store|
    ensures var v := OnMessages(w, k, ps);
            && s < |v.store| && v.store[s].agent == w.store[s].agent && v.store[s].viewer == w.store[s].viewer
            && (forall q: Option<nat> :: IsOpen(v, q) <==> IsOpen(w, q))
  {
    hide Inv, OnMessage;
    MessagesKeep(w, k, ps);
    if ps != [] {
      MessagesSeats(w, k, ps[..|ps| - 1], s);
      MessageSeats(OnMessages(w, k, ps[..|ps| - 1]), k, ps[|ps| - 1], s);
    }
  }

  lemma {:induction false} MessageSeats(w: World, k: nat, p: Packet, s: nat)
    requires k < |w.peers| && s < |w.store|
    ensures s < |OnMessage(w, k, p).store| && OnMessage(w, k, p).store[s].agent == w.store[s].agent
  {
  }

  /**
   * The stream of an agent that joined in step `i`, whatever happened up to state `j`: the notice of an open viewer at
   * its join, then step by step, while it was the current open agent, the relay's notices and exactly the input the
   * session's viewers said, each message once, in order and with its own binary flag.
   */
  lemma {:induction false} AgentStream(run: seq<World>, steps: seq<Step>, i: nat, j: nat, k: nat)
      returns (s: nat, m: nat)
    requires IsRun(run, steps) && i < j < |run| && AgentJoins(steps[i], k)
    ensures IsAgent(run[i + 1], k, s) && s < |run[i + 1].store| && Served(run, i + 1, m, j, k, s)
    ensures IsOpen(run[i + 1], Some(k)) ==> Serving(run[i + 1], k, s)
    ensures IsAgent(run[j], k, s) && s < |run[j].store|
    ensures run[j].peers[k].outbox ==
              (if IsOpen(run[i + 1], Some(k)) && IsOpen(run[i + 1], run[i + 1].store[s].viewer) then [VIEWER_JOIN]
               else []) +
              Due(run, steps, i + 1, m, s)
  {
    hide Inv, Next, Due;
    InvInRuns(run, steps);
    s := AgentStart(run[i], run[i + 1], steps[i], k);
    m := ServedExists(run, steps, i + 1, j, k, s);
  }

  /** Without the texts the relay itself sends. */
  function WithoutNotices(ps: seq<Packet>): seq<Packet> {
    if ps == [] then []
    else WithoutNotices(ps[..|ps| - 1]) +
         if ps[|ps| - 1] == VIEWER_JOIN || ps[|ps| - 1] == LOW_QUALITY then [] else [ps[|ps| - 1]]
  }

  lemma {:induction false} WithoutJoins(a: seq<Packet>, b: seq<Packet>)
    ensures WithoutNotices(a + b) == WithoutNotices(a) + WithoutNotices(b)
  {
    hide VIEWER_JOIN, LOW_QUALITY;
    if b == [] {
      assert a + b == a;
    } else {
      assert (a + b)[..|a + b| - 1] == a + b[..|b| - 1];
      WithoutJoins(a, b[..|b| - 1]);
    }
  }

  lemma {:induction false} NoticesLeftOut(a: World, b: World, st: Step, s: nat)
    ensures WithoutNotices(Notices(a, b, st, s)) == []
  {
    hide VIEWER_JOIN, LOW_QUALITY;
    assert WithoutNotices([VIEWER_JOIN]) == WithoutNotices([VIEWER_JOIN][..0]);
    assert WithoutNotices([LOW_QUALITY]) == WithoutNotices([LOW_QUALITY][..0]);
  }

  /** What is due, the notices left out, is what the session's viewers have said meanwhile. */
  lemma {:induction false} DueIsInput(run: seq<World>, steps: seq<Step>, i: nat, m: nat, s: nat)
    requires IsRun(run, steps) && i <= m <= |steps| && s < |run[i].store|
    ensures s < |run[m].store| && run[i].store[s].fromViewers <= run[m].store[s].fromViewers
    ensures WithoutNotices(Due(run, steps, i, m, s)) ==
            WithoutNotices(run[m].store[s].fromViewers[|run[i].store[s].fromViewers|..])
  {
    hide Inv, Next, Notices, Share, Handed, WithoutNotices;
    if m > i {
      DueIsInput(run, steps, i, m - 1, s);
      InvInRuns(run, steps);
      StepHands(run[m - 1], run[m], steps[m - 1]);
      ShareIs(run, steps, m - 1, s);
      var notes, said := Notices(run[m - 1], run[m], steps[m - 1], s), Share(run, steps, m - 1, ViewerOf(s));
      var f, g, h := run[i].store[s].fromViewers, run[m - 1].store[s].fromViewers, run[m].store[s].fromViewers;
      WithoutJoins(Due(run, steps, i, m - 1, s) + notes, said);
      WithoutJoins(Due(run, steps, i, m - 1, s), notes);
      NoticesLeftOut(run[m - 1], run[m], steps[m - 1], s);
      WithoutJoins(g[|f|..], said);
      assert h == g + said && h[|f|..] == g[|f|..] + said;
    } else {
      assert run[m].store[s].fromViewers[|run[i].store[s].fromViewers|..] == [];
    }
  }

  /** The outbox of an agent, the notices left out, is what its viewers said while it was the current open agent. */
  lemma {:induction false} AgentInput(run: seq<World>, steps: seq<Step>, i: nat, j: nat, k: nat)
      returns (s: nat, m: nat)
    requires IsRun(run, steps) && i < j < |run| && AgentJoins(steps[i], k)
    ensures IsAgent(run[j], k, s) && Served(run, i + 1, m, j, k, s)
    ensures s < |run[i + 1].store| && s < |run[m].store|
    ensures run[i + 1].store[s].fromViewers <= run[m].store[s].fromViewers
    ensures WithoutNotices(run[j].peers[k].outbox) ==
            WithoutNotices(run[m].store[s].fromViewers[|run[i + 1].store[s].fromViewers|..])
  {
    hide Inv, Next, Due, WithoutNotices, Serving, IsOpen;
    s, m := AgentStream(run, steps, i, j, k);
    DueIsInput(run, steps, i + 1, m, s);
    WithoutJoins([VIEWER_JOIN], Due(run, steps, i + 1, m, s));
    WithoutJoins([], Due(run, steps, i + 1, m, s));
    AloneLeftOut();
    var none: seq<Packet> := [];
    assert none + Due(run, steps, i + 1, m, s) == Due(run, steps, i + 1, m, s);
  }

  lemma {:induction false} AloneLeftOut()
    ensures WithoutNotices([VIEWER_JOIN]) == []
  {
    hide VIEWER_JOIN, LOW_QUALITY;
    assert WithoutNotices([VIEWER_JOIN]) == WithoutNotices([VIEWER_JOIN][..0]);
  }
}
