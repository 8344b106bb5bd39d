/** Two runs of the relay that go another way than one might expect. */
module RelaySurprises {
  import opened Options
  import opened Texts
  import opened Relay
  import opened RelayState
  import opened RelayStreams

  lemma {:induction false} AgentArrives(w: World, k: nat, sid: Text)
    requires k < |w.peers| && w.peers[k] == Peer(Open, Pending, [], []) && sid !in w.table
    ensures Join(w, k, true, sid, [], 0) ==
              w.(peers := w.peers[k := Peer(Open, AgentOf(|w.store|), [], [])],
                 store := w.store + [NewSession(sid, [], 0, w.now).(agent := Some(k))],
                 table := w.table[sid := |w.store|])
  {
  }

  lemma {:induction false} ViewerArrives(w: World, k: nat, sid: Text)
    requires k < |w.peers| && w.peers[k] == Peer(Open, Pending, [], []) && sid !in w.table
    ensures Join(w, k, false, sid, [], 0) ==
              w.(peers := w.peers[k := Peer(Open, ViewerOf(|w.store|), [], [])],
                 store := w.store + [NewSession(sid, [], 0, w.now).(viewer := Some(k))],
                 table := w.table[sid := |w.store|])
  {
  }

  function Seated(sid: Text, now: int, k: nat): Session { NewSession(sid, [], 0, now).(viewer := Some(k)) }

  /** A session whose only viewer went quiet is swept. */
  lemma {:induction false} IdleSwept(now: int, sid: Text)
    ensures Do(World(now + 600_001, [Peer(Open, ViewerOf(0), [], [])], [Seated(sid, now, 0)], map[sid := 0], map[],
        0, []), Sweep(map[])) ==
            World(now + 600_001, [Peer(Closing, ViewerOf(0), [], [])], [Seated(sid, now, 0)], map[], map[], 0,
                  [TearDown(0, sid, [], IdleTimeout, 0, 0)])
  {
    var w := World(now + 600_001, [Peer(Open, ViewerOf(0), [], [])], [Seated(sid, now, 0)], map[sid := 0], map[], 0,
        []);
    assert Tick(w, map[], 0) == w;
    assert w.table - {sid} == map[];
  }

  lemma {:induction false} LateClose(now: int, sid: Text, log: seq<Effect>)
    ensures Do(World(now, [Peer(Closing, ViewerOf(0), [], [])], [Seated(sid, now - 600_001, 0)], map[], map[], 0,
        log), EndClose(0)) ==
            World(now, [Peer(Closed, ViewerOf(0), [], [])], [NewSession(sid, [], 0, now - 600_001).(timer := Some(0))],
                  map[], map[0 := Timer(0, now)], 1, log)
  {
  }

  lemma {:induction false} LateFire(peers: seq<Peer>, x: Session, y: Session, now: int, log: seq<Effect>)
    requires x == NewSession(x.id, [], 0, x.lastActivity).(timer := Some(0))
    ensures var w := World(now + 1_500, peers, [x, y], map[x.id := 1], map[0 := Timer(0, now)], 1, log);
            && Enabled(w, Fire(0))
            && Do(w, Fire(0)) ==
                 World(now + 1_500, peers, [x.(timer := None), y], map[], map[], 1,
                     log + [TearDown(0, x.id, [], ViewerDisconnect, 0, 0)])
  {
    var w := World(now + 1_500, peers, [x, y], map[x.id := 1], map[0 := Timer(0, now)], 1, log);
    assert w.table - {x.id} == map[];
    assert w.timers - {0} == map[] && w.timers - {0} - {0} == map[];
  }

  /** The states before and after the new session comes up. */
  function Torn(now: int, sid: Text): World {
    World(now, [Peer(Closed, ViewerOf(0), [], [])], [NewSession(sid, [], 0, now - 600_001).(timer := Some(0))],
          map[], map[0 := Timer(0, now)], 1, [TearDown(0, sid, [], IdleTimeout, 0, 0)])
  }

  function Renewed(now: int, sid: Text): World {
    World(now, [Peer(Closed, ViewerOf(0), [], []), Peer(Open, ViewerOf(1), [], [])],
          [NewSession(sid, [], 0, now - 600_001).(timer := Some(0)), Seated(sid, now, 1)],
          map[sid := 1], map[0 := Timer(0, now)], 1, [TearDown(0, sid, [], IdleTimeout, 0, 0)])
  }

  /** A viewer connects, goes idle and is swept; its socket closes after that. */
  lemma {:induction false} FirstHalf(now: int, sid: Text) returns (run: seq<World>, steps: seq<Step>)
    ensures IsRun(run, steps) && run[|steps|] == Torn(now + 600_001, sid)
  {
    hide Join, OnClose, OnTimer, Tick;
    var later := now + 600_001;
    var w1 := World(now, [Peer(Open, Pending, [], [])], [], map[], map[], 0, []);
    ViewerArrives(w1, 0, sid);
    var w2 := World(now, [Peer(Open, ViewerOf(0), [], [])], [Seated(sid, now, 0)], map[sid := 0], map[], 0, []);
    IdleSwept(now, sid);
    var down := [TearDown(0, sid, [], IdleTimeout, 0, 0)];
    var w4 := World(later, [Peer(Closing, ViewerOf(0), [], [])], [Seated(sid, now, 0)], map[], map[], 0, down);
    LateClose(later, sid, down);
    run := [Boot(now), w1, w2, w2.(now := later), w4, Torn(later, sid)];
    steps := [Accept, Authenticate(0, false, sid, [], 0), Elapse(600_001), Sweep(map[]), EndClose(0)];
  }

  /** A new session with the same id comes up, and then the old timer goes off. */
  lemma {:induction false} SecondHalf(now: int, sid: Text) returns (run: seq<World>, steps: seq<Step>)
    ensures |run| == |steps| + 1 && run[0] == Torn(now, sid)
    ensures forall i | 0 <= i < |steps| :: Next(run[i], run[i + 1], steps[i])
    ensures |steps| == 4 && steps[3] == Fire(0)
    ensures run[4] == Renewed(now, sid).(now := now + 1_500, table := map[], timers := map[],
                                         store := [NewSession(sid, [], 0, now - 600_001), Seated(sid, now, 1)],
                                         log := [TearDown(0, sid, [], IdleTimeout, 0, 0),
                                             TearDown(0, sid, [], ViewerDisconnect, 0, 0)])
  {
    hide Join, OnClose, OnTimer, Tick;
    var w0 := Torn(now, sid);
    var w1 := w0.(peers := [Peer(Closed, ViewerOf(0), [], []), Peer(Open, Pending, [], [])]);
    ViewerArrives(w1, 1, sid);
    var w2 := Renewed(now, sid);
    var w3 := w2.(now := now + 1_500);
    LateFire(w3.peers, w0.store[0], Seated(sid, now, 1), now, w0.log);
    run := [w0, w1, w2, w3, Do(w3, Fire(0))];
    steps := [Accept, Authenticate(1, false, sid, [], 0), Elapse(1_500), Fire(0)];
  }

  /**
   * Teardown removes a session from the table by its id. The viewer of a session swept for idleness closes late and
   * starts a grace timer; if a new session with the same id came up meanwhile, the timer unlists that one, while its
   * viewer is connected, and closes its row.
   */
  lemma {:induction false} LateTimer(now: int, sid: Text) returns (run: seq<World>, steps: seq<Step>)
    ensures IsRun(run, steps) && |steps| > 0
    ensures var w := run[|steps|];
            && |w.store| == 2 && w.store[0].id == w.store[1].id == sid
            && Current(w, 1, 1) && w.now - w.store[1].lastActivity <= IDLE_MS
            && sid !in w.table && steps[|steps| - 1] == Fire(0)
            && TearDown(0, sid, [], ViewerDisconnect, 0, 0) in w.log
  {
    hide Next;
    var a, s := FirstHalf(now, sid);
    var b, t := SecondHalf(now + 600_001, sid);
    run, steps := a + b[1..], s + t;
    forall i | 0 <= i < |steps| ensures Next(run[i], run[i + 1], steps[i]) {
      assert run[i] == if i <= |s| then a[i] else b[i - |s|];
      assert run[i + 1] == if i < |s| then a[i + 1] else b[i + 1 - |s|];
    }
    assert run[|steps|] == b[4];
  }

  function WithAgent(sid: Text, now: int): Session { NewSession(sid, [], 0, now).(agent := Some(0)) }

  /** A viewer joins the session of an open agent that has not said anything yet. */
  lemma {:induction false} ViewerFollows(now: int, sid: Text)
    ensures var w := World(now, [Peer(Open, AgentOf(0), [], []), Peer(Open, Pending, [], [])], [WithAgent(sid, now)],
        map[sid := 0], map[], 0, []);
            Join(w, 1, false, sid, [], 0) ==
              World(now, [Peer(Open, AgentOf(0), [], [VIEWER_JOIN]), Peer(Open, ViewerOf(0), [], [])],
                    [WithAgent(sid, now).(viewer := Some(1))], map[sid := 0], map[], 0, [Activate(sid)])
  {
    var w := World(now, [Peer(Open, AgentOf(0), [], []), Peer(Open, Pending, [], [])], [WithAgent(sid, now)],
        map[sid := 0], map[], 0, []);
    var v := ViewerJoin(w, 1, 0);
    assert Enter(w, sid, [], 0) == (w, 0);
    assert v.peers[0].outbox == [VIEWER_JOIN];
    assert v.peers == [Peer(Open, AgentOf(0), [], [VIEWER_JOIN]), Peer(Open, ViewerOf(0), [], [])];
    assert OnMessages(v, 1, []) == v;
  }

  /** A viewer that stopped being open misses a newer config frame. */
  lemma {:induction false} StaleViewer(now: int, sid: Text, p: Packet) returns (run: seq<World>, steps: seq<Step>)
    requires IsConfig(p)
    ensures IsRun(run, steps) && |steps| == 6 && ViewerJoins(steps[3], 1)
    ensures var w := run[6];
            && |w.peers| == 2 && |w.store| == 1 && w.store[0].viewer == Some(1)
            && w.store[0].config == Newest(w.store[0].fromAgents) == Some(p.data) && Newest(w.peers[1].outbox) == None
  {
    hide Join;
    var fresh' := Peer(Open, Pending, [], []);
    var told := Peer(Open, AgentOf(0), [], [VIEWER_JOIN]);
    var w0 := Boot(now);
    var w1 := World(now, [fresh'], [], map[], map[], 0, []);
    AgentArrives(w1, 0, sid);
    var w2 := World(now, [Peer(Open, AgentOf(0), [], [])], [WithAgent(sid, now)], map[sid := 0], map[], 0, []);
    var w3 := w2.(peers := [Peer(Open, AgentOf(0), [], []), fresh']);
    ViewerFollows(now, sid);
    var w4 := World(now, [told, Peer(Open, ViewerOf(0), [], [])], [WithAgent(sid, now).(viewer := Some(1))],
                    map[sid := 0], map[], 0, [Activate(sid)]);
    var w5 := w4.(peers := [told, Peer(Closing, ViewerOf(0), [], [])]);
    var w6 := w5.(store := [HearAgent(WithAgent(sid, now).(viewer := Some(1)), p, now)]);
    run := [w0, w1, w2, w3, w4, w5, w6];
    steps := [Accept, Authenticate(0, true, sid, [], 0), Accept, Authenticate(1, false, sid, [], 0), BeginClose(1),
        Message(0, p)];
    assert Newest([p]) == Some(p.data);
  }
}
