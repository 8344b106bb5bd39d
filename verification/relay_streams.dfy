/** Message streams over whole runs of the relay. */
module RelayStreams {
  import opened Options
  import opened Relay
  import opened RelayState
  import opened RelayRuns

  /** The messages that arrive on socket `k`, in order. */
  function Arrived(steps: seq<Step>, k: nat): seq<Packet> {
    if steps == [] then []
    else Arrived(steps[..|steps| - 1], k) +
         match steps[|steps| - 1]
         case Message(j, p) => if j == k then [p] else []
         case _ => []
  }

  /** What the sockets of a role say to their session in step `n`: one message, or at a join all that arrived before. */
  function Share(run: seq<World>, steps: seq<Step>, n: nat, role: Role): seq<Packet>
    requires n < |steps| < |run|
  {
    match steps[n]
    case Message(k, p) => if k < |run[n].peers| && run[n].peers[k].role == role then [p] else []
    case Authenticate(k, _, _, _, _) =>
      if k < |run[n + 1].peers| && run[n + 1].peers[k].role == role then Arrived(steps[..n], k) else []
    case _ => []
  }

  /** What the sockets of a role say in the first `n` steps. */
  function Said(run: seq<World>, steps: seq<Step>, n: nat, role: Role): seq<Packet>
    requires n <= |steps| < |run|
  {
    if n == 0 then [] else Said(run, steps, n - 1, role) + Share(run, steps, n - 1, role)
  }

  ghost predicate Stashed(w: World, steps: seq<Step>) {
    && (forall k: nat | k < |w.peers| && Unknown(w, k) :: w.peers[k].early == Arrived(steps, k))
    && (forall k: nat | k >= |w.peers| :: Arrived(steps, k) == [])
  }

  ghost predicate Heard(run: seq<World>, steps: seq<Step>, n: nat)
    requires n <= |steps| < |run|
  {
    && (forall s: nat | s < |run[n].store| ::
          && run[n].store[s].fromAgents == Said(run, steps, n, AgentOf(s))
          && run[n].store[s].fromViewers == Said(run, steps, n, ViewerOf(s)))
    && (forall s: nat | s >= |run[n].store| ::
          Said(run, steps, n, AgentOf(s)) == Said(run, steps, n, ViewerOf(s)) == [])
  }

  /** No socket belongs to a session that does not exist. */
  lemma {:induction false} RoleBound(w: World, k: nat)
    requires Inv(w) && k < |w.peers| && !Unknown(w, k)
    ensures w.peers[k].role.session < |w.store|
  {
    assert PeerInv(w, k);
  }

  lemma {:induction false} ArrivedAppend(steps: seq<Step>, st: Step, k: nat)
    ensures Arrived(steps + [st], k) == Arrived(steps, k) + (if st.Message? && st.k == k then [st.p] else [])
  {
    assert (steps + [st])[..|steps|] == steps;
  }

  lemma {:induction false} StashStep(a: World, b: World, st: Step, steps: seq<Step>)
    requires Next(a, b, st) && HandsOver(a, b, st) && Stashed(a, steps)
    ensures Stashed(b, steps + [st])
  {
    hide Handed, Arrived, Do;
    forall k: nat | k < |b.peers| && Unknown(b, k) ensures b.peers[k].early == Arrived(steps + [st], k) {
      ArrivedAppend(steps, st, k);
    }
    forall k: nat | k >= |b.peers| ensures Arrived(steps + [st], k) == [] { ArrivedAppend(steps, st, k); }
  }

  lemma {:induction false} HandedIsShare(run: seq<World>, steps: seq<Step>, n: nat, role: Role)
    requires IsRun(run, steps) && n < |steps| && Stashed(run[n], steps[..n]) && |run[n].peers| <= |run[n + 1].peers|
    ensures Handed(run[n], run[n + 1], steps[n], role) == Share(run, steps, n, role)
  {
    hide Do, Arrived;
    assert Next(run[n], run[n + 1], steps[n]);
  }

  /** Nothing is handed to a session that does not exist. */
  lemma {:induction false} HandedBound(a: World, b: World, st: Step, s: nat)
    requires Inv(a) && Inv(b) && s >= |b.store| && |a.store| <= |b.store|
    ensures Handed(a, b, st, AgentOf(s)) == Handed(a, b, st, ViewerOf(s)) == []
  {
    hide Inv;
    match st
    case Message(k, p) => if k < |a.peers| && !Unknown(a, k) { RoleBound(a, k); }
    case Authenticate(k, _, _, _, _) => if k < |b.peers| && !Unknown(b, k) { RoleBound(b, k); }
    case _ =>
  }

  lemma {:induction false} HeardStep(run: seq<World>, steps: seq<Step>, n: nat)
    requires IsRun(run, steps) && n < |steps| && Inv(run[n]) && Inv(run[n + 1]) && Stashed(run[n], steps[..n])
        && Heard(run, steps, n)
    ensures Heard(run, steps, n + 1)
  {
    hide Inv, Next, Handed, Share, Unknown, Stashed;
    var a, b, st := run[n], run[n + 1], steps[n];
    StepHands(a, b, st);
    forall s: nat
      ensures Said(run, steps, n + 1, AgentOf(s)) == Said(run, steps, n, AgentOf(s)) + Handed(a, b, st, AgentOf(s))
      ensures Said(run, steps, n + 1, ViewerOf(s)) == Said(run, steps, n, ViewerOf(s)) + Handed(a, b, st, ViewerOf(s))
    {
      HandedIsShare(run, steps, n, AgentOf(s));
      HandedIsShare(run, steps, n, ViewerOf(s));
    }
    forall s: nat | s >= |b.store|
      ensures Said(run, steps, n + 1, AgentOf(s)) == Said(run, steps, n + 1, ViewerOf(s)) == []
    {
      HandedBound(a, b, st, s);
    }
  }

  /**
   * In every run a session has handled exactly what its sockets said, in order: nothing that arrives on a joined
   * socket is lost, and the messages stashed before authentication are replayed first, without loss or reordering.
   */
  lemma {:induction false} HandledExactly(run: seq<World>, steps: seq<Step>)
    requires IsRun(run, steps)
    ensures forall n: nat | n < |run| :: Heard(run, steps, n)
  {
    hide Inv, Next, Stashed, Heard;
    InvInRuns(run, steps);
    assert Heard(run, steps, 0) && Stashed(run[0], steps[..0]) by { HeardBoot(run, steps); }
    for n := 0 to |steps|
      invariant forall i: nat | i <= n :: Heard(run, steps, i)
      invariant Stashed(run[n], steps[..n])
    {
      StepHands(run[n], run[n + 1], steps[n]);
      StashStep(run[n], run[n + 1], steps[n], steps[..n]);
      HeardStep(run, steps, n);
      assert steps[..n] + [steps[n]] == steps[..n + 1];
    }
  }

  lemma {:induction false} HeardBoot(run: seq<World>, steps: seq<Step>)
    requires IsRun(run, steps)
    ensures Heard(run, steps, 0) && Stashed(run[0], steps[..0])
  {
  }

  /**
   * The counters of a session are the sums over everything its sockets said, and the cached config is the newest
   * one.
   */
  lemma {:induction false} CountersExact(run: seq<World>, steps: seq<Step>, n: nat, s: nat)
    requires IsRun(run, steps) && n < |run| && s < |run[n].store|
    ensures run[n].store[s].bytesOut == BinaryBytes(Said(run, steps, n, AgentOf(s)))
    ensures run[n].store[s].inputEvents == |Said(run, steps, n, ViewerOf(s))|
    ensures run[n].store[s].config == Newest(Said(run, steps, n, AgentOf(s)))
  {
    hide BinaryBytes, Newest, Said, Next;
    InvInRuns(run, steps);
    HandledExactly(run, steps);
    CountedAt(run[n], s);
    assert Heard(run, steps, n);
  }

  /* ---------- viewer streams ---------- */

  /** In steps `i` to `j` viewer `v` was the current open viewer until `m`, and never from `m` on. */
  ghost predicate Window(run: seq<World>, i: nat, m: nat, j: nat, v: nat, s: nat)
    requires j < |run|
  {
    && i <= m <= j
    && (forall n: nat | i <= n < m :: Current(run[n], v, s))
    && (forall n: nat | m <= n <= j && m < j :: !Current(run[n], v, s))
  }

  /** The packets sent to `v` since state `i`: the session's agent messages handled up to state `m`. */
  ghost predicate Received(run: seq<World>, i: nat, m: nat, j: nat, v: nat, s: nat)
    requires i <= m <= j < |run|
  {
    && IsViewer(run[i], v, s) && IsViewer(run[j], v, s)
    && s < |run[i].store| && s < |run[m].store|
    && run[i].store[s].fromAgents <= run[m].store[s].fromAgents
    && run[j].peers[v].outbox ==
         run[i].peers[v].outbox + RelayAll(run[m].store[s].fromAgents[|run[i].store[s].fromAgents|..])
  }

  lemma {:induction false} WindowExists(run: seq<World>, steps: seq<Step>, i: nat, j: nat, v: nat, s: nat)
      returns (m: nat)
    requires IsRun(run, steps) && i <= j < |run| && IsViewer(run[i], v, s) && s < |run[i].store|
    ensures Window(run, i, m, j, v, s) && Received(run, i, m, j, v, s)
  {
    hide Inv, Next;
    if i == j {
      m := i;
      assert RelayAll(run[m].store[s].fromAgents[|run[i].store[s].fromAgents|..]) == [];
    } else {
      m := WindowExists(run, steps, i, j - 1, v, s);
      InvInRuns(run, steps);
      StepKeeps(run[j - 1], run[j], steps[j - 1]);
      StoreGrows(run, steps, i, j - 1, s);
      assert Streams(run[j - 1], run[j], v, s);
      if Current(run[j - 1], v, s) {
        assert m == j - 1;
        m := j;
        var f, g, h := run[i].store[s].fromAgents, run[j - 1].store[s].fromAgents, run[j].store[s].fromAgents;
        RelayAppend(g[|f|..], h[|g|..]);
        assert g[|f|..] + h[|g|..] == h[|f|..];
      }
    }
  }

  lemma {:induction false} StoreGrows(run: seq<World>, steps: seq<Step>, i: nat, j: nat, s: nat)
    requires IsRun(run, steps) && i <= j < |run| && s < |run[i].store|
    ensures s < |run[j].store|
  {
    hide Inv, Next;
    if i < j {
      StoreGrows(run, steps, i, j - 1, s);
      InvInRuns(run, steps);
      StepHands(run[j - 1], run[j], steps[j - 1]);
    }
  }

  ghost predicate ViewerJoins(st: Step, v: nat) { st.Authenticate? && !st.agent && st.k == v }

  /**
   * Right after its join a viewer is its session's current one, and holds the newest config frame said so far, if
   * it is open.
   */
  lemma {:induction false} JoinStart(a: World, b: World, st: Step, v: nat) returns (s: nat)
    requires Inv(a) && Next(a, b, st) && ViewerJoins(st, v)
    ensures IsViewer(b, v, s) && s < |b.store| && b.store[s].viewer == Some(v)
    ensures b.peers[v].outbox == if IsOpen(b, Some(v)) then Greeting(Newest(b.store[s].fromAgents)) else []
  {
    hide Inv, Enter, ViewerJoin, OnMessages, Newest, RelayAll, Greeting;
    var u, early := Enter(a, st.sid, st.did, st.uid).0, a.peers[v].early;
    s := Enter(a, st.sid, st.did, st.uid).1;
    EnterKeeps(a, st.sid, st.did, st.uid);
    CountedAt(u, s);
    var x := ViewerJoin(u, v, s);
    ViewerJoinKeeps(u, v, s);
    MessagesKeep(x, v, early);
    assert b.store[s].fromAgents == x.store[s].fromAgents == u.store[s].fromAgents;
    assert b.peers[v].outbox == x.peers[v].outbox;
  }

  /**
   * The stream of a viewer that joined in step `i`, whatever happened up to state `j`: the config frame cached at
   * its join, then exactly the messages the session's agents said while it was the current open viewer (up to state
   * `m`), each once, in order and with its binary flag. A socket that was already closed gets nothing.
   */
  lemma {:induction false} ViewerStream(run: seq<World>, steps: seq<Step>, i: nat, j: nat, v: nat)
      returns (s: nat, m: nat)
    requires IsRun(run, steps) && i < j < |run| && ViewerJoins(steps[i], v)
    ensures IsViewer(run[i + 1], v, s) && Window(run, i + 1, m, j, v, s) && Received(run, i + 1, m, j, v, s)
    ensures var before := run[i + 1].store[s].fromAgents;
            var open := IsOpen(run[i + 1], Some(v));
            && (open ==> Current(run[i + 1], v, s))
            && run[j].peers[v].outbox ==
                 if open then Greeting(Newest(before)) + RelayAll(run[m].store[s].fromAgents[|before|..]) else []
  {
    hide Inv, Next, Newest;
    InvInRuns(run, steps);
    s := JoinStart(run[i], run[i + 1], steps[i], v);
    m := WindowExists(run, steps, i + 1, j, v, s);
    if !IsOpen(run[i + 1], Some(v)) {
      assert m == i + 1;
      assert RelayAll([]) == [];
    }
  }

  lemma {:induction false} NewestAppend(a: seq<Packet>, b: seq<Packet>)
    ensures Newest(a + b) == if Newest(b).Some? then Newest(b) else Newest(a)
  {
    if b == [] {
      assert a + b == a;
    } else {
      assert (a + b)[..|a + b| - 1] == a + b[..|b| - 1];
      NewestAppend(a, b[..|b| - 1]);
    }
  }

  lemma {:induction false} NewestRelayed(a: seq<Packet>)
    ensures Newest(RelayAll(a)) == Newest(a)
  {
    if a != [] {
      NewestRelayed(a[..|a| - 1]);
      assert RelayAll(a)[..|a| - 1] == RelayAll(a[..|a| - 1]);
    }
  }

  lemma {:induction false} NewestGreeting(ps: seq<Packet>)
    ensures Newest(Greeting(Newest(ps))) == Newest(ps)
  {
    NewestIsConfig(ps);
    if Newest(ps).Some? { assert Greeting(Newest(ps))[..0] == []; }
  }

  lemma {:induction false} NewestIsConfig(ps: seq<Packet>)
    ensures Newest(ps).Some? ==> IsConfig(Packet(Newest(ps).value, true))
  {
    if ps != [] { NewestIsConfig(ps[..|ps| - 1]); }
  }

  /**
   * The last config frame in the outbox of a viewer that joined open is the newest one the session's agents had said
   * when it stopped being the current open viewer. So it is the newest one of all for the viewer that still is
   * current, and for any other exactly if the newest config has not changed since.
   */
  lemma {:induction false} NewestConfig(run: seq<World>, steps: seq<Step>, i: nat, j: nat, v: nat)
      returns (s: nat, m: nat)
    requires IsRun(run, steps) && i < j < |run| && ViewerJoins(steps[i], v) && IsOpen(run[i + 1], Some(v))
    ensures IsViewer(run[i + 1], v, s) && Window(run, i + 1, m, j, v, s) && s < |run[m].store| && s < |run[j].store|
    ensures IsViewer(run[j], v, s)
    ensures Newest(run[j].peers[v].outbox) == Newest(run[m].store[s].fromAgents)
    ensures Current(run[j], v, s) ==> Newest(run[j].peers[v].outbox) == Newest(run[j].store[s].fromAgents)
    ensures Newest(run[j].peers[v].outbox) == Newest(run[j].store[s].fromAgents) <==>
            Newest(run[m].store[s].fromAgents) == Newest(run[j].store[s].fromAgents)
  {
    hide IsRun, Newest, RelayAll, Greeting, IsOpen;
    s, m := ViewerStream(run, steps, i, j, v);
    StoreGrows(run, steps, i + 1, j, s);
    NewestOfStream(run[i + 1].store[s].fromAgents, run[m].store[s].fromAgents);
  }

  lemma {:induction false} NewestOfStream(f: seq<Packet>, g: seq<Packet>)
    requires f <= g
    ensures Newest(Greeting(Newest(f)) + RelayAll(g[|f|..])) == Newest(g)
  {
    hide Newest, Greeting, RelayAll;
    NewestGreeting(f);
    NewestRelayed(g[|f|..]);
    NewestAppend(Greeting(Newest(f)), RelayAll(g[|f|..]));
    NewestAppend(f, g[|f|..]);
    assert f + g[|f|..] == g;
  }

  /** Whenever a session has an open agent and an open viewer, that agent has been told that a viewer is there. */
  lemma {:induction false} AgentTold(run: seq<World>, steps: seq<Step>, n: nat, s: nat)
    requires IsRun(run, steps) && n < |run| && s < |run[n].store|
    requires IsOpen(run[n], run[n].store[s].agent) && IsOpen(run[n], run[n].store[s].viewer)
    ensures VIEWER_JOIN in run[n].peers[run[n].store[s].agent.value].outbox
  {
    hide Next;
    InvInRuns(run, steps);
    assert SessionInv(run[n], s);
  }
}
