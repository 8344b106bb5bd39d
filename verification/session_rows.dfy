/** The life of a row of `sessions`, written by the API and by the relay. */
module SessionRows {
  import opened Options

  datatype RowState = Probing | Starting | Active | Closed | Failed

  datatype Row = Row(
    state: RowState,
    relayNode: nat,
    connectedAt: Option<int>,
    endedAt: Option<int>,
    failReason: Option<nat>,
    bytesOut: nat,
    inputEvents: nat)

  /** `relay_node` is 'pending' until a node is picked. */
  const PENDING: nat := 0
  const UNREACHABLE: nat := 0

  // One function per SQL statement; each applies to the row with the given id, if its guard holds.

  function NewRow(): Row { Row(Probing, PENDING, None, None, None, 0, 0) }

  function SetStarting(r: Row, node: nat): Row { r.(state := Starting, relayNode := node) }

  function SetFailed(r: Row, now: int): Row {
    r.(state := Failed, failReason := Some(UNREACHABLE), endedAt := Some(now))
  }

  function MarkActive(r: Row, now: int): Row {
    if r.state.Probing? || r.state.Starting?
    then r.(state := Active, connectedAt := if r.connectedAt.Some? then r.connectedAt else Some(now))
    else r
  }

  function RelayClose(r: Row, now: int, reason: nat, bytesOut: nat, inputEvents: nat): Row {
    if r.state.Probing? || r.state.Starting? || r.state.Active?
    then r.(state := Closed, endedAt := Some(now), failReason := Some(reason), bytesOut := bytesOut,
        inputEvents := inputEvents)
    else r
  }

  function ApiClose(r: Row, now: int): Row {
    if r.state != Closed then r.(state := Closed, endedAt := Some(now)) else r
  }

  /** How far the one `start` call of this row has come. */
  datatype StartPc = BeforeInsert | Probed | Marked | Returned

  datatype Sys = Sys(row: Option<Row>, start: StartPc)

  datatype Step =
    | Insert
    | StartMarks(node: nat)
    | StartFails(now: int)
    | StartReturns
    | RelayJoin(now: int)
    | RelayTeardown(now: int, reason: nat, bytesOut: nat, inputEvents: nat)
    | Close(now: int)

  function OnRow(a: Sys, f: Row -> Row): Sys { if a.row.Some? then a.(row := Some(f(a.row.value))) else a }

  ghost predicate Enabled(a: Sys, st: Step) {
    match st
    case Insert => a.start == BeforeInsert
    case StartMarks(_) => a.start == Probed
    case StartFails(_) => a.start == Probed
    case StartReturns => a.start == Marked
    case _ => true
  }

  function Do(a: Sys, st: Step): Sys {
    match st
    case Insert => Sys(Some(NewRow()), Probed)
    case StartMarks(node) => OnRow(a, r => SetStarting(r, node)).(start := Marked)
    case StartFails(now) => OnRow(a, r => SetFailed(r, now)).(start := Returned)
    case StartReturns => a.(start := Returned)
    case RelayJoin(now) => OnRow(a, r => MarkActive(r, now))
    case RelayTeardown(now, reason, b, i) => OnRow(a, r => RelayClose(r, now, reason, b, i))
    case Close(now) => OnRow(a, r => ApiClose(r, now))
  }

  ghost predicate Next(a: Sys, b: Sys, st: Step) { Enabled(a, st) && b == Do(a, st) }

  ghost predicate IsRun(run: seq<Sys>, steps: seq<Step>) {
    && |run| == |steps| + 1
    && forall i | 0 <= i < |steps| :: Next(run[i], run[i + 1], steps[i])
  }

  /** `b` can follow `a`: a started row goes to active and then to closed, a failed one only to closed. */
  predicate Forward(a: RowState, b: RowState) {
    match a
    case Probing => true
    case Starting => !b.Probing? && !b.Failed?
    case Active => b.Active? || b.Closed?
    case Failed => b.Failed? || b.Closed?
    case Closed => b.Closed?
  }

  /** What a later row may still change. */
  ghost predicate Follows(a: Row, b: Row) {
    && Forward(a.state, b.state)
    && (a.state.Closed? ==> b == a)
    && (a.connectedAt.Some? ==> b.connectedAt == a.connectedAt)
  }

  lemma {:induction false} StepForward(a: Sys, b: Sys, st: Step)
    requires a.row.Some? && a.start == Returned && Next(a, b, st)
    ensures b.row.Some? && b.start == Returned && Follows(a.row.value, b.row.value)
  {
  }

  lemma {:induction false} FollowsTransitive(a: Row, b: Row, c: Row)
    requires Follows(a, b) && Follows(b, c)
    ensures Follows(a, c)
  {
  }

  /**
   * Once `start` has returned, in every interleaving of relay joins, repeated relay teardowns and API closes a row
   * only moves forward, a closed row is frozen, and `connected_at`, once written, stays.
   */
  lemma {:induction false} RowsMoveForward(run: seq<Sys>, steps: seq<Step>, i: nat, j: nat)
    requires IsRun(run, steps) && i <= j < |run|
    requires run[i].row.Some? && run[i].start == Returned
    ensures run[j].row.Some? && run[j].start == Returned && Follows(run[i].row.value, run[j].row.value)
    decreases j - i
  {
    hide Next, Follows;
    if i == j {
      FollowsReflexive(run[i].row.value);
    } else {
      RowsMoveForward(run, steps, i, j - 1);
      StepForward(run[j - 1], run[j], steps[j - 1]);
      FollowsTransitive(run[i].row.value, run[j - 1].row.value, run[j].row.value);
    }
  }

  lemma {:induction false} FollowsReflexive(a: Row)
    ensures Follows(a, a)
  {
  }

  /** In any run, `start` still under way or not, `connected_at` is written at most once. */
  lemma {:induction false} ConnectedOnce(run: seq<Sys>, steps: seq<Step>, i: nat, j: nat)
    requires IsRun(run, steps) && i <= j < |run|
    requires run[i].row.Some? && run[i].start != BeforeInsert && run[i].row.value.connectedAt.Some?
    ensures run[j].row.Some? && run[j].start != BeforeInsert
    ensures run[j].row.value.connectedAt == run[i].row.value.connectedAt
    decreases j - i
  {
    if i < j {
      ConnectedOnce(run, steps, i, j - 1);
      assert Next(run[j - 1], run[j], steps[j - 1]);
    }
  }

  /** A closed row changes only through `start` itself, whose two updates have no guard. */
  lemma {:induction false} ClosedChangesOnlyByStart(a: Sys, b: Sys, st: Step)
    requires a.row.Some? && a.row.value.state == Closed && a.start != BeforeInsert && Next(a, b, st)
    ensures b.row != a.row <==> st.StartMarks? || st.StartFails?
    ensures b.row != a.row ==> a.start == Probed && b.row.value.state != Closed
  {
  }

  /** A close that overtakes `start` is undone: the row is closed, then starting again with an end time. */
  lemma {:induction false} CloseDuringStart(now: int, node: nat)
    ensures var run := [Sys(None, BeforeInsert), Sys(Some(NewRow()), Probed),
                        Sys(Some(ApiClose(NewRow(), now)), Probed),
                        Sys(Some(SetStarting(ApiClose(NewRow(), now), node)), Marked)];
            && IsRun(run, [Insert, Close(now), StartMarks(node)])
            && run[2].row.value.state == Closed && run[3].row.value.state == Starting
                && run[3].row.value.endedAt == Some(now)
  {
  }

  /* ---------- what a row says about its past ---------- */

  /** A join finds the row started and not yet active. */
  ghost predicate Activates(a: Sys, st: Step) {
    st.RelayJoin? && a.row.Some? && (a.row.value.state.Probing? || a.row.value.state.Starting?)
  }

  /** A relay teardown finds the row open. */
  ghost predicate TearsDown(a: Sys, st: Step) {
    && st.RelayTeardown? && a.row.Some?
    && (a.row.value.state.Probing? || a.row.value.state.Starting? || a.row.value.state.Active?)
  }

  /** A step writes the end time. */
  ghost predicate Ends(a: Sys, st: Step) {
    TearsDown(a, st) || st.StartFails? || (st.Close? && a.row.Some? && !a.row.value.state.Closed?)
  }

  ghost predicate FromNothing(run: seq<Sys>, steps: seq<Step>) {
    IsRun(run, steps) && run[0] == Sys(None, BeforeInsert)
  }

  lemma {:induction false} RowThere(run: seq<Sys>, steps: seq<Step>, n: nat)
    requires FromNothing(run, steps) && n < |run|
    ensures run[n].row.Some? <==> run[n].start != BeforeInsert
  {
    if n > 0 {
      RowThere(run, steps, n - 1);
      assert Next(run[n - 1], run[n], steps[n - 1]);
    }
  }

  /** A join that finds the row probing or starting leaves it active; no other join changes it. */
  lemma {:induction false} JoinActivates(a: Sys, b: Sys, st: Step)
    requires Next(a, b, st) && st.RelayJoin? && a.row.Some?
    ensures b.row.Some? && (Activates(a, st) ==> b.row.value.state == Active && b.row.value.connectedAt.Some?)
    ensures !Activates(a, st) ==> b == a
  {
  }

  /**
   * In every run the row has a connection time if and only if some join found it probing or starting, and it is the
   * time of the first such join.
   */
  lemma {:induction false} ConnectedIff(run: seq<Sys>, steps: seq<Step>, n: nat)
    requires FromNothing(run, steps) && n < |run| && run[n].row.Some?
    ensures run[n].row.value.connectedAt.Some? <==> exists i: nat :: i < n && Activates(run[i], steps[i])
    ensures forall i: nat | i < n && Activates(run[i], steps[i]) &&
                            (forall j: nat | j < i :: !Activates(run[j], steps[j])) ::
              run[n].row.value.connectedAt == Some(steps[i].now)
  {
    if n > 0 {
      RowThere(run, steps, n - 1);
      assert Next(run[n - 1], run[n], steps[n - 1]);
      if run[n - 1].row.Some? {
        ConnectedIff(run, steps, n - 1);
      } else {
        NothingBefore(run, steps, n);
      }
    }
  }

  lemma {:induction false} NothingBefore(run: seq<Sys>, steps: seq<Step>, n: nat)
    requires FromNothing(run, steps) && 0 < n < |run| && run[n - 1].row.None?
    ensures forall i: nat | i < n :: run[i].row.None?
  {
    if n > 1 {
      RowThere(run, steps, n - 1);
      RowThere(run, steps, n - 2);
      assert Next(run[n - 2], run[n - 1], steps[n - 2]);
      NothingBefore(run, steps, n - 1);
    }
  }

  /** In the first `n` steps no step after `i` ends the row. */
  ghost predicate NoEndAfter(run: seq<Sys>, steps: seq<Step>, i: nat, n: nat)
    requires n <= |steps| < |run|
  {
    forall j: nat | i < j < n :: !Ends(run[j], steps[j])
  }

  /** The end time is that of the last step that ended the row; a row that none ended has none. */
  lemma {:induction false} EndedIff(run: seq<Sys>, steps: seq<Step>, n: nat)
    requires FromNothing(run, steps) && n < |run| && run[n].row.Some?
    ensures run[n].row.value.endedAt.Some? <==> exists i: nat :: i < n && Ends(run[i], steps[i])
    ensures forall i: nat | i < n && Ends(run[i], steps[i]) && NoEndAfter(run, steps, i, n) ::
              run[n].row.value.endedAt == Some(steps[i].now)
  {
    if n > 0 {
      RowThere(run, steps, n - 1);
      assert Next(run[n - 1], run[n], steps[n - 1]);
      if run[n - 1].row.Some? {
        EndedIff(run, steps, n - 1);
        forall i: nat | i < n && Ends(run[i], steps[i]) && NoEndAfter(run, steps, i, n)
          ensures run[n].row.value.endedAt == Some(steps[i].now)
        {
          if i < n - 1 { assert NoEndAfter(run, steps, i, n - 1); }
        }
      } else {
        NothingBefore(run, steps, n);
        EarlyEnds(run, steps, n);
      }
    }
  }

  /** Before the row is there no step ends it. */
  lemma {:induction false} EarlyEnds(run: seq<Sys>, steps: seq<Step>, n: nat)
    requires FromNothing(run, steps) && 0 < n < |run| && run[n - 1].row.None?
    ensures forall i: nat | i < n :: !Ends(run[i], steps[i])
  {
    NothingBefore(run, steps, n);
    forall i: nat | i < n ensures !Ends(run[i], steps[i]) {
      RowThere(run, steps, i);
      assert Next(run[i], run[i + 1], steps[i]);
    }
  }

  /** In the first `n` steps no relay teardown after `i` finds the row open. */
  ghost predicate NoTeardownAfter(run: seq<Sys>, steps: seq<Step>, i: nat, n: nat)
    requires n <= |steps| < |run|
  {
    forall j: nat | i < j < n :: !TearsDown(run[j], steps[j])
  }

  /** The counters are those of the last relay teardown that found the row open, and 0 without one. */
  lemma {:induction false} CountersIff(run: seq<Sys>, steps: seq<Step>, n: nat)
    requires FromNothing(run, steps) && n < |run| && run[n].row.Some?
    ensures (forall i: nat | i < n :: !TearsDown(run[i], steps[i])) ==>
              run[n].row.value.bytesOut == run[n].row.value.inputEvents == 0
    ensures forall i: nat | i < n && TearsDown(run[i], steps[i]) && NoTeardownAfter(run, steps, i, n) ::
              && run[n].row.value.bytesOut == steps[i].bytesOut
              && run[n].row.value.inputEvents == steps[i].inputEvents
  {
    if n > 0 {
      RowThere(run, steps, n - 1);
      assert Next(run[n - 1], run[n], steps[n - 1]);
      if run[n - 1].row.Some? {
        CountersIff(run, steps, n - 1);
        forall i: nat | i < n && TearsDown(run[i], steps[i]) && NoTeardownAfter(run, steps, i, n)
          ensures run[n].row.value.bytesOut == steps[i].bytesOut
          ensures run[n].row.value.inputEvents == steps[i].inputEvents
        {
          if i < n - 1 { assert NoTeardownAfter(run, steps, i, n - 1); }
        }
      } else {
        NothingBefore(run, steps, n);
      }
    }
  }

  /**
   * What one step makes of a row: only the two updates of `start` are unguarded, a join activates, a teardown or a
   * close leaves it closed with its reason, and a failed start leaves it failed as unreachable.
   */
  lemma {:induction false} StepStates(a: Sys, b: Sys, st: Step)
    requires Next(a, b, st) && a.row.Some? && a.start != BeforeInsert
    ensures b.row.Some? && b.row.value.state ==
              if Activates(a, st) then Active
              else if st.StartFails? then Failed
              else if Ends(a, st) then Closed
              else if st.StartMarks? then Starting
              else a.row.value.state
    ensures b.row.value.failReason ==
              if st.StartFails? then Some(UNREACHABLE)
              else if TearsDown(a, st) then Some(st.reason)
              else a.row.value.failReason
    ensures b.row.value.relayNode == if st.StartMarks? then st.node else a.row.value.relayNode
  {
  }
}
