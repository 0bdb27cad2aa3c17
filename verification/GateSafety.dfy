/** Safety of the approval gate over every interleaving of decisions, sweeps, executions, crashes
    and reconciliation. */
module GateSafety {
  import opened Common
  import opened GateModel

  ghost predicate StartedIn(starts: seq<(ProposalId, Status)>, id: ProposalId) {
    exists k :: 0 <= k < |starts| && starts[k].0 == id
  }

  predicate RunStatus(s: Status) {
    s == Confirmed || s == Executed || s == Failed
  }

  /** Whoever executes holds a confirmed proposal, and nobody executes while not serving. */
  ghost predicate ExecutorsHold(g: Gate)
    requires WellFormed(g)
  {
    && (forall id :: id in g.executors ==> g.rows[id].status == Confirmed)
    && (!g.serving ==> g.executors == map[])
  }

  ghost predicate StartsAreSound(g: Gate)
    requires WellFormed(g)
  {
    && (forall k :: 0 <= k < |g.starts| ==>
          g.starts[k].1 == Confirmed && g.starts[k].0 in g.rows && RunStatus(g.rows[g.starts[k].0].status))
    && (forall i, j :: 0 <= i < j < |g.starts| ==> g.starts[i].0 != g.starts[j].0)
  }

  ghost predicate PhasesMatchStarts(g: Gate)
    requires WellFormed(g)
  {
    && (forall id :: id in g.executors ==> (g.executors[id] == Running <==> StartedIn(g.starts, id)))
    && (forall id :: id in g.rows && g.rows[id].status == Executed ==> StartedIn(g.starts, id))
  }

  predicate LegalMove(m: Move) {
    match m.mover
    case Decider(_, targetGone) =>
      m.source == Pending && if targetGone then m.target == Failed else m.target == Confirmed || m.target == Rejected
    case Sweeper => m.source == Pending && m.target == Expired
    case Executor => m.source == Confirmed && (m.target == Executed || m.target == Failed)
    case Recovery => m.source == Confirmed && m.target == Failed
  }

  /** The status that the recorded moves of a proposal lead to from pending. */
  function StatusAfter(moves: seq<Move>, id: ProposalId): Status {
    if moves == [] then Pending
    else
      var last := moves[|moves| - 1];
      if last.id == id then last.target else StatusAfter(moves[..|moves| - 1], id)
  }

  ghost predicate MovesAreLegal(g: Gate) {
    forall k :: 0 <= k < |g.moves| ==>
      LegalMove(g.moves[k]) && g.moves[k].id in g.rows && g.moves[k].source == StatusAfter(g.moves[..k], g.moves[k].id)
  }

  ghost predicate StatusIsReplay(g: Gate) {
    forall id :: id in g.rows ==> g.rows[id].status == StatusAfter(g.moves, id)
  }

  ghost predicate Inv(g: Gate) {
    && WellFormed(g) && ExecutorsHold(g) && StartsAreSound(g) && PhasesMatchStarts(g)
    && MovesAreLegal(g) && StatusIsReplay(g)
  }

  /** One recorded legal move of one row, and nothing else about the rows. */
  ghost predicate OneMove(g: Gate, z: Gate) {
    && |z.moves| == |g.moves| + 1 && z.moves[..|g.moves|] == g.moves && z.rows.Keys == g.rows.Keys
    && var m := z.moves[|g.moves|];
    && LegalMove(m) && m.id in g.rows && m.source == g.rows[m.id].status && z.rows[m.id].status == m.target
    && forall id :: id in g.rows && id != m.id ==> z.rows[id] == g.rows[id]
  }

  ghost predicate NoMove(g: Gate, z: Gate) {
    z.moves == g.moves && forall id :: id in g.rows ==> id in z.rows && z.rows[id] == g.rows[id]
  }

  lemma TransitionMoves(g: Gate, id: ProposalId, source: Status, target: Status, mover: Mover)
    requires id in g.rows && LegalMove(Move(id, source, target, mover))
    ensures var z := Transition(g, id, source, target, mover); NoMove(g, z) || OneMove(g, z)
  {
  }

  lemma DecisionMoves(g: Gate, a: Step, z: Gate)
    requires Next(g, a, z) && (a.Confirm? || a.Reject? || a.Expire? || a.Reconcile?)
    ensures NoMove(g, z) || OneMove(g, z)
  {
    match a
    case Confirm(id, actor, targetOk) =>
      TransitionMoves(g, id, Pending, if targetOk then Confirmed else Failed, Decider(actor, !targetOk));
    case Reject(id, actor) => TransitionMoves(g, id, Pending, Rejected, Decider(actor, false));
    case Expire(id, _) => TransitionMoves(g, id, Pending, Expired, Sweeper);
    case Reconcile(id) => TransitionMoves(g, id, Confirmed, Failed, Recovery);
  }

  lemma ExecutionMoves(g: Gate, a: Step, z: Gate)
    requires Next(g, a, z) && ExecutorsHold(g) && (a.Start? || a.Finish?)
    ensures NoMove(g, z) || OneMove(g, z)
  {
  }

  lemma OthersMoveNothing(g: Gate, a: Step, z: Gate)
    requires Next(g, a, z) && (a.Propose? || a.Abandon? || a.Crash? || a.Serve?)
    ensures NoMove(g, z)
    ensures forall id :: id in z.rows && id !in g.rows ==>
              a.Propose? && a.id == id && z.rows[id] == Proposal(Pending, a.now, a.ttl, None)
  {
  }

  /** What a step does to the rows: nothing, create one, or one recorded legal move. */
  lemma StepFrame(g: Gate, a: Step, z: Gate)
    requires Next(g, a, z) && ExecutorsHold(g)
    ensures NoMove(g, z) || OneMove(g, z)
    ensures forall id :: id in z.rows && id !in g.rows ==>
              a.Propose? && a.id == id && z.rows[id].status == Pending && z.moves == g.moves
  {
    if a.Confirm? || a.Reject? || a.Expire? || a.Reconcile? {
      DecisionMoves(g, a, z);
      TableFrame(g, a, z);
    } else if a.Start? || a.Finish? {
      ExecutionMoves(g, a, z);
      TableFrame(g, a, z);
    } else {
      OthersMoveNothing(g, a, z);
    }
  }

  /** What a step can do to one row: nothing, create it, or one recorded legal move. */
  lemma RowFrame(g: Gate, a: Step, z: Gate, id: ProposalId)
    requires Next(g, a, z) && ExecutorsHold(g)
    ensures id in g.rows ==> id in z.rows
    ensures id in z.rows && id !in g.rows ==>
              a.Propose? && a.id == id && z.rows[id].status == Pending && z.moves == g.moves
    ensures id in g.rows && z.rows[id] != g.rows[id] ==>
              && |z.moves| == |g.moves| + 1
              && z.moves[..|g.moves|] == g.moves
              && z.moves[|g.moves|].id == id && z.moves[|g.moves|].source == g.rows[id].status
              && z.moves[|g.moves|].target == z.rows[id].status
              && LegalMove(z.moves[|g.moves|])
  {
    StepFrame(g, a, z);
  }

  /** Who makes the move of a step. */
  lemma MoveByWhom(g: Gate, a: Step, z: Gate)
    requires Next(g, a, z) && z.moves != g.moves
    ensures |z.moves| == |g.moves| + 1 && z.moves[..|g.moves|] == g.moves
    ensures match z.moves[|g.moves|].mover
            case Decider(actor, _) =>
              (a.Confirm? || a.Reject?) && a.actor == actor && (z.moves[|g.moves|].target == Confirmed ==> a.Confirm?)
            case Sweeper => a.Expire?
            case Executor => a.Start? || a.Finish?
            case Recovery => a.Reconcile?
  {
    if a.Confirm? || a.Reject? { DeciderMoves(g, a, z); }
  }

  lemma DeciderMoves(g: Gate, a: Step, z: Gate)
    requires Next(g, a, z) && z.moves != g.moves && (a.Confirm? || a.Reject?)
    ensures |z.moves| == |g.moves| + 1 && z.moves[..|g.moves|] == g.moves
    ensures var m := z.moves[|g.moves|];
            m.mover.Decider? && m.mover.actor == a.actor && (m.target == Confirmed ==> a.Confirm?)
  {
  }

  lemma MovesFrame(g: Gate, a: Step, z: Gate)
    requires Next(g, a, z) && ExecutorsHold(g)
    ensures forall id :: id in g.rows ==> id in z.rows
    ensures z.moves == g.moves ||
            (&& |z.moves| == |g.moves| + 1 && z.moves[..|g.moves|] == g.moves
             && z.moves[|g.moves|].id in g.rows && z.moves[|g.moves|].id in z.rows
             && z.moves[|g.moves|].source == g.rows[z.moves[|g.moves|].id].status
             && z.rows[z.moves[|g.moves|].id].status == z.moves[|g.moves|].target
             && LegalMove(z.moves[|g.moves|]))
  {
    StepFrame(g, a, z);
  }

  /** A handler starts only for a confirmed proposal held by an executor that had not started it. */
  lemma StartsFrame(g: Gate, a: Step, z: Gate)
    requires Next(g, a, z)
    ensures z.starts == g.starts ||
            (&& a.Start? && a.id in g.executors && g.executors[a.id] == Won && g.rows[a.id].status == Confirmed
             && z.starts == g.starts + [(a.id, Confirmed)] && z.executors == g.executors[a.id := Running])
  {
  }

  lemma ExecutorFrame(g: Gate, a: Step, z: Gate, id: ProposalId)
    requires Next(g, a, z) && id in z.executors
    ensures (id in g.executors && z.executors[id] == g.executors[id]) ||
            (a.Confirm? && a.id == id && id in g.rows && g.rows[id].status == Pending && z.executors[id] == Won) ||
            (a.Start? && a.id == id && z.executors[id] == Running && z.starts != g.starts)
  {
  }

  /** A row that has an executor before and after the step is not moved by it. */
  lemma HeldRowStays(g: Gate, a: Step, z: Gate, id: ProposalId)
    requires WellFormed(g) && ExecutorsHold(g) && Next(g, a, z) && id in g.executors && id in z.executors
    ensures id in z.rows && z.rows[id].status == Confirmed
  {
  }

  lemma NewExecutorHolds(g: Gate, a: Step, z: Gate, id: ProposalId)
    requires WellFormed(g) && Next(g, a, z) && id !in g.executors && id in z.executors
    ensures id in z.rows && z.rows[id].status == Confirmed && a.Confirm?
  {
  }

  lemma ServingFrame(g: Gate, a: Step, z: Gate)
    requires WellFormed(g) && ExecutorsHold(g) && Next(g, a, z)
    ensures z.serving == if a.Crash? then false else if a.Serve? then true else g.serving
    ensures a.Crash? ==> z.executors == map[]
    ensures !g.serving && g.executors == map[] ==> z.executors == map[]
  {
  }

  lemma ExecutorsStep(g: Gate, a: Step, z: Gate)
    requires Inv(g) && Next(g, a, z)
    ensures WellFormed(z) && ExecutorsHold(z)
  {
    NextKeepsWellFormed(g, a, z);
    ServingFrame(g, a, z);
    forall id | id in z.executors ensures z.rows[id].status == Confirmed {
      if id in g.executors { HeldRowStays(g, a, z, id); } else { NewExecutorHolds(g, a, z, id); }
    }
  }

  lemma StartsStep(g: Gate, a: Step, z: Gate)
    requires Inv(g) && Next(g, a, z) && WellFormed(z)
    ensures StartsAreSound(z)
  {
    StartsOnce(g, a, z);
    forall k | 0 <= k < |z.starts|
      ensures z.starts[k].1 == Confirmed && z.starts[k].0 in z.rows && RunStatus(z.rows[z.starts[k].0].status)
    {
      StartIsSound(g, a, z, k);
    }
  }

  lemma StartsOnce(g: Gate, a: Step, z: Gate)
    requires Inv(g) && Next(g, a, z)
    ensures forall i, j :: 0 <= i < j < |z.starts| ==> z.starts[i].0 != z.starts[j].0
  {
    StartsFrame(g, a, z);
    if z.starts != g.starts { assert !StartedIn(g.starts, a.id); }
  }

  lemma StartIsSound(g: Gate, a: Step, z: Gate, k: nat)
    requires Inv(g) && Next(g, a, z) && k < |z.starts|
    ensures z.starts[k].1 == Confirmed && z.starts[k].0 in z.rows && RunStatus(z.rows[z.starts[k].0].status)
  {
    StartsFrame(g, a, z);
    RunStatusStays(g, a, z, z.starts[k].0);
  }

  lemma RunStatusStays(g: Gate, a: Step, z: Gate, id: ProposalId)
    requires Next(g, a, z) && ExecutorsHold(g) && id in g.rows && RunStatus(g.rows[id].status)
    ensures id in z.rows && RunStatus(z.rows[id].status)
  {
    RowFrame(g, a, z, id);
  }

  lemma StartedAppend(starts: seq<(ProposalId, Status)>, e: (ProposalId, Status), id: ProposalId)
    ensures StartedIn(starts + [e], id) <==> StartedIn(starts, id) || e.0 == id
  {
    if StartedIn(starts, id) {
      var k :| 0 <= k < |starts| && starts[k].0 == id;
      assert (starts + [e])[k].0 == id;
    }
    assert (starts + [e])[|starts|] == e;
  }

  lemma StartedGrows(g: Gate, a: Step, z: Gate, id: ProposalId)
    requires Next(g, a, z)
    ensures StartedIn(z.starts, id) <==> StartedIn(g.starts, id) || (z.starts != g.starts && a.Start? && a.id == id)
  {
    StartsFrame(g, a, z);
    if z.starts != g.starts { StartedAppend(g.starts, (a.id, Confirmed), id); }
  }

  lemma PhasesStep(g: Gate, a: Step, z: Gate)
    requires Inv(g) && Next(g, a, z) && WellFormed(z)
    ensures PhasesMatchStarts(z)
  {
    forall id | id in z.executors ensures z.executors[id] == Running <==> StartedIn(z.starts, id) {
      PhaseStep(g, a, z, id);
    }
    forall id | id in z.rows && z.rows[id].status == Executed ensures StartedIn(z.starts, id) {
      ExecutedWasRunning(g, a, z, id);
      StartedGrows(g, a, z, id);
    }
  }

  lemma PhaseStep(g: Gate, a: Step, z: Gate, id: ProposalId)
    requires Inv(g) && Next(g, a, z) && id in z.executors
    ensures z.executors[id] == Running <==> StartedIn(z.starts, id)
  {
    StartsFrame(g, a, z);
    ExecutorFrame(g, a, z, id);
    StartedGrows(g, a, z, id);
  }

  lemma ExecutedWasRunning(g: Gate, a: Step, z: Gate, id: ProposalId)
    requires Inv(g) && Next(g, a, z) && id in z.rows && z.rows[id].status == Executed
    ensures StartedIn(g.starts, id)
  {
    RowFrame(g, a, z, id);
    if id in g.rows && g.rows[id].status != Executed {
      assert a.Finish? && a.id == id;
    }
  }

  lemma MovesStep(g: Gate, a: Step, z: Gate)
    requires Inv(g) && Next(g, a, z) && WellFormed(z)
    ensures MovesAreLegal(z)
  {
    MovesFrame(g, a, z);
    if z.moves != g.moves {
      LastIsAppended(g.moves, z.moves);
      MovesAppend(g, z.moves[|g.moves|], z);
    }
  }

  lemma MovesAppend(g: Gate, m: Move, z: Gate)
    requires WellFormed(g) && MovesAreLegal(g) && StatusIsReplay(g)
    requires z.moves == g.moves + [m] && m.id in g.rows && LegalMove(m) && m.source == g.rows[m.id].status
    requires forall id :: id in g.rows ==> id in z.rows
    ensures MovesAreLegal(z)
  {
    forall k | 0 <= k < |z.moves|
      ensures LegalMove(z.moves[k]) && z.moves[k].id in z.rows
      ensures z.moves[k].source == StatusAfter(z.moves[..k], z.moves[k].id)
    {
      assert k < |g.moves| ==> z.moves[..k] == g.moves[..k];
      assert k == |g.moves| ==> z.moves[..k] == g.moves;
    }
  }

  lemma ReplayStep(g: Gate, a: Step, z: Gate)
    requires Inv(g) && Next(g, a, z) && WellFormed(z)
    ensures StatusIsReplay(z)
  {
    MovesFrame(g, a, z);
    forall id | id in z.rows ensures z.rows[id].status == StatusAfter(z.moves, id) {
      RowFrame(g, a, z, id);
      if id !in g.rows { UnknownIsPending(g.moves, id, g); }
    }
  }

  lemma {:induction false} UnknownIsPending(moves: seq<Move>, id: ProposalId, g: Gate)
    requires forall k :: 0 <= k < |moves| ==> moves[k].id in g.rows
    requires id !in g.rows
    ensures StatusAfter(moves, id) == Pending
  {
    if moves != [] { UnknownIsPending(moves[..|moves| - 1], id, g); }
  }

  lemma StepKeepsInv(g: Gate, a: Step, z: Gate)
    requires Inv(g) && Next(g, a, z)
    ensures Inv(z)
  {
    ExecutorsStep(g, a, z);
    StartsStep(g, a, z);
    PhasesStep(g, a, z);
    MovesStep(g, a, z);
    ReplayStep(g, a, z);
  }

  lemma {:induction false} RunKeeps(g: Gate, acts: seq<Step>, z: Gate)
    requires Inv(g) && Runs(g, acts, z)
    ensures Inv(z)
    decreases |acts|
  {
    if acts != [] {
      StepKeepsInv(g, acts[0], Apply(g, acts[0]));
      RunKeeps(Apply(g, acts[0]), acts[1..], z);
    }
  }

  /** Every handler runs at most once, only for a proposal that was confirmed when it started, and
      never for one that is pending, rejected or expired. */
  lemma HandlersStartAtMostOnce(g: Gate, acts: seq<Step>, z: Gate)
    requires Empty(g) && Runs(g, acts, z)
    ensures forall i, j :: 0 <= i < j < |z.starts| ==> z.starts[i].0 != z.starts[j].0
    ensures forall k :: 0 <= k < |z.starts| ==> z.starts[k].1 == Confirmed
    ensures forall id :: StartedIn(z.starts, id) ==> id in z.rows && RunStatus(z.rows[id].status)
    ensures forall id :: id in z.rows && z.rows[id].status == Executed ==> StartedIn(z.starts, id)
  {
    RunKeeps(g, acts, z);
  }

  /** The lifecycle as the code walks it: pending to confirmed, rejected or, when the target has
      gone, failed, by a decider; pending to expired by the sweeper; confirmed to executed or failed. */
  lemma EveryMoveIsLegal(g: Gate, acts: seq<Step>, z: Gate, k: nat)
    requires Empty(g) && Runs(g, acts, z) && k < |z.moves|
    ensures LegalMove(z.moves[k])
    ensures z.moves[k].source == StatusAfter(z.moves[..k], z.moves[k].id)
    ensures forall id :: id in z.rows ==> z.rows[id].status == StatusAfter(z.moves, id)
  {
    RunKeeps(g, acts, z);
  }

  predicate Terminal(s: Status) {
    s != Pending && s != Confirmed
  }

  /** Rank of a status: each move climbs, so a proposal moves at most twice and terminal is final. */
  function Rank(s: Status): nat {
    if s == Pending then 0 else if s == Confirmed then 1 else 2
  }

  lemma {:induction false} StatusOnlyClimbs(g: Gate, acts: seq<Step>, z: Gate, id: ProposalId)
    requires Inv(g) && Runs(g, acts, z) && id in g.rows
    ensures id in z.rows
    ensures z.rows[id].status == g.rows[id].status || Rank(g.rows[id].status) < Rank(z.rows[id].status)
    ensures Terminal(g.rows[id].status) ==> z.rows[id] == g.rows[id]
    decreases |acts|
  {
    if acts != [] {
      var m := Apply(g, acts[0]);
      RowFrame(g, acts[0], m, id);
      StepKeepsInv(g, acts[0], m);
      StatusOnlyClimbs(m, acts[1..], z, id);
    }
  }
}
