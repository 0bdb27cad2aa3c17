/** What the two passes promise under races. */
module GatePassProperties {
  import opened Common
  import opened GateModel
  import opened GateSafety
  import opened GatePasses

  /** The moves by one mover, in order. */
  function MovedBy(moves: seq<Move>, mover: Mover): seq<ProposalId> {
    if moves == [] then []
    else if moves[0].mover == mover then [moves[0].id] + MovedBy(moves[1..], mover)
    else MovedBy(moves[1..], mover)
  }

  lemma {:induction false} MovedByConcat(a: seq<Move>, b: seq<Move>, mover: Mover)
    ensures MovedBy(a + b, mover) == MovedBy(a, mover) + MovedBy(b, mover)
  {
    if a == [] {
      assert a + b == b;
    } else {
      assert (a + b)[1..] == a[1..] + b;
      MovedByConcat(a[1..], b, mover);
    }
  }

  /** The step is not one of the pass's own compare-and-sets. */
  predicate Foreign(a: Step, mover: Mover) {
    (mover == Sweeper ==> !a.Expire?) && (mover == Recovery ==> !a.Reconcile?)
  }

  ghost predicate ForeignEnv(env: seq<seq<Step>>, mover: Mover) {
    forall i, j :: 0 <= i < |env| && 0 <= j < |env[i]| ==> Foreign(env[i][j], mover)
  }

  /** History grew from `a` to `b`, and `own` are the moves by `mover` in between. */
  ghost predicate Grew(a: seq<Move>, b: seq<Move>, mover: Mover, own: seq<ProposalId>) {
    |a| <= |b| && b[..|a|] == a && MovedBy(b[|a|..], mover) == own
  }

  lemma GrewTwice(a: seq<Move>, b: seq<Move>, c: seq<Move>, mover: Mover, x: seq<ProposalId>, y: seq<ProposalId>)
    requires Grew(a, b, mover, x) && Grew(b, c, mover, y)
    ensures Grew(a, c, mover, x + y)
  {
    assert c[..|a|] == c[..|b|][..|a|];
    assert c[|a|..] == b[|a|..] + c[|b|..];
    MovedByConcat(b[|a|..], c[|b|..], mover);
  }

  lemma GrewByOne(a: seq<Move>, m: Move, mover: Mover)
    ensures Grew(a, a + [m], mover, if m.mover == mover then [m.id] else [])
    ensures Grew(a, a, mover, [])
  {
    assert (a + [m])[|a|..] == [m];
    assert [m][1..] == [];
    assert a[|a|..] == [];
  }

  lemma ForeignStep(g: Gate, a: Step, z: Gate, mover: Mover)
    requires Next(g, a, z) && Foreign(a, mover) && (mover == Sweeper || mover == Recovery)
    ensures Grew(g.moves, z.moves, mover, [])
  {
    if z.moves != g.moves {
      ForeignMove(g, a, z, mover);
      LastIsAppended(g.moves, z.moves);
      GrewByOne(g.moves, z.moves[|g.moves|], mover);
    } else {
      assert z.moves[|g.moves|..] == [];
    }
  }

  lemma ForeignMove(g: Gate, a: Step, z: Gate, mover: Mover)
    requires Next(g, a, z) && Foreign(a, mover) && (mover == Sweeper || mover == Recovery) && z.moves != g.moves
    ensures |z.moves| == |g.moves| + 1 && z.moves[..|g.moves|] == g.moves && z.moves[|g.moves|].mover != mover
  {
    MoveByWhom(g, a, z);
  }

  lemma {:induction false} ForeignRun(g: Gate, steps: seq<Step>, mover: Mover)
    requires WellFormed(g) && (mover == Sweeper || mover == Recovery)
    requires forall j :: 0 <= j < |steps| ==> Foreign(steps[j], mover)
    ensures Grew(g.moves, RunAll(g, steps).moves, mover, [])
    decreases |steps|
  {
    if steps == [] {
      assert g.moves[|g.moves|..] == [];
    } else if Enabled(g, steps[0]) {
      var m := Apply(g, steps[0]);
      ForeignStep(g, steps[0], m, mover);
      NextKeepsWellFormed(g, steps[0], m);
      ForeignRun(m, steps[1..], mover);
      GrewTwice(g.moves, m.moves, RunAll(m, steps[1..]).moves, mover, [], []);
    } else {
      ForeignRun(g, steps[1..], mover);
    }
  }

  lemma ForeignHeadTail(env: seq<seq<Step>>, mover: Mover)
    requires ForeignEnv(env, mover)
    ensures ForeignEnv(Tail(env), mover)
    ensures forall j :: 0 <= j < |Head(env)| ==> Foreign(Head(env)[j], mover)
  {
  }

  /** Other actors and then one compare-and-set: the pass's own moves are the ones it won. */
  lemma TurnMoves(g: Gate, id: ProposalId, job: Job, steps: seq<Step>)
    requires WellFormed(g) && id in g.rows && (job.mover == Sweeper || job.mover == Recovery)
    requires forall j :: 0 <= j < |steps| ==> Foreign(steps[j], job.mover)
    ensures Grew(g.moves, Turn(g, id, job, steps).moves, job.mover, if WinsTurn(g, id, job, steps) then [id] else [])
  {
    var m := RunAll(g, steps);
    ForeignRun(g, steps, job.mover);
    GrewByOne(m.moves, Move(id, job.source, job.target, job.mover), job.mover);
    var own := if Wins(m, id, job.source) then [id] else [];
    GrewTwice(g.moves, m.moves, Turn(g, id, job, steps).moves, job.mover, [], own);
    assert [] + own == own;
  }

  /** The list a pass returns is exactly what the pass itself moved, in order, whatever others do. */
  lemma {:induction false} PassReturnsItsOwnMoves(g: Gate, ids: seq<ProposalId>, job: Job, env: seq<seq<Step>>)
    requires WellFormed(g) && (forall id :: id in ids ==> id in g.rows)
    requires (job.mover == Sweeper || job.mover == Recovery) && ForeignEnv(env, job.mover)
    ensures Grew(g.moves, PassGate(g, ids, job, env).moves, job.mover, PassOwn(g, ids, job, env))
    decreases |ids|
  {
    if ids == [] {
      assert g.moves[|g.moves|..] == [];
    } else if ids[0] in job.skip {
      PassReturnsItsOwnMoves(g, ids[1..], job, env);
    } else {
      var n := Turn(g, ids[0], job, Head(env));
      ForeignHeadTail(env, job.mover);
      TurnMoves(g, ids[0], job, Head(env));
      PassReturnsItsOwnMoves(n, ids[1..], job, Tail(env));
      GrewTwice(g.moves, n.moves, PassGate(n, ids[1..], job, Tail(env)).moves, job.mover,
                if WinsTurn(g, ids[0], job, Head(env)) then [ids[0]] else [], PassOwn(n, ids[1..], job, Tail(env)));
    }
  }

  /** Only rows of the snapshot that were not to be skipped are ever moved by the pass. */
  lemma {:induction false} PassMovesOnlyTheSnapshot(g: Gate, ids: seq<ProposalId>, job: Job, env: seq<seq<Step>>,
        id: ProposalId)
    requires WellFormed(g) && (forall j :: j in ids ==> j in g.rows)
    requires id in PassOwn(g, ids, job, env)
    ensures id in ids && id !in job.skip
    decreases |ids|
  {
    if ids[0] in job.skip {
      PassMovesOnlyTheSnapshot(g, ids[1..], job, env, id);
    } else if id != ids[0] {
      PassMovesOnlyTheSnapshot(Turn(g, ids[0], job, Head(env)), ids[1..], job, Tail(env), id);
    }
  }

  /** No step takes a row back to an earlier stage of its life. */
  lemma NeverBack(g: Gate, a: Step, z: Gate, id: ProposalId)
    requires Next(g, a, z) && id in g.rows
    ensures id in z.rows && Rank(g.rows[id].status) <= Rank(z.rows[id].status)
  {
  }

  lemma {:induction false} NeverBackRun(g: Gate, steps: seq<Step>, id: ProposalId)
    requires WellFormed(g) && id in g.rows
    ensures Rank(g.rows[id].status) <= Rank(RunAll(g, steps).rows[id].status)
    decreases |steps|
  {
    if steps != [] {
      if Enabled(g, steps[0]) {
        NeverBack(g, steps[0], Apply(g, steps[0]), id);
        NextKeepsWellFormed(g, steps[0], Apply(g, steps[0]));
        NeverBackRun(Apply(g, steps[0]), steps[1..], id);
      } else {
        NeverBackRun(g, steps[1..], id);
      }
    }
  }

  predicate Forward(job: Job) {
    Rank(job.source) < 2 && Rank(job.source) < Rank(job.target)
  }

  lemma NeverBackTurn(g: Gate, own: ProposalId, job: Job, steps: seq<Step>, id: ProposalId)
    requires WellFormed(g) && own in g.rows && id in g.rows && Forward(job)
    ensures Rank(g.rows[id].status) <= Rank(Turn(g, own, job, steps).rows[id].status)
    ensures id == own && Rank(job.source) <= Rank(g.rows[id].status) ==>
              Rank(job.source) < Rank(Turn(g, own, job, steps).rows[id].status)
  {
    NeverBackRun(g, steps, id);
  }

  lemma {:induction false} NeverBackPass(g: Gate, ids: seq<ProposalId>, job: Job, env: seq<seq<Step>>, id: ProposalId)
    requires WellFormed(g) && (forall j :: j in ids ==> j in g.rows) && id in g.rows && Forward(job)
    ensures id in PassGate(g, ids, job, env).rows
    ensures Rank(g.rows[id].status) <= Rank(PassGate(g, ids, job, env).rows[id].status)
    decreases |ids|
  {
    if ids != [] {
      if ids[0] in job.skip {
        NeverBackPass(g, ids[1..], job, env, id);
      } else {
        NeverBackTurn(g, ids[0], job, Head(env), id);
        NeverBackPass(Turn(g, ids[0], job, Head(env)), ids[1..], job, Tail(env), id);
      }
    }
  }

  /** After the pass every row it had to deal with has left the stage, moved by the pass or by whoever
      got there first. */
  lemma {:induction false} PassLeavesNoneBehind(g: Gate, ids: seq<ProposalId>, job: Job, env: seq<seq<Step>>,
                                                id: ProposalId)
    requires WellFormed(g) && (forall j :: j in ids ==> j in g.rows) && id in ids && id !in job.skip && Forward(job)
    requires Rank(job.source) <= Rank(g.rows[id].status)
    ensures id in PassGate(g, ids, job, env).rows
    ensures Rank(job.source) < Rank(PassGate(g, ids, job, env).rows[id].status)
    decreases |ids|
  {
    if ids[0] in job.skip {
      PassLeavesNoneBehind(g, ids[1..], job, env, id);
    } else {
      var n := Turn(g, ids[0], job, Head(env));
      NeverBackTurn(g, ids[0], job, Head(env), id);
      if id == ids[0] {
        NeverBackPass(n, ids[1..], job, Tail(env), id);
      } else {
        PassLeavesNoneBehind(n, ids[1..], job, Tail(env), id);
      }
    }
  }

  /** Undisturbed, a pass keeps the table and changes nothing but rows of the snapshot. */
  lemma {:induction false} QuietPassFrame(g: Gate, ids: seq<ProposalId>, job: Job)
    requires WellFormed(g) && (forall j :: j in ids ==> j in g.rows)
    ensures var z := PassGate(g, ids, job, []);
            && z.order == g.order && z.rows.Keys == g.rows.Keys
            && forall id :: id in g.rows && id !in ids ==> z.rows[id] == g.rows[id]
    decreases |ids|
  {
    if ids != [] {
      if ids[0] in job.skip {
        QuietPassFrame(g, ids[1..], job);
      } else {
        QuietPassFrame(Turn(g, ids[0], job, []), ids[1..], job);
      }
    }
  }

  /** What the startup reconciliation leaves when nothing else runs. */
  function Reconciled(g: Gate, limit: nat): (z: Gate)
    requires WellFormed(g)
    ensures WellFormed(z)
  {
    PassGate(g, Snapshot(g, Confirmed, limit), RECOVERY_JOB, [])
  }

  lemma ShortListIsCleared(g: Gate, limit: nat, id: ProposalId)
    requires WellFormed(g) && |WithStatus(g, g.order, Confirmed)| <= limit && id in g.rows
    ensures id in Reconciled(g, limit).rows && Reconciled(g, limit).rows[id].status != Confirmed
  {
    QuietPassClears(g, WithStatus(g, g.order, Confirmed), id);
  }

  lemma QuietPassClears(g: Gate, list: seq<ProposalId>, id: ProposalId)
    requires WellFormed(g) && (forall j :: j in list ==> j in g.rows) && id in g.rows
    requires id in list <==> g.rows[id].status == Confirmed
    ensures id in PassGate(g, list, RECOVERY_JOB, []).rows
    ensures PassGate(g, list, RECOVERY_JOB, []).rows[id].status != Confirmed
  {
    if id in list {
      PassLeavesNoneBehind(g, list, RECOVERY_JOB, [], id);
    } else {
      QuietPassFrame(g, list, RECOVERY_JOB);
    }
  }

  lemma LongListIsNotCleared(g: Gate, limit: nat)
    requires WellFormed(g) && |WithStatus(g, g.order, Confirmed)| > limit
    ensures var left := WithStatus(g, g.order, Confirmed)[limit];
            left in Reconciled(g, limit).rows && Reconciled(g, limit).rows[left].status == Confirmed
  {
    var list := WithStatus(g, g.order, Confirmed);
    ListIsDistinct(g, g.order, Confirmed);
    NoRepeats(WithStatus(g, g.order, Confirmed));
    assert list[limit] !in list[..limit] && list[limit] in list;
    QuietPassFrame(g, list[..limit], RECOVERY_JOB);
  }

  lemma ListIsMoved(z: Gate, limit: nat)
    requires WellFormed(z) && limit > 0
    ensures PassOwn(z, Snapshot(z, Confirmed, limit), RECOVERY_JOB, []) == [] <==>
              WithStatus(z, z.order, Confirmed) == []
  {
    var ids := Snapshot(z, Confirmed, limit);
    if ids != [] {
      assert ids[0] == WithStatus(z, z.order, Confirmed)[0] && ids[0] in WithStatus(z, z.order, Confirmed);
      assert WinsTurn(z, ids[0], RECOVERY_JOB, Head([]));
    }
  }

  /** Reconciliation strands nobody exactly when the confirmed rows fit into one scan; then, and only
      then, a second pass finds nothing. */
  lemma ReconcileStrandsNoneIffWithinLimit(g: Gate, limit: nat)
    requires WellFormed(g) && limit > 0
    ensures var z := Reconciled(g, limit);
            && ((forall id :: id in z.rows ==> z.rows[id].status != Confirmed) <==>
                  |WithStatus(g, g.order, Confirmed)| <= limit)
            && (PassOwn(z, Snapshot(z, Confirmed, limit), RECOVERY_JOB, []) == [] <==>
                  |WithStatus(g, g.order, Confirmed)| <= limit)
  {
    var z := Reconciled(g, limit);
    QuietPassFrame(g, Snapshot(g, Confirmed, limit), RECOVERY_JOB);
    ListIsMoved(z, limit);
    if |WithStatus(g, g.order, Confirmed)| <= limit {
      forall id | id in z.rows ensures z.rows[id].status != Confirmed { ShortListIsCleared(g, limit, id); }
    } else {
      LongListIsNotCleared(g, limit);
    }
  }
}
