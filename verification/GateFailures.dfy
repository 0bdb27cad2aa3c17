/** When a proposal fails without ever having been confirmed: exactly when a confirmation that won found
    its target gone. */
module GateFailures {
  import opened GateModel
  import opened GateSafety

  /** A decider moved the proposal from pending straight to failed. */
  ghost predicate FailedUnconfirmed(moves: seq<Move>, id: ProposalId) {
    exists k :: 0 <= k < |moves| && moves[k].id == id && moves[k].source == Pending && moves[k].target == Failed
  }

  ghost predicate WasConfirmed(moves: seq<Move>, id: ProposalId) {
    exists k :: 0 <= k < |moves| && moves[k].id == id && moves[k].target == Confirmed
  }

  /** The step is a confirmation that wins its compare-and-set although the target is gone. */
  predicate VanishedStep(g: Gate, a: Step, id: ProposalId) {
    a.Confirm? && a.id == id && !a.targetOk && Wins(g, id, Pending)
  }

  /** Some step of the run is one. */
  ghost predicate VanishedWin(g: Gate, acts: seq<Step>, id: ProposalId)
    decreases |acts|
  {
    acts != [] && WellFormed(g) && Enabled(g, acts[0])
    && (VanishedStep(g, acts[0], id) || VanishedWin(Apply(g, acts[0]), acts[1..], id))
  }

  lemma StepFails(g: Gate, a: Step, z: Gate, id: ProposalId)
    requires Inv(g) && Next(g, a, z)
    ensures FailedUnconfirmed(z.moves, id) <==> FailedUnconfirmed(g.moves, id) || VanishedStep(g, a, id)
  {
    MovesFrame(g, a, z);
    if z.moves == g.moves {
      WinsAreRecorded(g, a, z, id);
    } else {
      var m := z.moves[|g.moves|];
      assert z.moves == g.moves + [m];
      NewMoveFails(g, a, z, id);
      Appended(g.moves, m, id);
    }
  }

  lemma Appended(moves: seq<Move>, m: Move, id: ProposalId)
    ensures FailedUnconfirmed(moves + [m], id) <==>
              FailedUnconfirmed(moves, id) || (m.id == id && m.source == Pending && m.target == Failed)
  {
    if FailedUnconfirmed(moves, id) {
      var k :| 0 <= k < |moves| && moves[k].id == id && moves[k].source == Pending && moves[k].target == Failed;
      assert (moves + [m])[k] == moves[k];
    }
    assert (moves + [m])[|moves|] == m;
  }

  lemma WinsAreRecorded(g: Gate, a: Step, z: Gate, id: ProposalId)
    requires Next(g, a, z) && z.moves == g.moves
    ensures !VanishedStep(g, a, id)
  {
  }

  lemma NewMoveFails(g: Gate, a: Step, z: Gate, id: ProposalId)
    requires Inv(g) && Next(g, a, z) && |z.moves| == |g.moves| + 1
    ensures var m := z.moves[|g.moves|];
            m.id == id && m.source == Pending && m.target == Failed <==> VanishedStep(g, a, id)
  {
  }

  /** Over every run: a proposal is moved from pending to failed if and only if a confirmation of it won
      although its target was gone. */
  lemma {:induction false} RunFailsIffVanished(g: Gate, acts: seq<Step>, z: Gate, id: ProposalId)
    requires Inv(g) && Runs(g, acts, z)
    ensures FailedUnconfirmed(z.moves, id) <==> FailedUnconfirmed(g.moves, id) || VanishedWin(g, acts, id)
    decreases |acts|
  {
    if acts != [] {
      var m := Apply(g, acts[0]);
      StepFails(g, acts[0], m, id);
      StepKeepsInv(g, acts[0], m);
      RunFailsIffVanished(m, acts[1..], z, id);
    }
  }

  /** The same from a fresh installation. */
  lemma FailedUnconfirmedIffVanished(g: Gate, acts: seq<Step>, z: Gate, id: ProposalId)
    requires Empty(g) && Runs(g, acts, z)
    ensures FailedUnconfirmed(z.moves, id) <==> VanishedWin(g, acts, id)
  {
    RunFailsIffVanished(g, acts, z, id);
  }

  // -------- when every target is there --------

  ghost predicate TargetsThere(acts: seq<Step>) {
    forall k :: 0 <= k < |acts| ==> acts[k].Confirm? ==> acts[k].targetOk
  }

  lemma {:induction false} NoneVanishes(g: Gate, acts: seq<Step>, id: ProposalId)
    requires TargetsThere(acts)
    ensures !VanishedWin(g, acts, id)
    decreases |acts|
  {
    if acts != [] && WellFormed(g) && Enabled(g, acts[0]) { NoneVanishes(Apply(g, acts[0]), acts[1..], id); }
  }

  lemma {:induction false} ConfirmedInReplay(moves: seq<Move>, id: ProposalId)
    requires StatusAfter(moves, id) == Confirmed
    ensures WasConfirmed(moves, id)
  {
    var n := |moves| - 1;
    if moves[n].id != id {
      ConfirmedInReplay(moves[..n], id);
      var k :| 0 <= k < n && moves[..n][k].id == id && moves[..n][k].target == Confirmed;
      assert moves[k].id == id && moves[k].target == Confirmed;
    }
  }

  /** A proposal that the replay shows failed was moved there from pending or was confirmed before. */
  lemma {:induction false} FailedInReplay(moves: seq<Move>, id: ProposalId)
    requires StatusAfter(moves, id) == Failed
    requires forall k :: 0 <= k < |moves| ==>
               LegalMove(moves[k]) && moves[k].source == StatusAfter(moves[..k], moves[k].id)
    ensures FailedUnconfirmed(moves, id) || WasConfirmed(moves, id)
  {
    var n := |moves| - 1;
    var front := moves[..n];
    if moves[n].id == id {
      if moves[n].source == Confirmed {
        ConfirmedInReplay(front, id);
        var k :| 0 <= k < n && front[k].id == id && front[k].target == Confirmed;
        assert moves[k].id == id && moves[k].target == Confirmed;
      } else {
        assert moves[n].source == Pending;
      }
    } else {
      forall k | 0 <= k < n ensures LegalMove(front[k]) && front[k].source == StatusAfter(front[..k], front[k].id) {
        assert front[..k] == moves[..k];
      }
      FailedInReplay(front, id);
      EarlierStays(moves, id);
    }
  }

  lemma EarlierStays(moves: seq<Move>, id: ProposalId)
    requires moves != []
    ensures FailedUnconfirmed(moves[..|moves| - 1], id) ==> FailedUnconfirmed(moves, id)
    ensures WasConfirmed(moves[..|moves| - 1], id) ==> WasConfirmed(moves, id)
  {
    assert forall k :: 0 <= k < |moves| - 1 ==> moves[..|moves| - 1][k] == moves[k];
  }

  /** When every confirmation of a run finds its target, the lifecycle is pending, confirmed, and then
      executed or failed: every failed proposal was confirmed before, and none is failed from pending. */
  lemma FailedWasConfirmed(g: Gate, acts: seq<Step>, z: Gate, id: ProposalId)
    requires Empty(g) && Runs(g, acts, z) && TargetsThere(acts) && id in z.rows && z.rows[id].status == Failed
    ensures WasConfirmed(z.moves, id) && !FailedUnconfirmed(z.moves, id)
  {
    RunKeeps(g, acts, z);
    FailedUnconfirmedIffVanished(g, acts, z, id);
    NoneVanishes(g, acts, id);
    FailedInReplay(z.moves, id);
  }

  /** The smallest run in which a proposal fails unconfirmed, its handler never started. */
  lemma VanishedTargetFails(g: Gate, id: ProposalId, now: int, ttl: int, actor: string)
    returns (acts: seq<Step>, z: Gate)
    requires Empty(g)
    ensures Runs(g, acts, z) && id in z.rows && z.rows[id].status == Failed
    ensures FailedUnconfirmed(z.moves, id) && !WasConfirmed(z.moves, id) && z.starts == [] && z.executors == map[]
  {
    var m := Apply(g, Propose(id, now, ttl));
    NextKeepsWellFormed(g, Propose(id, now, ttl), m);
    z := Apply(m, Confirm(id, actor, false));
    NextKeepsWellFormed(m, Confirm(id, actor, false), z);
    OneMoveFails(z.moves, id, actor);
    acts := [Propose(id, now, ttl), Confirm(id, actor, false)];
    assert acts[1..] == [Confirm(id, actor, false)] && acts[1..][1..] == [];
    assert Runs(z, [], z);
    assert Runs(m, acts[1..], z);
  }

  lemma OneMoveFails(moves: seq<Move>, id: ProposalId, actor: string)
    requires moves == [Move(id, Pending, Failed, Decider(actor, true))]
    ensures FailedUnconfirmed(moves, id) && !WasConfirmed(moves, id)
  {
    assert moves[0].id == id && moves[0].source == Pending && moves[0].target == Failed;
  }
}
