/** The self-approval audit: what "clean" proves about a run of the gate, and its horizon. */
module GateAudit {
  import opened Common
  import opened GateModel
  import opened GateSafety

  const SERVICE_PREFIX := "service:"
  const SCAN_LIMIT: nat := 100_000

  predicate IsService(actor: string) {
    SERVICE_PREFIX <= actor
  }

  /** A run-state proposal whose decision is attributed to a service identity. */
  predicate SelfApproved(p: Proposal) {
    RunStatus(p.status) && p.decidedBy.Some? && IsService(p.decidedBy.value)
  }

  function SelfApprovedIds(g: Gate, ids: seq<ProposalId>): (r: seq<ProposalId>)
    requires forall id :: id in ids ==> id in g.rows
    ensures forall id :: id in r <==> id in ids && SelfApproved(g.rows[id])
  {
    if ids == [] then []
    else (if SelfApproved(g.rows[ids[0]]) then [ids[0]] else []) + SelfApprovedIds(g, ids[1..])
  }

  /** The audit lists the newest `limit` proposals and is clean when none of them is an offender. */
  predicate Clean(g: Gate, limit: nat)
    requires WellFormed(g)
  {
    |SelfApprovedIds(g, Take(g.order, limit))| == 0
  }

  /** A service identity won the race to confirm. */
  predicate ServiceConfirm(m: Move) {
    m.mover.Decider? && IsService(m.mover.actor) && m.target != Rejected
  }

  /** The last decider among the recorded moves of a proposal. */
  function DecidedAfter(moves: seq<Move>, id: ProposalId): Option<string> {
    if moves == [] then None
    else
      var last := moves[|moves| - 1];
      if last.id == id && last.mover.Decider? then Some(last.mover.actor) else DecidedAfter(moves[..|moves| - 1], id)
  }

  ghost predicate DecisionIsReplay(g: Gate) {
    forall id :: id in g.rows ==> g.rows[id].decidedBy == DecidedAfter(g.moves, id)
  }

  ghost predicate LegalChain(moves: seq<Move>) {
    forall k :: 0 <= k < |moves| ==> LegalMove(moves[k]) && moves[k].source == StatusAfter(moves[..k], moves[k].id)
  }

  ghost predicate ServiceConfirmed(moves: seq<Move>, id: ProposalId) {
    exists k :: 0 <= k < |moves| && moves[k].id == id && ServiceConfirm(moves[k])
  }

  /** Along a legal chain the final columns tell exactly whether a service identity confirmed. */
  lemma {:induction false} ColumnsRevealServiceConfirm(moves: seq<Move>, id: ProposalId)
    requires LegalChain(moves)
    ensures StatusAfter(moves, id) == Pending ==> DecidedAfter(moves, id).None? && !ServiceConfirmed(moves, id)
    ensures SelfApproved(Proposal(StatusAfter(moves, id), 0, 0, DecidedAfter(moves, id))) <==>
              ServiceConfirmed(moves, id)
  {
    if moves != [] {
      var n := |moves| - 1;
      var init, last := moves[..n], moves[n];
      forall k | 0 <= k < n ensures LegalMove(init[k]) && init[k].source == StatusAfter(init[..k], init[k].id) {
        assert init[..k] == moves[..k];
      }
      ColumnsRevealServiceConfirm(init, id);
      ConfirmedAppend(moves, id);
      assert last.source == StatusAfter(init, last.id);
    }
  }

  lemma ConfirmedAppend(moves: seq<Move>, id: ProposalId)
    requires moves != []
    ensures ServiceConfirmed(moves, id) <==>
              ServiceConfirmed(moves[..|moves| - 1], id) ||
              (moves[|moves| - 1].id == id && ServiceConfirm(moves[|moves| - 1]))
  {
    if ServiceConfirmed(moves[..|moves| - 1], id) {
      var k :| 0 <= k < |moves| - 1 && moves[..|moves| - 1][k].id == id && ServiceConfirm(moves[..|moves| - 1][k]);
      assert moves[k].id == id && ServiceConfirm(moves[k]);
    }
    if ServiceConfirmed(moves, id) {
      var k :| 0 <= k < |moves| && moves[k].id == id && ServiceConfirm(moves[k]);
      assert k < |moves| - 1 ==> moves[..|moves| - 1][k] == moves[k];
    }
  }

  /** A step either leaves the decision columns alone or stamps the actor of the move it records. */
  lemma DecisionFrame(g: Gate, a: Step, z: Gate, id: ProposalId)
    requires Next(g, a, z) && id in z.rows
    ensures id !in g.rows ==> z.moves == g.moves && z.rows[id].decidedBy.None?
    ensures z.moves == g.moves && id in g.rows ==> z.rows[id].decidedBy == g.rows[id].decidedBy
    ensures z.moves != g.moves ==> |z.moves| == |g.moves| + 1 && z.moves[..|g.moves|] == g.moves
    ensures z.moves != g.moves && id in g.rows ==>
              var m := z.moves[|g.moves|];
              z.rows[id].decidedBy ==
                if m.id == id && m.mover.Decider? then Some(m.mover.actor) else g.rows[id].decidedBy
  {
    if a.Propose? { ProposedIsUndecided(g, a, z, id); } else { TableFrame(g, a, z); }
  }

  lemma ProposedIsUndecided(g: Gate, a: Step, z: Gate, id: ProposalId)
    requires Next(g, a, z) && a.Propose? && id in z.rows
    ensures z.moves == g.moves
    ensures if id in g.rows then z.rows[id] == g.rows[id] else z.rows[id].decidedBy.None?
  {
  }

  lemma DecisionStep(g: Gate, a: Step, z: Gate)
    requires Inv(g) && DecisionIsReplay(g) && Next(g, a, z)
    ensures DecisionIsReplay(z)
  {
    forall id | id in z.rows ensures z.rows[id].decidedBy == DecidedAfter(z.moves, id) {
      DecisionFrame(g, a, z, id);
      if id !in g.rows { UnknownIsUndecided(g.moves, id, g); }
    }
  }

  lemma {:induction false} UnknownIsUndecided(moves: seq<Move>, id: ProposalId, g: Gate)
    requires forall k :: 0 <= k < |moves| ==> moves[k].id in g.rows
    requires id !in g.rows
    ensures DecidedAfter(moves, id) == None
  {
    if moves != [] { UnknownIsUndecided(moves[..|moves| - 1], id, g); }
  }

  lemma {:induction false} RunKeepsDecisions(g: Gate, acts: seq<Step>, z: Gate)
    requires Inv(g) && DecisionIsReplay(g) && Runs(g, acts, z)
    ensures Inv(z) && DecisionIsReplay(z)
    decreases |acts|
  {
    RunKeeps(g, acts, z);
    if acts != [] {
      var m := Apply(g, acts[0]);
      DecisionStep(g, acts[0], m);
      StepKeepsInv(g, acts[0], m);
      RunKeepsDecisions(m, acts[1..], z);
    }
  }

  /** The audit is exact up to its horizon: it reports clean if and only if no service identity won a
      confirmation of any of the newest `limit` proposals. */
  lemma CleanIffNoServiceConfirmInWindow(g: Gate, acts: seq<Step>, z: Gate, limit: nat)
    requires Empty(g) && Runs(g, acts, z)
    ensures WellFormed(z)
    ensures Clean(z, limit) <==> forall id :: id in Take(z.order, limit) ==> !ServiceConfirmed(z.moves, id)
  {
    RunKeepsDecisions(g, acts, z);
    var offenders := SelfApprovedIds(z, Take(z.order, limit));
    assert |offenders| > 0 ==> offenders[0] in offenders;
    forall id | id in z.rows ensures SelfApproved(z.rows[id]) <==> ServiceConfirmed(z.moves, id) {
      ColumnsRevealServiceConfirm(z.moves, id);
    }
  }

  ghost predicate NoServiceDecides(acts: seq<Step>) {
    forall k :: 0 <= k < |acts| ==> (acts[k].Confirm? ==> !IsService(acts[k].actor))
  }

  lemma NoServiceMove(g: Gate, a: Step, z: Gate)
    requires Next(g, a, z) && (a.Confirm? ==> !IsService(a.actor))
    requires forall k :: 0 <= k < |g.moves| ==> !ServiceConfirm(g.moves[k])
    ensures forall k :: 0 <= k < |z.moves| ==> !ServiceConfirm(z.moves[k])
  {
    if z.moves != g.moves {
      MoveByWhom(g, a, z);
      LastIsAppended(g.moves, z.moves);
    }
  }

  lemma {:induction false} NoServiceMoves(g: Gate, acts: seq<Step>, z: Gate)
    requires Runs(g, acts, z) && NoServiceDecides(acts)
    requires forall k :: 0 <= k < |g.moves| ==> !ServiceConfirm(g.moves[k])
    ensures forall k :: 0 <= k < |z.moves| ==> !ServiceConfirm(z.moves[k])
    decreases |acts|
  {
    if acts != [] {
      assert acts[0].Confirm? ==> !IsService(acts[0].actor);
      NoServiceMove(g, acts[0], Apply(g, acts[0]));
      NoServiceMoves(Apply(g, acts[0]), acts[1..], z);
    }
  }

  /** When no service identity decides, every reachable state audits clean, whatever the limit. */
  lemma AlwaysCleanWithoutServiceDeciders(g: Gate, acts: seq<Step>, z: Gate, limit: nat)
    requires Empty(g) && Runs(g, acts, z) && NoServiceDecides(acts)
    ensures WellFormed(z) && Clean(z, limit)
  {
    NoServiceMoves(g, acts, z);
    CleanIffNoServiceConfirmInWindow(g, acts, z, limit);
  }

  /** With no more proposals than the scan limit, clean means that no service identity ever confirmed. */
  lemma CleanIsExactBelowTheLimit(g: Gate, acts: seq<Step>, z: Gate)
    requires Empty(g) && Runs(g, acts, z) && |z.order| <= SCAN_LIMIT
    ensures WellFormed(z)
    ensures Clean(z, SCAN_LIMIT) <==> forall k :: 0 <= k < |z.moves| ==> !ServiceConfirm(z.moves[k])
  {
    CleanIffNoServiceConfirmInWindow(g, acts, z, SCAN_LIMIT);
    RunKeeps(g, acts, z);
    forall k | 0 <= k < |z.moves| && ServiceConfirm(z.moves[k]) ensures !Clean(z, SCAN_LIMIT) {
      assert ServiceConfirmed(z.moves, z.moves[k].id) && z.moves[k].id in z.order;
    }
  }
}
