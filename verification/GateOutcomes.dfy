/** How a proposal ends: over every interleaving each final status is reached exactly by the step that says so,
    and the two passes move exactly the rows they are for. */
module GateOutcomes {
  import opened GateModel
  import opened GateSafety
  import opened GatePasses
  import opened GatePassProperties

  /** The step gives the row the status: a decision on a pending row, the sweep of a due one, the end of an
      execution, a missing handler, or the reconciliation of a confirmed row. */
  predicate Gives(g: Gate, a: Step, id: ProposalId, s: Status) {
    && id in g.rows
    && match a
       case Confirm(i, _, there) =>
         i == id && g.rows[id].status == Pending && s == if there then Confirmed else Failed
       case Reject(i, _) => i == id && g.rows[id].status == Pending && s == Rejected
       case Expire(i, now) =>
         i == id && g.rows[id].status == Pending && g.rows[id].createdAt + g.rows[id].ttl <= now && s == Expired
       case Start(i, registered) => i == id && !registered && s == Failed
       case Finish(i, ok) => i == id && s == if ok then Executed else Failed
       case Reconcile(i) => i == id && g.rows[id].status == Confirmed && s == Failed
       case _ => false
  }

  lemma DecisionGives(g: Gate, a: Step, z: Gate, id: ProposalId, s: Status)
    requires Next(g, a, z) && id in g.rows && (a.Confirm? || a.Reject? || a.Expire? || a.Reconcile?)
    ensures id in z.rows
    ensures Gives(g, a, id, s) ==> z.rows[id].status == s
    ensures z.rows[id].status == s ==> Gives(g, a, id, s) || g.rows[id].status == s
  {
  }

  lemma ExecutionGives(g: Gate, a: Step, z: Gate, id: ProposalId, s: Status)
    requires Next(g, a, z) && ExecutorsHold(g) && id in g.rows && (a.Start? || a.Finish?)
    ensures id in z.rows
    ensures Gives(g, a, id, s) ==> z.rows[id].status == s
    ensures z.rows[id].status == s ==> Gives(g, a, id, s) || g.rows[id].status == s
  {
  }

  lemma StepGives(g: Gate, a: Step, z: Gate, id: ProposalId, s: Status)
    requires Next(g, a, z) && ExecutorsHold(g) && id in g.rows
    ensures id in z.rows
    ensures Gives(g, a, id, s) ==> z.rows[id].status == s
    ensures z.rows[id].status == s ==> Gives(g, a, id, s) || g.rows[id].status == s
  {
    if a.Confirm? || a.Reject? || a.Expire? || a.Reconcile? {
      DecisionGives(g, a, z, id, s);
    } else if a.Start? || a.Finish? {
      ExecutionGives(g, a, z, id, s);
    } else {
      OthersMoveNothing(g, a, z);
    }
  }

  /** Some step of the run gives the row the status. */
  ghost predicate GivenIn(g: Gate, acts: seq<Step>, id: ProposalId, s: Status)
    decreases |acts|
  {
    && acts != [] && WellFormed(g) && Enabled(g, acts[0])
    && (Gives(g, acts[0], id, s) || GivenIn(Apply(g, acts[0]), acts[1..], id, s))
  }

  lemma TerminalStep(g: Gate, a: Step, z: Gate, id: ProposalId, s: Status)
    requires Inv(g) && Next(g, a, z) && Terminal(s)
    ensures id in z.rows && z.rows[id].status == s <==>
            Gives(g, a, id, s) || (id in g.rows && g.rows[id].status == s)
  {
    RowFrame(g, a, z, id);
    if id in g.rows { StepGives(g, a, z, id, s); }
  }

  lemma {:induction false} EndsIff(g: Gate, acts: seq<Step>, z: Gate, id: ProposalId, s: Status)
    requires Inv(g) && Runs(g, acts, z) && Terminal(s)
    ensures id in z.rows && z.rows[id].status == s <==>
            GivenIn(g, acts, id, s) || (id in g.rows && g.rows[id].status == s)
    decreases |acts|
  {
    if acts != [] {
      var m := Apply(g, acts[0]);
      StepKeepsInv(g, acts[0], m);
      TerminalStep(g, acts[0], m, id, s);
      EndsIff(m, acts[1..], z, id, s);
    }
  }

  /** Over every run from an empty table a proposal is rejected, expired, executed or failed exactly if some step
      of the run made it so: it is executed only by a handler that ended well, and never by anything else. */
  lemma EndsAsItWasGiven(g: Gate, acts: seq<Step>, z: Gate, id: ProposalId, s: Status)
    requires Empty(g) && Runs(g, acts, z) && Terminal(s)
    ensures id in z.rows && z.rows[id].status == s <==> GivenIn(g, acts, id, s)
  {
    EndsIff(g, acts, z, id, s);
  }

  // -------- who executes --------

  /** Only the confirmation that wins hands the row to an executor; an executor goes on by starting the handler of
      a confirmed row that has one, and is gone after the end of it, when it gives up, and after a crash. */
  lemma ExecutorsAre(g: Gate, a: Step, z: Gate)
    requires Next(g, a, z)
    ensures z.executors ==
              match a
              case Confirm(id, _, there) =>
                if there && g.rows[id].status == Pending then g.executors[id := Won] else g.executors
              case Start(id, registered) =>
                if registered && g.rows[id].status == Confirmed then g.executors[id := Running]
                else g.executors - {id}
              case Finish(id, _) => g.executors - {id}
              case Abandon(id) => g.executors - {id}
              case Crash => map[]
              case _ => g.executors
  {
    if a.Confirm? { ConfirmHandsOver(g, a, z); }
  }

  lemma ConfirmHandsOver(g: Gate, a: Step, z: Gate)
    requires Next(g, a, z) && a.Confirm?
    ensures z.executors ==
              if a.targetOk && g.rows[a.id].status == Pending then g.executors[a.id := Won] else g.executors
  {
  }

  /** While the service is up a row can be decided, and a due one swept; while it is not, a row can be reconciled;
      an executor can go on or give up at any time. */
  lemma MayHappen(g: Gate, id: ProposalId, actor: string, now: int, ok: bool)
    requires WellFormed(g)
    ensures g.serving && id in g.rows ==> Enabled(g, Confirm(id, actor, ok)) && Enabled(g, Reject(id, actor))
    ensures g.serving && id in g.rows && g.rows[id].createdAt + g.rows[id].ttl <= now ==> Enabled(g, Expire(id, now))
    ensures !g.serving ==> Enabled(g, Serve) && (id in g.rows ==> Enabled(g, Reconcile(id)))
    ensures id in g.executors ==>
              && Enabled(g, Abandon(id))
              && if g.executors[id].Won? then Enabled(g, Start(id, ok)) else Enabled(g, Finish(id, ok))
    ensures Enabled(g, Crash)
  {
  }

  /** So a pending proposal that is confirmed and left to its executor ends executed if its handler ends well and
      failed if not. */
  lemma ConfirmedIsCarriedOut(g: Gate, id: ProposalId, actor: string, ok: bool) returns (z: Gate)
    requires WellFormed(g) && g.serving && id in g.rows && g.rows[id].status == Pending
    ensures Runs(g, [Confirm(id, actor, true), Start(id, true), Finish(id, ok)], z)
    ensures id in z.rows && z.rows[id].status == if ok then Executed else Failed
    ensures z.starts == g.starts + [(id, Confirmed)]
  {
    var confirm, start, finish := Confirm(id, actor, true), Start(id, true), Finish(id, ok);
    var g1 := Apply(g, confirm);
    DecisionGives(g, confirm, g1, id, Confirmed);
    NextKeepsWellFormed(g, confirm, g1);
    ConfirmHandsOver(g, confirm, g1);
    var g2 := Apply(g1, start);
    NextKeepsWellFormed(g1, start, g2);
    z := Apply(g2, finish);
    NextKeepsWellFormed(g2, finish, z);
    ThreeSteps(g, confirm, start, finish, g1, g2, z);
  }

  lemma ThreeSteps(g: Gate, a: Step, b: Step, c: Step, g1: Gate, g2: Gate, z: Gate)
    requires Next(g, a, g1) && Next(g1, b, g2) && Next(g2, c, z) && WellFormed(z)
    ensures Runs(g, [a, b, c], z)
  {
    assert [a, b, c][1..] == [b, c] && [b, c][1..] == [c] && [c][1..] == [];
    assert Runs(z, [], z);
    assert Runs(g2, [c], z);
    assert Runs(g1, [b, c], z);
  }

  // -------- the passes --------

  /** Undisturbed, a pass gives exactly the rows of its list that are still at its stage, and not left out, the
      status it is for. */
  lemma {:induction false} QuietPassOutcome(g: Gate, ids: seq<ProposalId>, job: Job, id: ProposalId)
    requires WellFormed(g) && (forall j :: j in ids ==> j in g.rows) && id in g.rows && job.source != job.target
    ensures id in PassGate(g, ids, job, []).rows
    ensures PassGate(g, ids, job, []).rows[id].status ==
              if id in ids && id !in job.skip && g.rows[id].status == job.source then job.target
              else g.rows[id].status
    decreases |ids|
  {
    if ids != [] {
      if ids[0] in job.skip {
        QuietPassOutcome(g, ids[1..], job, id);
      } else {
        QuietPassOutcome(Turn(g, ids[0], job, []), ids[1..], job, id);
      }
    }
  }

  predicate TimeIsUp(p: Proposal, now: int) {
    p.status == Pending && p.createdAt + p.ttl <= now
  }

  /** The sweep reports only proposals that were pending and due when it looked; each due one that it looked at is
      not pending afterwards, whatever others do; and alone it expires exactly those. */
  lemma SweepExpiresTheDue(g: Gate, now: int, env: seq<seq<Step>>, id: ProposalId)
    requires WellFormed(g) && id in g.rows
    ensures var seen := Snapshot(g, Pending, SCAN_LIMIT);
            var z, own := PassGate(g, seen, SweepJob(g, now), env), PassOwn(g, seen, SweepJob(g, now), env);
            && id in z.rows
            && (id in own ==> id in seen && TimeIsUp(g.rows[id], now))
            && (id in seen && TimeIsUp(g.rows[id], now) ==> z.rows[id].status != Pending)
            && (env == [] ==>
                  z.rows[id].status == if id in seen && TimeIsUp(g.rows[id], now) then Expired else g.rows[id].status)
  {
    var seen, job := Snapshot(g, Pending, SCAN_LIMIT), SweepJob(g, now);
    if id in seen { SeenHave(g, Pending, id); }
    NeverBackPass(g, seen, job, env, id);
    if id in PassOwn(g, seen, job, env) { PassMovesOnlyTheSnapshot(g, seen, job, env, id); }
    if id in seen && TimeIsUp(g.rows[id], now) { PassLeavesNoneBehind(g, seen, job, env, id); }
    if env == [] { QuietPassOutcome(g, seen, job, id); }
  }

  lemma SeenHave(g: Gate, s: Status, id: ProposalId)
    requires WellFormed(g) && id in Snapshot(g, s, SCAN_LIMIT)
    ensures id in g.rows && g.rows[id].status == s
  {
    assert id in WithStatus(g, g.order, s);
  }

  /** The reconciliation reports only proposals that were confirmed when it looked; each that it looked at is not
      confirmed afterwards; and alone it fails exactly those. */
  lemma ReconciliationFailsTheConfirmed(g: Gate, env: seq<seq<Step>>, id: ProposalId)
    requires WellFormed(g) && id in g.rows
    ensures var seen := Snapshot(g, Confirmed, SCAN_LIMIT);
            var z, own := PassGate(g, seen, RECOVERY_JOB, env), PassOwn(g, seen, RECOVERY_JOB, env);
            && id in z.rows
            && (id in own ==> id in seen && g.rows[id].status == Confirmed)
            && (id in seen ==> z.rows[id].status != Confirmed)
            && (env == [] ==> z.rows[id].status == if id in seen then Failed else g.rows[id].status)
  {
    var seen := Snapshot(g, Confirmed, SCAN_LIMIT);
    if id in seen { SeenHave(g, Confirmed, id); }
    NeverBackPass(g, seen, RECOVERY_JOB, env, id);
    if id in PassOwn(g, seen, RECOVERY_JOB, env) { PassMovesOnlyTheSnapshot(g, seen, RECOVERY_JOB, env, id); }
    if id in seen { PassLeavesNoneBehind(g, seen, RECOVERY_JOB, env, id); }
    if env == [] { QuietPassOutcome(g, seen, RECOVERY_JOB, id); }
  }
}
