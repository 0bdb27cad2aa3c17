/** What the rows of the deployment table report: over every life of the supervisor, kills and abandoned polls
    included, a row is completed or rolled back exactly if the answers to its deployment say so. */
module SupervisorOutcomes {
  import opened Common
  import opened SupervisorModel
  import opened SupervisorRuns
  import opened SupervisorSafety

  /** The answers under which a deployment completes: the judge calls it off after a good sync, or staging comes
      up healthy and the developer instance is healthy, at once or after a restart. */
  predicate Completes(w: World) {
    && (w.files ==> w.syncOk)
    && (w.judge == Says(SkipDeploy) ||
        (w.judge != Says(Hold) && w.buildOk && w.stagingUp && w.stagingHealthy &&
         (w.devHealthy || w.devHealthyAfterRestart)))
  }

  /** The answers under which it is rolled back: staging is reached and fails, and no step of the rollback does. */
  predicate RollsBack(w: World) {
    && (w.files ==> w.syncOk)
    && w.judge != Says(SkipDeploy) && w.judge != Says(Hold) && w.buildOk && (!w.stagingUp || !w.stagingHealthy)
    && (w.back.known ==> (w.back.headMatches || w.back.resetOk) && w.back.revertOk && w.back.pushOk)
    && w.back.rebuildOk && w.back.upOk && w.back.healthy
  }

  predicate Reaches(w: World, final: Step) {
    (final == Completed && Completes(w)) || (final == RolledBack && RollsBack(w))
  }

  lemma LastReaches(w: World, final: Step)
    requires final == Completed || final == RolledBack
    ensures DeployScript(w) != []
    ensures Shown(Last(DeployScript(w))) == final <==> Reaches(w, final)
  {
    LastOf(w);
    ShownOutcome(w, Last(DeployScript(w)));
  }

  lemma DeploymentEnds(r: Row, w: World)
    ensures WriteAll(r, DeployScript(w)).step == Completed <==> Completes(w)
    ensures WriteAll(r, DeployScript(w)).step == RolledBack <==> RollsBack(w)
  {
    LastDecides(r, DeployScript(w));
    LastReaches(w, Completed);
    LastReaches(w, RolledBack);
  }

  /** The row as the cleanup leaves it: failed, with one error entry and without a completion time. */
  function GivenUp(r: Row): Row {
    r.(step := Failed, history := r.history + [Entry(Failed, Error)], finished := false)
  }

  // -------- what a deployment writes on its way --------

  /** The stages a deployment goes through, each written when it is entered and some again when they succeed. */
  function Pipeline(w: World): seq<Step> {
    (if w.files then [Syncing, Syncing] else []) + ((if w.judge.Says? then [Judging] else []) + STAGES)
  }

  const STAGES: seq<Step> := [Building, Building, StagingDeploying, StagingHealthy]

  /** How many of the build stages are written without an error. */
  function BuildStages(w: World): nat {
    if !w.buildOk then 1 else if !w.stagingUp || !w.stagingHealthy then 3 else 4
  }

  /** How many stages are written without an error. */
  function StopsAfter(w: World): (n: nat)
    ensures n <= |Pipeline(w)|
  {
    if w.files && !w.syncOk then 1
    else
      (if w.files then 2 else 0) + (if w.judge.Says? then 1 else 0) +
      if w.judge == Says(SkipDeploy) || w.judge == Says(Hold) then 0 else BuildStages(w)
  }

  function BuildEnding(w: World): seq<Update> {
    if !w.buildOk then [Update(Building, true)]
    else if !w.stagingUp || !w.stagingHealthy then
      [Update(StagingDeploying, true), Update(RollingBack, false), Update(RolledBack, !RollsBack(w))]
    else if w.devHealthy || w.devHealthyAfterRestart then [Update(Completed, false)]
    else [Update(Failed, true)]
  }

  /** What is written last: the stage that failed, with the rollback if staging was reached, or the decision. */
  function Ending(w: World): seq<Update> {
    if w.files && !w.syncOk then [Update(Syncing, true)]
    else if w.judge == Says(SkipDeploy) then [Update(Completed, false)]
    else if w.judge == Says(Hold) then [Update(OnHold, false)]
    else BuildEnding(w)
  }

  function Plain(steps: seq<Step>): seq<Update> {
    seq(|steps|, i requires 0 <= i < |steps| => Update(steps[i], false))
  }

  lemma PlainFirst(s: Step, steps: seq<Step>, n: nat, end: seq<Update>)
    requires n <= |steps|
    ensures [Update(s, false)] + (Plain(steps[..n]) + end) == Plain(([s] + steps)[..n + 1]) + end
  {
    assert ([s] + steps)[..n + 1] == [s] + steps[..n];
  }

  lemma StagesSpelledOut(n: nat)
    requires n <= 4
    ensures n == 0 ==> Plain(STAGES[..n]) == []
    ensures n == 1 ==> Plain(STAGES[..n]) == [Update(Building, false)]
    ensures n == 3 ==>
              Plain(STAGES[..n]) == [Update(Building, false), Update(Building, false), Update(StagingDeploying, false)]
    ensures n == 4 ==>
              Plain(STAGES[..n]) == [Update(Building, false), Update(Building, false), Update(StagingDeploying, false),
                                     Update(StagingHealthy, false)]
  {
  }

  lemma BuildWalks(w: World)
    requires (w.files ==> w.syncOk) && w.judge != Says(SkipDeploy) && w.judge != Says(Hold)
    ensures BuildScript(w) == Plain(STAGES[..BuildStages(w)]) + BuildEnding(w)
  {
    StagesSpelledOut(BuildStages(w));
  }

  lemma JudgeWalks(w: World)
    requires w.files ==> w.syncOk
    ensures var stages := (if w.judge.Says? then [Judging] else []) + STAGES;
            var n := StopsAfter(w) - if w.files then 2 else 0;
            JudgeScript(w) == Plain(stages[..n]) + Ending(w)
  {
    if w.judge == Says(SkipDeploy) || w.judge == Says(Hold) {
      PlainFirst(Judging, STAGES, 0, Ending(w));
    } else {
      BuildWalks(w);
      if w.judge.Says? {
        PlainFirst(Judging, STAGES, BuildStages(w), Ending(w));
      } else {
        assert [] + STAGES == STAGES;
      }
    }
  }

  /** A deployment goes down the pipeline, and what stops it is written last. */
  lemma WalksThePipeline(w: World)
    ensures DeployScript(w) == Plain(Pipeline(w)[..StopsAfter(w)]) + Ending(w)
  {
    var stages := (if w.judge.Says? then [Judging] else []) + STAGES;
    if w.files ==> w.syncOk {
      JudgeWalks(w);
      if w.files {
        var n := StopsAfter(w) - 2;
        PlainFirst(Syncing, stages, n, Ending(w));
        PlainFirst(Syncing, [Syncing] + stages, n + 1, Ending(w));
        assert [Syncing] + ([Syncing] + stages) == Pipeline(w);
      } else {
        assert [] + stages == stages;
      }
    }
  }

  /** Writing records exactly what is written: one entry for each update, with the stage and whether it failed. */
  lemma {:induction false} HistoryRecords(r: Row, us: seq<Update>)
    ensures |WriteAll(r, us).history| == |r.history| + |us| && WriteAll(r, us).history[..|r.history|] == r.history
    ensures forall i :: 0 <= i < |us| ==>
              WriteAll(r, us).history[|r.history| + i] == Entry(us[i].step, if us[i].error then Error else Done)
    decreases |us|
  {
    if us != [] {
      var w := Write(r, us[0]);
      HistoryRecords(w, us[1..]);
      assert WriteAll(r, us).history[..|w.history|] == w.history;
      forall i | 0 <= i < |us|
        ensures WriteAll(r, us).history[|r.history| + i] == Entry(us[i].step, if us[i].error then Error else Done)
      {
        if i == 0 {
          assert WriteAll(r, us).history[..|w.history|][|r.history|] == w.history[|r.history|];
        } else {
          assert us[i] == us[1..][i - 1];
        }
      }
    }
  }

  // -------- the answers of the deployment at work --------

  /** The answers of the deployment last begun. */
  function WorldAfter(w: World, a: Action): World {
    if a.Begin? then a.world else w
  }

  /** What a deployment has still to write is the rest of the script for its answers. */
  ghost predicate Tied(s: System, w: World) {
    s.phase.Deploying? ==>
      exists k :: 0 <= k <= |DeployScript(w)| && s.phase.rest == DeployScript(w)[k..]
  }

  lemma TiedStep(s: System, w: World, a: Action, z: System)
    requires Tied(s, w) && Next(s, a, z)
    ensures Tied(z, WorldAfter(w, a))
  {
    if a.Begin? && z.phase.Deploying? {
      assert z.phase.rest == DeployScript(a.world)[0..];
    } else if a.WriteOne? && s.phase.rest != [] {
      var k :| 0 <= k <= |DeployScript(w)| && s.phase.rest == DeployScript(w)[k..];
      assert z.phase.rest == DeployScript(w)[k + 1..];
    }
  }

  /** The step writes the last update of a deployment of the row whose answers reach the final step. */
  predicate Finishes(s: System, a: Action, id: DeploymentId, w: World, final: Step) {
    a.WriteOne? && s.phase.Deploying? && s.phase.id == id && |s.phase.rest| == 1 && Reaches(w, final)
  }

  predicate Shows(s: System, id: DeploymentId, final: Step) {
    id in s.rows && s.rows[id].step == final
  }

  lemma LastWriteReaches(us: seq<Update>, w: World, final: Step)
    requires us != [] && Proper(us) && (final == Completed || final == RolledBack)
    requires exists k :: 0 <= k <= |DeployScript(w)| && us == DeployScript(w)[k..]
    ensures Shown(us[0]) == final <==> |us| == 1 && Reaches(w, final)
  {
    LastReaches(w, final);
    if |us| == 1 { assert us[0] == Last(DeployScript(w)); }
  }

  lemma WriteReaches(s: System, w: World, z: System, id: DeploymentId, final: Step)
    requires Inv(s) && Tied(s, w) && Next(s, WriteOne, z) && (final == Completed || final == RolledBack)
    ensures Shows(z, id, final) <==> Finishes(s, WriteOne, id, w, final) || Shows(s, id, final)
  {
    if s.phase.id == id && s.phase.rest != [] {
      LastWriteReaches(s.phase.rest, w, final);
    }
  }

  lemma CleanedFails(s: System, z: System, id: DeploymentId)
    requires Inv(s) && Next(s, CleanOne, z) && id in s.rows && z.rows[id] != s.rows[id]
    ensures InFlight(s.rows[id].step) && z.rows[id] == GivenUp(s.rows[id])
  {
    RowFrame(s, CleanOne, z, id);
  }

  lemma LookedAtIsSkipped(s: System, z: System, id: DeploymentId)
    requires Inv(s) && Next(s, LookAtOne, z) && id in s.rows && z.rows[id] != s.rows[id]
    ensures s.rows[id].step == CodeCommitted && z.rows[id].step == Skipped
  {
    RowFrame(s, LookAtOne, z, id);
  }

  lemma OthersFinishNothing(s: System, a: Action, z: System, id: DeploymentId, final: Step)
    requires Inv(s) && Next(s, a, z) && !a.WriteOne? && (final == Completed || final == RolledBack)
    ensures Shows(z, id, final) <==> Shows(s, id, final)
  {
    RowFrame(s, a, z, id);
    if id in s.rows && z.rows[id] != s.rows[id] {
      if a.CleanOne? { CleanedFails(s, z, id); } else { LookedAtIsSkipped(s, z, id); }
    }
  }

  lemma FinishingStep(s: System, w: World, a: Action, z: System, id: DeploymentId, final: Step)
    requires Inv(s) && Tied(s, w) && Next(s, a, z) && (final == Completed || final == RolledBack)
    ensures Shows(z, id, final) <==> Finishes(s, a, id, w, final) || Shows(s, id, final)
  {
    if a.WriteOne? {
      WriteReaches(s, w, z, id, final);
    } else {
      OthersFinishNothing(s, a, z, id, final);
    }
  }

  /** Somewhere in the run the last update is written of a deployment of the row, and the answers given when that
      deployment was begun reach the final step. */
  ghost predicate FinishesIn(s: System, acts: seq<Action>, id: DeploymentId, w: World, final: Step)
    decreases |acts|
  {
    && acts != [] && WellFormed(s) && Enabled(s, acts[0])
    && (Finishes(s, acts[0], id, w, final)
        || FinishesIn(Apply(s, acts[0]), acts[1..], id, WorldAfter(w, acts[0]), final))
  }

  lemma {:induction false} FinalIff(s: System, w: World, acts: seq<Action>, z: System, id: DeploymentId, final: Step)
    requires Inv(s) && Tied(s, w) && Runs(s, acts, z) && (final == Completed || final == RolledBack)
    ensures Shows(z, id, final) <==> FinishesIn(s, acts, id, w, final) || Shows(s, id, final)
    decreases |acts|
  {
    if acts != [] {
      var a, m := acts[0], Apply(s, acts[0]);
      StepKeeps(s, a, m);
      TiedStep(s, w, a, m);
      FinishingStep(s, w, a, m, id, final);
      FinalIff(m, WorldAfter(w, a), acts[1..], z, id, final);
    }
  }

  /** A row is reported completed exactly if a deployment of it was written to its end whose answers complete it,
      and rolled back exactly if one was whose answers roll it back. A deployment that was killed, abandoned or
      cleaned up is reported as neither. `w` stands for the answers before the first deployment. */
  lemma ReportedIff(s0: System, acts: seq<Action>, z: System, id: DeploymentId, w: World)
    requires Fresh(s0) && Runs(s0, acts, z)
    ensures Shows(z, id, Completed) <==> FinishesIn(s0, acts, id, w, Completed)
    ensures Shows(z, id, RolledBack) <==> FinishesIn(s0, acts, id, w, RolledBack)
  {
    FinalIff(s0, w, acts, z, id, Completed);
    FinalIff(s0, w, acts, z, id, RolledBack);
  }

  // -------- what the cleanup leaves --------

  /** The cleanup has the row before it, or has given it up. */
  predicate BeingCleaned(s: System, id: DeploymentId, r: Row) {
    && id in s.rows
    && (s.phase.Idle? || s.phase.Cleaning?)
    && (if s.phase.Cleaning? && id in s.phase.todo then s.rows[id] == r else s.rows[id] == GivenUp(r))
  }

  lemma CleaningStep(s: System, a: Action, z: System, id: DeploymentId, r: Row)
    requires Inv(s) && Next(s, a, z) && Smooth(a) && BeingCleaned(s, id, r) && !r.finished
    ensures BeingCleaned(z, id, r)
  {
    RowFrame(s, a, z, id);
    if a.CleanOne? { TailDistinct(s.phase.todo); }
  }

  lemma {:induction false} CleaningRun(s: System, acts: seq<Action>, z: System, id: DeploymentId, r: Row)
    requires Inv(s) && Runs(s, acts, z) && (forall i :: 0 <= i < |acts| ==> Smooth(acts[i]))
    requires BeingCleaned(s, id, r) && !r.finished
    ensures BeingCleaned(z, id, r)
    decreases |acts|
  {
    if acts != [] {
      var m := Apply(s, acts[0]);
      StepKeeps(s, acts[0], m);
      CleaningStep(s, acts[0], m, id, r);
      CleaningRun(m, acts[1..], z, id, r);
    }
  }

  lemma RestartFindsIt(s: System, m: System, id: DeploymentId)
    requires Inv(s) && Next(s, Restart, m) && id in s.rows && InFlight(s.rows[id].step)
    ensures BeingCleaned(m, id, s.rows[id]) && !s.rows[id].finished
  {
  }

  /** A row that a dead process left in flight is given up by the next start that gets through its cleanup. */
  lemma InterruptedRowFails(s0: System, before: seq<Action>, s: System, m: System, acts: seq<Action>, z: System,
                            id: DeploymentId)
    requires Fresh(s0) && Runs(s0, before, s) && Next(s, Restart, m)
    requires Runs(m, acts, z) && (forall i :: 0 <= i < |acts| ==> Smooth(acts[i])) && z.phase.Idle?
    requires id in s.rows && InFlight(s.rows[id].step)
    ensures id in z.rows && z.rows[id].step == Failed && !z.rows[id].finished
    ensures z.rows[id].history == s.rows[id].history + [Entry(Failed, Error)]
  {
    RunKeeps(s0, before, s);
    StepKeeps(s, Restart, m);
    RestartFindsIt(s, m, id);
    CleaningRun(m, acts, z, id, s.rows[id]);
  }

  // -------- what can interrupt the supervisor --------

  /** The process may be killed at any time; it leaves every row as it is. */
  lemma KillLeavesTheRows(s: System, z: System)
    requires WellFormed(s)
    ensures Enabled(s, Kill)
    ensures z == Apply(s, Kill) ==> z.phase.Down? && z.rows == s.rows && z.order == s.order
  {
  }

  /** An exception while it cleans up, lists or deploys leaves the rows too, and the supervisor waits for the next
      poll. */
  lemma RaiseLeavesTheRows(s: System, z: System)
    requires WellFormed(s) && !s.phase.Down? && !s.phase.Idle?
    ensures Enabled(s, Raise)
    ensures z == Apply(s, Raise) ==> z.phase.Idle? && z.rows == s.rows && z.order == s.order
  {
  }

  /** What a commit records may break off after either of its two steps; then the row is failed at once. */
  lemma CommitsMayBreak(s: System, id: DeploymentId, project: string, z: System)
    requires WellFormed(s) && id !in s.rows
    ensures forall recorded :: 0 <= recorded <= 2 ==> Enabled(s, Commit(id, recorded, true, project))
    ensures Enabled(s, Commit(id, 2, false, project))
    ensures z == Apply(s, Commit(id, 2, false, project)) ==>
              z.order == s.order + [id] && z.rows == s.rows[id := z.rows[id]]
              && z.rows[id].step == CodeCommitted && z.rows[id].project == project && !z.rows[id].finished
              && z.rows[id].history == [Entry(FilesWritten, Done), Entry(CodeCommitted, Done)]
  {
  }

  /** A request carries the project that its caller names, and the unassigned one if none is named. */
  lemma SubmittedProjectIs(named: string)
    ensures SubmittedProject(named) == if named == "" then "proj-unassigned" else named
  {
  }
}
