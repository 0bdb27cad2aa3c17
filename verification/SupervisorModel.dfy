/** The deployment supervisor: one row and an append-only history per deployment. Commands, health
    checks and the deployment judge are answers collected in a `World`. */
module SupervisorModel {

  type DeploymentId(==, !new)

  datatype Step =
    | FilesWritten | CodeCommitted | Syncing | Judging | Building | StagingDeploying | StagingHealthy
    | ProdDeploying | ProdHealthy | RollingBack | RolledBack | Completed | Failed | OnHold
    | Skipped | SupervisorSkipped

  datatype Mark = Done | Error | Skip

  datatype Entry = Entry(step: Step, mark: Mark)

  /** `finished` says whether the row carries a completion time; `project` is the project of the
      underlying request, empty when the request has none. */
  datatype Row = Row(step: Step, history: seq<Entry>, finished: bool, project: string)

  /** One call of `update_step`, with or without an error message. */
  datatype Update = Update(step: Step, error: bool)

  /** The steps a row is in while the supervisor works on it. */
  predicate InFlight(s: Step) {
    match s
    case Judging | Syncing | Building | StagingDeploying | StagingHealthy | ProdDeploying | RollingBack => true
    case _ => false
  }

  predicate Resting(s: Step) {
    s == Completed || s == OnHold || s == Failed || s == RolledBack || s == Skipped
  }

  /** The steps that carry a completion time. */
  predicate Finishing(s: Step) {
    s == Completed || s == RolledBack || s == Skipped
  }

  predicate Committed(s: Step) {
    s == CodeCommitted
  }

  const UNASSIGNED: string := "proj-unassigned"

  function Shown(u: Update): Step {
    if u.error then Failed else u.step
  }

  /** A row rewritten by one update. */
  function Write(r: Row, u: Update): Row {
    r.(step := Shown(u),
       history := r.history + [Entry(u.step, if u.error then Error else Done)],
       finished := r.finished || (!u.error && (u.step == Completed || u.step == RolledBack)))
  }

  function WriteAll(r: Row, us: seq<Update>): Row
    decreases |us|
  {
    if us == [] then r else WriteAll(Write(r, us[0]), us[1..])
  }

  function MarkSkipped(r: Row): Row {
    r.(step := Skipped, history := r.history + [Entry(SupervisorSkipped, Skip)], finished := true)
  }

  /** The row a commit leaves: published, or broken after recording some of its two steps. */
  function CommitRow(recorded: nat, broke: bool, project: string): Row
    requires recorded <= 2 && (!broke ==> recorded == 2)
  {
    Row(if broke then Failed else CodeCommitted,
        [Entry(FilesWritten, Done), Entry(CodeCommitted, Done)][..recorded]
        + (if broke then [Entry(Failed, Error)] else []),
        false, project)
  }

  /** The project a submitted request carries: the unassigned one when the caller names none. */
  function SubmittedProject(project: string): string {
    if project == "" then UNASSIGNED else project
  }

  datatype Strategy = SkipDeploy | Hold | StagingOnly | Full

  /** The judge module may fail to import; then the deployment goes on without it. */
  datatype Judge = Unavailable | Says(strategy: Strategy)

  /** `known` says whether both commit hashes are known; without them nothing is reverted. */
  datatype RollbackWorld = RollbackWorld(
    known: bool, headMatches: bool, resetOk: bool, revertOk: bool, pushOk: bool,
    rebuildOk: bool, upOk: bool, healthy: bool)

  datatype World = World(
    files: bool, syncOk: bool, judge: Judge, buildOk: bool, stagingUp: bool, stagingHealthy: bool,
    devHealthy: bool, devHealthyAfterRestart: bool, back: RollbackWorld)

  predicate RollbackWorks(b: RollbackWorld) {
    (b.known ==> (b.headMatches || b.resetOk) && b.revertOk && b.pushOk) && b.rebuildOk && b.upOk && b.healthy
  }

  function RollbackScript(b: RollbackWorld): seq<Update> {
    [Update(RollingBack, false), Update(RolledBack, !RollbackWorks(b))]
  }

  function DevScript(w: World): seq<Update> {
    if w.devHealthy || w.devHealthyAfterRestart then [Update(Completed, false)] else [Update(Failed, true)]
  }

  function StagingScript(w: World): seq<Update> {
    if !w.stagingUp || !w.stagingHealthy then [Update(StagingDeploying, true)] + RollbackScript(w.back)
    else [Update(StagingHealthy, false)] + DevScript(w)
  }

  function BuildScript(w: World): seq<Update> {
    [Update(Building, false)] +
    if !w.buildOk then [Update(Building, true)]
    else [Update(Building, false)] + ([Update(StagingDeploying, false)] + StagingScript(w))
  }

  function JudgeScript(w: World): seq<Update> {
    if w.judge.Unavailable? then BuildScript(w)
    else
      [Update(Judging, false)] +
      match w.judge.strategy
      case SkipDeploy => [Update(Completed, false)]
      case Hold => [Update(OnHold, false)]
      case StagingOnly => BuildScript(w)
      case Full => BuildScript(w)
  }

  /** Every row update of one deployment, in order, for one set of answers. */
  function DeployScript(w: World): seq<Update> {
    if w.files then
      [Update(Syncing, false)] +
      if !w.syncOk then [Update(Syncing, true)] else [Update(Syncing, false)] + JudgeScript(w)
    else JudgeScript(w)
  }

  /** What the last history entry says the step is; without entries the step a new row starts with. */
  function Replay(history: seq<Entry>): Step {
    if history == [] then CodeCommitted
    else
      var last := history[|history| - 1];
      match last.mark
      case Error => Failed
      case Skip => Skipped
      case Done => last.step
  }

  predicate RowOk(r: Row) {
    && r.step == Replay(r.history)
    && (r.finished <==> Finishing(r.step))
  }

  lemma WriteFirst(r: Row, u: Update, rest: seq<Update>)
    ensures WriteAll(r, [u] + rest) == WriteAll(Write(r, u), rest)
  {
    assert ([u] + rest)[1..] == rest;
  }

  // -------- what a script looks like --------

  /** Nothing but in-flight or resting steps, finishing at most at the end, and the end rests. */
  predicate Proper(us: seq<Update>) {
    && (forall i :: 0 <= i < |us| ==> InFlight(Shown(us[i])) || Resting(Shown(us[i])))
    && (forall i :: 0 <= i < |us| - 1 ==> !Finishing(Shown(us[i])))
    && (us != [] ==> Resting(Shown(us[|us| - 1])) && Shown(us[|us| - 1]) != Skipped)
  }

  lemma ProperFirst(u: Update, us: seq<Update>)
    requires Proper(us) && us != [] && (InFlight(Shown(u)) || Shown(u) == Failed)
    ensures Proper([u] + us)
  {
    var all := [u] + us;
    forall i | 0 <= i < |all| ensures InFlight(Shown(all[i])) || Resting(Shown(all[i])) {
      assert i > 0 ==> all[i] == us[i - 1];
    }
    forall i | 0 <= i < |all| - 1 ensures !Finishing(Shown(all[i])) {
      assert i > 0 ==> all[i] == us[i - 1];
    }
  }

  lemma BuildIsProper(w: World)
    ensures Proper(BuildScript(w)) && BuildScript(w) != []
  {
    if w.buildOk {
      if !w.stagingUp || !w.stagingHealthy {
        assert Proper(RollbackScript(w.back));
        ProperFirst(Update(StagingDeploying, true), RollbackScript(w.back));
      } else {
        assert Proper(DevScript(w));
        ProperFirst(Update(StagingHealthy, false), DevScript(w));
      }
      ProperFirst(Update(StagingDeploying, false), StagingScript(w));
      ProperFirst(Update(Building, false), [Update(StagingDeploying, false)] + StagingScript(w));
      ProperFirst(Update(Building, false),
        [Update(Building, false)] + ([Update(StagingDeploying, false)] + StagingScript(w)));
    }
  }

  lemma JudgeIsProper(w: World)
    ensures Proper(JudgeScript(w)) && JudgeScript(w) != []
  {
    BuildIsProper(w);
    if w.judge.Says? && w.judge.strategy in {StagingOnly, Full} {
      ProperFirst(Update(Judging, false), BuildScript(w));
    }
  }

  lemma ScriptIsProper(w: World)
    ensures Proper(DeployScript(w)) && DeployScript(w) != []
  {
    JudgeIsProper(w);
    if w.files && w.syncOk {
      ProperFirst(Update(Syncing, false), JudgeScript(w));
      ProperFirst(Update(Syncing, false), [Update(Syncing, false)] + JudgeScript(w));
    }
  }

  lemma {:induction false} LastDecides(r: Row, us: seq<Update>)
    requires us != []
    ensures WriteAll(r, us).step == Shown(Last(us))
    decreases |us|
  {
    if |us| > 1 { LastDecides(Write(r, us[0]), us[1..]); }
  }

  /** The images are built and staging is attempted. */
  predicate ReachesStaging(w: World) {
    (w.files ==> w.syncOk) && (w.judge.Says? ==> w.judge.strategy in {StagingOnly, Full}) && w.buildOk
  }

  predicate StagingFails(w: World) {
    ReachesStaging(w) && (!w.stagingUp || !w.stagingHealthy)
  }

  function Last(us: seq<Update>): Update
    requires us != []
  {
    us[|us| - 1]
  }

  lemma LastBehind(u: Update, us: seq<Update>)
    requires us != []
    ensures Last([u] + us) == Last(us)
  {
  }

  lemma LastOfBuild(w: World)
    ensures BuildScript(w) != []
    ensures Last(BuildScript(w)) ==
              if !w.buildOk then Update(Building, true)
              else if !w.stagingUp || !w.stagingHealthy then Update(RolledBack, !RollbackWorks(w.back))
              else if w.devHealthy || w.devHealthyAfterRestart then Update(Completed, false)
              else Update(Failed, true)
  {
    if w.buildOk {
      var deploying := [Update(StagingDeploying, false)] + StagingScript(w);
      LastBehind(Update(StagingDeploying, false), StagingScript(w));
      LastBehind(Update(Building, false), deploying);
      LastBehind(Update(Building, false), [Update(Building, false)] + deploying);
    }
  }

  lemma LastOfJudge(w: World)
    ensures JudgeScript(w) != []
    ensures Last(JudgeScript(w)) ==
              if w.judge == Says(SkipDeploy) then Update(Completed, false)
              else if w.judge == Says(Hold) then Update(OnHold, false)
              else Last(BuildScript(w))
  {
    LastOfBuild(w);
    if w.judge.Says? && w.judge.strategy in {StagingOnly, Full} { LastBehind(Update(Judging, false), BuildScript(w)); }
  }

  /** The last update of a deployment. */
  function Outcome(w: World): Update {
    if w.files && !w.syncOk then Update(Syncing, true)
    else if w.judge == Says(SkipDeploy) then Update(Completed, false)
    else if w.judge == Says(Hold) then Update(OnHold, false)
    else if !w.buildOk then Update(Building, true)
    else if StagingFails(w) then Update(RolledBack, !RollbackWorks(w.back))
    else if w.devHealthy || w.devHealthyAfterRestart then Update(Completed, false)
    else Update(Failed, true)
  }

  lemma LastOf(w: World)
    ensures DeployScript(w) != []
    ensures Last(DeployScript(w)) == Outcome(w)
  {
    LastOfBuild(w);
    LastOfJudge(w);
    if w.files && w.syncOk {
      LastBehind(Update(Syncing, false), JudgeScript(w));
      LastBehind(Update(Syncing, false), [Update(Syncing, false)] + JudgeScript(w));
    }
  }

  /** For all answers an uninterrupted deployment comes to rest, and exactly when in which step. */
  lemma DeployOutcome(r: Row, w: World)
    ensures var s := WriteAll(r, DeployScript(w)).step;
            && s in {Completed, OnHold, Failed, RolledBack}
            && (s == OnHold <==> (w.files ==> w.syncOk) && w.judge == Says(Hold))
            && (s == RolledBack <==> StagingFails(w) && RollbackWorks(w.back))
            && (s == Completed <==>
                || ((w.files ==> w.syncOk) && w.judge == Says(SkipDeploy))
                || (ReachesStaging(w) && !StagingFails(w) && (w.devHealthy || w.devHealthyAfterRestart)))
  {
    LastOf(w);
    LastDecides(r, DeployScript(w));
    ShownOutcome(w, Last(DeployScript(w)));
  }

  lemma ShownOutcome(w: World, u: Update)
    requires u == Outcome(w)
    ensures Shown(u) in {Completed, OnHold, Failed, RolledBack}
    ensures Shown(u) == OnHold <==> (w.files ==> w.syncOk) && w.judge == Says(Hold)
    ensures Shown(u) == RolledBack <==> StagingFails(w) && RollbackWorks(w.back)
    ensures Shown(u) == Completed <==>
            || ((w.files ==> w.syncOk) && w.judge == Says(SkipDeploy))
            || (ReachesStaging(w) && !StagingFails(w) && (w.devHealthy || w.devHealthyAfterRestart))
  {
    match w.judge
    case Unavailable =>
    case Says(SkipDeploy) =>
    case Says(Hold) =>
    case Says(StagingOnly) =>
    case Says(Full) =>
  }

  /** A rollback is begun exactly if told, and then it is the last thing. */
  ghost predicate RollsBackLast(us: seq<Update>, told: bool) {
    && (Update(RollingBack, false) in us <==> told)
    && forall i :: 0 <= i < |us| && us[i].step == RollingBack ==> i == |us| - 2
  }

  lemma RollsBackLater(u: Update, us: seq<Update>, told: bool)
    requires RollsBackLast(us, told) && u.step != RollingBack
    ensures RollsBackLast([u] + us, told)
  {
    var all := [u] + us;
    assert forall i :: 0 < i < |all| ==> all[i] == us[i - 1];
    if told { assert all[|us| - 1] == us[|us| - 2]; }
  }

  lemma BuildRollsBack(w: World)
    ensures RollsBackLast(BuildScript(w), w.buildOk && (!w.stagingUp || !w.stagingHealthy))
  {
    if w.buildOk {
      var fails := !w.stagingUp || !w.stagingHealthy;
      StagingRollsBack(w);
      RollsBackLater(Update(StagingDeploying, false), StagingScript(w), fails);
      RollsBackLater(Update(Building, false), [Update(StagingDeploying, false)] + StagingScript(w), fails);
      RollsBackLater(Update(Building, false),
        [Update(Building, false)] + ([Update(StagingDeploying, false)] + StagingScript(w)), fails);
    }
  }

  lemma StagingRollsBack(w: World)
    ensures RollsBackLast(StagingScript(w), !w.stagingUp || !w.stagingHealthy)
  {
    if !w.stagingUp || !w.stagingHealthy {
      assert RollbackScript(w.back)[0] == Update(RollingBack, false);
      RollsBackLater(Update(StagingDeploying, true), RollbackScript(w.back), true);
    }
  }

  lemma JudgeRollsBack(w: World)
    ensures RollsBackLast(JudgeScript(w),
                          (w.judge.Says? ==> w.judge.strategy in {StagingOnly, Full}) && w.buildOk &&
                          (!w.stagingUp || !w.stagingHealthy))
  {
    BuildRollsBack(w);
    if w.judge.Says? && w.judge.strategy in {StagingOnly, Full} {
      RollsBackLater(Update(Judging, false), BuildScript(w), w.buildOk && (!w.stagingUp || !w.stagingHealthy));
    }
  }

  lemma SyncedRollsBack(us: seq<Update>, told: bool)
    requires RollsBackLast(us, told)
    ensures RollsBackLast([Update(Syncing, false)] + ([Update(Syncing, false)] + us), told)
  {
    RollsBackLater(Update(Syncing, false), us, told);
    RollsBackLater(Update(Syncing, false), [Update(Syncing, false)] + us, told);
  }

  lemma DeployRollsBack(w: World)
    ensures RollsBackLast(DeployScript(w), StagingFails(w))
  {
    JudgeRollsBack(w);
    if w.files && w.syncOk { SyncedRollsBack(JudgeScript(w), StagingFails(w)); }
  }

  /** A rollback is begun exactly when staging was reached and failed, and then it is the last thing. */
  lemma RollbackIffStagingFails(w: World)
    ensures Update(RollingBack, false) in DeployScript(w) <==> StagingFails(w)
    ensures forall i :: 0 <= i < |DeployScript(w)| && DeployScript(w)[i].step == RollingBack ==>
              i == |DeployScript(w)| - 2
  {
    DeployRollsBack(w);
  }

  /** The rollback is not safe against a kill: the row already says failed before the rollback begins,
      so a restart in between leaves the change in place and the row at rest. */
  lemma KilledBeforeRollback(r: Row, w: World)
    requires StagingFails(w)
    ensures exists k :: 0 <= k <= |DeployScript(w)| && WriteAll(r, DeployScript(w)[..k]).step == Failed
                        && Update(RollingBack, false) !in DeployScript(w)[..k]
  {
    RollbackIffStagingFails(w);
    var us := DeployScript(w);
    var k := |us| - 2;
    assert us[k - 1] == Update(StagingDeploying, true);
    LastDecides(r, us[..k]);
    assert forall i :: 0 <= i < k ==> us[i].step != RollingBack;
  }
}
