/** The supervisor's own procedures over the deployment table. */
module SupervisorStore {
  import opened Common
  import opened SupervisorModel
  import opened SupervisorOutcomes
  import opened SupervisorRuns

  /** What a poll makes of one row. */
  function Served(r: Row, w: World): Row {
    if r.step != CodeCommitted then r
    else if r.project != "" then MarkSkipped(r)
    else WriteAll(r, DeployScript(w))
  }

  /** What the listing of pending rows makes of one row. */
  function Listed(r: Row): Row {
    if r.step == CodeCommitted && r.project != "" then MarkSkipped(r) else r
  }

  function Cleaned(r: Row): Row {
    if InFlight(r.step) then Write(r, CLEANUP) else r
  }

  lemma CleanedRow(r: Row)
    ensures !InFlight(r.step) ==> Cleaned(r) == r
    ensures InFlight(r.step) ==>
              && Cleaned(r).step == Failed && Cleaned(r).project == r.project
              && Cleaned(r).history == r.history + [Entry(Failed, Error)]
              && (RowFine(r) ==> !Cleaned(r).finished)
  {
  }

  /** After a restart's cleanup and one poll every row that the system can hold is at rest. */
  lemma CleanupThenPollRests(r: Row, w: World)
    requires RowFine(r)
    ensures Resting(Served(Cleaned(r), w).step)
  {
    DeployOutcome(r, w);
  }

  /** Those without a project, in order. */
  function Platform(rows: map<DeploymentId, Row>, ids: seq<DeploymentId>): (r: seq<DeploymentId>)
    requires forall id :: id in ids ==> id in rows
    ensures forall id :: id in r <==> id in ids && rows[id].project == ""
  {
    if ids == [] then []
    else if rows[ids[0]].project == "" then [ids[0]] + Platform(rows, ids[1..])
    else Platform(rows, ids[1..])
  }

  lemma {:induction false} PlatformDistinct(rows: map<DeploymentId, Row>, ids: seq<DeploymentId>)
    requires (forall id :: id in ids ==> id in rows) && Distinct(ids)
    ensures Distinct(Platform(rows, ids))
  {
    if ids != [] {
      TailDistinct(ids);
      PlatformDistinct(rows, ids[1..]);
      if rows[ids[0]].project == "" { PrependDistinct(ids[0], Platform(rows, ids[1..])); }
    }
  }

  class DeploySupervisor {
    var rows: map<DeploymentId, Row>
    var order: seq<DeploymentId>

    ghost predicate Valid()
      reads this
    {
      Distinct(order) && (forall id :: id in order ==> id in rows) && (forall id :: id in rows ==> id in order)
    }

    constructor ()
      ensures Valid() && rows == map[]
    {
      rows, order := map[], [];
    }

    method UpdateStep(id: DeploymentId, step: Step, error: bool)
      requires Valid() && id in rows
      modifies this`rows
      ensures Valid()
      ensures rows == old(rows)[id := Write(old(rows)[id], Update(step, error))]
    {
      var r := rows[id];
      var history := r.history + [Entry(step, if error then Error else Done)];
      if error {
        rows := rows[id := r.(step := Failed, history := history)];
      } else if step == Completed || step == RolledBack {
        rows := rows[id := r.(step := step, history := history, finished := true)];
      } else {
        rows := rows[id := r.(step := step, history := history)];
      }
    }

    method MarkProjectCommitSkipped(id: DeploymentId)
      requires Valid() && id in rows
      modifies this`rows
      ensures Valid()
      ensures rows == old(rows)[id := MarkSkipped(old(rows)[id])]
      ensures rows[id].step == Skipped && rows[id].finished && rows[id].project == old(rows)[id].project
      ensures rows[id].history == old(rows)[id].history + [Entry(SupervisorSkipped, Skip)]
    {
      var r := rows[id];
      rows := rows[id := r.(step := Skipped, history := r.history + [Entry(SupervisorSkipped, Skip)],
        finished := true)];
    }

    /** Every row in flight fails, with one error entry more and no completion time; the others stay. */
    method CleanupStaleInflightRows() returns (n: nat)
      requires Valid()
      modifies this`rows
      ensures Valid()
      ensures n == |InSteps(old(rows), order, InFlight)|
      ensures rows.Keys == old(rows).Keys
      ensures forall id :: id in rows && !InFlight(old(rows)[id].step) ==> rows[id] == old(rows)[id]
      ensures forall id :: id in rows && InFlight(old(rows)[id].step) ==>
                && rows[id].step == Failed && rows[id].project == old(rows)[id].project
                && rows[id].history == old(rows)[id].history + [Entry(Failed, Error)]
                && (RowFine(old(rows)[id]) ==> !rows[id].finished)
      ensures forall id :: id in rows ==> rows[id] == Cleaned(old(rows)[id])
    {
      n := FailAll(InSteps(rows, order, InFlight));
      forall id | id in rows
        ensures !InFlight(old(rows)[id].step) ==> rows[id] == old(rows)[id]
        ensures InFlight(old(rows)[id].step) ==>
                  && rows[id].step == Failed && rows[id].project == old(rows)[id].project
                  && rows[id].history == old(rows)[id].history + [Entry(Failed, Error)]
                  && (RowFine(old(rows)[id]) ==> !rows[id].finished)
      {
        CleanedRow(old(rows)[id]);
      }
    }

    method FailAll(stale: seq<DeploymentId>) returns (n: nat)
      requires Valid() && stale == InSteps(rows, order, InFlight)
      modifies this`rows
      ensures Valid() && n == |stale| && rows.Keys == old(rows).Keys
      ensures forall id :: id in rows ==> rows[id] == Cleaned(old(rows)[id])
    {
      var todo := stale;
      n := |todo|;
      InStepsDistinct(rows, order, InFlight);
      while todo != []
        invariant Valid() && rows.Keys == old(rows).Keys && Distinct(todo)
        invariant forall id :: id in todo ==> id in rows && rows[id] == old(rows)[id] && InFlight(rows[id].step)
        invariant forall id :: id in rows && id !in todo ==> rows[id] == Cleaned(old(rows)[id])
        decreases |todo|
      {
        var id := todo[0];
        UpdateStep(id, Failed, true);
        TailDistinct(todo);
        todo := todo[1..];
      }
    }

    /** The committed rows without a project, in start order; those with one are skipped. */
    method GetPendingDeployments() returns (pending: seq<DeploymentId>)
      requires Valid()
      modifies this`rows
      ensures Valid() && rows.Keys == old(rows).Keys && Distinct(pending)
      ensures pending == Platform(old(rows), InSteps(old(rows), order, Committed))
      ensures forall id ::
                id in pending <==> id in rows && old(rows)[id].step == CodeCommitted && old(rows)[id].project == ""
      ensures forall id :: id in rows ==> rows[id] == Listed(old(rows)[id])
    {
      ghost var found := InSteps(rows, order, Committed);
      InStepsDistinct(rows, order, Committed);
      PlatformDistinct(rows, found);
      pending := SkipProjects(InSteps(rows, order, Committed));
    }

    method SkipProjects(found: seq<DeploymentId>) returns (pending: seq<DeploymentId>)
      requires Valid() && Distinct(found)
      requires forall id :: id in found <==> id in rows && rows[id].step == CodeCommitted
      modifies this`rows
      ensures Valid() && rows.Keys == old(rows).Keys && pending == Platform(old(rows), found)
      ensures forall id :: id in rows ==> rows[id] == Listed(old(rows)[id])
    {
      var todo := found;
      pending := [];
      while todo != []
        invariant Valid() && rows.Keys == old(rows).Keys && Distinct(todo)
        invariant forall id :: id in todo ==> id in rows && rows[id] == old(rows)[id] && rows[id].step == CodeCommitted
        invariant forall id :: id in rows && id !in todo ==> rows[id] == Listed(old(rows)[id])
        invariant pending + Platform(old(rows), todo) == Platform(old(rows), found)
        decreases |todo|
      {
        var id := todo[0];
        TailDistinct(todo);
        todo := todo[1..];
        if rows[id].project != "" {
          MarkProjectCommitSkipped(id);
        } else {
          Assoc(pending, [id], Platform(old(rows), todo));
          pending := pending + [id];
        }
      }
    }

    /** Reverts the commit, rebuilds and restarts; any failing step ends the attempt. */
    method Rollback(id: DeploymentId, b: RollbackWorld)
      requires Valid() && id in rows
      modifies this`rows
      ensures Valid()
      ensures rows == old(rows)[id := WriteAll(old(rows)[id], RollbackScript(b))]
    {
      UpdateStep(id, RollingBack, false);
      WriteFirst(old(rows)[id], Update(RollingBack, false), [Update(RolledBack, !RollbackWorks(b))]);
      if b.known {
        if !b.headMatches {
          if !b.resetOk {
            UpdateStep(id, RolledBack, true);
            return;
          }
        }
        if !b.revertOk {
          UpdateStep(id, RolledBack, true);
          return;
        }
        if !b.pushOk {
          UpdateStep(id, RolledBack, true);
          return;
        }
      }
      if !b.rebuildOk {
        UpdateStep(id, RolledBack, true);
        return;
      }
      if !b.upOk {
        UpdateStep(id, RolledBack, true);
        return;
      }
      if b.healthy {
        UpdateStep(id, RolledBack, false);
      } else {
        UpdateStep(id, RolledBack, true);
      }
    }

    /** The whole pipeline of one deployment. */
    method Deploy(id: DeploymentId, w: World)
      requires Valid() && id in rows
      modifies this`rows
      ensures Valid()
      ensures rows[id].step == Completed <==> Completes(w)
      ensures rows[id].step == RolledBack <==> RollsBack(w)
      ensures rows == old(rows)[id := WriteAll(old(rows)[id], DeployScript(w))]
    {
      ghost var r := rows[id];
      if w.files {
        UpdateStep(id, Syncing, false);
        if !w.syncOk {
          UpdateStep(id, Syncing, true);
          WriteFirst(r, Update(Syncing, false), [Update(Syncing, true)]);
          DeploymentEnds(r, w);
          return;
        }
        UpdateStep(id, Syncing, false);
        WriteFirst(r, Update(Syncing, false), [Update(Syncing, false)] + JudgeScript(w));
        WriteFirst(Write(r, Update(Syncing, false)), Update(Syncing, false), JudgeScript(w));
        assert DeployScript(w) == [Update(Syncing, false)] + ([Update(Syncing, false)] + JudgeScript(w));
      }
      JudgeAndDeploy(id, w);
      DeploymentEnds(r, w);
    }

    method JudgeAndDeploy(id: DeploymentId, w: World)
      requires Valid() && id in rows
      modifies this`rows
      ensures Valid()
      ensures rows == old(rows)[id := WriteAll(old(rows)[id], JudgeScript(w))]
    {
      ghost var r := rows[id];
      if w.judge.Says? {
        UpdateStep(id, Judging, false);
        if w.judge.strategy == SkipDeploy {
          UpdateStep(id, Completed, false);
          WriteFirst(r, Update(Judging, false), [Update(Completed, false)]);
          return;
        }
        if w.judge.strategy == Hold {
          UpdateStep(id, OnHold, false);
          WriteFirst(r, Update(Judging, false), [Update(OnHold, false)]);
          return;
        }
        WriteFirst(r, Update(Judging, false), BuildScript(w));
      }
      BuildAndDeploy(id, w);
    }

    method BuildAndDeploy(id: DeploymentId, w: World)
      requires Valid() && id in rows
      modifies this`rows
      ensures Valid()
      ensures rows == old(rows)[id := WriteAll(old(rows)[id], BuildScript(w))]
    {
      ghost var r := rows[id];
      UpdateStep(id, Building, false);
      if !w.buildOk {
        UpdateStep(id, Building, true);
        WriteFirst(r, Update(Building, false), [Update(Building, true)]);
        return;
      }
      UpdateStep(id, Building, false);
      UpdateStep(id, StagingDeploying, false);
      ghost var built := Write(Write(r, Update(Building, false)), Update(Building, false));
      WriteFirst(r, Update(Building, false),
        [Update(Building, false)] + ([Update(StagingDeploying, false)] + StagingScript(w)));
      WriteFirst(Write(r, Update(Building, false)), Update(Building, false),
        [Update(StagingDeploying, false)] + StagingScript(w));
      WriteFirst(built, Update(StagingDeploying, false), StagingScript(w));
      StageAndRebuild(id, w);
    }

    method StageAndRebuild(id: DeploymentId, w: World)
      requires Valid() && id in rows
      modifies this`rows
      ensures Valid()
      ensures rows == old(rows)[id := WriteAll(old(rows)[id], StagingScript(w))]
    {
      ghost var r := rows[id];
      if !w.stagingUp {
        UpdateStep(id, StagingDeploying, true);
        Rollback(id, w.back);
        WriteFirst(r, Update(StagingDeploying, true), RollbackScript(w.back));
        return;
      }
      if !w.stagingHealthy {
        UpdateStep(id, StagingDeploying, true);
        Rollback(id, w.back);
        WriteFirst(r, Update(StagingDeploying, true), RollbackScript(w.back));
        return;
      }
      UpdateStep(id, StagingHealthy, false);
      var devHealthy := w.devHealthy;
      if !devHealthy {
        devHealthy := w.devHealthyAfterRestart;
      }
      if devHealthy {
        UpdateStep(id, Completed, false);
      } else {
        UpdateStep(id, Failed, true);
      }
      WriteFirst(r, Update(StagingHealthy, false), DevScript(w));
    }

    /** One turn of the main loop: the pending rows are deployed one after the other. */
    method PollOnce(worlds: DeploymentId -> World)
      requires Valid()
      modifies this`rows
      ensures Valid() && rows.Keys == old(rows).Keys
      ensures forall id :: id in rows ==> rows[id] == Served(old(rows)[id], worlds(id))
    {
      var pending := GetPendingDeployments();
      DeployAll(pending, worlds);
    }

    method DeployAll(pending: seq<DeploymentId>, worlds: DeploymentId -> World)
      requires Valid() && Distinct(pending) && forall id :: id in pending ==> id in rows
      modifies this`rows
      ensures Valid() && rows.Keys == old(rows).Keys
      ensures forall id :: id in rows ==>
                rows[id] == if id in pending then WriteAll(old(rows)[id], DeployScript(worlds(id))) else old(rows)[id]
    {
      var todo := pending;
      while todo != []
        invariant Valid() && rows.Keys == old(rows).Keys && Distinct(todo)
        invariant forall id :: id in todo ==> id in rows && id in pending && rows[id] == old(rows)[id]
        invariant forall id :: id in rows && id !in todo ==>
                    rows[id] == if id in pending then WriteAll(old(rows)[id], DeployScript(worlds(id)))
                                else old(rows)[id]
        decreases |todo|
      {
        var id := todo[0];
        TailDistinct(todo);
        todo := todo[1..];
        Deploy(id, worlds(id));
      }
    }
  }
}
