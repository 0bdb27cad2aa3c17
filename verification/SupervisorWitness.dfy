/** A concrete life of the supervisor in which an exception leaves a row in flight. */
module SupervisorWitness {
  import opened SupervisorModel
  import opened SupervisorRuns
  import opened SupervisorSafety

  /** The table holds one row, committed without a project, and the supervisor is in the given phase. */
  predicate OneCommitted(s: System, id: DeploymentId, phase: Phase) {
    && WellFormed(s) && s.order == [id] && id in s.rows && s.rows[id].step == CodeCommitted && s.rows[id].project == ""
    && s.phase == phase
  }

  lemma OneInSteps(s: System, id: DeploymentId, which: Step -> bool)
    requires s.order == [id] && id in s.rows
    ensures InSteps(s.rows, s.order, which) == if which(s.rows[id].step) then [id] else []
  {
    assert [id][1..] == [];
  }

  lemma Committing(s: System, id: DeploymentId)
    requires Fresh(s)
    ensures var a := Commit(id, 2, false, ""); WellFormed(s) && Enabled(s, a) && OneCommitted(Apply(s, a), id, Down)
  {
    var z := Apply(s, Commit(id, 2, false, ""));
    assert z.order == [id];
    KeepsWellFormed(s, Commit(id, 2, false, ""), z);
  }

  lemma Restarting(s: System, id: DeploymentId)
    requires OneCommitted(s, id, Down)
    ensures OneCommitted(Apply(s, Restart), id, Cleaning([])) && OneCommitted(Apply(Apply(s, Restart), Ready), id, Idle)
  {
    OneInSteps(s, id, InFlight);
  }

  lemma StartsPolling(s: System, id: DeploymentId)
    requires OneCommitted(s, id, Idle)
    ensures OneCommitted(Apply(s, Poll), id, Listing([id], []))
  {
    OneInSteps(s, id, Committed);
  }

  lemma PicksUp(s: System, id: DeploymentId)
    requires OneCommitted(s, id, Listing([id], []))
    ensures OneCommitted(Apply(s, LookAtOne), id, Listing([], [id]))
    ensures OneCommitted(Apply(Apply(s, LookAtOne), LookAtOne), id, Polling([id]))
  {
    assert [] + [id] == [id] && [id][1..] == [];
  }

  /** The first thing a deployment writes is that the row is in flight. */
  lemma ScriptBeginsInFlight(w: World)
    ensures DeployScript(w) != [] && InFlight(Shown(DeployScript(w)[0]))
  {
  }

  lemma Begins(s: System, id: DeploymentId, w: World)
    requires OneCommitted(s, id, Polling([id]))
    ensures OneCommitted(Apply(s, Begin(w)), id, Deploying(id, DeployScript(w), []))
  {
    assert [id][1..] == [];
  }

  lemma WritesAndRaises(s: System, id: DeploymentId, us: seq<Update>)
    requires OneCommitted(s, id, Deploying(id, us, [])) && us != [] && InFlight(Shown(us[0]))
    ensures var m := Apply(s, WriteOne); WellFormed(m) && Enabled(m, Raise) && m.phase.Deploying?
    ensures var z := Apply(Apply(s, WriteOne), Raise); z.phase == Idle && id in z.rows && InFlight(z.rows[id].step)
  {
    KeepsWellFormed(s, WriteOne, Apply(s, WriteOne));
  }

  /** One step before a run. */
  lemma StepFirst(s: System, a: Action, rest: seq<Action>, z: System) returns (acts: seq<Action>)
    requires WellFormed(s) && Enabled(s, a) && Runs(Apply(s, a), rest, z)
    ensures acts == [a] + rest && Runs(s, acts, z)
  {
    acts := [a] + rest;
    assert acts[0] == a && acts[1..] == rest;
  }

  lemma NoSteps(s: System)
    requires WellFormed(s)
    ensures Runs(s, [], s)
  {
  }

  /** The deployment writes once and raises. */
  lemma InterruptedAtWork(s: System, id: DeploymentId, us: seq<Update>) returns (acts: seq<Action>, z: System)
    requires OneCommitted(s, id, Deploying(id, us, [])) && us != [] && InFlight(Shown(us[0]))
    ensures Runs(s, acts, z) && z.phase.Idle? && id in z.rows && InFlight(z.rows[id].step)
  {
    WritesAndRaises(s, id, us);
    var m := Apply(s, WriteOne);
    z := Apply(m, Raise);
    NoSteps(z);
    acts := StepFirst(m, Raise, [], z);
    acts := StepFirst(s, WriteOne, acts, z);
  }

  /** From the queue on: the deployment begins first. */
  lemma InterruptedInTheQueue(s: System, id: DeploymentId, w: World) returns (acts: seq<Action>, z: System)
    requires OneCommitted(s, id, Polling([id]))
    ensures Runs(s, acts, z) && z.phase.Idle? && id in z.rows && InFlight(z.rows[id].step)
  {
    ScriptBeginsInFlight(w);
    Begins(s, id, w);
    acts, z := InterruptedAtWork(Apply(s, Begin(w)), id, DeployScript(w));
    acts := StepFirst(s, Begin(w), acts, z);
  }

  /** From an idle supervisor on: the row is picked up first. */
  lemma InterruptedPoll(s: System, id: DeploymentId, w: World) returns (acts: seq<Action>, z: System)
    requires OneCommitted(s, id, Idle)
    ensures Runs(s, acts, z) && z.phase.Idle? && id in z.rows && InFlight(z.rows[id].step)
  {
    StartsPolling(s, id);
    var s1 := Apply(s, Poll);
    PicksUp(s1, id);
    var s2 := Apply(s1, LookAtOne);
    var s3 := Apply(s2, LookAtOne);
    acts, z := InterruptedInTheQueue(s3, id, w);
    acts := StepFirst(s2, LookAtOne, acts, z);
    acts := StepFirst(s1, LookAtOne, acts, z);
    acts := StepFirst(s, Poll, acts, z);
  }

  lemma InterruptedLife(s0: System, id: DeploymentId, w: World) returns (acts: seq<Action>, z: System)
    requires Fresh(s0)
    ensures Runs(s0, acts, z) && z.phase.Idle? && id in z.rows && InFlight(z.rows[id].step)
  {
    var a := Commit(id, 2, false, "");
    Committing(s0, id);
    var s1 := Apply(s0, a);
    Restarting(s1, id);
    var s2 := Apply(s1, Restart);
    acts, z := InterruptedPoll(Apply(s2, Ready), id, w);
    acts := StepFirst(s2, Ready, acts, z);
    acts := StepFirst(s1, Restart, acts, z);
    acts := StepFirst(s0, a, acts, z);
  }

  /** For all answers there is a life in which an exception after the first write of a deployment leaves the
      row in flight while the supervisor is idle. */
  lemma InterruptedDeploymentStaysInFlight(s0: System, id: DeploymentId, w: World)
    returns (acts: seq<Action>, z: System)
    requires Fresh(s0)
    ensures Runs(s0, acts, z) && z.phase.Idle? && id in z.rows && InFlight(z.rows[id].step)
    ensures LeftInFlight(s0, acts, id)
  {
    acts, z := InterruptedLife(s0, id, w);
    IdleMeansQuiet(s0, acts, z, id);
  }
}
