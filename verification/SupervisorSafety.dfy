/** What every life of the supervisor keeps, kills and abandoned polls included. */
module SupervisorSafety {
  import opened SupervisorModel
  import opened SupervisorRuns

  /** Killed at any point, restarted, cleaned up: every row is committed or at rest. */
  lemma CleanupRecovers(s0: System, acts: seq<Action>, s: System, z: System, id: DeploymentId)
    requires Fresh(s0) && Runs(s0, acts, s) && Next(s, Ready, z) && id in z.rows
    ensures z.rows[id].step == CodeCommitted || Resting(z.rows[id].step)
  {
    RunKeeps(s0, acts, s);
    StepKeeps(s, Ready, z);
    CleanedUp(s, id);
  }

  lemma CleanedUp(s: System, id: DeploymentId)
    requires Inv(s) && s.phase == Cleaning([]) && id in s.rows
    ensures s.rows[id].step == CodeCommitted || Resting(s.rows[id].step)
  {
  }

  // -------- a poll serves its snapshot --------

  predicate Smooth(a: Action) {
    !a.Kill? && !a.Raise? && !a.Poll?
  }

  lemma {:induction false} SmoothRunKeepsNotes(s: System, acts: seq<Action>, z: System)
    requires Runs(s, acts, z) && !s.phase.Down? && (forall i :: 0 <= i < |acts| ==> Smooth(acts[i]))
    ensures z.listed == s.listed && z.stranded == s.stranded
    decreases |acts|
  {
    if acts != [] { SmoothRunKeepsNotes(Apply(s, acts[0]), acts[1..], z); }
  }

  /** A poll that runs to its end without a kill or an exception leaves every row of its snapshot at
      rest, whatever is committed meanwhile. */
  lemma PollServesItsSnapshot(s: System, m: System, acts: seq<Action>, z: System, id: DeploymentId)
    requires Inv(s) && Next(s, Poll, m) && Runs(m, acts, z) && z.phase.Idle?
    requires forall i :: 0 <= i < |acts| ==> Smooth(acts[i])
    requires id in s.rows && s.rows[id].step == CodeCommitted
    ensures id in z.rows && Resting(z.rows[id].step)
  {
    StepKeeps(s, Poll, m);
    RunKeeps(m, acts, z);
    SmoothRunKeepsNotes(m, acts, z);
    assert id in m.listed && id !in m.stranded;
    assert id in z.listed;
  }

  // -------- history --------

  predicate Extends<T(==)>(a: seq<T>, b: seq<T>) {
    |a| <= |b| && b[..|a|] == a
  }

  lemma HistoryStep(s: System, a: Action, z: System, id: DeploymentId)
    requires Next(s, a, z) && id in s.rows
    ensures id in z.rows && Extends(s.rows[id].history, z.rows[id].history)
    ensures z.rows[id].project == s.rows[id].project
  {
    RowFrame(s, a, z, id);
  }

  lemma ExtendsTwice<T>(a: seq<T>, b: seq<T>, c: seq<T>)
    requires Extends(a, b) && Extends(b, c)
    ensures Extends(a, c)
  {
    assert c[..|a|] == b[..|a|];
  }

  /** Over every run a history only grows by appending, and the step of every row is the replay of
      its last entry; the row carries a completion time exactly in the finishing steps. */
  lemma {:induction false} HistoryOnlyGrows(s: System, acts: seq<Action>, z: System, id: DeploymentId)
    requires Inv(s) && Runs(s, acts, z) && id in s.rows
    ensures id in z.rows && Extends(s.rows[id].history, z.rows[id].history)
    ensures z.rows[id].step == Replay(z.rows[id].history)
    ensures z.rows[id].finished <==> Finishing(z.rows[id].step)
    decreases |acts|
  {
    if acts != [] {
      var m := Apply(s, acts[0]);
      HistoryStep(s, acts[0], m, id);
      StepKeeps(s, acts[0], m);
      HistoryOnlyGrows(m, acts[1..], z, id);
      ExtendsTwice(s.rows[id].history, m.rows[id].history, z.rows[id].history);
    }
  }

  // -------- rows nobody works on --------

  predicate Untouched(s: System, id: DeploymentId) {
    s.phase.Deploying? ==> s.phase.id != id
  }

  lemma RestStep(s: System, a: Action, z: System, id: DeploymentId)
    requires Inv(s) && Next(s, a, z) && id in s.rows && Resting(s.rows[id].step) && Untouched(s, id)
    ensures id in z.rows && z.rows[id] == s.rows[id] && Untouched(z, id)
  {
    RowFrame(s, a, z, id);
  }

  /** A row at rest that is not being deployed never changes again. */
  lemma {:induction false} RestIsForever(s: System, acts: seq<Action>, z: System, id: DeploymentId)
    requires Inv(s) && Runs(s, acts, z) && id in s.rows && Resting(s.rows[id].step) && Untouched(s, id)
    ensures id in z.rows && z.rows[id] == s.rows[id]
    decreases |acts|
  {
    if acts != [] {
      var m := Apply(s, acts[0]);
      RestStep(s, acts[0], m, id);
      StepKeeps(s, acts[0], m);
      RestIsForever(m, acts[1..], z, id);
    }
  }

  lemma StuckStep(s: System, a: Action, z: System, id: DeploymentId)
    requires Inv(s) && Next(s, a, z) && id in s.rows && InFlight(s.rows[id].step) && Untouched(s, id)
    requires !s.phase.Cleaning? && !a.Restart?
    ensures id in z.rows && z.rows[id] == s.rows[id] && Untouched(z, id) && !z.phase.Cleaning?
  {
    RowFrame(s, a, z, id);
  }

  /** A deployment abandoned by an exception in the poll loop stays in flight until the process is
      restarted: no later poll picks it up. */
  lemma {:induction false} AbandonedStaysUntilRestart(s: System, acts: seq<Action>, z: System, id: DeploymentId)
    requires Inv(s) && Runs(s, acts, z) && id in s.rows && InFlight(s.rows[id].step) && Untouched(s, id)
    requires !s.phase.Cleaning? && (forall i :: 0 <= i < |acts| ==> !acts[i].Restart?)
    ensures id in z.rows && z.rows[id] == s.rows[id]
    decreases |acts|
  {
    if acts != [] {
      var m := Apply(s, acts[0]);
      StuckStep(s, acts[0], m, id);
      StepKeeps(s, acts[0], m);
      AbandonedStaysUntilRestart(m, acts[1..], z, id);
    }
  }

  // -------- rows in flight that nobody works on --------

  /** A row in flight that the running supervisor neither cleans up nor deploys. */
  predicate Abandoned(s: System, id: DeploymentId) {
    !s.phase.Down? && !s.phase.Cleaning? && id in s.rows && InFlight(s.rows[id].step) && Untouched(s, id)
  }

  /** The exception interrupts the deployment of the row, or the cleanup before it came to the row. */
  predicate Interrupts(s: System, a: Action, id: DeploymentId) {
    && a.Raise? && id in s.rows && InFlight(s.rows[id].step)
    && ((s.phase.Deploying? && s.phase.id == id) || (s.phase.Cleaning? && id in s.phase.todo))
  }

  ghost predicate NoRestart(acts: seq<Action>) {
    forall i :: 0 <= i < |acts| ==> !acts[i].Restart?
  }

  /** Some exception of the run interrupts the row, and no restart comes after it. */
  ghost predicate LeftInFlight(s: System, acts: seq<Action>, id: DeploymentId)
    decreases |acts|
  {
    && acts != [] && WellFormed(s) && Enabled(s, acts[0])
    && ((Interrupts(s, acts[0], id) && NoRestart(acts[1..])) || LeftInFlight(Apply(s, acts[0]), acts[1..], id))
  }

  /** A row is abandoned by the exception that interrupts it, and stays so until the process ends. */
  lemma AbandonedStep(s: System, a: Action, z: System, id: DeploymentId)
    requires Inv(s) && Next(s, a, z) && !z.phase.Down?
    ensures Abandoned(z, id) <==> Interrupts(s, a, id) || (Abandoned(s, id) && !a.Restart?)
  {
    if a.Raise? {
      RaiseAbandons(s, z, id);
    } else if a.WriteOne? || a.Begin? {
      DeployingAbandonsNothing(s, a, z, id);
    } else {
      if id in z.rows { RowFrame(s, a, z, id); }
    }
  }

  lemma RaiseAbandons(s: System, z: System, id: DeploymentId)
    requires Inv(s) && Next(s, Raise, z)
    ensures Abandoned(z, id) <==> Interrupts(s, Raise, id) || Abandoned(s, id)
  {
  }

  lemma DeployingAbandonsNothing(s: System, a: Action, z: System, id: DeploymentId)
    requires Inv(s) && Next(s, a, z) && (a.WriteOne? || a.Begin?)
    ensures Abandoned(z, id) <==> Abandoned(s, id)
  {
    if id in z.rows { RowFrame(s, a, z, id); }
  }

  lemma {:induction false} DownStaysDown(s: System, acts: seq<Action>, z: System)
    requires Runs(s, acts, z) && s.phase.Down? && NoRestart(acts)
    ensures z.phase.Down?
    decreases |acts|
  {
    if acts != [] { DownStaysDown(Apply(s, acts[0]), acts[1..], z); }
  }

  lemma {:induction false} AbandonedIff(s: System, acts: seq<Action>, z: System, id: DeploymentId)
    requires Inv(s) && Runs(s, acts, z) && !z.phase.Down? && !z.phase.Cleaning?
    ensures Abandoned(z, id) <==> LeftInFlight(s, acts, id) || (Abandoned(s, id) && NoRestart(acts))
    decreases |acts|
  {
    if acts != [] {
      var m, rest := Apply(s, acts[0]), acts[1..];
      StepKeeps(s, acts[0], m);
      AbandonedIff(m, rest, z, id);
      assert NoRestart(acts) <==> !acts[0].Restart? && NoRestart(rest);
      if NoRestart(rest) {
        if m.phase.Down? { DownStaysDown(m, rest, z); }
        AbandonedStep(s, acts[0], m, id);
      }
    }
  }

  /** Exactly when a row is in flight while the supervisor is idle: an exception interrupted its deployment,
      or the cleanup before it came to the row, and the process was not restarted since. Every other row is
      committed or at rest. */
  lemma IdleMeansQuiet(s0: System, acts: seq<Action>, s: System, id: DeploymentId)
    requires Fresh(s0) && Runs(s0, acts, s) && s.phase.Idle? && id in s.rows
    ensures InFlight(s.rows[id].step) <==> LeftInFlight(s0, acts, id)
    ensures InFlight(s.rows[id].step) || s.rows[id].step == CodeCommitted || Resting(s.rows[id].step)
    ensures InFlight(s.rows[id].step) ==> id in s.stranded
  {
    RunKeeps(s0, acts, s);
    AbandonedIff(s0, acts, s, id);
  }

  // -------- whose commits are deployed --------

  /** Only rows without a project are picked up and deployed. */
  predicate OnlyPlatform(s: System)
    requires WellFormed(s)
  {
    match s.phase
    case Listing(_, picked) => forall id :: id in picked ==> s.rows[id].project == ""
    case Polling(queue) => forall id :: id in queue ==> s.rows[id].project == ""
    case Deploying(id, _, queue) => s.rows[id].project == "" && forall j :: j in queue ==> s.rows[j].project == ""
    case _ => true
  }

  /** A row of a project keeps the history its commit gave it, or has just the skip added. */
  ghost predicate ProjectRowsSkipped(s: System) {
    forall id :: id in s.rows && s.rows[id].project != "" ==>
      forall k :: 0 <= k < |s.rows[id].history| ==>
        s.rows[id].history[k].step in {FilesWritten, CodeCommitted, Failed, SupervisorSkipped}
  }

  lemma PlatformStep(s: System, a: Action, z: System)
    requires Inv(s) && OnlyPlatform(s) && Next(s, a, z)
    ensures WellFormed(z) && OnlyPlatform(z)
  {
    KeepsWellFormed(s, a, z);
    ProjectsStay(s, a, z);
    if a.LookAtOne? { LookStaysPlatform(s, z); }
  }

  lemma ProjectsStay(s: System, a: Action, z: System)
    requires Next(s, a, z)
    ensures forall id :: id in s.rows ==> id in z.rows && z.rows[id].project == s.rows[id].project
  {
    forall id | id in s.rows
      ensures id in z.rows && z.rows[id].project == s.rows[id].project
    {
      HistoryStep(s, a, z, id);
    }
  }

  lemma LookStaysPlatform(s: System, z: System)
    requires Inv(s) && OnlyPlatform(s) && Next(s, LookAtOne, z) && WellFormed(z)
    ensures OnlyPlatform(z)
  {
    ProjectsStay(s, LookAtOne, z);
  }

  lemma ProjectRowStep(s: System, a: Action, z: System)
    requires Inv(s) && OnlyPlatform(s) && Next(s, a, z) && ProjectRowsSkipped(s)
    ensures ProjectRowsSkipped(z)
  {
    forall id, k | id in z.rows && z.rows[id].project != "" && 0 <= k < |z.rows[id].history|
      ensures z.rows[id].history[k].step in {FilesWritten, CodeCommitted, Failed, SupervisorSkipped}
    {
      RowFrame(s, a, z, id);
      if id in s.rows { HistoryStep(s, a, z, id); }
    }
  }

  /** In no run is a commit of a project deployed by the supervisor. */
  lemma {:induction false} ProjectCommitsAreNeverDeployed(s: System, acts: seq<Action>, z: System)
    requires Inv(s) && OnlyPlatform(s) && ProjectRowsSkipped(s) && Runs(s, acts, z)
    ensures Inv(z) && OnlyPlatform(z) && ProjectRowsSkipped(z)
    decreases |acts|
  {
    if acts != [] {
      var m := Apply(s, acts[0]);
      PlatformStep(s, acts[0], m);
      ProjectRowStep(s, acts[0], m);
      StepKeeps(s, acts[0], m);
      ProjectCommitsAreNeverDeployed(m, acts[1..], z);
    }
  }

  ghost predicate FromSubmit(a: Action) {
    a.Commit? ==> exists named :: a.project == SubmittedProject(named)
  }

  lemma {:induction false} EveryRowHasAProject(s: System, acts: seq<Action>, z: System)
    requires Runs(s, acts, z) && (forall i :: 0 <= i < |acts| ==> FromSubmit(acts[i]))
    requires forall id :: id in s.rows ==> s.rows[id].project != ""
    ensures forall id :: id in z.rows ==> z.rows[id].project != ""
    decreases |acts|
  {
    if acts != [] {
      var m := Apply(s, acts[0]);
      forall id | id in m.rows ensures m.rows[id].project != "" {
        RowFrame(s, acts[0], m, id);
      }
      EveryRowHasAProject(m, acts[1..], z);
    }
  }

  /** Every request that comes through `submit` carries a project, the unassigned one by default. So
      in a run with such requests only, nothing is ever deployed by the poll. */
  lemma SubmittedWorkIsNeverDeployed(s0: System, acts: seq<Action>, z: System)
    requires Fresh(s0) && Runs(s0, acts, z) && (forall i :: 0 <= i < |acts| ==> FromSubmit(acts[i]))
    ensures !z.phase.Deploying?
  {
    EveryRowHasAProject(s0, acts, z);
    ProjectCommitsAreNeverDeployed(s0, acts, z);
  }

  // -------- one deployment as a run --------

  function Writes(n: nat): seq<Action> {
    seq(n, _ => WriteOne)
  }

  function Rewritten(s: System, id: DeploymentId, us: seq<Update>, p: Phase): System
    requires id in s.rows
  {
    s.(rows := s.rows[id := WriteAll(s.rows[id], us)], phase := p)
  }

  /** Undisturbed, the writes of a deployment leave the row as the whole script rewrites it; stopped
      after any number of them, as that part of the script does. */
  lemma {:induction false} WritesFollowTheScript(s: System, k: nat)
    requires WellFormed(s) && s.phase.Deploying? && k <= |s.phase.rest|
    ensures Runs(s, Writes(k), Rewritten(s, s.phase.id, s.phase.rest[..k], s.phase.(rest := s.phase.rest[k..])))
    decreases k
  {
    var Deploying(id, rest, queue) := s.phase;
    if k == 0 {
      assert rest[0..] == rest && rest[..0] == [];
      assert Writes(0) == [];
      assert s.rows[id := s.rows[id]] == s.rows;
    } else {
      var m := Apply(s, WriteOne);
      KeepsWellFormed(s, WriteOne, m);
      WritesFollowTheScript(m, k - 1);
      assert Writes(k)[1..] == Writes(k - 1);
      assert rest[..k][1..] == rest[1..][..k - 1] && rest[..k][0] == rest[0];
      assert rest[1..][k - 1..] == rest[k..];
      assert Rewritten(m, id, m.phase.rest[..k - 1], m.phase.(rest := m.phase.rest[k - 1..])).rows
          == s.rows[id := WriteAll(s.rows[id], rest[..k])];
    }
  }
}
