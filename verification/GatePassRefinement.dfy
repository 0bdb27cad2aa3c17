/** Both passes are runs of the protocol, so everything proved about runs holds of them. */
module GatePassRefinement {
  import opened GateModel
  import opened GateSafety
  import opened GatePasses

  lemma {:induction false} RunsAppend(g: Gate, a: seq<Step>, m: Gate, b: seq<Step>, z: Gate)
    requires Runs(g, a, m) && Runs(m, b, z)
    ensures Runs(g, a + b, z)
    decreases |a|
  {
    if a == [] {
      assert a + b == b;
    } else {
      assert (a + b)[0] == a[0] && (a + b)[1..] == a[1..] + b;
      RunsAppend(Apply(g, a[0]), a[1..], m, b, z);
    }
  }

  /** The process stays up during a sweep, and starts serving only after the reconciliation. */
  predicate Calm(a: Step, mover: Mover) {
    (mover == Sweeper ==> !a.Crash?) && (mover == Recovery ==> !a.Serve?)
  }

  /** The mode the process is in while the pass runs. */
  predicate InMode(g: Gate, mover: Mover) {
    (mover == Sweeper ==> g.serving) && (mover == Recovery ==> !g.serving)
  }

  lemma CalmKeepsMode(g: Gate, a: Step, z: Gate, mover: Mover)
    requires Next(g, a, z) && Calm(a, mover) && InMode(g, mover)
    ensures InMode(z, mover)
  {
  }

  /** No step changes when a proposal is due. */
  lemma DueIsFixed(g: Gate, a: Step, z: Gate, id: ProposalId, now: int)
    requires Next(g, a, z) && id in g.rows
    ensures id in z.rows && (Due(z.rows[id], now) <==> Due(g.rows[id], now))
  {
  }

  /** The steps that are possible when their turn comes. */
  lemma {:induction false} OthersAreARun(g: Gate, steps: seq<Step>, mover: Mover, id: ProposalId, now: int)
    returns (acts: seq<Step>)
    requires WellFormed(g) && id in g.rows && InMode(g, mover)
    requires forall j :: 0 <= j < |steps| ==> Calm(steps[j], mover)
    ensures Runs(g, acts, RunAll(g, steps)) && InMode(RunAll(g, steps), mover)
    ensures Due(RunAll(g, steps).rows[id], now) <==> Due(g.rows[id], now)
    decreases |steps|
  {
    if steps == [] {
      acts := [];
    } else if Enabled(g, steps[0]) {
      var m := Apply(g, steps[0]);
      NextKeepsWellFormed(g, steps[0], m);
      CalmKeepsMode(g, steps[0], m, mover);
      DueIsFixed(g, steps[0], m, id, now);
      var rest := OthersAreARun(m, steps[1..], mover, id, now);
      acts := [steps[0]] + rest;
      assert acts[1..] == rest;
    } else {
      acts := OthersAreARun(g, steps[1..], mover, id, now);
    }
  }

  /** The pass's own step. */
  function OwnStep(id: ProposalId, mover: Mover, now: int): Step {
    if mover == Sweeper then Expire(id, now) else Reconcile(id)
  }

  predicate IsPass(job: Job) {
    || (job.mover == Sweeper && job.source == Pending && job.target == Expired)
    || (job.mover == Recovery && job.source == Confirmed && job.target == Failed)
  }

  lemma TurnIsARun(g: Gate, id: ProposalId, job: Job, steps: seq<Step>, now: int) returns (acts: seq<Step>)
    requires WellFormed(g) && id in g.rows && IsPass(job) && InMode(g, job.mover)
    requires job.mover == Sweeper ==> Due(g.rows[id], now)
    requires forall j :: 0 <= j < |steps| ==> Calm(steps[j], job.mover)
    ensures Runs(g, acts, Turn(g, id, job, steps)) && InMode(Turn(g, id, job, steps), job.mover)
  {
    var m := RunAll(g, steps);
    var others := OthersAreARun(g, steps, job.mover, id, now);
    var own := OwnStep(id, job.mover, now);
    var z := Turn(g, id, job, steps);
    assert Next(m, own, z);
    CalmKeepsMode(m, own, z, job.mover);
    assert [own][1..] == [];
    assert Runs(m, [own], z);
    RunsAppend(g, others, m, [own], z);
    acts := others + [own];
  }

  lemma TurnKeepsDue(g: Gate, own: ProposalId, job: Job, steps: seq<Step>, id: ProposalId, now: int)
    requires WellFormed(g) && own in g.rows && id in g.rows && InMode(g, job.mover)
    requires forall j :: 0 <= j < |steps| ==> Calm(steps[j], job.mover)
    ensures id in Turn(g, own, job, steps).rows
    ensures Due(Turn(g, own, job, steps).rows[id], now) <==> Due(g.rows[id], now)
  {
    var _ := OthersAreARun(g, steps, job.mover, id, now);
  }

  ghost predicate CalmEnv(env: seq<seq<Step>>, mover: Mover) {
    forall i, j :: 0 <= i < |env| && 0 <= j < |env[i]| ==> Calm(env[i][j], mover)
  }

  lemma CalmHeadTail(env: seq<seq<Step>>, mover: Mover)
    requires CalmEnv(env, mover)
    ensures CalmEnv(Tail(env), mover) && forall j :: 0 <= j < |Head(env)| ==> Calm(Head(env)[j], mover)
  {
  }

  /** A pass over any snapshot, with others acting before every compare-and-set, is a run of the
      protocol in which the pass's own steps are enabled. */
  lemma {:induction false} PassIsARun(g: Gate, ids: seq<ProposalId>, job: Job, env: seq<seq<Step>>, now: int)
    returns (acts: seq<Step>)
    requires WellFormed(g) && (forall id :: id in ids ==> id in g.rows) && IsPass(job) && InMode(g, job.mover)
    requires CalmEnv(env, job.mover)
    requires job.mover == Sweeper ==> forall id :: id in ids && id !in job.skip ==> Due(g.rows[id], now)
    ensures Runs(g, acts, PassGate(g, ids, job, env))
    decreases |ids|
  {
    if ids == [] {
      acts := [];
    } else if ids[0] in job.skip {
      acts := PassIsARun(g, ids[1..], job, env, now);
    } else {
      CalmHeadTail(env, job.mover);
      var n := Turn(g, ids[0], job, Head(env));
      var first := TurnIsARun(g, ids[0], job, Head(env), now);
      forall id | id in ids[1..] && id !in job.skip ensures job.mover == Sweeper ==> Due(n.rows[id], now) {
        TurnKeepsDue(g, ids[0], job, Head(env), id, now);
      }
      var rest := PassIsARun(n, ids[1..], job, Tail(env), now);
      RunsAppend(g, first, n, rest, PassGate(g, ids, job, env));
      acts := first + rest;
    }
  }

  /** So a sweep keeps whatever every run keeps: afterwards handlers still started at most once, and
      every move is legal. */
  lemma SweepKeepsTheGate(g: Gate, now: int, env: seq<seq<Step>>)
    requires Inv(g) && g.serving && CalmEnv(env, Sweeper)
    ensures Inv(PassGate(g, Snapshot(g, Pending, SCAN_LIMIT), SweepJob(g, now), env))
  {
    var acts := PassIsARun(g, Snapshot(g, Pending, SCAN_LIMIT), SweepJob(g, now), env, now);
    RunKeeps(g, acts, PassGate(g, Snapshot(g, Pending, SCAN_LIMIT), SweepJob(g, now), env));
  }

  lemma ReconciliationKeepsTheGate(g: Gate, env: seq<seq<Step>>)
    requires Inv(g) && !g.serving && CalmEnv(env, Recovery)
    ensures Inv(PassGate(g, Snapshot(g, Confirmed, SCAN_LIMIT), RECOVERY_JOB, env))
  {
    var acts := PassIsARun(g, Snapshot(g, Confirmed, SCAN_LIMIT), RECOVERY_JOB, env, 0);
    RunKeeps(g, acts, PassGate(g, Snapshot(g, Confirmed, SCAN_LIMIT), RECOVERY_JOB, env));
  }
}
