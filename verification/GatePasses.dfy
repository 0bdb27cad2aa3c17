/** The two passes over the proposal table, the expiry sweep and the startup reconciliation: each
    takes a snapshot and then compare-and-sets row by row while other actors move rows too. */
module GatePasses {
  import opened Common
  import opened GateModel

  const SCAN_LIMIT: nat := 10_000

  /** What the other actors do before each compare-and-set; steps that are not possible are no-ops. */
  function RunAll(g: Gate, steps: seq<Step>): (z: Gate)
    requires WellFormed(g)
    ensures WellFormed(z)
    ensures forall id :: id in g.rows ==> id in z.rows
    decreases |steps|
  {
    if steps == [] then g
    else if Enabled(g, steps[0]) then
      NextKeepsWellFormed(g, steps[0], Apply(g, steps[0]));
      RunAll(Apply(g, steps[0]), steps[1..])
    else RunAll(g, steps[1..])
  }

  function Head(env: seq<seq<Step>>): seq<Step> {
    if env == [] then [] else env[0]
  }

  function Tail(env: seq<seq<Step>>): seq<seq<Step>> {
    if env == [] then [] else env[1..]
  }

  /** What a pass does to each row of its snapshot, and which rows it leaves out. */
  datatype Job = Job(source: Status, target: Status, mover: Mover, skip: set<ProposalId>)

  /** Other actors run, then one compare-and-set. */
  function Turn(g: Gate, id: ProposalId, job: Job, before: seq<Step>): (z: Gate)
    requires WellFormed(g) && id in g.rows
    ensures WellFormed(z) && forall j :: j in g.rows ==> j in z.rows
  {
    Transition(RunAll(g, before), id, job.source, job.target, job.mover)
  }

  predicate WinsTurn(g: Gate, id: ProposalId, job: Job, before: seq<Step>)
    requires WellFormed(g)
  {
    Wins(RunAll(g, before), id, job.source)
  }

  /** The table after a pass over a snapshot of ids: before each compare-and-set the head of `env` happens. */
  function PassGate(g: Gate, ids: seq<ProposalId>, job: Job, env: seq<seq<Step>>): (z: Gate)
    requires WellFormed(g) && forall id :: id in ids ==> id in g.rows
    ensures WellFormed(z)
    decreases |ids|
  {
    if ids == [] then g
    else if ids[0] in job.skip then PassGate(g, ids[1..], job, env)
    else PassGate(Turn(g, ids[0], job, Head(env)), ids[1..], job, Tail(env))
  }

  /** The proposals that the pass itself moved, in order. */
  function PassOwn(g: Gate, ids: seq<ProposalId>, job: Job, env: seq<seq<Step>>): seq<ProposalId>
    requires WellFormed(g) && forall id :: id in ids ==> id in g.rows
    decreases |ids|
  {
    if ids == [] then []
    else if ids[0] in job.skip then PassOwn(g, ids[1..], job, env)
    else (if WinsTurn(g, ids[0], job, Head(env)) then [ids[0]] else [])
         + PassOwn(Turn(g, ids[0], job, Head(env)), ids[1..], job, Tail(env))
  }

  lemma PassUnfold(g: Gate, ids: seq<ProposalId>, job: Job, env: seq<seq<Step>>)
    requires WellFormed(g) && (forall id :: id in ids ==> id in g.rows) && ids != []
    ensures ids[0] in job.skip ==> PassGate(g, ids, job, env) == PassGate(g, ids[1..], job, env)
    ensures ids[0] in job.skip ==> PassOwn(g, ids, job, env) == PassOwn(g, ids[1..], job, env)
    ensures ids[0] !in job.skip ==>
              var n := Turn(g, ids[0], job, Head(env));
              && PassGate(g, ids, job, env) == PassGate(n, ids[1..], job, Tail(env))
              && PassOwn(g, ids, job, env) ==
                 if WinsTurn(g, ids[0], job, Head(env)) then [ids[0]] + PassOwn(n, ids[1..], job, Tail(env))
                 else PassOwn(n, ids[1..], job, Tail(env))
  {
    if ids[0] !in job.skip {
      var rest := PassOwn(Turn(g, ids[0], job, Head(env)), ids[1..], job, Tail(env));
      assert [] + rest == rest;
    }
  }

  function SweepJob(g: Gate, now: int): Job {
    Job(Pending, Expired, Sweeper, NotDue(g, now))
  }

  const RECOVERY_JOB := Job(Confirmed, Failed, Recovery, {})

  function Snapshot(g: Gate, s: Status, limit: nat): seq<ProposalId>
    requires WellFormed(g)
  {
    Take(WithStatus(g, g.order, s), limit)
  }

  /** The proposals whose time to live has not elapsed. */
  function NotDue(g: Gate, now: int): set<ProposalId> {
    set id | id in g.rows && !Due(g.rows[id], now)
  }

  /** The elements of the first occur in the second, in the same order. */
  predicate Sublist<T(==)>(a: seq<T>, b: seq<T>)
    decreases |b|
  {
    a == [] || (b != [] && if a[0] == b[0] then Sublist(a[1..], b[1..]) else Sublist(a, b[1..]))
  }

  /** The list holds exactly the proposals with the status among the first `n` of the table. */
  ghost predicate ListedUpTo(g: Gate, s: Status, ids: seq<ProposalId>, n: nat)
    requires WellFormed(g)
  {
    n <= |g.order| && forall id :: id in ids <==> id in g.order[..n] && g.rows[id].status == s
  }

  lemma {:induction false} WithStatusAppend(g: Gate, ids: seq<ProposalId>, id: ProposalId, s: Status)
    requires id in g.rows && forall j :: j in ids ==> j in g.rows
    ensures WithStatus(g, ids + [id], s) == WithStatus(g, ids, s) + if g.rows[id].status == s then [id] else []
  {
    if ids == [] {
      assert ids + [id] == [id] && [id][1..] == [];
    } else {
      assert (ids + [id])[0] == ids[0] && (ids + [id])[1..] == ids[1..] + [id];
      WithStatusAppend(g, ids[1..], id, s);
      Assoc(if g.rows[ids[0]].status == s then [ids[0]] else [], WithStatus(g, ids[1..], s),
        if g.rows[id].status == s then [id] else []);
    }
  }

  lemma {:induction false} WithStatusConcat(g: Gate, a: seq<ProposalId>, b: seq<ProposalId>, s: Status)
    requires forall j :: j in a + b ==> j in g.rows
    ensures WithStatus(g, a + b, s) == WithStatus(g, a, s) + WithStatus(g, b, s)
  {
    if a == [] {
      assert a + b == b;
    } else {
      assert (a + b)[0] == a[0] && (a + b)[1..] == a[1..] + b;
      WithStatusConcat(g, a[1..], b, s);
      Assoc(if g.rows[a[0]].status == s then [a[0]] else [], WithStatus(g, a[1..], s), WithStatus(g, b, s));
    }
  }

  lemma NextRow(g: Gate, n: nat, s: Status)
    requires WellFormed(g) && n < |g.order|
    ensures WithStatus(g, g.order[..n + 1], s)
         == WithStatus(g, g.order[..n], s) + if g.rows[g.order[n]].status == s then [g.order[n]] else []
  {
    assert g.order[..n + 1] == g.order[..n] + [g.order[n]];
    WithStatusAppend(g, g.order[..n], g.order[n], s);
  }

  /** A scan that stops at the limit or at the end lists the newest ones. */
  lemma ScanListsTheNewest(g: Gate, n: nat, s: Status, limit: nat)
    requires WellFormed(g) && n <= |g.order| && |WithStatus(g, g.order[..n], s)| <= limit
    requires n < |g.order| ==> |WithStatus(g, g.order[..n], s)| == limit
    ensures var ids := WithStatus(g, g.order[..n], s);
            ids == Snapshot(g, s, limit) && Distinct(ids) && Sublist(ids, g.order) && ListedUpTo(g, s, ids, n)
  {
    FirstOnes(g, n, s, limit);
    ListIsSublist(g, g.order[..n], s);
    SublistOfPrefix(WithStatus(g, g.order[..n], s), g.order, n);
    PrefixDistinct(g.order, n);
    ListIsDistinct(g, g.order[..n], s);
  }

  /** A scan that stops at the limit or at the end has the first ones of the whole list. */
  lemma FirstOnes(g: Gate, k: nat, s: Status, limit: nat)
    requires WellFormed(g) && k <= |g.order| && |WithStatus(g, g.order[..k], s)| <= limit
    requires k < |g.order| ==> |WithStatus(g, g.order[..k], s)| == limit
    ensures WithStatus(g, g.order[..k], s) == Snapshot(g, s, limit)
  {
    SplitAt(g.order, k);
    WithStatusConcat(g, g.order[..k], g.order[k..], s);
    TakeFront(WithStatus(g, g.order[..k], s), WithStatus(g, g.order[k..], s), limit);
  }

  lemma TakeFront<T>(a: seq<T>, b: seq<T>, n: nat)
    requires |a| <= n && (b != [] ==> |a| == n)
    ensures Take(a + b, n) == a
  {
  }

  lemma SplitAt<T>(s: seq<T>, k: nat)
    requires k <= |s|
    ensures s[..k] + s[k..] == s && (k == |s| ==> s[k..] == [])
  {
  }

  lemma {:induction false} ListIsSublist(g: Gate, ids: seq<ProposalId>, s: Status)
    requires forall id :: id in ids ==> id in g.rows
    ensures Sublist(WithStatus(g, ids, s), ids)
  {
    if ids != [] {
      ListIsSublist(g, ids[1..], s);
      var rest := WithStatus(g, ids[1..], s);
      if g.rows[ids[0]].status == s {
        assert ([ids[0]] + rest)[1..] == rest;
      } else {
        assert [] + rest == rest;
        SublistOfMore(rest, ids);
      }
    }
  }

  lemma {:induction false} SublistOfMore<T>(a: seq<T>, b: seq<T>)
    requires b != [] && Sublist(a, b[1..])
    ensures Sublist(a, b)
    decreases |b|, 0
  {
    if a != [] && a[0] == b[0] {
      SublistTail(a, b[1..]);
    }
  }

  lemma {:induction false} SublistTail<T>(a: seq<T>, b: seq<T>)
    requires a != [] && Sublist(a, b)
    ensures Sublist(a[1..], b)
    decreases |b|, 1
  {
    if a[0] == b[0] {
      SublistOfMore(a[1..], b);
    } else {
      SublistTail(a, b[1..]);
      SublistOfMore(a[1..], b);
    }
  }

  lemma {:induction false} SublistOfPrefix<T>(a: seq<T>, b: seq<T>, n: nat)
    requires n <= |b| && Sublist(a, b[..n])
    ensures Sublist(a, b)
    decreases |b|
  {
    if a != [] {
      assert n > 0 && b[..n][0] == b[0] && b[..n][1..] == b[1..][..n - 1];
      SublistOfPrefix(if a[0] == b[0] then a[1..] else a, b[1..], n - 1);
    }
  }

  lemma {:induction false} ListIsDistinct(g: Gate, ids: seq<ProposalId>, s: Status)
    requires (forall id :: id in ids ==> id in g.rows) && Distinct(ids)
    ensures Distinct(WithStatus(g, ids, s))
  {
    if ids != [] {
      var rest := WithStatus(g, ids[1..], s);
      TailDistinct(ids);
      ListIsDistinct(g, ids[1..], s);
      PrependDistinct(ids[0], rest);
      assert [] + rest == rest;
    }
  }

  /** Goes through the table until it ends or the limit is reached. */
  method ScanNewest(g: Gate, s: Status, limit: nat) returns (ids: seq<ProposalId>, ghost n: nat)
    requires WellFormed(g)
    ensures n <= |g.order| && ids == WithStatus(g, g.order[..n], s) && |ids| <= limit
    ensures n < |g.order| ==> |ids| == limit
  {
    ids := [];
    var k := 0;
    assert g.order[..0] == [];
    while k < |g.order| && |ids| < limit
      invariant 0 <= k <= |g.order| && |ids| <= limit
      invariant ids == WithStatus(g, g.order[..k], s)
    {
      NextRow(g, k, s);
      var id := g.order[k];
      if g.rows[id].status == s {
        ids := ids + [id];
      } else {
        assert ids + [] == ids;
      }
      k := k + 1;
    }
    n := k;
  }

  class ProposalStore {
    var g: Gate

    constructor (g: Gate)
      requires WellFormed(g)
      ensures this.g == g
    {
      this.g := g;
    }

    /** Sets the status only if it is the expected one; true if this call moved it. */
    method TransitionProposal(id: ProposalId, source: Status, target: Status, mover: Mover) returns (won: bool)
      requires WellFormed(g) && id in g.rows
      modifies this
      ensures won == (old(g).rows[id].status == source)
      ensures g == Transition(old(g), id, source, target, mover)
      ensures won ==> g.rows[id].status == target
      ensures !won ==> g == old(g)
    {
      won := Wins(g, id, source);
      g := Transition(g, id, source, target, mover);
    }

    /** The newest proposals with a status, at most `limit` of them: each has the status, they stand in the
        order of the table without repetition, and no row with the status is passed over. */
    method ListProposals(s: Status, limit: nat) returns (ids: seq<ProposalId>)
      requires WellFormed(g)
      ensures |ids| <= limit && Distinct(ids) && Sublist(ids, g.order)
      ensures exists n :: 0 <= n <= |g.order| && (n < |g.order| ==> |ids| == limit) && ListedUpTo(g, s, ids, n)
      ensures ids == Snapshot(g, s, limit)
    {
      ghost var n;
      ids, n := ScanNewest(g, s, limit);
      ScanListsTheNewest(g, n, s, limit);
    }

    method Attempt(id: ProposalId, job: Job, before: seq<Step>) returns (won: bool)
      requires WellFormed(g) && id in g.rows
      modifies this
      ensures g == Turn(old(g), id, job, before) && won == WinsTurn(old(g), id, job, before)
    {
      g := RunAll(g, before);
      won := TransitionProposal(id, job.source, job.target, job.mover);
    }

    method SweepExpiredOnce(now: int, env: seq<seq<Step>>) returns (expired: seq<ProposalId>)
      requires WellFormed(g)
      modifies this
      ensures g == PassGate(old(g), Snapshot(old(g), Pending, SCAN_LIMIT), SweepJob(old(g), now), env)
      ensures expired == PassOwn(old(g), Snapshot(old(g), Pending, SCAN_LIMIT), SweepJob(old(g), now), env)
    {
      var todo := ListProposals(Pending, SCAN_LIMIT);
      expired := ExpireDue(g, now, todo, env);
    }

    /** Moves the listed proposals that were due when they were read. */
    method ExpireDue(snapshot: Gate, now: int, ids: seq<ProposalId>, env: seq<seq<Step>>)
      returns (expired: seq<ProposalId>)
      requires WellFormed(g) && forall id :: id in ids ==> id in g.rows && id in snapshot.rows
      modifies this
      ensures g == PassGate(old(g), ids, SweepJob(snapshot, now), env)
      ensures expired == PassOwn(old(g), ids, SweepJob(snapshot, now), env)
    {
      var job := SweepJob(snapshot, now);
      var todo, e := ids, env;
      ghost var lastGate, allOwn := PassGate(g, todo, job, e), PassOwn(g, todo, job, e);
      expired := [];
      while todo != []
        invariant WellFormed(g)
        invariant forall id :: id in todo ==> id in g.rows && id in snapshot.rows
        invariant PassGate(g, todo, job, e) == lastGate
        invariant allOwn == expired + PassOwn(g, todo, job, e)
        decreases |todo|
      {
        var id := todo[0];
        PassUnfold(g, todo, job, e);
        todo := todo[1..];
        if !Due(snapshot.rows[id], now) { continue; }
        var won := Attempt(id, job, Head(e));
        e := Tail(e);
        if !won { continue; }
        Assoc(expired, [id], PassOwn(g, todo, job, e));
        expired := expired + [id];
      }
    }

    method ReconcileConfirmedProposalsOnce(env: seq<seq<Step>>) returns (reconciled: seq<ProposalId>)
      requires WellFormed(g)
      modifies this
      ensures g == PassGate(old(g), Snapshot(old(g), Confirmed, SCAN_LIMIT), RECOVERY_JOB, env)
      ensures reconciled == PassOwn(old(g), Snapshot(old(g), Confirmed, SCAN_LIMIT), RECOVERY_JOB, env)
    {
      var todo := ListProposals(Confirmed, SCAN_LIMIT);
      reconciled := FailConfirmed(todo, env);
    }

    /** Fails the listed proposals that are still confirmed. */
    method FailConfirmed(ids: seq<ProposalId>, env: seq<seq<Step>>) returns (reconciled: seq<ProposalId>)
      requires WellFormed(g) && forall id :: id in ids ==> id in g.rows
      modifies this
      ensures g == PassGate(old(g), ids, RECOVERY_JOB, env)
      ensures reconciled == PassOwn(old(g), ids, RECOVERY_JOB, env)
    {
      var todo, e := ids, env;
      ghost var lastGate, allOwn := PassGate(g, todo, RECOVERY_JOB, e), PassOwn(g, todo, RECOVERY_JOB, e);
      reconciled := [];
      while todo != []
        invariant WellFormed(g)
        invariant forall id :: id in todo ==> id in g.rows
        invariant PassGate(g, todo, RECOVERY_JOB, e) == lastGate
        invariant allOwn == reconciled + PassOwn(g, todo, RECOVERY_JOB, e)
        decreases |todo|
      {
        var id := todo[0];
        PassUnfold(g, todo, RECOVERY_JOB, e);
        todo := todo[1..];
        var won := Attempt(id, RECOVERY_JOB, Head(e));
        e := Tail(e);
        if !won { continue; }
        Assoc(reconciled, [id], PassOwn(g, todo, RECOVERY_JOB, e));
        reconciled := reconciled + [id];
      }
    }
  }
}
