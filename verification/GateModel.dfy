/** The approval gate as a concurrent protocol: proposals are created pending, decided by
    compare-and-set, executed by the winner of the confirmation, and reconciled after a crash. */
module GateModel {
  import opened Common

  type ProposalId(==, !new)

  datatype Status = Pending | Confirmed | Rejected | Expired | Executed | Failed

  datatype Proposal = Proposal(status: Status, createdAt: int, ttl: int, decidedBy: Option<string>)

  /** Who moved a proposal: an actor through the decision endpoints, who may have found the target gone,
      the expiry sweeper, the executor that won the confirmation, or the startup reconciliation. */
  datatype Mover = Decider(actor: string, targetGone: bool) | Sweeper | Executor | Recovery

  datatype Move = Move(id: ProposalId, source: Status, target: Status, mover: Mover)

  /** An executor has won the confirmation, or has started the handler. */
  datatype Phase = Won | Running

  /** `order` lists the rows newest first. `moves` and `starts` are history: every status change,
      and every handler start with the status it saw. */
  datatype Gate = Gate(
    rows: map<ProposalId, Proposal>,
    order: seq<ProposalId>,
    executors: map<ProposalId, Phase>,
    serving: bool,
    moves: seq<Move>,
    starts: seq<(ProposalId, Status)>)

  datatype Step =
    | Propose(id: ProposalId, now: int, ttl: int)
    | Confirm(id: ProposalId, actor: string, targetOk: bool)
    | Reject(id: ProposalId, actor: string)
    | Expire(id: ProposalId, now: int)
    | Start(id: ProposalId, registered: bool)
    | Finish(id: ProposalId, ok: bool)
    | Abandon(id: ProposalId)
    | Crash
    | Reconcile(id: ProposalId)
    | Serve

  predicate WellFormed(g: Gate) {
    && (forall id :: id in g.order ==> id in g.rows)
    && (forall id :: id in g.rows ==> id in g.order)
    && (forall id :: id in g.executors ==> id in g.rows)
    && Distinct(g.order)
  }

  predicate Due(p: Proposal, now: int) {
    p.createdAt + p.ttl <= now
  }

  /** The endpoints and the sweeper run while serving; reconciliation runs before. */
  predicate Enabled(g: Gate, a: Step) {
    match a
    case Propose(id, _, _) => g.serving && id !in g.rows
    case Confirm(id, _, _) => g.serving && id in g.rows
    case Reject(id, _) => g.serving && id in g.rows
    case Expire(id, now) => g.serving && id in g.rows && Due(g.rows[id], now)
    case Start(id, _) => id in g.executors && g.executors[id] == Won
    case Finish(id, _) => id in g.executors && g.executors[id] == Running
    case Abandon(id) => id in g.executors
    case Crash => true
    case Reconcile(id) => !g.serving && id in g.rows
    case Serve => !g.serving
  }

  /** The atomic compare-and-set on the status column: a lost race changes nothing. */
  function Transition(g: Gate, id: ProposalId, source: Status, target: Status, mover: Mover): (z: Gate)
    requires id in g.rows
    ensures z.order == g.order && z.executors == g.executors && z.serving == g.serving && z.starts == g.starts
    ensures z.rows.Keys == g.rows.Keys
    ensures g.rows[id].status != source ==> z == g
    ensures forall j :: j in g.rows && j != id ==> z.rows[j] == g.rows[j]
  {
    if g.rows[id].status != source then g
    else
      var p := g.rows[id];
      var decidedBy := if mover.Decider? then Some(mover.actor) else p.decidedBy;
      g.(rows := g.rows[id := p.(status := target, decidedBy := decidedBy)],
         moves := g.moves + [Move(id, source, target, mover)])
  }

  predicate Wins(g: Gate, id: ProposalId, source: Status) {
    id in g.rows && g.rows[id].status == source
  }

  /** Confirming a proposal whose target has gone fails it instead; only a real confirmation
      hands it to an executor. */
  function Decide(g: Gate, id: ProposalId, actor: string, targetOk: bool): Gate
    requires id in g.rows
  {
    if !targetOk then Transition(g, id, Pending, Failed, Decider(actor, true))
    else
      var z := Transition(g, id, Pending, Confirmed, Decider(actor, false));
      if Wins(g, id, Pending) then z.(executors := z.executors[id := Won]) else z
  }

  /** The executor re-reads the row; the dispatcher's guard runs a handler only for a confirmed
      proposal with a registered handler. Without a handler it records the failure. */
  function Begin(g: Gate, id: ProposalId, registered: bool): Gate
    requires id in g.rows && id in g.executors
  {
    if g.rows[id].status != Confirmed then g.(executors := g.executors - {id})
    else if !registered then Record(g, id, Failed)
    else g.(executors := g.executors[id := Running], starts := g.starts + [(id, g.rows[id].status)])
  }

  /** The plain status write that ends an execution, whatever the row holds. */
  function Record(g: Gate, id: ProposalId, target: Status): Gate
    requires id in g.rows && id in g.executors
  {
    g.(rows := g.rows[id := g.rows[id].(status := target)],
       executors := g.executors - {id},
       moves := g.moves + [Move(id, g.rows[id].status, target, Executor)])
  }

  function Apply(g: Gate, a: Step): Gate
    requires WellFormed(g) && Enabled(g, a)
  {
    match a
    case Propose(id, now, ttl) =>
      g.(rows := g.rows[id := Proposal(Pending, now, ttl, None)], order := [id] + g.order)
    case Confirm(id, actor, targetOk) => Decide(g, id, actor, targetOk)
    case Reject(id, actor) => Transition(g, id, Pending, Rejected, Decider(actor, false))
    case Expire(id, _) => Transition(g, id, Pending, Expired, Sweeper)
    case Start(id, registered) => Begin(g, id, registered)
    case Finish(id, ok) => Record(g, id, if ok then Executed else Failed)
    case Abandon(id) => g.(executors := g.executors - {id})
    case Crash => g.(executors := map[], serving := false)
    case Reconcile(id) => Transition(g, id, Confirmed, Failed, Recovery)
    case Serve => g.(serving := true)
  }

  ghost predicate Next(g: Gate, a: Step, z: Gate) {
    WellFormed(g) && Enabled(g, a) && z == Apply(g, a)
  }

  ghost predicate Runs(g: Gate, acts: seq<Step>, z: Gate)
    decreases |acts|
  {
    WellFormed(g) &&
    if acts == [] then z == g
    else Enabled(g, acts[0]) && Runs(Apply(g, acts[0]), acts[1..], z)
  }

  lemma ProposeKeepsWellFormed(g: Gate, a: Step, z: Gate)
    requires Next(g, a, z) && a.Propose?
    ensures WellFormed(z) && z.order == [a.id] + g.order
  {
    PrependDistinct(a.id, g.order);
  }

  /** Only a new proposal changes which rows there are, and only a row gets an executor. */
  lemma TableFrame(g: Gate, a: Step, z: Gate)
    requires Next(g, a, z) && !a.Propose?
    ensures z.order == g.order && z.rows.Keys == g.rows.Keys && z.executors.Keys <= g.rows.Keys
  {
  }

  lemma NextKeepsWellFormed(g: Gate, a: Step, z: Gate)
    requires Next(g, a, z)
    ensures WellFormed(z)
  {
    if a.Propose? {
      ProposeKeepsWellFormed(g, a, z);
    } else {
      TableFrame(g, a, z);
    }
  }

  /** No proposals, no executors: what a fresh installation serves. */
  ghost predicate Empty(g: Gate) {
    g == Gate(map[], [], map[], true, [], [])
  }

  /** Proposals with a status, newest first, up to a limit. */
  function WithStatus(g: Gate, ids: seq<ProposalId>, s: Status): (r: seq<ProposalId>)
    requires forall id :: id in ids ==> id in g.rows
    ensures forall id :: id in r <==> id in ids && g.rows[id].status == s
    ensures r == [] <==> forall id :: id in ids ==> g.rows[id].status != s
  {
    if ids == [] then []
    else (if g.rows[ids[0]].status == s then [ids[0]] else []) + WithStatus(g, ids[1..], s)
  }

  function Take<T>(s: seq<T>, n: nat): seq<T> {
    if |s| <= n then s else s[..n]
  }
}
