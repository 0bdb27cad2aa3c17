/** In-process actions routed through the approval gate, and the dispatcher that runs confirmed
    proposals. */
module InProcessGate {
  import opened Common

  datatype Status = Pending | Confirmed | Rejected | Expired | Executed | Failed

  /** A proposal is numbered by its place in the table. */
  datatype Proposal = Proposal(action: string, key: Option<string>, status: Status)

  /** One call; `emitFails` says whether announcing a new proposal fails. */
  datatype Call = Call(governed: bool, action: string, key: Option<string>, emitFails: bool)

  /** Ran the action, queued it, found it queued before, or the table refused a second proposal with the
      same key. */
  datatype Outcome = Ran | Queued(id: nat) | Deduplicated(id: nat) | Refused

  /** `ran` and `announced` are history. */
  datatype Desk = Desk(proposals: seq<Proposal>, ran: seq<string>, announced: seq<nat>)

  predicate Gates(gated: set<string>, c: Call) {
    c.governed && c.action in gated
  }

  predicate HasKey(d: Desk, key: string) {
    exists i :: 0 <= i < |d.proposals| && d.proposals[i].key == Some(key)
  }

  /** The key column is unique where it is set. */
  predicate UniqueKeys(d: Desk) {
    forall i, j :: 0 <= i < j < |d.proposals| && d.proposals[i].key.Some? ==> d.proposals[i].key != d.proposals[j].key
  }

  /** The number of the proposal with the key; the number of proposals if there is none. */
  function Find(ps: seq<Proposal>, key: string): (i: nat)
    ensures i <= |ps|
    ensures i < |ps| ==> ps[i].key == Some(key)
    ensures forall j :: 0 <= j < i ==> ps[j].key != Some(key)
  {
    if ps == [] || ps[0].key == Some(key) then 0 else 1 + Find(ps[1..], key)
  }

  /** What one call does. */
  function Submit(gated: set<string>, d: Desk, c: Call): (Desk, Outcome) {
    if !Gates(gated, c) then (d.(ran := d.ran + [c.action]), Ran)
    else if c.key.Some? && Find(d.proposals, c.key.value) < |d.proposals| then
      if c.key.value != "" then (d, Deduplicated(Find(d.proposals, c.key.value))) else (d, Refused)
    else
      (d.(proposals := d.proposals + [Proposal(c.action, c.key, Pending)],
          announced := d.announced + if c.emitFails then [] else [|d.proposals|]),
       Queued(|d.proposals|))
  }

  class InProcessDesk {
    const gated: set<string>
    var proposals: seq<Proposal>
    ghost var ran: seq<string>
    ghost var announced: seq<nat>

    ghost function State(): Desk
      reads this
    {
      Desk(proposals, ran, announced)
    }

    ghost predicate Valid()
      reads this
    {
      UniqueKeys(State())
    }

    constructor (gated: set<string>)
      ensures Valid() && this.gated == gated && State() == Desk([], [], [])
    {
      this.gated := gated;
      proposals, ran, announced := [], [], [];
    }

    method GetProposalByIdempotencyKey(key: string) returns (found: Option<nat>)
      requires Valid()
      ensures found.Some? <==> HasKey(State(), key)
      ensures found.Some? ==> found.value == Find(proposals, key) < |proposals|
    {
      for i := 0 to |proposals|
        invariant forall j :: 0 <= j < i ==> proposals[j].key != Some(key)
      {
        if proposals[i].key == Some(key) { return Some(i); }
      }
      return None;
    }

    /** Inserts a row unless its key is taken. */
    method CreateProposal(p: Proposal) returns (ok: bool)
      requires Valid()
      modifies this`proposals
      ensures Valid()
      ensures ok <==> p.key.None? || !HasKey(old(State()), p.key.value)
      ensures proposals == if ok then old(proposals) + [p] else old(proposals)
    {
      if p.key.Some? {
        var taken := GetProposalByIdempotencyKey(p.key.value);
        if taken.Some? { return false; }
      }
      proposals := proposals + [p];
      return true;
    }

    /** An ungated call runs; a gated one runs nothing. It queues a new proposal, pending, with its own action
        and key, or answers with the proposal that has its key, or is refused by the table. */
    method SubmitGatedAction(c: Call) returns (o: Outcome)
      requires Valid()
      modifies this
      ensures Valid()
      ensures o.Ran? <==> !c.governed || c.action !in gated
      ensures ran == if o.Ran? then old(ran) + [c.action] else old(ran)
      ensures o.Queued? ==>
                && o.id == |old(proposals)| && proposals == old(proposals) + [Proposal(c.action, c.key, Pending)]
                && announced == if c.emitFails then old(announced) else old(announced) + [o.id]
      ensures !o.Queued? ==> proposals == old(proposals) && announced == old(announced)
      ensures o.Deduplicated? ==>
                o.id < |proposals| && proposals[o.id].key == c.key && c.key.Some? && c.key.value != ""
      ensures o.Refused? ==> c.key == Some("") && HasKey(old(State()), "")
      ensures (State(), o) == Submit(gated, old(State()), c)
    {
      if !c.governed || c.action !in gated {
        ran := ran + [c.action];
        return Ran;
      }
      if c.key.Some? && c.key.value != "" {
        var existing := GetProposalByIdempotencyKey(c.key.value);
        if existing.Some? { return Deduplicated(existing.value); }
      }
      var id := |proposals|;
      var created := CreateProposal(Proposal(c.action, c.key, Pending));
      if !created { return Refused; }
      if !c.emitFails { announced := announced + [id]; }
      assert c.emitFails ==> announced + [] == announced;
      return Queued(id);
    }
  }

  // -------- runs of calls --------

  /** A call, or anything that changes the status of a proposal. */
  datatype Happening = Called(call: Call) | Moved(id: nat, status: Status)

  function Happen(gated: set<string>, d: Desk, h: Happening): Desk {
    match h
    case Called(c) => Submit(gated, d, c).0
    case Moved(id, status) =>
      if id < |d.proposals| then d.(proposals := d.proposals[id := d.proposals[id].(status := status)]) else d
  }

  function After(gated: set<string>, d: Desk, hs: seq<Happening>): Desk
    decreases |hs|
  {
    if hs == [] then d else After(gated, Happen(gated, d, hs[0]), hs[1..])
  }

  // -------- who confirms a proposal --------

  predicate IsConfirmed(d: Desk, id: nat) {
    id < |d.proposals| && d.proposals[id].status == Confirmed
  }

  /** Every change of status that the proposal sees confirms it. */
  ghost predicate OnlyConfirms(hs: seq<Happening>, id: nat) {
    forall k :: 0 <= k < |hs| && hs[k].Moved? && hs[k].id == id ==> hs[k].status == Confirmed
  }

  /** Somebody confirms the proposal when it is there, and nobody takes it anywhere else afterwards. */
  ghost predicate GetsConfirmed(gated: set<string>, d: Desk, hs: seq<Happening>, id: nat)
    decreases |hs|
  {
    && hs != []
    && ((hs[0] == Moved(id, Confirmed) && id < |d.proposals| && OnlyConfirms(hs[1..], id))
        || GetsConfirmed(gated, Happen(gated, d, hs[0]), hs[1..], id))
  }

  /** A call queues what it adds as pending: it confirms nothing. */
  lemma CallConfirmsNothing(gated: set<string>, d: Desk, c: Call, id: nat)
    ensures IsConfirmed(Happen(gated, d, Called(c)), id) <==> IsConfirmed(d, id)
  {
  }

  /** Exactly when a proposal is confirmed, over every sequence of calls and changes of status: somebody
      confirmed it after it was queued and nobody moved it on since, or it was confirmed to begin with. */
  lemma {:induction false} ConfirmedIffSomebodyConfirmed(gated: set<string>, d: Desk, hs: seq<Happening>, id: nat)
    ensures IsConfirmed(After(gated, d, hs), id) <==>
            GetsConfirmed(gated, d, hs, id) || (IsConfirmed(d, id) && OnlyConfirms(hs, id))
    decreases |hs|
  {
    if hs != [] {
      var h, rest := hs[0], hs[1..];
      ConfirmedIffSomebodyConfirmed(gated, Happen(gated, d, h), rest, id);
      assert OnlyConfirms(hs, id) <==> (h.Moved? && h.id == id ==> h.status == Confirmed) && OnlyConfirms(rest, id);
      if h.Called? { CallConfirmsNothing(gated, d, h.call, id); }
    }
  }

  lemma {:induction false} UnmovedIsNotConfirmed(gated: set<string>, d: Desk, hs: seq<Happening>, id: nat)
    requires Moved(id, Confirmed) !in hs
    ensures !GetsConfirmed(gated, d, hs, id)
    decreases |hs|
  {
    if hs != [] { UnmovedIsNotConfirmed(gated, Happen(gated, d, hs[0]), hs[1..], id); }
  }

  /** What a gated call queues is not confirmed, whatever happens, until somebody confirms that very proposal;
      it stays the call's proposal. So the dispatcher refuses it and starts nothing. */
  lemma QueuedWaitsForADecision(gated: set<string>, d: Desk, c: Call, hs: seq<Happening>)
    requires Submit(gated, d, c).1.Queued?
    requires Moved(|d.proposals|, Confirmed) !in hs
    ensures var id, all := Submit(gated, d, c).1.id, After(gated, Submit(gated, d, c).0, hs).proposals;
            && id == |d.proposals| < |all| && all[id].action == c.action && all[id].key == c.key
            && all[id].status != Confirmed
  {
    var d1 := Submit(gated, d, c).0;
    UnmovedIsNotConfirmed(gated, d1, hs, |d.proposals|);
    ConfirmedIffSomebodyConfirmed(gated, d1, hs, |d.proposals|);
    ProposalsStay(gated, d1, hs);
  }

  /** Proposals are only added, and keep their actions and keys. */
  predicate Persist(a: seq<Proposal>, b: seq<Proposal>) {
    |a| <= |b| && forall i :: 0 <= i < |a| ==> b[i].key == a[i].key && b[i].action == a[i].action
  }

  lemma {:induction false} ProposalsStay(gated: set<string>, d: Desk, hs: seq<Happening>)
    ensures Persist(d.proposals, After(gated, d, hs).proposals)
    decreases |hs|
  {
    if hs != [] { ProposalsStay(gated, Happen(gated, d, hs[0]), hs[1..]); }
  }

  lemma FindInPrefix(a: seq<Proposal>, b: seq<Proposal>, key: string)
    requires Persist(a, b) && Find(a, key) < |a|
    ensures Find(b, key) == Find(a, key)
  {
    var i, j := Find(a, key), Find(b, key);
    assert b[i].key == Some(key);
    assert forall k :: 0 <= k < |a| ==> b[k].key == a[k].key;
  }

  /** A key names one proposal for good: after the first gated call with a key every later one, however many
      calls and changes of status lie between, finds that same proposal and adds nothing, even if it has
      been rejected, has expired or has failed by then. */
  lemma SameKeySameProposal(gated: set<string>, d: Desk, first: Call, between: seq<Happening>, again: Call)
    requires UniqueKeys(d) && Gates(gated, first) && Gates(gated, again)
    requires first.key.Some? && first.key.value != "" && again.key == first.key
    ensures var (d1, o1) := Submit(gated, d, first);
            var d2 := After(gated, d1, between);
            var (d3, o2) := Submit(gated, d2, again);
            && d3 == d2
            && (o1.Queued? || o1.Deduplicated?)
            && o2 == Deduplicated(o1.id)
  {
    var (d1, o1) := Submit(gated, d, first);
    var key := first.key.value;
    assert o1.Queued? ==> d1.proposals[|d.proposals|].key == Some(key);
    assert Find(d1.proposals, key) < |d1.proposals|;
    if o1.Queued? { FindNew(d.proposals, first); }
    ProposalsStay(gated, d1, between);
    FindInPrefix(d1.proposals, After(gated, d1, between).proposals, key);
  }

  lemma FindNew(ps: seq<Proposal>, c: Call)
    requires c.key.Some? && Find(ps, c.key.value) == |ps|
    ensures Find(ps + [Proposal(c.action, c.key, Pending)], c.key.value) == |ps|
  {
    var all := ps + [Proposal(c.action, c.key, Pending)];
    var i := Find(all, c.key.value);
    assert all[|ps|].key == c.key;
    assert forall k :: 0 <= k < |ps| ==> all[k] == ps[k];
  }

  /** An action that is gated never runs inline, and an action that runs inline leaves no proposal:
      over every run the inline actions are exactly those of the calls that are not gated. */
  lemma {:induction false} OnlyUngatedCallsRun(gated: set<string>, d: Desk, hs: seq<Happening>)
    ensures After(gated, d, hs).ran == d.ran + Inline(gated, hs)
    decreases |hs|
  {
    if hs == [] {
      assert d.ran + [] == d.ran;
    } else {
      OnlyUngatedCallsRun(gated, Happen(gated, d, hs[0]), hs[1..]);
      if hs[0].Called? && !Gates(gated, hs[0].call) { Assoc(d.ran, [hs[0].call.action], Inline(gated, hs[1..])); }
    }
  }

  /** The actions of the calls that are not gated, in order. */
  function Inline(gated: set<string>, hs: seq<Happening>): seq<string> {
    if hs == [] then []
    else if hs[0].Called? && !Gates(gated, hs[0].call) then [hs[0].call.action] + Inline(gated, hs[1..])
    else Inline(gated, hs[1..])
  }

  /** A call is refused exactly when it is gated, its key is the empty text, and an earlier proposal has
      that key: the empty key is looked up by nobody but is unique all the same. */
  lemma RefusedIffEmptyKeyAgain(gated: set<string>, d: Desk, c: Call)
    ensures Submit(gated, d, c).1 == Refused <==> Gates(gated, c) && c.key == Some("") && HasKey(d, "")
  {
    var i := Find(d.proposals, "");
    assert HasKey(d, "") <==> i < |d.proposals|;
  }

  // -------- the dispatcher --------

  datatype Result = Done | Crashed

  datatype Run = GuardError | NoHandler | Finished | HandlerFailed

  class ActionRegistry {
    var handlers: map<string, Result>
    ghost var started: seq<string>

    constructor ()
      ensures handlers == map[] && started == []
    {
      handlers, started := map[], [];
    }

    method Register(action: string, handler: Result)
      modifies this`handlers
      ensures handlers == old(handlers)[action := handler]
    {
      handlers := handlers[action := handler];
    }

    /** A handler is started exactly for a confirmed proposal whose action has one. */
    method RunConfirmedProposal(p: Proposal) returns (r: Run)
      modifies this`started
      ensures started ==
                if p.status == Confirmed && p.action in handlers then old(started) + [p.action] else old(started)
      ensures r == GuardError <==> p.status != Confirmed
      ensures r == NoHandler <==> p.status == Confirmed && p.action !in handlers
      ensures r == Finished <==> p.status == Confirmed && p.action in handlers && handlers[p.action] == Done
      ensures r == HandlerFailed <==> p.status == Confirmed && p.action in handlers && handlers[p.action] == Crashed
    {
      if p.status != Confirmed { return GuardError; }
      if p.action !in handlers { return NoHandler; }
      started := started + [p.action];
      match handlers[p.action] {
        case Done => return Finished;
        case Crashed => return HandlerFailed;
      }
    }
  }
}
