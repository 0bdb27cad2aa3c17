/** The event emitter: queues of subscribers and handlers that may subscribe, emit again or fail while
    an event is being handled. */
module Events {
  import opened Common

  /** An event with its request, empty when it belongs to none. */
  datatype Event = Event(kind: string, request: string)

  /** The emitter's tables. A subscriber is the number of its queue. */
  datatype Hub = Hub(scoped: map<string, set<nat>>, everyone: set<nat>, queues: seq<seq<Event>>, handlers: nat)

  /** What happens to an emitter, one indivisible thing after the other. */
  datatype Atom =
    | Joined(scope: string)
    | Left(queue: nat, scope: string)
    | Registered
    | Sent(event: Event)
    | Handled(handler: nat, event: Event)

  const EMPTY := Hub(map[], {}, [], 0)

  function Scoped(h: Hub, request: string): set<nat> {
    if request != "" && request in h.scoped then h.scoped[request] else {}
  }

  function Deliver(h: Hub, e: Event): Hub {
    h.(queues := seq(|h.queues|, q requires 0 <= q < |h.queues| =>
         if q in Scoped(h, e.request) || q in h.everyone then h.queues[q] + [e] else h.queues[q]))
  }

  function Join(h: Hub, scope: string): Hub {
    var z := h.(queues := h.queues + [[]]);
    if scope != "" then z.(scoped := h.scoped[scope := Scoped(h, scope) + {|h.queues|}])
    else z.(everyone := h.everyone + {|h.queues|})
  }

  function Leave(h: Hub, q: nat, scope: string): Hub {
    var z := h.(everyone := h.everyone - {q});
    if scope != "" && scope in h.scoped then z.(scoped := h.scoped[scope := h.scoped[scope] - {q}]) else z
  }

  function Apply(h: Hub, a: Atom): Hub {
    match a
    case Joined(scope) => Join(h, scope)
    case Left(q, scope) => Leave(h, q, scope)
    case Registered => h.(handlers := h.handlers + 1)
    case Sent(e) => Deliver(h, e)
    case Handled(_, _) => h
  }

  function After(h: Hub, atoms: seq<Atom>): Hub
    decreases |atoms|
  {
    if atoms == [] then h else After(Apply(h, atoms[0]), atoms[1..])
  }

  // -------- handlers and what they do --------

  /** What a caller or a handler does, in order; a handler that fails just stops. */
  datatype Acts =
    | Done
    | Subscribe(scope: string, next: Acts)
    | Unsubscribe(queue: nat, scope: string, next: Acts)
    | On(next: Acts)
    | Emit(event: Event, reactions: Reactions, next: Acts)

  /** What the handlers do on one event, the first handler first; later ones do nothing. */
  datatype Reactions = NoMore | Reaction(acts: Acts, more: Reactions)

  /** The history of some acts, starting with `n` handlers, and how many handlers there are then. */
  function Trace(a: Acts, n: nat): (seq<Atom>, nat)
    decreases a, 0
  {
    match a
    case Done => ([], n)
    case Subscribe(scope, next) => var (t, m) := Trace(next, n); ([Joined(scope)] + t, m)
    case Unsubscribe(q, scope, next) => var (t, m) := Trace(next, n); ([Left(q, scope)] + t, m)
    case On(next) => var (t, m) := Trace(next, n + 1); ([Registered] + t, m)
    case Emit(e, reactions, next) =>
      var (inner, k) := HandlerTrace(reactions, 0, e, n);
      var (t, m) := Trace(next, k);
      ([Sent(e)] + inner + t, m)
  }

  /** Each handler in turn, those registered meanwhile included. */
  function HandlerTrace(rs: Reactions, k: nat, e: Event, n: nat): (seq<Atom>, nat)
    decreases rs, if k < n then n - k else 0
  {
    if k >= n then ([], n)
    else
      match rs
      case NoMore => var (t, m) := HandlerTrace(NoMore, k + 1, e, n); ([Handled(k, e)] + t, m)
      case Reaction(acts, more) =>
        var (inner, j) := Trace(acts, n);
        var (t, m) := HandlerTrace(more, k + 1, e, j);
        ([Handled(k, e)] + inner + t, m)
  }

  /** One handler: what happens, how many handlers there are then, and the reactions of the others. */
  function Called(rs: Reactions, k: nat, e: Event, n: nat): (seq<Atom>, nat, Reactions) {
    match rs
    case NoMore => ([Handled(k, e)], n, NoMore)
    case Reaction(acts, more) => var (inner, j) := Trace(acts, n); ([Handled(k, e)] + inner, j, more)
  }

  lemma NextCalled(done: seq<Atom>, rs: Reactions, k: nat, e: Event, n: nat)
    requires k < n
    ensures var (own, j, others) := Called(rs, k, e, n);
            var rest := HandlerTrace(others, k + 1, e, j);
            done + HandlerTrace(rs, k, e, n).0 == done + own + rest.0 && HandlerTrace(rs, k, e, n).1 == rest.1
  {
    var (own, j, others) := Called(rs, k, e, n);
    Assoc(done, own, HandlerTrace(others, k + 1, e, j).0);
  }

  lemma {:induction false} AfterAppend(h: Hub, a: seq<Atom>, b: seq<Atom>)
    ensures After(h, a + b) == After(After(h, a), b)
    decreases |a|
  {
    if a == [] {
      assert a + b == b;
    } else {
      assert (a + b)[1..] == a[1..] + b;
      AfterAppend(Apply(h, a[0]), a[1..], b);
    }
  }

  // -------- what a queue holds --------

  /** The subscriber is in the set of its scope and in no other. */
  ghost predicate In(h: Hub, q: nat, scope: string) {
    && q < |h.queues|
    && (q in h.everyone <==> scope == "")
    && (forall s :: s in h.scoped && q in h.scoped[s] <==> scope != "" && s == scope)
  }

  ghost predicate Out(h: Hub, q: nat) {
    q < |h.queues| && q !in h.everyone && forall s :: s in h.scoped ==> q !in h.scoped[s]
  }

  /** Only queues that exist are subscribed, none both to a request and to everything. */
  ghost predicate WellFormed(h: Hub) {
    && (forall q :: q in h.everyone ==> q < |h.queues|)
    && (forall s :: s in h.scoped ==> Fits(h, h.scoped[s]))
  }

  ghost predicate Fits(h: Hub, members: set<nat>) {
    forall q :: q in members ==> q < |h.queues| && q !in h.everyone
  }

  lemma SubscribedExists(h: Hub, s: string, q: nat)
    requires WellFormed(h) && s in h.scoped && q in h.scoped[s]
    ensures q < |h.queues| && q !in h.everyone
  {
  }

  /** What a subscriber gets of a history: what is sent to its scope, until it leaves effectively. */
  function Received(atoms: seq<Atom>, q: nat, scope: string): seq<Event>
    decreases |atoms|
  {
    if atoms == [] then []
    else
      match atoms[0]
      case Left(who, s) => if who == q && (scope == "" || s == scope) then [] else Received(atoms[1..], q, scope)
      case Sent(e) => (if scope == "" || e.request == scope then [e] else []) + Received(atoms[1..], q, scope)
      case _ => Received(atoms[1..], q, scope)
  }

  lemma OutStays(h: Hub, a: Atom, q: nat)
    requires Out(h, q)
    ensures Out(Apply(h, a), q) && Apply(h, a).queues[q] == h.queues[q]
  {
  }

  lemma {:induction false} OutGetsNothing(h: Hub, atoms: seq<Atom>, q: nat)
    requires Out(h, q)
    ensures Out(After(h, atoms), q) && After(h, atoms).queues[q] == h.queues[q]
    decreases |atoms|
  {
    if atoms != [] {
      OutStays(h, atoms[0], q);
      OutGetsNothing(Apply(h, atoms[0]), atoms[1..], q);
    }
  }

  lemma InStep(h: Hub, a: Atom, q: nat, scope: string)
    requires In(h, q, scope)
    ensures var z := Apply(h, a);
            && q < |z.queues|
            && (if a.Left? && a.queue == q && (scope == "" || a.scope == scope) then Out(z, q) else In(z, q, scope))
            && z.queues[q] ==
                 h.queues[q] + if a.Sent? && (scope == "" || a.event.request == scope) then [a.event] else []
  {
  }

  lemma {:induction false} InGetsWhatItShould(h: Hub, atoms: seq<Atom>, q: nat, scope: string)
    requires In(h, q, scope)
    ensures q < |After(h, atoms).queues| && After(h, atoms).queues[q] == h.queues[q] + Received(atoms, q, scope)
    decreases |atoms|
  {
    if atoms != [] {
      var a := atoms[0];
      InStep(h, a, q, scope);
      if a.Left? && a.queue == q && (scope == "" || a.scope == scope) {
        OutGetsNothing(Apply(h, a), atoms[1..], q);
      } else {
        InGetsWhatItShould(Apply(h, a), atoms[1..], q, scope);
        Assoc(h.queues[q], if a.Sent? && (scope == "" || a.event.request == scope) then [a.event] else [],
          Received(atoms[1..], q, scope));
      }
    }
  }

  lemma {:induction false} HistoryKeepsWellFormed(h: Hub, atoms: seq<Atom>)
    requires WellFormed(h)
    ensures WellFormed(After(h, atoms))
    decreases |atoms|
  {
    if atoms != [] { HistoryKeepsWellFormed(Apply(h, atoms[0]), atoms[1..]); }
  }

  /** In every history a subscriber's queue is exactly the log restricted to its filter, from its
      subscription to its effective unsubscription, in order and each event once. */
  lemma QueueIsTheFilteredLog(before: seq<Atom>, scope: string, after: seq<Atom>)
    ensures var q := |After(EMPTY, before).queues|;
            var z := After(EMPTY, before + [Joined(scope)] + after);
            q < |z.queues| && z.queues[q] == Received(after, q, scope)
  {
    var h := After(EMPTY, before);
    HistoryKeepsWellFormed(EMPTY, before);
    var joined := Apply(h, Joined(scope));
    AfterAppend(EMPTY, before, [Joined(scope)] + after);
    assert before + ([Joined(scope)] + after) == before + [Joined(scope)] + after;
    assert ([Joined(scope)] + after)[1..] == after;
    assert In(joined, |h.queues|, scope);
    InGetsWhatItShould(joined, after, |h.queues|, scope);
    assert [] + Received(after, |h.queues|, scope) == Received(after, |h.queues|, scope);
  }

  /** All events of a history, in order. */
  function Log(atoms: seq<Atom>): seq<Event>
    decreases |atoms|
  {
    if atoms == [] then []
    else (if atoms[0].Sent? then [atoms[0].event] else []) + Log(atoms[1..])
  }

  lemma {:induction false} LogAppend(a: seq<Atom>, b: seq<Atom>)
    ensures Log(a + b) == Log(a) + Log(b)
    decreases |a|
  {
    if a == [] {
      assert a + b == b;
    } else {
      assert (a + b)[1..] == a[1..] + b && (a + b)[0] == a[0];
      LogAppend(a[1..], b);
      Assoc(if a[0].Sent? then [a[0].event] else [], Log(a[1..]), Log(b));
    }
  }

  lemma {:induction false} GlobalGetsAPrefix(atoms: seq<Atom>, q: nat)
    ensures Received(atoms, q, "") <= Log(atoms)
    decreases |atoms|
  {
    if atoms != [] { GlobalGetsAPrefix(atoms[1..], q); }
  }

  /** A global subscriber's queue is one stretch of the log, from where it subscribed. So two of them see
      the events they share in the same order. */
  lemma GlobalQueueIsAStretchOfTheLog(before: seq<Atom>, after: seq<Atom>)
    ensures var q := |After(EMPTY, before).queues|;
            var history := before + [Joined("")] + after;
            && q < |After(EMPTY, history).queues|
            && Log(before) <= Log(history)
            && After(EMPTY, history).queues[q] <= Log(history)[|Log(before)|..]
  {
    QueueIsTheFilteredLog(before, "", after);
    GlobalGetsAPrefix(after, |After(EMPTY, before).queues|);
    LogAppend(before + [Joined("")], after);
    LogAppend(before, [Joined("")]);
    assert [Joined("")][1..] == [];
  }

  /** Unsubscribing without naming the request leaves a request's subscriber subscribed. */
  lemma LeavingWithoutTheScopeIsIgnored(h: Hub, q: nat, scope: string)
    requires In(h, q, scope) && scope != ""
    ensures In(Apply(h, Left(q, "")), q, scope)
  {
  }

  // -------- handlers --------

  class EventEmitter {
    var scoped: map<string, set<nat>>
    var everyone: set<nat>
    var queues: seq<seq<Event>>
    var handlers: nat
    ghost var history: seq<Atom>

    ghost function State(): Hub
      reads this
    {
      Hub(scoped, everyone, queues, handlers)
    }

    ghost predicate Valid()
      reads this
    {
      State() == After(EMPTY, history) && WellFormed(State())
    }

    constructor ()
      ensures Valid() && history == []
    {
      scoped, everyone, queues, handlers := map[], {}, [], 0;
      history := [];
    }

    ghost method Note(a: Atom)
      requires State() == Apply(After(EMPTY, history), a) && WellFormed(After(EMPTY, history))
      modifies this`history
      ensures Valid() && history == old(history) + [a]
    {
      AfterAppend(EMPTY, history, [a]);
      assert [a][1..] == [];
      history := history + [a];
    }

    method Subscribe(request: string) returns (q: nat)
      requires Valid()
      modifies this
      ensures Valid() && history == old(history) + [Joined(request)]
      ensures q == |old(queues)| && |queues| == q + 1 && handlers == old(handlers)
    {
      q := |queues|;
      queues := queues + [[]];
      if request != "" {
        if request !in scoped { scoped := scoped[request := {}]; }
        scoped := scoped[request := scoped[request] + {q}];
      } else {
        everyone := everyone + {q};
      }
      assert State().scoped == Join(old(State()), request).scoped;
      Note(Joined(request));
    }

    method Unsubscribe(q: nat, request: string)
      requires Valid()
      modifies this
      ensures Valid() && history == old(history) + [Left(q, request)] && handlers == old(handlers)
    {
      if request != "" && request in scoped { scoped := scoped[request := scoped[request] - {q}]; }
      everyone := everyone - {q};
      Note(Left(q, request));
    }

    method Register()
      requires Valid()
      modifies this
      ensures Valid() && history == old(history) + [Registered] && handlers == old(handlers) + 1
    {
      handlers := handlers + 1;
      Note(Registered);
    }

    method PutAll(targets: set<nat>, e: Event)
      requires forall q :: q in targets ==> q < |queues|
      modifies this`queues
      ensures |queues| == |old(queues)|
      ensures forall q :: 0 <= q < |queues| ==>
                queues[q] == if q in targets then old(queues)[q] + [e] else old(queues)[q]
    {
      var todo := targets;
      while todo != {}
        invariant todo <= targets && |queues| == |old(queues)|
        invariant forall q :: 0 <= q < |queues| ==>
                    queues[q] == if q in targets && q !in todo then old(queues)[q] + [e] else old(queues)[q]
        decreases |todo|
      {
        var q :| q in todo;
        queues := queues[q := queues[q] + [e]];
        todo := todo - {q};
      }
    }

    method Send(e: Event)
      requires Valid()
      modifies this`queues, this`history
      ensures Valid() && history == old(history) + [Sent(e)]
    {
      if e.request != "" && e.request in scoped {
        ghost var h := State();
        forall q | q in scoped[e.request] ensures q < |queues| { SubscribedExists(h, e.request, q); }
        PutAll(scoped[e.request], e);
      }
      PutAll(everyone, e);
      assert queues == Deliver(old(State()), e).queues;
      Note(Sent(e));
    }

    /** Delivers to the queues first, then calls every handler, whatever the handlers do. */
    method EmitEvent(e: Event, reactions: Reactions)
      requires Valid()
      modifies this
      ensures Valid() && handlers == HandlerTrace(reactions, 0, e, old(handlers)).1
      ensures history == old(history) + [Sent(e)] + HandlerTrace(reactions, 0, e, old(handlers)).0
      decreases reactions, 1
    {
      Send(e);
      var k, rs := 0, reactions;
      ghost var done: seq<Atom> := [];
      while k < handlers
        invariant Valid() && (rs == reactions || rs < reactions)
        invariant history == old(history) + [Sent(e)] + done
        invariant done + HandlerTrace(rs, k, e, handlers).0 == HandlerTrace(reactions, 0, e, old(handlers)).0
        invariant HandlerTrace(rs, k, e, handlers).1 == HandlerTrace(reactions, 0, e, old(handlers)).1
        decreases rs, handlers - k
      {
        ghost var n := handlers;
        NextCalled(done, rs, k, e, n);
        Assoc(old(history) + [Sent(e)], done, Called(rs, k, e, n).0);
        done := done + Called(rs, k, e, n).0;
        rs := CallHandler(k, e, rs);
        k := k + 1;
      }
    }

    /** Calls one handler, which does what the first reaction says. */
    method CallHandler(k: nat, e: Event, rs: Reactions) returns (others: Reactions)
      requires Valid()
      modifies this
      ensures Valid()
      ensures var called := Called(rs, k, e, old(handlers));
              history == old(history) + called.0 && handlers == called.1 && others == called.2
      decreases rs, 0
    {
      Note(Handled(k, e));
      match rs {
        case NoMore =>
          others := NoMore;
        case Reaction(acts, more) =>
          Perform(acts);
          Assoc(old(history), [Handled(k, e)], Trace(acts, old(handlers)).0);
          others := more;
      }
    }

    /** What a caller or a handler does. */
    method Perform(a: Acts)
      requires Valid()
      modifies this
      ensures Valid() && handlers == Trace(a, old(handlers)).1
      ensures history == old(history) + Trace(a, old(handlers)).0
      decreases a, 0
    {
      match a {
        case Done =>
          assert history + [] == history;
        case Subscribe(scope, next) =>
          var _ := Subscribe(scope);
          Perform(next);
          Assoc(old(history), [Joined(scope)], Trace(next, old(handlers)).0);
        case Unsubscribe(q, scope, next) =>
          Unsubscribe(q, scope);
          Perform(next);
          Assoc(old(history), [Left(q, scope)], Trace(next, old(handlers)).0);
        case On(next) =>
          Register();
          Perform(next);
          Assoc(old(history), [Registered], Trace(next, old(handlers) + 1).0);
        case Emit(e, reactions, next) =>
          EmitEvent(e, reactions);
          ghost var (inner, k) := HandlerTrace(reactions, 0, e, old(handlers));
          Perform(next);
          Assoc(old(history), [Sent(e)], inner);
          Assoc(old(history), [Sent(e)] + inner, Trace(next, k).0);
      }
    }
  }
}
