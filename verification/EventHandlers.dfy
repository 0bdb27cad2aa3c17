/** Who is called when, and what is recorded: over everything that callers and handlers may do, emissions from
    inside handlers included. */
module EventHandlers {
  import opened Common
  import opened Events

  /** The calls of handlers for one event, in order. */
  function CallsFor(atoms: seq<Atom>, e: Event): seq<nat> {
    if atoms == [] then []
    else (if atoms[0].Handled? && atoms[0].event == e then [atoms[0].handler] else []) + CallsFor(atoms[1..], e)
  }

  function Registrations(atoms: seq<Atom>): nat {
    if atoms == [] then 0 else (if atoms[0].Registered? then 1 else 0) + Registrations(atoms[1..])
  }

  /** The numbers from `k` up to `n`. */
  function From(k: nat, n: nat): seq<nat>
    decreases n - k
  {
    if k >= n then [] else [k] + From(k + 1, n)
  }

  /** The acts emit the event, directly or from a handler. */
  predicate Emits(a: Acts, e: Event)
    decreases a
  {
    match a
    case Done => false
    case Subscribe(_, next) => Emits(next, e)
    case Unsubscribe(_, _, next) => Emits(next, e)
    case On(next) => Emits(next, e)
    case Emit(sent, reactions, next) => sent == e || HandlersEmit(reactions, e) || Emits(next, e)
  }

  predicate HandlersEmit(rs: Reactions, e: Event)
    decreases rs
  {
    match rs
    case NoMore => false
    case Reaction(acts, more) => Emits(acts, e) || HandlersEmit(more, e)
  }

  lemma {:induction false} CallsConcat(a: seq<Atom>, b: seq<Atom>, e: Event)
    ensures CallsFor(a + b, e) == CallsFor(a, e) + CallsFor(b, e)
  {
    if a == [] {
      assert a + b == b;
    } else {
      assert (a + b)[1..] == a[1..] + b;
      CallsConcat(a[1..], b, e);
      Assoc(if a[0].Handled? && a[0].event == e then [a[0].handler] else [], CallsFor(a[1..], e), CallsFor(b, e));
    }
  }

  lemma {:induction false} RegistrationsConcat(a: seq<Atom>, b: seq<Atom>)
    ensures Registrations(a + b) == Registrations(a) + Registrations(b)
  {
    if a == [] {
      assert a + b == b;
    } else {
      assert (a + b)[1..] == a[1..] + b;
      RegistrationsConcat(a[1..], b);
    }
  }

  lemma FirstAtom(x: Atom, rest: seq<Atom>, e: Event)
    ensures CallsFor([x] + rest, e) ==
              (if x.Handled? && x.event == e then [x.handler] else []) + CallsFor(rest, e)
    ensures Registrations([x] + rest) == (if x.Registered? then 1 else 0) + Registrations(rest)
  {
    assert ([x] + rest)[1..] == rest;
  }

  lemma Nested(x: Atom, inner: seq<Atom>, rest: seq<Atom>, e: Event)
    ensures CallsFor([x] + inner + rest, e) ==
              (if x.Handled? && x.event == e then [x.handler] else []) + CallsFor(inner, e) + CallsFor(rest, e)
    ensures Registrations([x] + inner + rest) ==
              (if x.Registered? then 1 else 0) + Registrations(inner) + Registrations(rest)
  {
    FirstAtom(x, inner, e);
    CallsConcat([x] + inner, rest, e);
    RegistrationsConcat([x] + inner, rest);
  }

  /** Acts that do not emit the event call no handler for it. */
  lemma {:induction false} NoCallsWithoutEmission(a: Acts, n: nat, e: Event)
    requires !Emits(a, e)
    ensures CallsFor(Trace(a, n).0, e) == []
    decreases a, 0
  {
    match a
    case Done =>
    case Subscribe(scope, next) =>
      NoCallsWithoutEmission(next, n, e);
      FirstAtom(Joined(scope), Trace(next, n).0, e);
    case Unsubscribe(q, scope, next) =>
      NoCallsWithoutEmission(next, n, e);
      FirstAtom(Left(q, scope), Trace(next, n).0, e);
    case On(next) =>
      NoCallsWithoutEmission(next, n + 1, e);
      FirstAtom(Registered, Trace(next, n + 1).0, e);
    case Emit(sent, reactions, next) =>
      var (inner, k) := HandlerTrace(reactions, 0, sent, n);
      NoCallsForOthers(reactions, 0, sent, n, e);
      NoCallsWithoutEmission(next, k, e);
      Nested(Sent(sent), inner, Trace(next, k).0, e);
  }

  lemma {:induction false} NoCallsForOthers(rs: Reactions, k: nat, sent: Event, n: nat, e: Event)
    requires sent != e && !HandlersEmit(rs, e)
    ensures CallsFor(HandlerTrace(rs, k, sent, n).0, e) == []
    decreases rs, if k < n then n - k else 0
  {
    if k < n {
      match rs
      case NoMore =>
        NoCallsForOthers(NoMore, k + 1, sent, n, e);
        FirstAtom(Handled(k, sent), HandlerTrace(NoMore, k + 1, sent, n).0, e);
      case Reaction(acts, more) =>
        var (inner, j) := Trace(acts, n);
        NoCallsWithoutEmission(acts, n, e);
        NoCallsForOthers(more, k + 1, sent, j, e);
        Nested(Handled(k, sent), inner, HandlerTrace(more, k + 1, sent, j).0, e);
    }
  }

  /** The number of handlers grows by the registrations, wherever they are made. */
  lemma {:induction false} HandlersGrowByRegistrations(a: Acts, n: nat)
    ensures Trace(a, n).1 == n + Registrations(Trace(a, n).0)
    decreases a, 0
  {
    var e := Event("", "");
    match a
    case Done =>
    case Subscribe(scope, next) =>
      HandlersGrowByRegistrations(next, n);
      FirstAtom(Joined(scope), Trace(next, n).0, e);
    case Unsubscribe(q, scope, next) =>
      HandlersGrowByRegistrations(next, n);
      FirstAtom(Left(q, scope), Trace(next, n).0, e);
    case On(next) =>
      HandlersGrowByRegistrations(next, n + 1);
      FirstAtom(Registered, Trace(next, n + 1).0, e);
    case Emit(sent, reactions, next) =>
      var (inner, k) := HandlerTrace(reactions, 0, sent, n);
      CalledHandlersGrow(reactions, 0, sent, n);
      HandlersGrowByRegistrations(next, k);
      Nested(Sent(sent), inner, Trace(next, k).0, e);
  }

  lemma {:induction false} CalledHandlersGrow(rs: Reactions, k: nat, sent: Event, n: nat)
    ensures HandlerTrace(rs, k, sent, n).1 == n + Registrations(HandlerTrace(rs, k, sent, n).0)
    decreases rs, if k < n then n - k else 0
  {
    if k < n {
      match rs
      case NoMore =>
        CalledHandlersGrow(NoMore, k + 1, sent, n);
        FirstAtom(Handled(k, sent), HandlerTrace(NoMore, k + 1, sent, n).0, sent);
      case Reaction(acts, more) =>
        var (inner, j) := Trace(acts, n);
        HandlersGrowByRegistrations(acts, n);
        CalledHandlersGrow(more, k + 1, sent, j);
        Nested(Handled(k, sent), inner, HandlerTrace(more, k + 1, sent, j).0, sent);
    }
  }

  /** One emission calls every handler once, in the order of registration, those registered while it goes on
      included, whatever the handlers do, as long as they do not emit the same event again. */
  lemma {:induction false} EachHandlerIsCalledOnce(rs: Reactions, k: nat, e: Event, n: nat)
    requires k <= n && !HandlersEmit(rs, e)
    ensures CallsFor(HandlerTrace(rs, k, e, n).0, e) == From(k, HandlerTrace(rs, k, e, n).1)
    ensures HandlerTrace(rs, k, e, n).1 == n + Registrations(HandlerTrace(rs, k, e, n).0)
    decreases rs, n - k
  {
    CalledHandlersGrow(rs, k, e, n);
    if k < n {
      match rs
      case NoMore =>
        EachHandlerIsCalledOnce(NoMore, k + 1, e, n);
        FirstAtom(Handled(k, e), HandlerTrace(NoMore, k + 1, e, n).0, e);
      case Reaction(acts, more) =>
        var (inner, j) := Trace(acts, n);
        HandlersGrowByRegistrations(acts, n);
        NoCallsWithoutEmission(acts, n, e);
        EachHandlerIsCalledOnce(more, k + 1, e, j);
        Nested(Handled(k, e), inner, HandlerTrace(more, k + 1, e, j).0, e);
    }
  }

  // -------- what a caller does is what is recorded --------

  /** Nothing reacts to what the acts emit. */
  predicate Unanswered(a: Acts) {
    match a
    case Done => true
    case Subscribe(_, next) => Unanswered(next)
    case Unsubscribe(_, _, next) => Unanswered(next)
    case On(next) => Unanswered(next)
    case Emit(_, reactions, next) => reactions.NoMore? && Unanswered(next)
  }

  /** The acts one by one. */
  function OwnAtoms(a: Acts): seq<Atom> {
    match a
    case Done => []
    case Subscribe(scope, next) => [Joined(scope)] + OwnAtoms(next)
    case Unsubscribe(q, scope, next) => [Left(q, scope)] + OwnAtoms(next)
    case On(next) => [Registered] + OwnAtoms(next)
    case Emit(e, _, next) => [Sent(e)] + OwnAtoms(next)
  }

  /** Without the calls of handlers. */
  function WithoutCalls(atoms: seq<Atom>): seq<Atom> {
    if atoms == [] then []
    else (if atoms[0].Handled? then [] else [atoms[0]]) + WithoutCalls(atoms[1..])
  }

  lemma {:induction false} WithoutCallsConcat(a: seq<Atom>, b: seq<Atom>)
    ensures WithoutCalls(a + b) == WithoutCalls(a) + WithoutCalls(b)
  {
    if a == [] {
      assert a + b == b;
    } else {
      assert (a + b)[1..] == a[1..] + b;
      WithoutCallsConcat(a[1..], b);
      Assoc(if a[0].Handled? then [] else [a[0]], WithoutCalls(a[1..]), WithoutCalls(b));
    }
  }

  lemma FirstOwn(x: Atom, rest: seq<Atom>)
    ensures WithoutCalls([x] + rest) == (if x.Handled? then [] else [x]) + WithoutCalls(rest)
  {
    assert ([x] + rest)[1..] == rest;
  }

  lemma {:induction false} UnansweredCallsOnly(k: nat, e: Event, n: nat)
    ensures WithoutCalls(HandlerTrace(NoMore, k, e, n).0) == [] && HandlerTrace(NoMore, k, e, n).1 == n
    decreases if k < n then n - k else 0
  {
    if k < n {
      UnansweredCallsOnly(k + 1, e, n);
      FirstOwn(Handled(k, e), HandlerTrace(NoMore, k + 1, e, n).0);
    }
  }

  lemma OwnEmission(e: Event, inner: seq<Atom>, rest: seq<Atom>)
    requires WithoutCalls(inner) == []
    ensures WithoutCalls([Sent(e)] + inner + rest) == [Sent(e)] + WithoutCalls(rest)
  {
    FirstOwn(Sent(e), inner);
    WithoutCallsConcat([Sent(e)] + inner, rest);
  }

  /** When nothing reacts, the history is what the caller did, in that order, with the calls in between. */
  lemma {:induction false} HistoryIsWhatTheCallerDid(a: Acts, n: nat)
    requires Unanswered(a)
    ensures WithoutCalls(Trace(a, n).0) == OwnAtoms(a)
  {
    match a
    case Done =>
    case Subscribe(scope, next) =>
      HistoryIsWhatTheCallerDid(next, n);
      FirstOwn(Joined(scope), Trace(next, n).0);
    case Unsubscribe(q, scope, next) =>
      HistoryIsWhatTheCallerDid(next, n);
      FirstOwn(Left(q, scope), Trace(next, n).0);
    case On(next) =>
      HistoryIsWhatTheCallerDid(next, n + 1);
      FirstOwn(Registered, Trace(next, n + 1).0);
    case Emit(e, _, next) =>
      var inner := HandlerTrace(NoMore, 0, e, n).0;
      UnansweredCallsOnly(0, e, n);
      HistoryIsWhatTheCallerDid(next, n);
      OwnEmission(e, inner, Trace(next, n).0);
  }
}
