/**
 * How the middleware's steps and the reducers fit together: the actions the
 * trace feeds to the store, the invariants every step preserves (guard and
 * chains agree, every BEGIN is matched by one effect call and one END, and
 * the slices track each chain's phase), and what a caller observes.
 */
module Lifecycle {
  import opened Wrappers
  import opened JsValue
  import opened Objects
  import opened Reducers
  import opened Middleware
  import Hooks

  /** The actions a trace delivers to the store's reducers: forwards and lifecycle dispatches. */
  function Actions(tr: seq<Event>): seq<Action>
    decreases |tr|
  {
    if |tr| == 0 then []
    else
      var e := tr[|tr| - 1];
      if e.Invoke? then Actions(tr[..|tr| - 1]) else Actions(tr[..|tr| - 1]) + [e.action]
  }

  lemma {:induction false} ActionsAppend(xs: seq<Event>, ys: seq<Event>)
    ensures Actions(xs + ys) == Actions(xs) + Actions(ys)
    decreases |ys|
  {
    if |ys| == 0 {
      assert xs + ys == xs;
    } else {
      var n := |ys| - 1;
      assert (xs + ys)[..|xs + ys| - 1] == xs + ys[..n];
      ActionsAppend(xs, ys[..n]);
    }
  }

  /** The slices the store holds once it has seen the whole trace, starting from `init`. */
  function Observed(init: Slices, tr: seq<Event>): Slices {
    ReduceAll(init, Actions(tr))
  }

  /** Appending events to the trace reduces their actions on top of what was observed. */
  lemma ObservedAppend(init: Slices, tr: seq<Event>, delta: seq<Event>)
    ensures Observed(init, tr + delta) == ReduceAll(Observed(init, tr), Actions(delta))
  {
    ActionsAppend(tr, delta);
    ReduceAllAppend(init, Actions(tr), Actions(delta));
  }

  /** One more event on the trace. */
  lemma ActionsSnoc(xs: seq<Event>, e: Event)
    ensures Actions(xs + [e]) == if e.Invoke? then Actions(xs) else Actions(xs) + [e.action]
  {
    assert (xs + [e])[..|xs|] == xs;
  }

  /** The actions of a three-event trace. */
  lemma ActionsThree(x: Event, y: Event, z: Event)
    requires !x.Invoke? && !y.Invoke? && !z.Invoke?
    ensures Actions([x, y, z]) == [x.action, y.action, z.action]
  {
    ActionsSnoc([], x);
    assert [] + [x] == [x];
    ActionsSnoc([x], y);
    assert [x] + [y] == [x, y];
    ActionsSnoc([x, y], z);
    assert [x, y] + [z] == [x, y, z];
  }

  /** Two actions reduced in order. */
  lemma ReduceAllTwo(s: Slices, a: Action, b: Action)
    ensures ReduceAll(s, [a, b]) == Reduce(Reduce(s, a), b)
  {
    ReduceAllSnoc(s, [], a);
    assert [] + [a] == [a];
    ReduceAllSnoc(s, [a], b);
    assert [a] + [b] == [a, b];
  }

  /** Three actions reduced in order. */
  lemma ReduceAllThree(s: Slices, a: Action, b: Action, c: Action)
    ensures ReduceAll(s, [a, b, c]) == Reduce(Reduce(Reduce(s, a), b), c)
  {
    ReduceAllTwo(s, a, b);
    ReduceAllSnoc(s, [a, b], c);
    assert [a, b] + [c] == [a, b, c];
  }

  // ---------------------------------------------------------------------------
  // The accept and settle steps, seen through the reducers

  /**
   * Whatever came before, once a pair of type `t` is accepted and its
   * actions reach the store, `t` is loading and its error slot is `false`.
   */
  lemma AcceptedPairObserved(init: Slices, st: State, a: Action, f: nat, v: Val)
    requires !IsActive(st.guard, a.kind)
    ensures var st' := Dispatch(st, Pair(a, f), v).state;
            && Lookup(Observed(init, st'.trace).loading, a.kind) == Some(Bool(true))
            && Lookup(Observed(init, st'.trace).errors, a.kind) == Some(Bool(false))
  {
    var t := a.kind;
    var delta := [Next(a), Store(BeginAction(t)), Store(ClearAction(t))];
    ObservedAppend(init, st.trace, delta);
    ActionsThree(Next(a), Store(BeginAction(t)), Store(ClearAction(t)));
    ReduceAllThree(Observed(init, st.trace), a, BeginAction(t), ClearAction(t));
  }

  /** The actions settling delivers to the store. */
  lemma SettleActionsDeliver(t: string, outcome: Outcome)
    ensures outcome.Resolved? ==> Actions(SettleActions(t, outcome)) == [EndAction(t)]
    ensures outcome.Rejected? ==>
              Actions(SettleActions(t, outcome)) == [SetAction(t, outcome.reason), EndAction(t)]
  {
    var end := Store(EndAction(t));
    ActionsSnoc([], end);
    assert [] + [end] == [end];
    if outcome.Rejected? {
      var setEv := Store(SetAction(t, outcome.reason));
      ActionsSnoc([], setEv);
      assert [] + [setEv] == [setEv];
      ActionsSnoc([setEv], end);
      assert [setEv] + [end] == [setEv, end];
    }
  }

  /**
   * Once a chain settles, its type is no longer loading; a rejection leaves
   * the reason in the error slot (`true` for a null or undefined reason),
   * and a resolution leaves the error slot as it was.
   */
  lemma SettleObserved(init: Slices, st: State, t: string, outcome: Outcome)
    requires t in st.chains && st.chains[t].phase == Running
    ensures var obs := Observed(init, Settle(st, t, outcome).trace);
            && Lookup(obs.loading, t) == Some(Bool(false))
            && (outcome.Rejected? ==> Lookup(obs.errors, t) == Some(Coalesce(outcome.reason, Bool(true))))
            && (outcome.Resolved? ==> Lookup(obs.errors, t) == Lookup(Observed(init, st.trace).errors, t))
  {
    var before := Observed(init, st.trace);
    ObservedAppend(init, st.trace, SettleActions(t, outcome));
    SettleActionsDeliver(t, outcome);
    match outcome
    case Resolved(_) =>
      ReduceAllSnoc(before, [], EndAction(t));
      assert [] + [EndAction(t)] == [EndAction(t)];
    case Rejected(e) =>
      ReduceAllTwo(before, SetAction(t, e), EndAction(t));
  }

  // ---------------------------------------------------------------------------
  // Counting lifecycle events

  datatype Mark = BeginOf | InvokeOf | EndOf

  /** Whether an event is the BEGIN, the effect call, or the END for type `t`. */
  predicate Marks(e: Event, m: Mark, t: string) {
    match m
    case BeginOf => e == Store(BeginAction(t))
    case InvokeOf => e.Invoke? && e.action.kind == t
    case EndOf => e == Store(EndAction(t))
  }

  function Count(tr: seq<Event>, m: Mark, t: string): nat
    decreases |tr|
  {
    if |tr| == 0 then 0
    else Count(tr[..|tr| - 1], m, t) + (if Marks(tr[|tr| - 1], m, t) then 1 else 0)
  }

  lemma {:induction false} CountAppend(xs: seq<Event>, ys: seq<Event>, m: Mark, t: string)
    ensures Count(xs + ys, m, t) == Count(xs, m, t) + Count(ys, m, t)
    decreases |ys|
  {
    if |ys| == 0 {
      assert xs + ys == xs;
    } else {
      var n := |ys| - 1;
      assert (xs + ys)[..|xs + ys| - 1] == xs + ys[..n];
      CountAppend(xs, ys[..n], m, t);
    }
  }

  /** Count over a short literal trace. */
  lemma CountLiteral(a: Event, b: Event, c: Event, m: Mark, t: string)
    ensures Count([a], m, t) == (if Marks(a, m, t) then 1 else 0)
    ensures Count([a, b], m, t) == Count([a], m, t) + (if Marks(b, m, t) then 1 else 0)
    ensures Count([a, b, c], m, t) == Count([a, b], m, t) + (if Marks(c, m, t) then 1 else 0)
  {
    assert [a, b, c][..2] == [a, b];
    assert [a, b][..1] == [a];
    assert [a][..0] == [];
  }

  // ---------------------------------------------------------------------------
  // The invariant

  /** `activeEffects[t]` is set exactly while a chain for `t` is unfinished. */
  ghost predicate GuardAgrees(st: State) {
    forall t :: IsActive(st.guard, t) <==> t in st.chains
  }

  /** Each chain is filed under its own action's type. */
  ghost predicate ChainsKeyed(st: State) {
    forall t :: t in st.chains ==> st.chains[t].action.kind == t
  }

  /** 1 when `t` has a chain that has not yet dispatched its END. */
  function Outstanding(st: State, t: string): nat {
    if t in st.chains && !st.chains[t].phase.Finishing? then 1 else 0
  }

  /** 1 when `t` has a chain whose effect has not yet been called. */
  function Waiting(st: State, t: string): nat {
    if t in st.chains && st.chains[t].phase == Scheduled then 1 else 0
  }

  /**
   * Every BEGIN for `t` is followed by exactly one call of the effect and
   * exactly one END, except for the one chain that may still be on its way.
   */
  ghost predicate Balanced(st: State, t: string) {
    && Count(st.trace, BeginOf, t) == Count(st.trace, EndOf, t) + Outstanding(st, t)
    && Count(st.trace, BeginOf, t) == Count(st.trace, InvokeOf, t) + Waiting(st, t)
  }

  /**
   * What the store shows for `t`: loading with a cleared error while its
   * chain runs, not loading (and the outcome's error slot) once it settled,
   * and, with no chain, either the initial flag or `false`.
   */
  ghost predicate SlotsAgree(init: Slices, st: State, t: string) {
    var obs := Observed(init, st.trace);
    var l := Lookup(obs.loading, t);
    var e := Lookup(obs.errors, t);
    if t in st.chains then
      match st.chains[t].phase
      case Scheduled => l == Some(Bool(true)) && e == Some(Bool(false))
      case Running => l == Some(Bool(true)) && e == Some(Bool(false))
      case Finishing(Resolved(_)) => l == Some(Bool(false)) && e == Some(Bool(false))
      case Finishing(Rejected(r)) => l == Some(Bool(false)) && e == Some(Coalesce(r, Bool(true)))
    else l == Lookup(init.loading, t) || l == Some(Bool(false))
  }

  /**
   * The middleware's own bookkeeping: guard and chains agree, chains are
   * filed under their types, and every type's lifecycle counts balance.
   */
  ghost predicate Orderly(st: State) {
    && GuardAgrees(st)
    && ChainsKeyed(st)
    && (forall t :: Balanced(st, t))
  }

  /** The bookkeeping, plus the store's slots tracking every chain. */
  ghost predicate Inv(init: Slices, st: State) {
    && Orderly(st)
    && (forall t :: SlotsAgree(init, st, t))
  }

  /** Callers only dispatch their own action types, never the library's lifecycle types. */
  predicate CallerMove(m: Move) {
    m.DispatchMove? ==> !Reserved(m.d.action.kind)
  }

  lemma FreshSatisfiesInv(init: Slices)
    ensures Inv(init, Fresh)
  {
    assert Observed(init, Fresh.trace) == init;
  }

  /** A dispatch keeps every type's lifecycle counts balanced. */
  lemma DispatchKeepsBalance(st: State, d: Dispatched, v: Val, t: string)
    requires GuardAgrees(st)
    requires Balanced(st, t)
    ensures Balanced(Dispatch(st, d, v).state, t)
  {
    var a := d.action;
    var t0 := a.kind;
    if d.Plain? {
      CountAppend(st.trace, [Next(a)], BeginOf, t);
      CountAppend(st.trace, [Next(a)], EndOf, t);
      CountAppend(st.trace, [Next(a)], InvokeOf, t);
      CountLiteral(Next(a), Next(a), Next(a), BeginOf, t);
      CountLiteral(Next(a), Next(a), Next(a), EndOf, t);
      CountLiteral(Next(a), Next(a), Next(a), InvokeOf, t);
    } else if !IsActive(st.guard, t0) {
      var delta := [Next(a), Store(BeginAction(t0)), Store(ClearAction(t0))];
      assert t0 !in st.chains;
      CountAppend(st.trace, delta, BeginOf, t);
      CountAppend(st.trace, delta, EndOf, t);
      CountAppend(st.trace, delta, InvokeOf, t);
      CountLiteral(Next(a), Store(BeginAction(t0)), Store(ClearAction(t0)), BeginOf, t);
      CountLiteral(Next(a), Store(BeginAction(t0)), Store(ClearAction(t0)), EndOf, t);
      CountLiteral(Next(a), Store(BeginAction(t0)), Store(ClearAction(t0)), InvokeOf, t);
    }
  }

  /** A caller's dispatch leaves the slots of every type other than an accepted pair's alone. */
  lemma DispatchKeepsOtherSlots(init: Slices, st: State, d: Dispatched, v: Val, t: string)
    requires !Reserved(d.action.kind)
    requires d.Plain? || t != d.action.kind
    ensures var after := Observed(init, Dispatch(st, d, v).state.trace);
            var before := Observed(init, st.trace);
            && Lookup(after.loading, t) == Lookup(before.loading, t)
            && Lookup(after.errors, t) == Lookup(before.errors, t)
  {
    var a := d.action;
    var t0 := a.kind;
    if d.Plain? {
      ObservedAppend(init, st.trace, [Next(a)]);
      ActionsSnoc([], Next(a));
      assert [] + [Next(a)] == [Next(a)];
      ReduceAllSnoc(Observed(init, st.trace), [], a);
      assert [] + [a] == [a];
    } else if !IsActive(st.guard, t0) {
      var delta := [Next(a), Store(BeginAction(t0)), Store(ClearAction(t0))];
      ObservedAppend(init, st.trace, delta);
      ActionsThree(Next(a), Store(BeginAction(t0)), Store(ClearAction(t0)));
      UntouchedTargetKeepsSlots(Observed(init, st.trace), [a, BeginAction(t0), ClearAction(t0)], t);
    }
  }

  /** A caller's dispatch keeps what the store shows for every type in step with its chain. */
  lemma DispatchKeepsSlots(init: Slices, st: State, d: Dispatched, v: Val, t: string)
    requires GuardAgrees(st)
    requires !Reserved(d.action.kind)
    requires SlotsAgree(init, st, t)
    ensures SlotsAgree(init, Dispatch(st, d, v).state, t)
  {
    if d.Pair? && t == d.action.kind {
      if !IsActive(st.guard, t) {
        assert t !in st.chains;
        AcceptedPairObserved(init, st, d.action, d.effect, v);
      }
    } else {
      DispatchKeepsOtherSlots(init, st, d, v, t);
    }
  }

  /** Any dispatch, whatever its action type, keeps the bookkeeping. */
  lemma DispatchKeepsOrderly(st: State, d: Dispatched, v: Val)
    requires Orderly(st)
    ensures Orderly(Dispatch(st, d, v).state)
  {
    var st' := Dispatch(st, d, v).state;
    forall t
      ensures Balanced(st', t)
    {
      DispatchKeepsBalance(st, d, v, t);
    }
  }

  lemma DispatchPreservesInv(init: Slices, st: State, d: Dispatched, v: Val)
    requires Inv(init, st)
    requires !Reserved(d.action.kind)
    ensures Inv(init, Dispatch(st, d, v).state)
  {
    var st' := Dispatch(st, d, v).state;
    DispatchKeepsOrderly(st, d, v);
    forall t
      ensures SlotsAgree(init, st', t)
    {
      DispatchKeepsSlots(init, st, d, v, t);
    }
  }

  /** Calling the effect adds one effect call to its type's count and nothing else. */
  lemma StartKeepsBalance(st: State, t0: string, t: string)
    requires ChainsKeyed(st)
    requires t0 in st.chains && st.chains[t0].phase == Scheduled
    requires Balanced(st, t)
    ensures Balanced(Start(st, t0), t)
  {
    var c := st.chains[t0];
    var ev := Invoke(c.effect, c.action);
    CountAppend(st.trace, [ev], BeginOf, t);
    CountAppend(st.trace, [ev], EndOf, t);
    CountAppend(st.trace, [ev], InvokeOf, t);
    CountLiteral(ev, ev, ev, BeginOf, t);
    CountLiteral(ev, ev, ev, EndOf, t);
    CountLiteral(ev, ev, ev, InvokeOf, t);
  }

  /** Calling the effect delivers no action, so the store shows the same slots. */
  lemma StartKeepsSlots(init: Slices, st: State, t0: string, t: string)
    requires t0 in st.chains && st.chains[t0].phase == Scheduled
    requires SlotsAgree(init, st, t)
    ensures SlotsAgree(init, Start(st, t0), t)
  {
    var c := st.chains[t0];
    var ev := Invoke(c.effect, c.action);
    ObservedAppend(init, st.trace, [ev]);
    ActionsSnoc([], ev);
    assert [] + [ev] == [ev];
  }

  /** Calling the effect keeps the bookkeeping. */
  lemma StartKeepsOrderly(st: State, t0: string)
    requires Orderly(st)
    requires t0 in st.chains && st.chains[t0].phase == Scheduled
    ensures Orderly(Start(st, t0))
  {
    var st' := Start(st, t0);
    forall t
      ensures Balanced(st', t)
    {
      StartKeepsBalance(st, t0, t);
    }
  }

  lemma StartPreservesInv(init: Slices, st: State, t0: string)
    requires Inv(init, st)
    requires t0 in st.chains && st.chains[t0].phase == Scheduled
    ensures Inv(init, Start(st, t0))
  {
    var st' := Start(st, t0);
    StartKeepsOrderly(st, t0);
    forall t
      ensures SlotsAgree(init, st', t)
    {
      StartKeepsSlots(init, st, t0, t);
    }
  }

  /** Settling keeps every type's lifecycle counts balanced. */
  lemma SettleKeepsBalance(st: State, t0: string, outcome: Outcome, t: string)
    requires t0 in st.chains && st.chains[t0].phase == Running
    requires Balanced(st, t)
    ensures Balanced(Settle(st, t0, outcome), t)
  {
    var delta := SettleActions(t0, outcome);
    CountAppend(st.trace, delta, BeginOf, t);
    CountAppend(st.trace, delta, EndOf, t);
    CountAppend(st.trace, delta, InvokeOf, t);
    var end := Store(EndAction(t0));
    if outcome.Rejected? {
      var setEv := Store(SetAction(t0, outcome.reason));
      CountLiteral(setEv, end, end, BeginOf, t);
      CountLiteral(setEv, end, end, EndOf, t);
      CountLiteral(setEv, end, end, InvokeOf, t);
    } else {
      CountLiteral(end, end, end, BeginOf, t);
      CountLiteral(end, end, end, EndOf, t);
      CountLiteral(end, end, end, InvokeOf, t);
    }
  }

  /** The actions settling `t0` delivers do not touch any other type's slots. */
  lemma SettleActionsElsewhere(s: Slices, t0: string, outcome: Outcome, t: string)
    requires t != t0
    ensures Lookup(ReduceAll(s, Actions(SettleActions(t0, outcome))).loading, t) == Lookup(s.loading, t)
    ensures Lookup(ReduceAll(s, Actions(SettleActions(t0, outcome))).errors, t) == Lookup(s.errors, t)
  {
    SettleActionsDeliver(t0, outcome);
    match outcome {
      case Resolved(_) =>
        ReduceAllSnoc(s, [], EndAction(t0));
        assert [] + [EndAction(t0)] == [EndAction(t0)];
      case Rejected(e) =>
        ReduceAllTwo(s, SetAction(t0, e), EndAction(t0));
    }
  }

  /** Settling leaves the slots of every other type where they were. */
  lemma SettleKeepsOtherSlots(init: Slices, st: State, t0: string, outcome: Outcome, t: string)
    requires t0 in st.chains && st.chains[t0].phase == Running
    requires t != t0
    ensures var after := Observed(init, Settle(st, t0, outcome).trace);
            var before := Observed(init, st.trace);
            && Lookup(after.loading, t) == Lookup(before.loading, t)
            && Lookup(after.errors, t) == Lookup(before.errors, t)
  {
    ObservedAppend(init, st.trace, SettleActions(t0, outcome));
    SettleActionsElsewhere(Observed(init, st.trace), t0, outcome, t);
  }

  /** Settling keeps what the store shows for every type in step with its chain. */
  lemma SettleKeepsSlots(init: Slices, st: State, t0: string, outcome: Outcome, t: string)
    requires t0 in st.chains && st.chains[t0].phase == Running
    requires SlotsAgree(init, st, t)
    ensures SlotsAgree(init, Settle(st, t0, outcome), t)
  {
    if t == t0 {
      SettleObserved(init, st, t0, outcome);
    } else {
      SettleKeepsOtherSlots(init, st, t0, outcome, t);
    }
  }

  /** Settling keeps the bookkeeping. */
  lemma SettleKeepsOrderly(st: State, t0: string, outcome: Outcome)
    requires Orderly(st)
    requires t0 in st.chains && st.chains[t0].phase == Running
    ensures Orderly(Settle(st, t0, outcome))
  {
    var st' := Settle(st, t0, outcome);
    forall t
      ensures Balanced(st', t)
    {
      SettleKeepsBalance(st, t0, outcome, t);
    }
  }

  lemma SettlePreservesInv(init: Slices, st: State, t0: string, outcome: Outcome)
    requires Inv(init, st)
    requires t0 in st.chains && st.chains[t0].phase == Running
    ensures Inv(init, Settle(st, t0, outcome))
  {
    var st' := Settle(st, t0, outcome);
    SettleKeepsOrderly(st, t0, outcome);
    forall t
      ensures SlotsAgree(init, st', t)
    {
      SettleKeepsSlots(init, st, t0, outcome, t);
    }
  }

  /** Clearing the guard keeps the bookkeeping. */
  lemma ReleaseKeepsOrderly(st: State, t0: string)
    requires Orderly(st)
    requires t0 in st.chains && st.chains[t0].phase.Finishing?
    ensures Orderly(Release(st, t0))
  {
    var st' := Release(st, t0);
    forall t
      ensures Balanced(st', t)
    {
      assert Balanced(st, t);
    }
  }

  lemma ReleasePreservesInv(init: Slices, st: State, t0: string)
    requires Inv(init, st)
    requires t0 in st.chains && st.chains[t0].phase.Finishing?
    ensures Inv(init, Release(st, t0))
  {
    var st' := Release(st, t0);
    ReleaseKeepsOrderly(st, t0);
    forall t
      ensures SlotsAgree(init, st', t)
    {
      assert SlotsAgree(init, st, t);
    }
  }

  /**
   * Every schedule of dispatches and promise moves, whatever action types
   * callers dispatch, keeps the guard, the chains and the counts in step.
   */
  lemma {:induction false} RunKeepsOrderly(st: State, moves: seq<Move>)
    requires Orderly(st)
    requires Run(st, moves).Some?
    ensures Orderly(Run(st, moves).value)
    decreases |moves|
  {
    if |moves| > 0 {
      var m := moves[0];
      match m {
        case DispatchMove(d, v) => DispatchKeepsOrderly(st, d, v);
        case StartMove(t) => StartKeepsOrderly(st, t);
        case SettleMove(t, o) => SettleKeepsOrderly(st, t, o);
        case ReleaseMove(t) => ReleaseKeepsOrderly(st, t);
      }
      RunKeepsOrderly(Apply(st, m), moves[1..]);
    }
  }

  /** Every schedule of caller and promise moves keeps the invariant. */
  lemma {:induction false} RunPreservesInv(init: Slices, st: State, moves: seq<Move>)
    requires Inv(init, st)
    requires forall i :: 0 <= i < |moves| ==> CallerMove(moves[i])
    requires Run(st, moves).Some?
    ensures Inv(init, Run(st, moves).value)
    decreases |moves|
  {
    if |moves| > 0 {
      var m := moves[0];
      assert CallerMove(m);
      match m {
        case DispatchMove(d, v) => DispatchPreservesInv(init, st, d, v);
        case StartMove(t) => StartPreservesInv(init, st, t);
        case SettleMove(t, o) => SettlePreservesInv(init, st, t, o);
        case ReleaseMove(t) => ReleasePreservesInv(init, st, t);
      }
      RunPreservesInv(init, Apply(st, m), moves[1..]);
    }
  }

  // ---------------------------------------------------------------------------
  // Consequences

  /**
   * While a chain for `t` is unfinished (even after its END, until the
   * guard is released), a second pair of type `t` is dropped: the state,
   * the trace and the chain are untouched, so its effect is never called.
   */
  lemma InFlightPairDropped(st: State, a: Action, f: nat, v: Val)
    requires Orderly(st)
    requires a.kind in st.chains
    ensures Dispatch(st, Pair(a, f), v) == Step(st, Value(Undefined))
  {
  }

  /** Once the guard is released, a new pair of the same type is accepted again. */
  lemma ReleasedTypeAcceptedAgain(st: State, a: Action, f: nat, v: Val)
    requires Orderly(st)
    requires a.kind in st.chains && st.chains[a.kind].phase.Finishing?
    ensures Dispatch(Release(st, a.kind), Pair(a, f), v).returned == EffectPromise(a.kind)
    ensures Dispatch(Release(st, a.kind), Pair(a, f), v).state.chains[a.kind].phase == Scheduled
  {
  }

  /**
   * When no chain is unfinished and the store started with no truthy
   * loading flag, `useLoading()` is false: no type is left marked loading.
   */
  lemma QuiescentStoreIsNotLoading(init: Slices, st: State)
    requires Inv(init, st)
    requires st.chains == map[]
    requires forall k :: !Hooks.TruthyAt(init.loading, k)
    ensures !Hooks.IsLoading(Observed(init, st.trace).loading, [])
  {
    var obs := Observed(init, st.trace).loading;
    forall k
      ensures !Hooks.TruthyAt(obs, k)
    {
      assert SlotsAgree(init, st, k);
      assert !Hooks.TruthyAt(init.loading, k);
    }
  }

  /**
   * The whole life of one accepted pair, from a state where its type is
   * idle: forward, BEGIN, CLEAR, the effect call, SET on failure, END.
   */
  lemma OnePairLifecycle(st: State, a: Action, f: nat, outcome: Outcome)
    requires !IsActive(st.guard, a.kind)
    ensures var t := a.kind;
            var s1 := Dispatch(st, Pair(a, f), Undefined).state;
            var s2 := Start(s1, t);
            var s3 := Settle(s2, t, outcome);
            var s4 := Release(s3, t);
            && s4.trace == st.trace + [Next(a), Store(BeginAction(t)), Store(ClearAction(t)), Invoke(f, a)]
                                    + SettleActions(t, outcome)
            && !IsActive(s4.guard, t)
            && t !in s4.chains
  {
  }

  /**
   * A failing effect, observed through the hooks: once `[{type: t}, effect]`
   * settles with reason `reason` and the guard is released, `useLoading(t)`
   * is false and `useErrors(t)` lists `reason ?? true` (spread when it is an array).
   */
  lemma FailedEffectObserved(init: Slices, st: State, a: Action, f: nat, reason: Val)
    requires !IsActive(st.guard, a.kind)
    ensures var t := a.kind;
            var s1 := Dispatch(st, Pair(a, f), Undefined).state;
            var s2 := Start(s1, t);
            var s4 := Release(Settle(s2, t, Rejected(reason)), t);
            var obs := Observed(init, s4.trace);
            && !Hooks.IsLoading(obs.loading, [t])
            && Hooks.FlatSpread(Hooks.ErrorSources(obs.errors, [t])) == Hooks.Spread(Coalesce(reason, Bool(true)))
  {
    var t := a.kind;
    var s1 := Dispatch(st, Pair(a, f), Undefined).state;
    var s2 := Start(s1, t);
    SettleObserved(init, s2, t, Rejected(reason));
    var obs := Observed(init, Release(Settle(s2, t, Rejected(reason)), t).trace);
    var srcs := Hooks.ErrorSources(obs.errors, [t]);
    assert srcs == [Coalesce(reason, Bool(true))];
    assert srcs[..0] == [];
  }

  /**
   * A succeeding effect: loading goes true then false, and the error slot is
   * `false` both while it runs and after it settles.
   */
  lemma SucceededEffectObserved(init: Slices, st: State, a: Action, f: nat, value: Val)
    requires !IsActive(st.guard, a.kind)
    ensures var t := a.kind;
            var s1 := Dispatch(st, Pair(a, f), Undefined).state;
            var s3 := Settle(Start(s1, t), t, Resolved(value));
            && Lookup(Observed(init, s1.trace).loading, t) == Some(Bool(true))
            && Lookup(Observed(init, s1.trace).errors, t) == Some(Bool(false))
            && Lookup(Observed(init, s3.trace).loading, t) == Some(Bool(false))
            && Lookup(Observed(init, s3.trace).errors, t) == Some(Bool(false))
  {
    var t := a.kind;
    var s1 := Dispatch(st, Pair(a, f), Undefined).state;
    var s2 := Start(s1, t);
    AcceptedPairObserved(init, st, a, f, Undefined);
    ObservedAppend(init, s1.trace, [Invoke(f, a)]);
    assert Actions([Invoke(f, a)]) == [] by {
      assert [Invoke(f, a)][..0] == [];
    }
    assert Observed(init, s2.trace) == Observed(init, s1.trace);
    SettleObserved(init, s2, t, Resolved(value));
  }
}
