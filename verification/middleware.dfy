/**
 * The effects middleware.  A dispatched `[action, effect]` pair is either
 * dropped, because an effect of the same action type is still in flight,
 * or accepted: the guard is set, the action goes downstream, BEGIN and
 * CLEAR are dispatched, and a promise chain is scheduled.  The chain is
 * driven by the environment through three later steps: `Start` (the
 * microtask that calls the effect), `Settle` (the catch handler and first
 * finally handler: SET on failure, then END) and `Release` (the second
 * finally handler, which clears the guard).  Every step appends to a trace
 * of what the middleware emitted.
 */
module Middleware {
  import opened Wrappers
  import opened JsValue
  import opened Reducers

  /** What a caller dispatches: a plain action or an `[action, effect]` pair. */
  datatype Dispatched = Plain(action: Action) | Pair(action: Action, effect: nat)

  /** How the effect's promise settles: it resolves, or it rejects (or throws) with a reason. */
  datatype Outcome = Resolved(value: Val) | Rejected(reason: Val)

  /**
   * What the middleware emits: an action passed to `next`, a lifecycle action
   * passed to `store.dispatch`, or a call of the effect with its action.
   */
  datatype Event = Next(action: Action) | Store(action: Action) | Invoke(effect: nat, action: Action)

  /** Where an accepted pair's promise chain stands. */
  datatype Phase = Scheduled | Running | Finishing(outcome: Outcome)

  /** One in-flight promise chain. */
  datatype Chain = Chain(action: Action, effect: nat, phase: Phase)

  /**
   * The middleware instance: its `activeEffects` guard, the promise chains
   * it has started and not yet finished (keyed by action type), and the trace.
   */
  datatype State = State(guard: map<string, bool>, chains: map<string, Chain>, trace: seq<Event>)

  /** The value the middleware's function returns to the dispatcher. */
  datatype Returned = Value(v: Val) | EffectPromise(target: string)

  datatype Step = Step(state: State, returned: Returned)

  /** A freshly installed middleware: `activeEffects = {}`, nothing emitted yet. */
  const Fresh: State := State(map[], map[], [])

  /** Truthiness of `activeEffects[t]`, reading own properties only. */
  predicate IsActive(guard: map<string, bool>, t: string) {
    t in guard && guard[t]
  }

  /**
   * Dispatching `d`; `nextResult` is whatever the downstream `next` returns
   * for a plain action.  A pair whose type is active is dropped without a
   * trace; an accepted pair emits the forward, BEGIN and CLEAR, in that
   * order, before its effect can run; a plain action is only forwarded.
   */
  function Dispatch(st: State, d: Dispatched, nextResult: Val): (r: Step)
    ensures d.Pair? && IsActive(st.guard, d.action.kind) ==>
              r.state == st && r.returned == Value(Undefined)
    ensures d.Pair? && !IsActive(st.guard, d.action.kind) ==>
              var t := d.action.kind;
              && r.state.trace == st.trace + [Next(d.action), Store(BeginAction(t)), Store(ClearAction(t))]
              && IsActive(r.state.guard, t)
              && (forall u :: u != t ==> IsActive(r.state.guard, u) == IsActive(st.guard, u))
              && r.state.chains.Keys == st.chains.Keys + {t}
              && r.state.chains[t] == Chain(d.action, d.effect, Scheduled)
              && (forall u :: u in st.chains && u != t ==> r.state.chains[u] == st.chains[u])
              && r.returned == EffectPromise(t)
    ensures d.Plain? ==>
              && r.state == st.(trace := st.trace + [Next(d.action)])
              && r.returned == Value(nextResult)
  {
    match d
    case Plain(a) =>
      Step(st.(trace := st.trace + [Next(a)]), Value(nextResult))
    case Pair(a, f) =>
      var t := a.kind;
      if IsActive(st.guard, t) then Step(st, Value(Undefined))
      else
        var st' := State(st.guard[t := true],
                         st.chains[t := Chain(a, f, Scheduled)],
                         st.trace + [Next(a), Store(BeginAction(t)), Store(ClearAction(t))]);
        Step(st', EffectPromise(t))
  }

  /** The scheduled microtask runs: the effect is called with the pair's action. */
  function Start(st: State, t: string): (r: State)
    requires t in st.chains && st.chains[t].phase == Scheduled
    ensures r.guard == st.guard && r.chains.Keys == st.chains.Keys
    ensures r.chains[t] == st.chains[t].(phase := Running)
    ensures r.trace == st.trace + [Invoke(st.chains[t].effect, st.chains[t].action)]
    ensures forall u :: u in st.chains && u != t ==> r.chains[u] == st.chains[u]
  {
    var c := st.chains[t];
    State(st.guard, st.chains[t := c.(phase := Running)], st.trace + [Invoke(c.effect, c.action)])
  }

  /** The lifecycle actions the catch and first finally handlers dispatch for an outcome. */
  function SettleActions(t: string, outcome: Outcome): (r: seq<Event>)
    ensures |r| > 0 && r[|r| - 1] == Store(EndAction(t))
    ensures outcome.Resolved? ==> r == [Store(EndAction(t))]
    ensures outcome.Rejected? ==> r == [Store(SetAction(t, outcome.reason)), Store(EndAction(t))]
  {
    match outcome
    case Resolved(_) => [Store(EndAction(t))]
    case Rejected(e) => [Store(SetAction(t, e)), Store(EndAction(t))]
  }

  /**
   * The effect's promise settles: on rejection SET carries the reason, and
   * in both cases END follows; the guard is still set afterwards.
   */
  function Settle(st: State, t: string, outcome: Outcome): (r: State)
    requires t in st.chains && st.chains[t].phase == Running
    ensures r.guard == st.guard && r.chains.Keys == st.chains.Keys
    ensures r.chains[t] == st.chains[t].(phase := Finishing(outcome))
    ensures forall u :: u in st.chains && u != t ==> r.chains[u] == st.chains[u]
    ensures r.trace == st.trace + SettleActions(t, outcome)
  {
    State(st.guard, st.chains[t := st.chains[t].(phase := Finishing(outcome))],
          st.trace + SettleActions(t, outcome))
  }

  /** The second finally handler: `activeEffects[t] = false`, and the chain is over. */
  function Release(st: State, t: string): (r: State)
    requires t in st.chains && st.chains[t].phase.Finishing?
    ensures !IsActive(r.guard, t)
    ensures forall u :: u != t ==> IsActive(r.guard, u) == IsActive(st.guard, u)
    ensures r.chains == st.chains - {t}
    ensures r.trace == st.trace
  {
    State(st.guard[t := false], st.chains - {t}, st.trace)
  }

  /** A move the caller or the promise machinery can make. */
  datatype Move =
    | DispatchMove(d: Dispatched, nextResult: Val)
    | StartMove(t: string)
    | SettleMove(t: string, outcome: Outcome)
    | ReleaseMove(t: string)

  /** Whether a move can happen now: each async step needs its chain in the right phase. */
  predicate Enabled(st: State, m: Move) {
    match m
    case DispatchMove(_, _) => true
    case StartMove(t) => t in st.chains && st.chains[t].phase == Scheduled
    case SettleMove(t, _) => t in st.chains && st.chains[t].phase == Running
    case ReleaseMove(t) => t in st.chains && st.chains[t].phase.Finishing?
  }

  function Apply(st: State, m: Move): State
    requires Enabled(st, m)
  {
    match m
    case DispatchMove(d, v) => Dispatch(st, d, v).state
    case StartMove(t) => Start(st, t)
    case SettleMove(t, o) => Settle(st, t, o)
    case ReleaseMove(t) => Release(st, t)
  }

  /** Running a schedule of moves; `None` when some move is not enabled when its turn comes. */
  function Run(st: State, moves: seq<Move>): Option<State>
    decreases |moves|
  {
    if |moves| == 0 then Some(st)
    else if !Enabled(st, moves[0]) then None
    else Run(Apply(st, moves[0]), moves[1..])
  }

  /** The names `Object.prototype` gives every plain object (all of them truthy). */
  const ObjectPrototypeNames: set<string> :=
    {"constructor", "hasOwnProperty", "isPrototypeOf", "propertyIsEnumerable",
     "toLocaleString", "toString", "valueOf", "__defineGetter__", "__defineSetter__",
     "__lookupGetter__", "__lookupSetter__", "__proto__"}

  /**
   * `activeEffects[t]` as src/index.js:29 evaluates it: the guard is a plain
   * `{}`, so a missing own property falls back to `Object.prototype`.
   */
  predicate IsActiveAsWritten(guard: map<string, bool>, t: string) {
    if t in guard then guard[t] else t in ObjectPrototypeNames
  }

  /**
   * As written, a pair whose type names an `Object.prototype` member is
   * dropped even by a middleware that has never run an effect, and stays
   * droppable for ever since the guard never gains an own property for it.
   */
  lemma PrototypeTypeDroppedAsWritten(t: string)
    requires t in ObjectPrototypeNames
    ensures IsActiveAsWritten(Fresh.guard, t)
    ensures !IsActive(Fresh.guard, t)
  {
  }

  /** With own-property reads, a fresh middleware accepts a pair of any type. */
  lemma FreshMiddlewareAcceptsEveryType(a: Action, f: nat)
    ensures Dispatch(Fresh, Pair(a, f), Undefined).returned == EffectPromise(a.kind)
    ensures Dispatch(Fresh, Pair(a, f), Undefined).state.trace ==
              [Next(a), Store(BeginAction(a.kind)), Store(ClearAction(a.kind))]
  {
  }
}
