/**
 * The two state slices registered under `@@LOADING` and `@@ERRORS`, their
 * reducers, and what folding a sequence of actions through them yields.
 */
module Reducers {
  import opened Wrappers
  import opened JsValue
  import opened Objects

  const LOADING_BEGIN: string := "@@LOADING/BEGIN"
  const LOADING_END: string := "@@LOADING/END"
  const ERRORS_CLEAR: string := "@@ERRORS/CLEAR"
  const ERRORS_SET: string := "@@ERRORS/SET"

  /**
   * A dispatched action object.  `kind` is its `type` property; `target` and
   * `error` are the properties the lifecycle actions carry (a missing
   * `error` property reads as `Undefined`).
   */
  datatype Action = Action(kind: string, target: string, error: Val)

  function BeginAction(t: string): Action { Action(LOADING_BEGIN, t, Undefined) }
  function EndAction(t: string): Action { Action(LOADING_END, t, Undefined) }
  function ClearAction(t: string): Action { Action(ERRORS_CLEAR, t, Undefined) }
  function SetAction(t: string, e: Val): Action { Action(ERRORS_SET, t, e) }

  /** The action types the two reducers react to. */
  predicate Reserved(kind: string) {
    kind == LOADING_BEGIN || kind == LOADING_END || kind == ERRORS_CLEAR || kind == ERRORS_SET
  }

  /** The reducers' `state = {}` default for an undefined slice. */
  function Default(state: Option<Obj<Val>>): Obj<Val> {
    match state
    case Some(o) => o
    case None => Empty()
  }

  /**
   * The `@@LOADING` reducer: BEGIN marks its target loading, END marks it
   * not loading, nothing else moves, and any other action type hands back
   * the incoming slice itself.
   */
  function LoadingReducer(state: Option<Obj<Val>>, action: Action): (r: Obj<Val>)
    ensures action.kind == LOADING_BEGIN ==> Lookup(r, action.target) == Some(Bool(true))
    ensures action.kind == LOADING_END ==> Lookup(r, action.target) == Some(Bool(false))
    ensures forall k :: k != action.target ==> Lookup(r, k) == Lookup(Default(state), k)
    ensures action.kind != LOADING_BEGIN && action.kind != LOADING_END ==> r == Default(state)
  {
    var s := Default(state);
    if action.kind == LOADING_BEGIN then Put(s, action.target, Bool(true))
    else if action.kind == LOADING_END then Put(s, action.target, Bool(false))
    else s
  }

  /**
   * The `@@ERRORS` reducer: CLEAR stores `false`; SET stores `action.error ?? true`,
   * so a null or undefined payload becomes `true` but a falsy payload such
   * as `false`, `0` or `''` is stored as it is and the slot is then falsy.
   */
  function ErrorsReducer(state: Option<Obj<Val>>, action: Action): (r: Obj<Val>)
    ensures action.kind == ERRORS_CLEAR ==> Lookup(r, action.target) == Some(Bool(false))
    ensures action.kind == ERRORS_SET && Nullish(action.error) ==> Lookup(r, action.target) == Some(Bool(true))
    ensures action.kind == ERRORS_SET && !Nullish(action.error) ==> Lookup(r, action.target) == Some(action.error)
    ensures action.kind == ERRORS_SET ==>
              (Truthy(r.slots[action.target]) <==> Nullish(action.error) || Truthy(action.error))
    ensures forall k :: k != action.target ==> Lookup(r, k) == Lookup(Default(state), k)
    ensures action.kind != ERRORS_CLEAR && action.kind != ERRORS_SET ==> r == Default(state)
  {
    var s := Default(state);
    if action.kind == ERRORS_CLEAR then Put(s, action.target, Bool(false))
    else if action.kind == ERRORS_SET then Put(s, action.target, Coalesce(action.error, Bool(true)))
    else s
  }

  /** The library's part of the store's state tree. */
  datatype Slices = Slices(loading: Obj<Val>, errors: Obj<Val>)

  /** The slices after the store's root reducer has seen one action. */
  function Reduce(s: Slices, a: Action): (r: Slices)
    ensures !Reserved(a.kind) ==> r == s
    ensures forall k :: k != a.target ==>
              Lookup(r.loading, k) == Lookup(s.loading, k) && Lookup(r.errors, k) == Lookup(s.errors, k)
  {
    Slices(LoadingReducer(Some(s.loading), a), ErrorsReducer(Some(s.errors), a))
  }

  /** The slices after the store has seen `actions`, first to last. */
  function ReduceAll(s: Slices, actions: seq<Action>): Slices
    decreases |actions|
  {
    if |actions| == 0 then s
    else Reduce(ReduceAll(s, actions[..|actions| - 1]), actions[|actions| - 1])
  }

  /** Reducing a concatenation is reducing its halves one after the other. */
  lemma {:induction false} ReduceAllAppend(s: Slices, xs: seq<Action>, ys: seq<Action>)
    ensures ReduceAll(s, xs + ys) == ReduceAll(ReduceAll(s, xs), ys)
    decreases |ys|
  {
    if |ys| == 0 {
      assert xs + ys == xs;
    } else {
      var n := |ys| - 1;
      assert (xs + ys)[..|xs + ys| - 1] == xs + ys[..n];
      assert (xs + ys)[|xs + ys| - 1] == ys[n];
      ReduceAllAppend(s, xs, ys[..n]);
    }
  }

  /** Reducing one more action. */
  lemma ReduceAllSnoc(s: Slices, xs: seq<Action>, x: Action)
    ensures ReduceAll(s, xs + [x]) == Reduce(ReduceAll(s, xs), x)
  {
    assert (xs + [x])[..|xs|] == xs;
  }

  /** The flag the most recent BEGIN or END aimed at `t` set, if there is one. */
  function LastLoading(actions: seq<Action>, t: string): Option<bool>
    decreases |actions|
  {
    if |actions| == 0 then None
    else
      var a := actions[|actions| - 1];
      if a.target == t && a.kind == LOADING_BEGIN then Some(true)
      else if a.target == t && a.kind == LOADING_END then Some(false)
      else LastLoading(actions[..|actions| - 1], t)
  }

  /** The value the most recent CLEAR or SET aimed at `t` stored, if there is one. */
  function LastError(actions: seq<Action>, t: string): Option<Val>
    decreases |actions|
  {
    if |actions| == 0 then None
    else
      var a := actions[|actions| - 1];
      if a.target == t && a.kind == ERRORS_CLEAR then Some(Bool(false))
      else if a.target == t && a.kind == ERRORS_SET then Some(Coalesce(a.error, Bool(true)))
      else LastError(actions[..|actions| - 1], t)
  }

  /**
   * For any sequence of actions, a target's loading flag is the one the
   * latest BEGIN/END for it set, and its earlier value when there is none.
   */
  lemma {:induction false} LoadingFollowsLastBeginEnd(s: Slices, actions: seq<Action>, t: string)
    ensures Lookup(ReduceAll(s, actions).loading, t) ==
              match LastLoading(actions, t)
              case Some(b) => Some(Bool(b))
              case None => Lookup(s.loading, t)
    decreases |actions|
  {
    if |actions| > 0 {
      LoadingFollowsLastBeginEnd(s, actions[..|actions| - 1], t);
    }
  }

  /**
   * For any sequence of actions, a target's error slot holds what the latest
   * CLEAR/SET for it stored, and its earlier value when there is none.
   */
  lemma {:induction false} ErrorFollowsLastClearSet(s: Slices, actions: seq<Action>, t: string)
    ensures Lookup(ReduceAll(s, actions).errors, t) ==
              match LastError(actions, t)
              case Some(v) => Some(v)
              case None => Lookup(s.errors, t)
    decreases |actions|
  {
    if |actions| > 0 {
      ErrorFollowsLastClearSet(s, actions[..|actions| - 1], t);
    }
  }

  /** An action that is not a lifecycle action for `t` leaves `t`'s slots alone. */
  predicate Touches(a: Action, t: string) {
    Reserved(a.kind) && a.target == t
  }

  /** A run of actions none of which touches `t` leaves both of `t`'s slots as they were. */
  lemma {:induction false} UntouchedTargetKeepsSlots(s: Slices, actions: seq<Action>, t: string)
    requires forall i :: 0 <= i < |actions| ==> !Touches(actions[i], t)
    ensures Lookup(ReduceAll(s, actions).loading, t) == Lookup(s.loading, t)
    ensures Lookup(ReduceAll(s, actions).errors, t) == Lookup(s.errors, t)
    decreases |actions|
  {
    if |actions| > 0 {
      UntouchedTargetKeepsSlots(s, actions[..|actions| - 1], t);
    }
  }
}
