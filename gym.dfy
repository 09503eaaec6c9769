/**
 RLlib's check of which environment API an environment's `reset()` or `step()`
 output follows: the old gym API (the check answers true) or the new gymnasium
 API (the check answers false).

 Python values, observation spaces and environments are modelled by the few
 features the check inspects: whether a value is a tuple or a dict and what
 `len()` and `[1]` give on it; whether a space is a Tuple space or a Dict space
 and what its `.spaces` holds. Every inspection is modelled as an `Eval` that
 may raise, and the check's boolean conditions use Python's short-circuit
 `or`/`and`, so the model shows which inspections are actually reached.
 */
module GymCompat {
  import opened PythonEval

  /** Python's optional value: `None` or something. */
  datatype Option<+T> = None | Some(value: T)

  /** A Python value as the check sees it. */
  datatype Value =
    | Tuple(items: seq<Value>)    // a `tuple`, or an instance of a subclass of it
    | Dict(size: nat)             // a `dict` (an infos dict) with `size` keys
    | Other(length: Option<int>)  // anything else; `length` is what its `__len__` returns, None without one

  /** An observation space as the check sees it. */
  datatype Space =
    | TupleSpace(spaces: seq<Space>)  // `gymnasium.spaces.Tuple`; `.spaces` is the tuple of sub-spaces
    | DictSpace(size: nat)            // `gymnasium.spaces.Dict`; `.spaces` is a dict of `size` named sub-spaces
    | OtherSpace                      // any other space (Box, Discrete, old `gym` spaces, ...): no `.spaces` attribute

  /** A (present) environment: the check reads only its observation space. */
  datatype Env = Env(observationSpace: Space)

  /** `sys.maxsize` of a 64-bit CPython: the largest length `len()` returns. */
  const MaxSize: int := 0x7FFF_FFFF_FFFF_FFFF

  /** `len(v)`: `TypeError` without `__len__`, and `len()` itself rejects a
      negative `__len__` result with `ValueError` and one above `MaxSize` with
      `OverflowError`. */
  function Len(v: Value): Eval<nat> {
    match v
    case Tuple(items) => Val(|items|)
    case Dict(size) => Val(size)
    case Other(length) =>
      if length.None? then Raise(TypeError)
      else if length.value < 0 then Raise(ValueError)
      else if length.value > MaxSize then Raise(OverflowError)
      else Val(length.value)
  }

  /** `v[i]` for a tuple; the keys of a dict and the items of other values are
      not modelled, so subscripting them raises. */
  function Item(v: Value, i: nat): Eval<Value> {
    match v
    case Tuple(items) => if i < |items| then Val(items[i]) else Raise(IndexError)
    case Dict(_) => Raise(KeyError)
    case Other(_) => Raise(TypeError)
  }

  /** `env.observation_space`; on `None` the attribute lookup raises. */
  function ObservationSpace(env: Option<Env>): Eval<Space> {
    match env
    case Some(e) => Val(e.observationSpace)
    case None => Raise(AttributeError)
  }

  /** `len(space.spaces)`. */
  function SubSpaceCount(space: Space): Eval<nat> {
    match space
    case TupleSpace(spaces) => Val(|spaces|)
    case DictSpace(size) => Val(size)
    case OtherSpace => Raise(AttributeError)
  }

  /** `space.spaces[i]`; a Dict space's sub-spaces are keyed by name, so an
      integer key is missing. */
  function SubSpace(space: Space, i: nat): Eval<Space> {
    match space
    case TupleSpace(spaces) => if i < |spaces| then Val(spaces[i]) else Raise(IndexError)
    case DictSpace(_) => Raise(KeyError)
    case OtherSpace => Raise(AttributeError)
  }

  /** The `and` chain of rllib/utils/gym.py:23-28: the env is present, its
      observation space is a Tuple space with at least two sub-spaces, and the
      sub-space at index 1 is a Dict space. */
  function ObsSpaceCheck(env: Option<Env>): Eval<bool> {
    ShortCircuitAnd(ObsSpaceOperands(env))
  }

  /** The outcomes the four operands of that `and` would have, left to right. */
  function ObsSpaceOperands(env: Option<Env>): seq<Eval<bool>> {
    var space := ObservationSpace(env);
    [ Val(env.Some?),
      space.Map((s: Space) => s.TupleSpace?),
      space.Bind(SubSpaceCount).Map((n: nat) => n >= 2),
      space.Bind((s: Space) => SubSpace(s, 1)).Map((sub: Space) => sub.DictSpace?) ]
  }

  /** The `or` chain of rllib/utils/gym.py:13-29 on a reset result. */
  function ResetCheck(env: Option<Env>, resetResults: Value): Eval<bool> {
    ShortCircuitOr(ResetOperands(env, resetResults))
  }

  /** The outcomes the four operands of that `or` would have, left to right. */
  function ResetOperands(env: Option<Env>, resetResults: Value): seq<Eval<bool>> {
    [ Val(!resetResults.Tuple?),
      Len(resetResults).Map((n: nat) => n != 2),
      Item(resetResults, 1).Map((x: Value) => !x.Dict?),
      ObsSpaceCheck(env) ]
  }

  /** `check_old_gym_env(env, step_results=..., reset_results=...)`: true for
      the old gym API, false for the new gymnasium API, or the exception the
      call raises. An argument left at its default is `None`. */
  function CheckOldGymEnv(env: Option<Env>, stepResults: Option<Value>, resetResults: Option<Value>): Eval<bool> {
    if resetResults.Some? then
      // A true condition returns at line 30; a false one falls through to line 50.
      ResetCheck(env, resetResults.value)
    else if stepResults.Some? then
      match Len(stepResults.value)
      case Raise(e) => Raise(e)
      case Val(n) => if n == 4 then Val(true) else if n == 5 then Val(false) else Raise(ValueError)
    else
      Raise(AttributeError)
  }

  // ---------------------------------------------------------------------------
  // The classification the check is meant to compute, stated on the values.

  /** A reset result in the new API's shape: an `(obs, infos)` pair whose second
      item is a dict. */
  predicate IsObsInfosPair(v: Value) {
    v.Tuple? && |v.items| == 2 && v.items[1].Dict?
  }

  /** The tie-break: the env's observations are themselves tuples whose item 1
      is a dict, so an `(obs, infos)`-shaped reset result may be a bare
      observation. */
  predicate HasDictSecondObsSpace(env: Option<Env>) {
    && env.Some?
    && env.value.observationSpace.TupleSpace?
    && |env.value.observationSpace.spaces| >= 2
    && env.value.observationSpace.spaces[1].DictSpace?
  }

  /** The observation-space `and` chain never raises: `env.observation_space` is
      read only for a present env, `.spaces` only on a Tuple space, and
      `.spaces[1]` only when there are at least two sub-spaces. */
  lemma ObsSpaceCheckExact(env: Option<Env>)
    ensures ObsSpaceCheck(env) == Val(HasDictSecondObsSpace(env))
  {
  }

  /** The reset `or` chain never raises (`reset_results[1]` is reached only on
      a tuple of length 2), and it is true exactly when the result is not an
      `(obs, infos)` pair or the env has the ambiguous observation space. */
  lemma ResetCheckExact(env: Option<Env>, v: Value)
    ensures ResetCheck(env, v) == Val(!IsObsInfosPair(v) || HasDictSecondObsSpace(env))
  {
    var ops := ResetOperands(env, v);
    ObsSpaceCheckExact(env);
    if !v.Tuple? {
      OrDecidedAt(ops, 0);
    } else if |v.items| != 2 {
      OrDecidedAt(ops, 1);
    } else if !v.items[1].Dict? {
      OrDecidedAt(ops, 2);
    } else if HasDictSecondObsSpace(env) {
      OrDecidedAt(ops, 3);
    } else {
      OrAllFalse(ops);
    }
  }

  /** `reset_results[1]` on its own raises on every value that is not a tuple
      and on every tuple shorter than two, and the reset check on those values
      still answers old API: the short-circuit `or` stops before the subscript. */
  lemma SubscriptReachedOnlyOnPairs(env: Option<Env>, v: Value)
    requires !(v.Tuple? && |v.items| >= 2)
    ensures Item(v, 1).Raise?
    ensures ResetCheck(env, v) == Val(true)
  {
    ResetCheckExact(env, v);
  }

  // ---------------------------------------------------------------------------
  // The check's behaviour, branch by branch.

  /** With a reset result, the check never raises, ignores `step_results`, and
      answers old API exactly when the result is not an `(obs, infos)` pair or
      the env's observation space makes such a pair ambiguous. */
  lemma ResetBranch(env: Option<Env>, stepResults: Option<Value>, v: Value)
    ensures CheckOldGymEnv(env, stepResults, Some(v)) == Val(!IsObsInfosPair(v) || HasDictSecondObsSpace(env))
  {
    ResetCheckExact(env, v);
  }

  /** A reset result that is not a tuple, not of length two, or whose second
      item is not a dict, is old API. */
  lemma ResetNotPairIsOld(env: Option<Env>, stepResults: Option<Value>, v: Value)
    requires !v.Tuple? || |v.items| != 2 || !v.items[1].Dict?
    ensures CheckOldGymEnv(env, stepResults, Some(v)) == Val(true)
  {
    ResetBranch(env, stepResults, v);
  }

  /** An `(obs, infos)`-shaped reset result is old API when the env's
      observation space is a Tuple space of at least two sub-spaces whose
      sub-space 1 is a Dict space (the code, not the comment above it, decides). */
  lemma ResetPairWithDictSecondObsSpaceIsOld(env: Option<Env>, stepResults: Option<Value>, v: Value)
    requires IsObsInfosPair(v)
    requires env.Some? && env.value.observationSpace.TupleSpace?
    requires |env.value.observationSpace.spaces| >= 2 && env.value.observationSpace.spaces[1].DictSpace?
    ensures CheckOldGymEnv(env, stepResults, Some(v)) == Val(true)
  {
    ResetBranch(env, stepResults, v);
  }

  /** An `(obs, infos)`-shaped reset result is new API when there is no env or
      its observation space is not a Tuple space with a Dict space at index 1. */
  lemma ResetPairIsNew(env: Option<Env>, stepResults: Option<Value>, v: Value)
    requires IsObsInfosPair(v) && !HasDictSecondObsSpace(env)
    ensures CheckOldGymEnv(env, stepResults, Some(v)) == Val(false)
  {
    ResetBranch(env, stepResults, v);
  }

  /** `reset_results` takes precedence: given one, the outcome does not depend
      on `step_results` at all, not even on whether its length is valid. */
  lemma ResetIgnoresStepResults(env: Option<Env>, s1: Option<Value>, s2: Option<Value>, v: Value)
    ensures CheckOldGymEnv(env, s1, Some(v)) == CheckOldGymEnv(env, s2, Some(v))
    ensures CheckOldGymEnv(env, s1, Some(v)).Val?
  {
    ResetBranch(env, s1, v);
    ResetBranch(env, s2, v);
  }

  /** Without a reset result, a step result of length 4 is old API, of length 5
      new API, of any other length a `ValueError`, and one whose length `len()`
      cannot give fails with `len()`'s own exception; the env plays no part. */
  lemma StepBranch(env: Option<Env>, s: Value)
    ensures CheckOldGymEnv(env, Some(s), None) == Val(true) <==> Len(s) == Val(4)
    ensures CheckOldGymEnv(env, Some(s), None) == Val(false) <==> Len(s) == Val(5)
    ensures Len(s).Val? && Len(s).value != 4 && Len(s).value != 5 ==>
      CheckOldGymEnv(env, Some(s), None) == Raise(ValueError)
    ensures Len(s).Raise? ==> CheckOldGymEnv(env, Some(s), None) == Raise(Len(s).error)
  {
  }

  /** Without either result the call raises `AttributeError`. */
  lemma NoResultsRaises(env: Option<Env>)
    ensures CheckOldGymEnv(env, None, None) == Raise(AttributeError)
  {
  }

  // ---------------------------------------------------------------------------
  // The whole classification, in both directions.

  /** The check answers old API exactly for a reset result that is not an
      unambiguous `(obs, infos)` pair, or, without a reset result, for a step
      result of length 4. */
  lemma OldApiExactly(env: Option<Env>, stepResults: Option<Value>, resetResults: Option<Value>)
    ensures CheckOldGymEnv(env, stepResults, resetResults) == Val(true) <==>
      || (resetResults.Some? && (!IsObsInfosPair(resetResults.value) || HasDictSecondObsSpace(env)))
      || (resetResults.None? && stepResults.Some? && Len(stepResults.value) == Val(4))
  {
    if resetResults.Some? {
      ResetBranch(env, stepResults, resetResults.value);
    }
  }

  /** The check answers new API exactly for an unambiguous `(obs, infos)` reset
      result, or, without a reset result, for a step result of length 5. */
  lemma NewApiExactly(env: Option<Env>, stepResults: Option<Value>, resetResults: Option<Value>)
    ensures CheckOldGymEnv(env, stepResults, resetResults) == Val(false) <==>
      || (resetResults.Some? && IsObsInfosPair(resetResults.value) && !HasDictSecondObsSpace(env))
      || (resetResults.None? && stepResults.Some? && Len(stepResults.value) == Val(5))
  {
    if resetResults.Some? {
      ResetBranch(env, stepResults, resetResults.value);
    }
  }

  /** The check raises exactly when there is no reset result and the step
      result is missing or has no length of 4 or 5; it raises nothing but
      `AttributeError`, `ValueError`, or the `TypeError` or `OverflowError` of
      `len()`. */
  lemma RaisesExactly(env: Option<Env>, stepResults: Option<Value>, resetResults: Option<Value>)
    ensures CheckOldGymEnv(env, stepResults, resetResults).Raise? <==>
      && resetResults.None?
      && (stepResults.None? || (Len(stepResults.value) != Val(4) && Len(stepResults.value) != Val(5)))
    ensures CheckOldGymEnv(env, stepResults, resetResults).Raise? ==>
      CheckOldGymEnv(env, stepResults, resetResults).error in {AttributeError, ValueError, TypeError, OverflowError}
  {
    if resetResults.Some? {
      ResetBranch(env, stepResults, resetResults.value);
    }
  }
}
