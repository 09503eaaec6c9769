# RLlib gym-API version check, in Dafny

This project models `check_old_gym_env` from RLlib's `rllib/utils/gym.py`. RLlib
calls it on the output of an environment's `reset()` or `step()` to decide
which API that output follows:

- the old gym API, where the check answers `True`;
- the new gymnasium API, where the check answers `False`;
- or neither, where it raises an exception.

The model has two modules:

- `PythonEval` (`python_eval.dfy`) holds the Python semantics the check relies on.
  An expression's outcome is `Eval<T>`: a value `Val(v)` or a raised exception
  `Raise(e)`. `ShortCircuitOr` and `ShortCircuitAnd` model Python's `or` and
  `and` in a boolean context. Each takes the outcomes its operands WOULD have
  and reads only the prefix up to the deciding operand. So an operand that
  would raise does no harm when an earlier operand decides.
- `GymCompat` (`gym.dfy`) holds the check itself, `CheckOldGymEnv`.
  Python values are `Value`: a tuple of values, a dict, or any other object
  with or without a `len()`. Observation spaces are `Space`: a Tuple space of
  sub-spaces, a Dict space, or any other space. The env is `Option<Env>`.
  `len(x)`, `x[1]`, `env.observation_space`, `.spaces` and `.spaces[1]` are
  modelled with the exceptions Python would raise for them. The two boolean
  conditions of the reset branch are written as the source's `or` chain
  (lines 13-29) and `and` chain (lines 23-28).

The intended classification is stated separately by two predicates.
`IsObsInfosPair` says the reset result is an `(obs, infos)` pair with a dict
second item. `HasDictSecondObsSpace` says the env's observation space is a
Tuple space with at least two sub-spaces and a Dict space at index 1. The
lemmas prove that the code computes exactly this classification. They also
prove that no inspection in the reset branch can raise.

Two places where the code's behaviour differs from what its text suggests:

- The `AttributeError` message at lines 46-48 asks for one of the two
  arguments. The code also accepts both: the `elif` at line 32 makes
  `reset_results` win and raises nothing. `ResetIgnoresStepResults` states it.
- The comment at lines 20-22 says the last operand holds when the env does
  NOT have a Tuple observation space with a Dict at index 1. The code at lines
  23-28 holds when the env DOES have one, and then the answer is old API. The
  model follows the code; `ResetPairWithDictSecondObsSpaceIsOld` states it.

## Model

| member | source | states |
|---|---|---|
| `PythonEval.OrDecidedAt` | rllib/utils/gym.py:13-29 | In an `or`, the first operand that is not false decides the outcome: true, or the same exception. Later operands are never looked at. |
| `PythonEval.OrAllFalse` | rllib/utils/gym.py:13-29 | An `or` whose operands are all false is false. |
| `PythonEval.OrOutcome` | rllib/utils/gym.py:13-29 | An `or` is false only if every operand is false. Any other outcome equals the outcome of its first non-false operand. |
| `PythonEval.AndDecidedAt` | rllib/utils/gym.py:23-28 | In an `and`, the first operand that is not true decides the outcome: false, or the same exception. Later operands are never looked at. |
| `PythonEval.AndAllTrue` | rllib/utils/gym.py:23-28 | An `and` whose operands are all true is true. |
| `PythonEval.AndOutcome` | rllib/utils/gym.py:23-28 | An `and` is true only if every operand is true. Any other outcome equals the outcome of its first non-true operand. |
| `GymCompat.ObsSpaceCheckExact` | rllib/utils/gym.py:23-28 | The env/observation-space `and` chain never raises. It is true exactly when the env is present and its observation space is a Tuple space with at least two sub-spaces (`>= 2`, not `== 2`) whose sub-space 1 is a Dict space. |
| `GymCompat.ResetCheckExact` | rllib/utils/gym.py:13-29 | The reset `or` chain never raises. It is true exactly when the reset result is not an `(obs, infos)` pair, or when the env has that Tuple-with-Dict-at-1 observation space. |
| `GymCompat.SubscriptReachedOnlyOnPairs` | rllib/utils/gym.py:15-19 | For every value that is not a tuple and every tuple shorter than two, `reset_results[1]` alone would raise. The reset check on those values, for any env, still returns `True`, because the short-circuit stops before the subscript. |
| `GymCompat.ResetBranch` | rllib/utils/gym.py:12-30 | When `reset_results` is given, the call never raises and does not depend on `step_results`. It returns `True` exactly when the result is not an `(obs, infos)` pair or the env's observation space is the ambiguous one. Otherwise it returns `False` (the fall-through at line 50). |
| `GymCompat.ResetNotPairIsOld` | rllib/utils/gym.py:13-19 | A reset result that is not a tuple, is a tuple of length other than 2, or has a non-dict second item is classified old API. |
| `GymCompat.ResetPairWithDictSecondObsSpaceIsOld` | rllib/utils/gym.py:20-30 | An `(obs, infos)`-shaped reset result is classified old API when the env is present and its observation space is a Tuple space with at least two sub-spaces and a Dict space at index 1. |
| `GymCompat.ResetPairIsNew` | rllib/utils/gym.py:50 | An `(obs, infos)`-shaped reset result is classified new API when there is no env, or the env's observation space is not a Tuple space with a Dict space at index 1. |
| `GymCompat.ResetIgnoresStepResults` | rllib/utils/gym.py:12-32 | `reset_results` takes precedence. With it, any two `step_results`, even an invalid one, give the same answer, and that answer is a value, not an exception. |
| `GymCompat.StepBranch` | rllib/utils/gym.py:32-43 | Without `reset_results`, a step result of length 4 gives `True` and of length 5 gives `False`. Both of these hold in both directions. Any other length raises `ValueError`. A value whose length `len()` cannot give raises `len()`'s own exception: `TypeError` without `__len__`, `ValueError` for a negative `__len__` result, `OverflowError` above `sys.maxsize`. The env plays no part. |
| `GymCompat.NoResultsRaises` | rllib/utils/gym.py:45-49 | With neither `reset_results` nor `step_results`, the call raises `AttributeError`. |
| `GymCompat.OldApiExactly` | rllib/utils/gym.py:8-50 | The call returns `True` if and only if one of two holds. Either a reset result is given that is not an unambiguous `(obs, infos)` pair, or no reset result is given and the step result has length 4. |
| `GymCompat.NewApiExactly` | rllib/utils/gym.py:8-50 | The call returns `False` if and only if one of two holds. Either the reset result is an unambiguous `(obs, infos)` pair, or no reset result is given and the step result has length 5. |
| `GymCompat.RaisesExactly` | rllib/utils/gym.py:8-50 | The call raises if and only if no reset result is given and the step result is missing or lacks a length of 4 or 5. Over the modelled values, the only exceptions it raises are `AttributeError`, `ValueError`, and `len()`'s `TypeError` or `OverflowError`. |

## Left out

- `try_import_gymnasium_and_gym` (rllib/utils/gym.py:53-77) is not modelled. Its behaviour depends only on which Python packages can be imported at run time.
- The `@DeveloperAPI` decorator and the real gymnasium classes (`gym.Env`, `gym.spaces.Tuple`, `gym.spaces.Dict`, where `gym` is `gymnasium`) are not modelled. A Tuple or Dict space from the old `gym` package fails the `isinstance` tests at lines 25 and 27, so it is an `OtherSpace`. Python's `isinstance` is replaced by the constructors of `Value` and `Space`. A subclass of `tuple` or `dict` counts as a `Tuple` or `Dict`.
- The env's truthiness is modelled as present versus `None`. An env object with its own `__bool__` or `__len__` is not modelled.
- An env object that lacks an `observation_space` attribute is not modelled. Every present `Env` carries a space.
- A custom space outside Tuple and Dict is modelled as having no `.spaces` attribute.
- The text of the exception messages (lines 39-42 and 47-48) is not modelled. Only the exception kind is.
- `GymCompat.Item`: subscripting a dict raises `KeyError` in the model because dict keys are not modelled, and subscripting any other non-tuple value raises `TypeError` in the model, although a list would return an item. The check only reaches `reset_results[1]` on a tuple of length 2 (`ResetCheckExact`), so no outcome of the check depends on this choice.
- `GymCompat.CheckOldGymEnv`: the source calls `len(step_results)` twice (lines 33 and 35) and reads `env.observation_space` up to three times (lines 25-27). The model reads each of them once. A `__len__` or an `observation_space` property that gives a different answer on a later call is not modelled.
- `GymCompat.Len`: a user-defined `__len__` that raises its own exception is not modelled. Only its returned integer is, which `len()` checks against 0 and against the 64-bit CPython `sys.maxsize` (`MaxSize`). A 32-bit interpreter's smaller `sys.maxsize` is not modelled.
- `GymCompat.RaisesExactly`: its list of possible exceptions is exact only for the modelled values. An exception raised from inside a user's `__len__` would propagate as well.
- The step branch uses only the step result's `len()`. Its items are not inspected, so they are not modelled beyond the tuple case.
