/**
 Evaluation outcomes of Python expressions, as far as the environment-API
 classifier needs them: an expression either yields a value or raises one of a
 few built-in exceptions, and the boolean operators `or` and `and` evaluate
 their operands left to right and stop at the first operand that decides the
 result.

 An operator's operands are given here as the list of outcomes each operand
 WOULD have if it were evaluated. The short-circuit operators look at a prefix
 of that list only, so an operand that would raise is harmless as long as an
 earlier operand decides the result: the lemmas below make that precise,
 for `or` and `and` alike and for operand lists of any length. Where the
 operand list is short and its outcomes are plain, as in the observation-space
 `and` of the classifier, Dafny unfolds the operator without them.
 */
module PythonEval {

  /** The built-in exceptions the classifier can raise or could trip over. */
  datatype Exception = TypeError | IndexError | KeyError | AttributeError | ValueError | OverflowError

  /** The outcome of evaluating one Python expression. */
  datatype Eval<+T> = Val(value: T) | Raise(error: Exception) {

    /** Applies an operation that cannot raise to the value, if there is one. */
    function Map<U>(f: T -> U): Eval<U> {
      match this
      case Val(v) => Val(f(v))
      case Raise(e) => Raise(e)
    }

    /** Applies an operation that may raise to the value, if there is one. */
    function Bind<U>(f: T -> Eval<U>): Eval<U> {
      match this
      case Val(v) => f(v)
      case Raise(e) => Raise(e)
    }
  }

  /** `ops[0] or ops[1] or ...` in a boolean context. */
  function ShortCircuitOr(ops: seq<Eval<bool>>): Eval<bool> {
    if ops == [] then Val(false)
    else match ops[0]
      case Raise(e) => Raise(e)
      case Val(b) => if b then Val(true) else ShortCircuitOr(ops[1..])
  }

  /** `ops[0] and ops[1] and ...` in a boolean context. */
  function ShortCircuitAnd(ops: seq<Eval<bool>>): Eval<bool> {
    if ops == [] then Val(true)
    else match ops[0]
      case Raise(e) => Raise(e)
      case Val(b) => if b then ShortCircuitAnd(ops[1..]) else Val(false)
  }

  /** Every operand before position `i` evaluates to the value `b`. */
  predicate AllBefore(ops: seq<Eval<bool>>, i: nat, b: bool)
    requires i <= |ops|
  {
    forall j :: 0 <= j < i ==> ops[j] == Val(b)
  }

  /** The first operand of an `or` that is not false decides it: the `or` is
      true or raises exactly as that operand does, whatever follows it. */
  lemma {:induction false} OrDecidedAt(ops: seq<Eval<bool>>, i: nat)
    requires i < |ops| && AllBefore(ops, i, false) && ops[i] != Val(false)
    ensures ShortCircuitOr(ops) == ops[i]
  {
    if i > 0 {
      assert ops[0] == Val(false);
      assert AllBefore(ops[1..], i - 1, false) by {
        forall j | 0 <= j < i - 1 ensures ops[1..][j] == Val(false) {
          assert ops[1..][j] == ops[j + 1];
        }
      }
      OrDecidedAt(ops[1..], i - 1);
    }
  }

  /** An `or` whose operands are all false is false. */
  lemma {:induction false} OrAllFalse(ops: seq<Eval<bool>>)
    requires AllBefore(ops, |ops|, false)
    ensures ShortCircuitOr(ops) == Val(false)
  {
    if ops != [] {
      assert AllBefore(ops[1..], |ops| - 1, false) by {
        forall j | 0 <= j < |ops| - 1 ensures ops[1..][j] == Val(false) {
          assert ops[1..][j] == ops[j + 1];
        }
      }
      OrAllFalse(ops[1..]);
    }
  }

  /** Conversely, an `or` is false only when all its operands are, and any
      other outcome is the outcome of its first non-false operand. */
  lemma {:induction false} OrOutcome(ops: seq<Eval<bool>>)
    ensures ShortCircuitOr(ops) == Val(false) ==> AllBefore(ops, |ops|, false)
    ensures ShortCircuitOr(ops) != Val(false) ==>
      exists i :: 0 <= i < |ops| && AllBefore(ops, i, false) && ops[i] == ShortCircuitOr(ops)
  {
    if ops != [] && ops[0] == Val(false) {
      OrOutcome(ops[1..]);
      if ShortCircuitOr(ops[1..]) != Val(false) {
        var k :| 0 <= k < |ops[1..]| && AllBefore(ops[1..], k, false) && ops[1..][k] == ShortCircuitOr(ops[1..]);
        assert AllBefore(ops, k + 1, false) by {
          forall j | 0 <= j < k + 1 ensures ops[j] == Val(false) {
            if j > 0 { assert ops[j] == ops[1..][j - 1]; }
          }
        }
        assert ops[k + 1] == ShortCircuitOr(ops);
      } else {
        forall j | 0 <= j < |ops| ensures ops[j] == Val(false) {
          if j > 0 { assert ops[j] == ops[1..][j - 1]; }
        }
      }
    }
  }

  /** The first operand of an `and` that is not true decides it: the `and` is
      false or raises exactly as that operand does, whatever follows it. */
  lemma {:induction false} AndDecidedAt(ops: seq<Eval<bool>>, i: nat)
    requires i < |ops| && AllBefore(ops, i, true) && ops[i] != Val(true)
    ensures ShortCircuitAnd(ops) == ops[i]
  {
    if i > 0 {
      assert ops[0] == Val(true);
      assert AllBefore(ops[1..], i - 1, true) by {
        forall j | 0 <= j < i - 1 ensures ops[1..][j] == Val(true) {
          assert ops[1..][j] == ops[j + 1];
        }
      }
      AndDecidedAt(ops[1..], i - 1);
    }
  }

  /** An `and` whose operands are all true is true. */
  lemma {:induction false} AndAllTrue(ops: seq<Eval<bool>>)
    requires AllBefore(ops, |ops|, true)
    ensures ShortCircuitAnd(ops) == Val(true)
  {
    if ops != [] {
      assert AllBefore(ops[1..], |ops| - 1, true) by {
        forall j | 0 <= j < |ops| - 1 ensures ops[1..][j] == Val(true) {
          assert ops[1..][j] == ops[j + 1];
        }
      }
      AndAllTrue(ops[1..]);
    }
  }

  /** Conversely, an `and` is true only when all its operands are, and any
      other outcome is the outcome of its first non-true operand. */
  lemma {:induction false} AndOutcome(ops: seq<Eval<bool>>)
    ensures ShortCircuitAnd(ops) == Val(true) ==> AllBefore(ops, |ops|, true)
    ensures ShortCircuitAnd(ops) != Val(true) ==>
      exists i :: 0 <= i < |ops| && AllBefore(ops, i, true) && ops[i] == ShortCircuitAnd(ops)
  {
    if ops != [] && ops[0] == Val(true) {
      AndOutcome(ops[1..]);
      if ShortCircuitAnd(ops[1..]) != Val(true) {
        var k :| 0 <= k < |ops[1..]| && AllBefore(ops[1..], k, true) && ops[1..][k] == ShortCircuitAnd(ops[1..]);
        assert AllBefore(ops, k + 1, true) by {
          forall j | 0 <= j < k + 1 ensures ops[j] == Val(true) {
            if j > 0 { assert ops[j] == ops[1..][j - 1]; }
          }
        }
        assert ops[k + 1] == ShortCircuitAnd(ops);
      } else {
        forall j | 0 <= j < |ops| ensures ops[j] == Val(true) {
          if j > 0 { assert ops[j] == ops[1..][j - 1]; }
        }
      }
    }
  }
}
