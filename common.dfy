/**
 * Values shared by every part of the DeepONet model: optional values, the
 * error conditions the Python code raises, a failure-compatible result type,
 * the `+inf` sentinel of the relative-error rule, and the loosely typed values
 * that configuration dictionaries hold.
 */
module Common {

  datatype Option<+T> = None | Some(value: T) {
    function GetOr(default: T): T {
      match this
      case Some(v) => v
      case None => default
    }
  }

  /** The exceptions raised by the modelled code, named by the condition that raises them. */
  datatype Error =
    | ShapeMismatch               // torch RuntimeError: matmul, cat or broadcasting on incompatible shapes
    | IndexOutOfRange             // IndexError: a tuple or shape index past the end
    | DivisionByZero              // ZeroDivisionError from `//` or `/` on Python integers
    | MissingKey(key: string)     // KeyError from `batch[key]`
    | WrongType                   // TypeError/AttributeError: a None or non-string where a tensor or str is used
    | PodBasisNotSingle           // ValueError: ShareTrunk given a POD basis whose first dimension is not 1
    | IncompatibleStrategies      // InvalidStrategyCombinationError: ShareBranch with two-step training
    | RMatrixUnavailable          // ValueError: branch-phase loss or errors before the decomposition ran
    | TrunkNotPod                 // ValueError: POD training with a trunk that is not a PODTrunk
    | MissingConfigKey(key: string) // ValueError: a required configuration key is missing or None
    | TrunkSizeMismatch           // ValueError: product of coordinate lengths differs from the trunk size
    | CannotReshape               // ValueError raised by numpy's reshape on a size mismatch
    | BadRank                     // ValueError: a plot output that is neither 2-D nor 3-D
    | EmptyInput                  // StopIteration from an empty loader, RuntimeError from min/max of an empty tensor

  datatype Result<+T> = Ok(value: T) | Err(error: Error) {
    predicate IsFailure() {
      Err?
    }

    function PropagateFailure<U>(): Result<U>
      requires Err?
    {
      Err(error)
    }

    function Extract(): T
      requires Ok?
    {
      value
    }
  }

  /**
   * Run a sequence of steps that may raise, in order, collecting their values; the
   * first failing step's error is the result, as in a loop that appends to a list.
   */
  function Collect<T>(rs: seq<Result<T>>): Result<seq<T>> {
    if |rs| == 0 then Ok([])
    else
      var front :- Collect(rs[..|rs| - 1]);
      var last :- rs[|rs| - 1];
      Ok(front + [last])
  }

  /** Collecting succeeds exactly when every step does, and then keeps every value in order. */
  lemma {:induction false} CollectSpec<T>(rs: seq<Result<T>>)
    ensures Collect(rs).Ok? <==> forall i | 0 <= i < |rs| :: rs[i].Ok?
    ensures Collect(rs).Ok? ==>
      && |Collect(rs).value| == |rs|
      && forall i | 0 <= i < |rs| :: rs[i] == Ok(Collect(rs).value[i])
  {
    if |rs| > 0 {
      var front := rs[..|rs| - 1];
      CollectSpec(front);
      assert forall i | 0 <= i < |front| :: front[i] == rs[i];
    }
  }

  /** When collecting fails, the error is that of the first failing step. */
  lemma {:induction false} CollectFirstError<T>(rs: seq<Result<T>>, i: nat)
    requires i < |rs| && rs[i].Err? && forall j | 0 <= j < i :: rs[j].Ok?
    ensures Collect(rs) == Err(rs[i].error)
  {
    CollectSpec(rs[..i]);
    assert forall j | 0 <= j < i :: rs[..i][j] == rs[j];
    CollectStep(rs, i, Collect(rs[..i]).value);
    CollectFailsOnward(rs, i + 1);
  }

  /** One more step: the collected values grow by that step's value, or its error is the result. */
  lemma CollectStep<T>(rs: seq<Result<T>>, i: nat, done: seq<T>)
    requires i < |rs| && Collect(rs[..i]) == Ok(done)
    ensures rs[i].Err? ==> Collect(rs[..i + 1]) == Err(rs[i].error)
    ensures rs[i].Ok? ==> Collect(rs[..i + 1]) == Ok(done + [rs[i].value])
  {
    assert rs[..i + 1][..i] == rs[..i];
  }

  /** An error among the first steps is the error of the whole run. */
  lemma {:induction false} CollectFailsOnward<T>(rs: seq<Result<T>>, i: nat)
    requires i <= |rs| && Collect(rs[..i]).Err?
    ensures Collect(rs) == Err(Collect(rs[..i]).error)
  {
    if i < |rs| {
      assert rs[..|rs| - 1][..i] == rs[..i];
      CollectFailsOnward(rs[..|rs| - 1], i);
    } else {
      assert rs[..i] == rs;
    }
  }

  /** Python's `None`-returning procedures that may raise. */
  datatype Outcome = Pass | Fail(error: Error)

  /** A relative error: a finite ratio, or the `float("inf")` sentinel for a zero-norm target. */
  datatype ErrorValue = Finite(ratio: real) | Infinite

  /** The values a configuration dictionary holds. */
  datatype Value =
    | Str(s: string)
    | Bool(b: bool)
    | Int(i: int)
    | Real(r: real)
    | List(items: seq<Value>)
    | NoneValue

  /** Python truthiness of a configuration value. */
  function Truthy(v: Value): bool {
    match v
    case Str(s) => s != ""
    case Bool(b) => b
    case Int(i) => i != 0
    case Real(r) => r != 0.0
    case List(items) => items != []
    case NoneValue => false
  }

  function Min(a: int, b: int): int {
    if a <= b then a else b
  }

  function Max(a: int, b: int): int {
    if a >= b then a else b
  }
}
