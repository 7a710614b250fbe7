/**
 * What the second-generation training strategies share when they score a batch:
 * the targets taken from the batch dictionary (in `OUTPUT_KEYS` order for the
 * loss, in batch order for the errors), the error norm order read from the
 * parameters, and the relative-error rule ‖t − p‖ / ‖t‖ with `float("inf")`
 * for a target of norm zero, collected into an error dictionary by a loop over
 * `zip(OUTPUT_KEYS, targets, outputs)`.
 */
module Evaluation {
  import opened Common
  import opened Matrices

  /** A Python dict as its items in insertion order: no key occurs twice. */
  predicate DistinctKeys<V>(d: seq<(string, V)>) {
    forall i, j | 0 <= i < j < |d| :: d[i].0 != d[j].0
  }

  /** A batch: tensors by name, in insertion order. */
  type Batch = b: seq<(string, Matrix)> | DistinctKeys(b) witness []

  function KeysOf<V>(d: seq<(string, V)>): (ks: seq<string>)
    ensures |ks| == |d| && forall i | 0 <= i < |d| :: ks[i] == d[i].0
  {
    seq(|d|, i requires 0 <= i < |d| => d[i].0)
  }

  function ValuesOf<V>(d: seq<(string, V)>): (vs: seq<V>)
    ensures |vs| == |d| && forall i | 0 <= i < |d| :: vs[i] == d[i].1
  {
    seq(|d|, i requires 0 <= i < |d| => d[i].1)
  }

  /** `batch[key]` */
  function Lookup(batch: seq<(string, Matrix)>, key: string): (r: Result<Matrix>)
    ensures r.Ok? <==> exists i | 0 <= i < |batch| :: batch[i].0 == key
    ensures r.Err? ==> r.error == MissingKey(key)
    ensures r.Ok? ==> exists i | 0 <= i < |batch| :: batch[i] == (key, r.value)
    ensures DistinctKeys(batch) ==> forall i | 0 <= i < |batch| && batch[i].0 == key :: r == Ok(batch[i].1)
  {
    if |batch| == 0 then Err(MissingKey(key))
    else if batch[0].0 == key then Ok(batch[0].1)
    else
      var r := Lookup(batch[1..], key);
      assert forall i | 1 <= i < |batch| :: batch[i] == batch[1..][i - 1];
      r
  }

  /** `params["OUTPUT_KEYS"]`, which must be a list of strings. */
  function OutputKeys(params: map<string, Value>): (r: Result<seq<string>>)
    ensures "OUTPUT_KEYS" !in params ==> r == Err(MissingKey("OUTPUT_KEYS"))
    ensures r.Ok? ==> params["OUTPUT_KEYS"] == List(seq(|r.value|, i requires 0 <= i < |r.value| => Str(r.value[i])))
  {
    if "OUTPUT_KEYS" !in params then Err(MissingKey("OUTPUT_KEYS"))
    else
      match params["OUTPUT_KEYS"]
      case List(items) =>
        if forall i | 0 <= i < |items| :: items[i].Str? then
          var ks := seq(|items|, i requires 0 <= i < |items| => items[i].s);
          assert items == seq(|ks|, i requires 0 <= i < |ks| => Str(ks[i]));
          Ok(ks)
        else Err(WrongType)
      case _ => Err(WrongType)
  }

  /** `params.get("ERROR_NORM", 2)` */
  function ErrorNorm(params: map<string, Value>): (ord: Value)
    ensures "ERROR_NORM" in params ==> ord == params["ERROR_NORM"]
    ensures "ERROR_NORM" !in params ==> ord == Int(2)
  {
    if "ERROR_NORM" in params then params["ERROR_NORM"] else Int(2)
  }

  /** `tuple(batch[key] for key in OUTPUT_KEYS)`: the loss targets, in key order. */
  function LossTargets(batch: Batch, keys: seq<string>): Result<seq<Matrix>> {
    Collect(seq(|keys|, j requires 0 <= j < |keys| => Lookup(batch, keys[j])))
  }

  /** The loss targets exist when every key is in the batch; target j is the batch entry for key j. */
  lemma LossTargetsSpec(batch: Batch, keys: seq<string>)
    ensures LossTargets(batch, keys).Ok? <==> forall j | 0 <= j < |keys| :: Lookup(batch, keys[j]).Ok?
    ensures LossTargets(batch, keys).Ok? ==>
      && |LossTargets(batch, keys).value| == |keys|
      && forall j | 0 <= j < |keys| :: Lookup(batch, keys[j]) == Ok(LossTargets(batch, keys).value[j])
  {
    var lookups := seq(|keys|, j requires 0 <= j < |keys| => Lookup(batch, keys[j]));
    CollectSpec(lookups);
    assert forall j | 0 <= j < |keys| :: lookups[j] == Lookup(batch, keys[j]);
  }

  /** A missing key that comes after keys that are all present is the `KeyError` raised. */
  lemma LossTargetsMissing(batch: Batch, keys: seq<string>, j: nat)
    requires j < |keys| && Lookup(batch, keys[j]).Err?
    requires forall i | 0 <= i < j :: Lookup(batch, keys[i]).Ok?
    ensures LossTargets(batch, keys) == Err(MissingKey(keys[j]))
  {
    var lookups := seq(|keys|, i requires 0 <= i < |keys| => Lookup(batch, keys[i]));
    CollectFirstError(lookups, j);
  }

  /** `loss_fn(tuple(batch[key] for key in params["OUTPUT_KEYS"]), outputs)`: the loss against the batch. */
  function Loss(outputs: seq<Matrix>, batch: Batch, params: map<string, Value>,
                lossFn: (seq<Matrix>, seq<Matrix>) -> real): (r: Result<real>)
    ensures OutputKeys(params).Err? ==> r == Err(OutputKeys(params).error)
    ensures OutputKeys(params).Ok? ==>
      (r.Ok? <==> forall j | 0 <= j < |OutputKeys(params).value| :: Lookup(batch, OutputKeys(params).value[j]).Ok?)
    ensures OutputKeys(params).Ok? && LossTargets(batch, OutputKeys(params).value).Ok? ==>
      r == Ok(lossFn(LossTargets(batch, OutputKeys(params).value).value, outputs))
  {
    var keys :- OutputKeys(params);
    LossTargetsSpec(batch, keys);
    var targets :- LossTargets(batch, keys);
    Ok(lossFn(targets, outputs))
  }

  /** `{k: v for k, v in batch.items() if k in OUTPUT_KEYS}`: batch entries with an output key, in batch order. */
  function FilterBatch(batch: seq<(string, Matrix)>, keys: seq<string>): (f: seq<(string, Matrix)>)
    ensures |f| <= |batch|
    ensures forall e | e in f :: e in batch && e.0 in keys
    ensures forall e | e in batch && e.0 in keys :: e in f
  {
    if |batch| == 0 then []
    else
      var rest := FilterBatch(batch[1..], keys);
      assert forall e | e in batch :: e == batch[0] || e in batch[1..];
      if batch[0].0 in keys then [batch[0]] + rest else rest
  }

  /** A batch whose every key is an output key is kept whole. */
  lemma {:induction false} FilterAll(batch: seq<(string, Matrix)>, keys: seq<string>)
    requires forall i | 0 <= i < |batch| :: batch[i].0 in keys
    ensures FilterBatch(batch, keys) == batch
  {
    if |batch| > 0 {
      FilterAll(batch[1..], keys);
    }
  }

  /**
   * When the batch holds the output keys in `OUTPUT_KEYS` order, the error targets are
   * the loss targets: each key is paired with its own tensor.
   */
  lemma FilterInKeyOrder(batch: Batch, keys: seq<string>)
    requires KeysOf(FilterBatch(batch, keys)) == keys
    ensures LossTargets(batch, keys) == Ok(ValuesOf(FilterBatch(batch, keys)))
  {
    var f := FilterBatch(batch, keys);
    forall j | 0 <= j < |keys|
      ensures Lookup(batch, keys[j]) == Ok(f[j].1)
    {
      assert f[j] in f;
      var i :| 0 <= i < |batch| && batch[i] == f[j];
    }
    var lookups := seq(|keys|, j requires 0 <= j < |keys| => Lookup(batch, keys[j]));
    CollectSpec(lookups);
    assert Collect(lookups).value == ValuesOf(f);
  }

  /**
   * One entry of the error dictionary: ‖t − p‖ / ‖t‖ in the norm of order `ord`, or the
   * infinite sentinel when ‖t‖ is not positive. The subtraction broadcasts and may fail.
   */
  function RelativeError(t: Matrix, p: Matrix, ord: Value, norm: (Matrix, Value) -> real): (r: Result<ErrorValue>)
    ensures r.Ok? <==> Elementwise(t, p, Sub).Ok?
    ensures r.Ok? && norm(t, ord) > 0.0 ==> r.value == Finite(norm(Elementwise(t, p, Sub).value, ord) / norm(t, ord))
    ensures r.Ok? && norm(t, ord) <= 0.0 ==> r.value == Infinite
  {
    var normTarget := norm(t, ord);
    var diff :- Elementwise(t, p, Sub);
    var normError := norm(diff, ord);
    Ok(if normTarget > 0.0 then Finite(normError / normTarget) else Infinite)
  }

  /** A norm that is never negative and vanishes on zero matrices. */
  ghost predicate IsNorm(norm: (Matrix, Value) -> real) {
    (forall m, ord :: norm(m, ord) >= 0.0) && (forall r, c, ord :: norm(Zeros(r, c), ord) == 0.0)
  }

  /** A prediction equal to its target scores 0 when the target's norm is positive. */
  lemma ExactPrediction(t: Matrix, ord: Value, norm: (Matrix, Value) -> real)
    requires IsNorm(norm) && norm(t, ord) > 0.0
    ensures RelativeError(t, t, ord, norm) == Ok(Finite(0.0))
  {
    SubSelf(t);
    assert norm(Zeros(t.rows, t.cols), ord) == 0.0;
  }

  /** A target of norm zero scores the infinite sentinel, whatever the prediction of a compatible shape. */
  lemma ZeroTarget(t: Matrix, p: Matrix, ord: Value, norm: (Matrix, Value) -> real)
    requires norm(t, ord) == 0.0 && t.rows == p.rows && t.cols == p.cols
    ensures RelativeError(t, p, ord, norm) == Ok(Infinite)
  {
  }

  /** Under a norm, a finite relative error is never negative. */
  lemma ErrorNonNegative(t: Matrix, p: Matrix, ord: Value, norm: (Matrix, Value) -> real)
    requires IsNorm(norm) && RelativeError(t, p, ord, norm).Ok? && RelativeError(t, p, ord, norm).value.Finite?
    ensures RelativeError(t, p, ord, norm).value.ratio >= 0.0
  {
    var d := Elementwise(t, p, Sub).value;
    assert norm(d, ord) >= 0.0 && norm(t, ord) > 0.0;
  }

  /** The number of triples `zip(OUTPUT_KEYS, targets, outputs)` yields. */
  function ZipLength<A, B, C>(xs: seq<A>, ys: seq<B>, zs: seq<C>): (m: nat)
    ensures m <= |xs| && m <= |ys| && m <= |zs|
    ensures m == |xs| || m == |ys| || m == |zs|
  {
    Min(Min(|xs|, |ys|), |zs|)
  }

  /** The error dictionary after the first `j` zipped triples, or the first error raised. */
  function ErrorsUpTo(keys: seq<string>, targets: seq<Matrix>, preds: seq<Matrix>, ord: Value,
                      norm: (Matrix, Value) -> real, j: nat): Result<map<string, ErrorValue>>
    requires j <= |keys| && j <= |targets| && j <= |preds|
  {
    if j == 0 then Ok(map[])
    else
      var errors :- ErrorsUpTo(keys, targets, preds, ord, norm, j - 1);
      var e :- RelativeError(targets[j - 1], preds[j - 1], ord, norm);
      Ok(errors[keys[j - 1] := e])
  }

  /** The dictionary `compute_errors` returns. */
  function Errors(keys: seq<string>, targets: seq<Matrix>, preds: seq<Matrix>, ord: Value,
                  norm: (Matrix, Value) -> real): Result<map<string, ErrorValue>> {
    ErrorsUpTo(keys, targets, preds, ord, norm, ZipLength(keys, targets, preds))
  }

  /** The loop of `compute_errors`: one relative error per zipped triple. */
  method FillErrors(keys: seq<string>, targets: seq<Matrix>, preds: seq<Matrix>, ord: Value,
                    norm: (Matrix, Value) -> real) returns (r: Result<map<string, ErrorValue>>)
    ensures r == Errors(keys, targets, preds, ord, norm)
  {
    var m := ZipLength(keys, targets, preds);
    var errors: map<string, ErrorValue> := map[];
    for i := 0 to m
      invariant ErrorsUpTo(keys, targets, preds, ord, norm, i) == Ok(errors)
    {
      var normTarget := norm(targets[i], ord);
      var diff := Elementwise(targets[i], preds[i], Sub);
      if diff.Err? {
        ErrorsStop(keys, targets, preds, ord, norm, i + 1, m);
        return Err(diff.error);
      }
      var normError := norm(diff.value, ord);
      errors := errors[keys[i] := if normTarget > 0.0 then Finite(normError / normTarget) else Infinite];
    }
    return Ok(errors);
  }

  /** Once a triple fails, so does the whole dictionary. */
  lemma {:induction false} ErrorsStop(keys: seq<string>, targets: seq<Matrix>, preds: seq<Matrix>, ord: Value,
                                      norm: (Matrix, Value) -> real, i: nat, m: nat)
    requires i <= m <= |keys| && m <= |targets| && m <= |preds|
    requires ErrorsUpTo(keys, targets, preds, ord, norm, i).Err?
    ensures ErrorsUpTo(keys, targets, preds, ord, norm, m) == ErrorsUpTo(keys, targets, preds, ord, norm, i)
  {
    if i < m {
      ErrorsStop(keys, targets, preds, ord, norm, i, m - 1);
    }
  }

  /** The dictionary exists exactly when every zipped subtraction does. */
  lemma {:induction false} ErrorsUpToOk(keys: seq<string>, targets: seq<Matrix>, preds: seq<Matrix>, ord: Value,
                                        norm: (Matrix, Value) -> real, j: nat)
    requires j <= |keys| && j <= |targets| && j <= |preds|
    ensures ErrorsUpTo(keys, targets, preds, ord, norm, j).Ok? <==>
      forall i | 0 <= i < j :: RelativeError(targets[i], preds[i], ord, norm).Ok?
  {
    if j > 0 {
      ErrorsUpToOk(keys, targets, preds, ord, norm, j - 1);
    }
  }

  /** Its keys are the first keys the zip reaches. */
  lemma {:induction false} ErrorsUpToKeys(keys: seq<string>, targets: seq<Matrix>, preds: seq<Matrix>, ord: Value,
                                          norm: (Matrix, Value) -> real, j: nat)
    requires j <= |keys| && j <= |targets| && j <= |preds|
    requires ErrorsUpTo(keys, targets, preds, ord, norm, j).Ok?
    ensures ErrorsUpTo(keys, targets, preds, ord, norm, j).value.Keys == KeyPrefix(keys, j)
  {
    if j > 0 {
      ErrorsUpToKeys(keys, targets, preds, ord, norm, j - 1);
      var prev := ErrorsUpTo(keys, targets, preds, ord, norm, j - 1).value;
      var d := ErrorsUpTo(keys, targets, preds, ord, norm, j).value;
      assert d.Keys == prev.Keys + {keys[j - 1]};
      KeyPrefixStep(keys, j);
    }
  }

  /** So there are at most as many entries as triples. */
  lemma {:induction false} ErrorsUpToSize(keys: seq<string>, targets: seq<Matrix>, preds: seq<Matrix>, ord: Value,
                                          norm: (Matrix, Value) -> real, j: nat)
    requires j <= |keys| && j <= |targets| && j <= |preds|
    requires ErrorsUpTo(keys, targets, preds, ord, norm, j).Ok?
    ensures |ErrorsUpTo(keys, targets, preds, ord, norm, j).value| <= j
  {
    if j > 0 {
      ErrorsUpToSize(keys, targets, preds, ord, norm, j - 1);
      var prev := ErrorsUpTo(keys, targets, preds, ord, norm, j - 1).value;
      var e := RelativeError(targets[j - 1], preds[j - 1], ord, norm).value;
      assert ErrorsUpTo(keys, targets, preds, ord, norm, j).value == prev[keys[j - 1] := e];
    }
  }

  /** The first `j` keys, as a set. */
  function KeyPrefix(keys: seq<string>, j: nat): (s: set<string>)
    requires j <= |keys|
    ensures forall key :: key in s <==> exists i | 0 <= i < j :: keys[i] == key
  {
    set i | 0 <= i < j :: keys[i]
  }

  lemma KeyPrefixStep(keys: seq<string>, j: nat)
    requires 0 < j <= |keys|
    ensures KeyPrefix(keys, j) == KeyPrefix(keys, j - 1) + {keys[j - 1]}
  {
  }

  /** With distinct keys, the entry for key i is the relative error of target i and prediction i. */
  lemma {:induction false} ErrorsUpToEntries(keys: seq<string>, targets: seq<Matrix>, preds: seq<Matrix>, ord: Value,
                                             norm: (Matrix, Value) -> real, j: nat, i: nat)
    requires j <= |keys| && j <= |targets| && j <= |preds| && i < j
    requires forall a, b | 0 <= a < b < j :: keys[a] != keys[b]
    requires ErrorsUpTo(keys, targets, preds, ord, norm, j).Ok?
    ensures RelativeError(targets[i], preds[i], ord, norm).Ok?
    ensures keys[i] in ErrorsUpTo(keys, targets, preds, ord, norm, j).value
    ensures ErrorsUpTo(keys, targets, preds, ord, norm, j).value[keys[i]] == RelativeError(targets[i], preds[i], ord, norm).value
  {
    ErrorsUpToOk(keys, targets, preds, ord, norm, j);
    if i < j - 1 {
      ErrorsUpToEntries(keys, targets, preds, ord, norm, j - 1, i);
    }
  }

  /**
   * The error dictionary: it exists when every zipped subtraction does, its keys are the first
   * `ZipLength` output keys, and with distinct keys key i maps to the relative error of pair i.
   */
  lemma ErrorsSpec(keys: seq<string>, targets: seq<Matrix>, preds: seq<Matrix>, ord: Value,
                   norm: (Matrix, Value) -> real)
    ensures var m := ZipLength(keys, targets, preds);
      && (Errors(keys, targets, preds, ord, norm).Ok? <==>
            forall i | 0 <= i < m :: RelativeError(targets[i], preds[i], ord, norm).Ok?)
      && (Errors(keys, targets, preds, ord, norm).Ok? ==>
            && Errors(keys, targets, preds, ord, norm).value.Keys == KeyPrefix(keys, m)
            && |Errors(keys, targets, preds, ord, norm).value| <= m)
      && (Errors(keys, targets, preds, ord, norm).Ok? && (forall a, b | 0 <= a < b < m :: keys[a] != keys[b]) ==>
            forall i | 0 <= i < m :: Errors(keys, targets, preds, ord, norm).value[keys[i]]
                                     == RelativeError(targets[i], preds[i], ord, norm).value)
  {
    var m := ZipLength(keys, targets, preds);
    ErrorsUpToOk(keys, targets, preds, ord, norm, m);
    if Errors(keys, targets, preds, ord, norm).Ok? {
      ErrorsUpToKeys(keys, targets, preds, ord, norm, m);
      ErrorsUpToSize(keys, targets, preds, ord, norm, m);
    }
    if Errors(keys, targets, preds, ord, norm).Ok? && (forall a, b | 0 <= a < b < m :: keys[a] != keys[b]) {
      forall i | 0 <= i < m
        ensures Errors(keys, targets, preds, ord, norm).value[keys[i]] == RelativeError(targets[i], preds[i], ord, norm).value
      {
        ErrorsUpToEntries(keys, targets, preds, ord, norm, m, i);
      }
    }
  }

  /** The error dictionary against the batch: targets in batch order, zipped with the output keys. */
  function BatchErrors(outputs: seq<Matrix>, batch: Batch, params: map<string, Value>,
                       norm: (Matrix, Value) -> real): Result<map<string, ErrorValue>> {
    var keys :- OutputKeys(params);
    Errors(keys, ValuesOf(FilterBatch(batch, keys)), outputs, ErrorNorm(params), norm)
  }

  /** `compute_errors` of the single-phase strategies. */
  method ComputeBatchErrors(outputs: seq<Matrix>, batch: Batch, params: map<string, Value>,
                            norm: (Matrix, Value) -> real) returns (r: Result<map<string, ErrorValue>>)
    ensures r == BatchErrors(outputs, batch, params, norm)
  {
    var ord := ErrorNorm(params);
    var keys := OutputKeys(params);
    if keys.Err? {
      return Err(keys.error);
    }
    var targets := ValuesOf(FilterBatch(batch, keys.value));
    r := FillErrors(keys.value, targets, outputs, ord, norm);
  }

  /**
   * When the batch holds the output keys in `OUTPUT_KEYS` order and a prediction equals its
   * target, that key's error is 0 when the target's norm is positive, and infinite otherwise.
   */
  lemma ExactBatchErrors(outputs: seq<Matrix>, batch: Batch, params: map<string, Value>,
                         norm: (Matrix, Value) -> real)
    requires IsNorm(norm) && OutputKeys(params).Ok?
    requires KeysOf(FilterBatch(batch, OutputKeys(params).value)) == OutputKeys(params).value
    requires DistinctKeys(FilterBatch(batch, OutputKeys(params).value))
    requires outputs == ValuesOf(FilterBatch(batch, OutputKeys(params).value))
    ensures BatchErrors(outputs, batch, params, norm).Ok?
    ensures forall i | 0 <= i < |outputs| ::
      && OutputKeys(params).value[i] in BatchErrors(outputs, batch, params, norm).value
      && BatchErrors(outputs, batch, params, norm).value[OutputKeys(params).value[i]]
           == if norm(outputs[i], ErrorNorm(params)) > 0.0 then Finite(0.0) else Infinite
  {
    var keys := OutputKeys(params).value;
    var ord := ErrorNorm(params);
    forall i | 0 <= i < |outputs|
      ensures RelativeError(outputs[i], outputs[i], ord, norm)
                == Ok(if norm(outputs[i], ord) > 0.0 then Finite(0.0) else Infinite)
    {
      if norm(outputs[i], ord) > 0.0 {
        ExactPrediction(outputs[i], ord, norm);
      } else {
        ZeroTarget(outputs[i], outputs[i], ord, norm);
      }
    }
    ErrorsSpec(keys, outputs, outputs, ord, norm);
  }
}
