/**
 * `align_epochs`: the training history of each phase is turned into series of
 * one common length for plotting. Losses and the real and imaginary parts of the
 * errors are padded with None up to the longest training-side series, and each
 * phase gets an `epochs` axis of that length.
 */
module PlotTraining {
  import opened Common

  /** An entry of a history list: a plain value (a loss, None) or a dictionary of errors. */
  datatype Item = Scalar(v: Value) | Dict(d: map<string, Value>)

  /** One phase's metrics: the history lists by name. */
  type Metrics = map<string, seq<Item>>

  /** One phase's aligned series by name. */
  type Series = map<string, seq<Item>>

  const NoneItem: Item := Scalar(NoneValue)

  /** `metrics.get(key, [])`. */
  function GetList(m: Metrics, key: string): seq<Item> {
    if key in m then m[key] else []
  }

  /** The dictionaries among the entries, in order (`if isinstance(e, dict)`). */
  function Dicts(entries: seq<Item>): (ds: seq<map<string, Value>>)
    ensures |ds| <= |entries|
  {
    if |entries| == 0 then []
    else
      var front := Dicts(entries[..|entries| - 1]);
      var last := entries[|entries| - 1];
      if last.Dict? then front + [last.d] else front
  }

  /** `[e.get(key) for e in entries if isinstance(e, dict)]`; a dictionary without the key gives None. */
  function Extract(entries: seq<Item>, key: string): seq<Item> {
    var ds := Dicts(entries);
    seq(|ds|, i requires 0 <= i < |ds| => Scalar(if key in ds[i] then ds[i][key] else NoneValue))
  }

  /** `s + [None] * (n - len(s))`; a negative count repeats nothing. */
  function Pad(s: seq<Item>, n: int): seq<Item> {
    s + seq(if n > |s| then n - |s| else 0, _ => NoneItem)
  }

  /** `list(range(n))`. */
  function Epochs(n: nat): seq<Item> {
    seq(n, i => Scalar(Int(i)))
  }

  function Max4(a: nat, b: nat, c: nat, d: nat): nat {
    Max(Max(a, b), Max(c, d))
  }

  /** The seven aligned series of one phase (lines 17-48 of `align_epochs`). */
  function AlignPhase(metrics: Metrics): Series {
    var trainLoss, valLoss := GetList(metrics, "train_loss"), GetList(metrics, "val_loss");
    var trainErrors, valErrors := GetList(metrics, "train_errors"), GetList(metrics, "val_errors");
    var trainReal, trainImag := Extract(trainErrors, "g_u_real"), Extract(trainErrors, "g_u_imag");
    var valReal, valImag := Extract(valErrors, "g_u_real"), Extract(valErrors, "g_u_imag");
    var n := Max4(|trainLoss|, |valLoss|, |trainReal|, |trainImag|);
    map["epochs" := Epochs(n),
        "train_loss" := Pad(trainLoss, n),
        "val_loss" := Pad(valLoss, n),
        "train_errors_real" := Pad(trainReal, n),
        "train_errors_imag" := Pad(trainImag, n),
        "val_errors_real" := Pad(valReal, n),
        "val_errors_imag" := Pad(valImag, n)]
  }

  /** `align_epochs(history)`: every phase is aligned on its own. */
  method AlignEpochs(history: map<string, Metrics>) returns (aligned: map<string, Series>)
    ensures aligned.Keys == history.Keys
    ensures forall phase | phase in history :: aligned[phase] == AlignPhase(history[phase])
  {
    aligned := map[];
    var remaining := history.Keys;
    while remaining != {}
      invariant remaining <= history.Keys
      invariant aligned.Keys == history.Keys - remaining
      invariant forall phase | phase in aligned :: aligned[phase] == AlignPhase(history[phase])
      decreases remaining
    {
      var phase :| phase in remaining;
      var metrics := history[phase];
      var trainLoss := GetList(metrics, "train_loss");
      var valLoss := GetList(metrics, "val_loss");
      var trainErrors := GetList(metrics, "train_errors");
      var valErrors := GetList(metrics, "val_errors");
      var trainReal := Extract(trainErrors, "g_u_real");
      var trainImag := Extract(trainErrors, "g_u_imag");
      var valReal := Extract(valErrors, "g_u_real");
      var valImag := Extract(valErrors, "g_u_imag");
      var numEpochs := Max(Max(Max(|trainLoss|, |valLoss|), |trainReal|), |trainImag|);
      var epochs := Epochs(numEpochs);
      trainLoss := Pad(trainLoss, numEpochs);
      valLoss := Pad(valLoss, numEpochs);
      trainReal := Pad(trainReal, numEpochs);
      trainImag := Pad(trainImag, numEpochs);
      valReal := Pad(valReal, numEpochs);
      valImag := Pad(valImag, numEpochs);
      aligned := aligned[phase := map["epochs" := epochs, "train_loss" := trainLoss, "val_loss" := valLoss,
        "train_errors_real" := trainReal, "train_errors_imag" := trainImag,
        "val_errors_real" := valReal, "val_errors_imag" := valImag]];
      remaining := remaining - {phase};
    }
  }

  // ---------------------------------------------------------------------------
  // Properties

  /** A padded list starts with the original, is as long as the larger of the two, and ends in None. */
  lemma PadSpec(s: seq<Item>, n: nat)
    ensures |Pad(s, n)| == Max(|s|, n)
    ensures Pad(s, n)[..|s|] == s
    ensures forall i | |s| <= i < |Pad(s, n)| :: Pad(s, n)[i] == NoneItem
  {
    assert Pad(s, n)[..|s|] == s;
  }

  /** The dictionaries kept are exactly those among the entries. */
  lemma {:induction false} DictsSpec(entries: seq<Item>)
    ensures forall d | d in Dicts(entries) :: Dict(d) in entries
    ensures forall i | 0 <= i < |entries| && entries[i].Dict? :: entries[i].d in Dicts(entries)
    ensures (forall i | 0 <= i < |entries| :: entries[i].Dict?) ==> |Dicts(entries)| == |entries|
  {
    if |entries| > 0 {
      var front := entries[..|entries| - 1];
      DictsSpec(front);
      assert forall i | 0 <= i < |front| :: front[i] == entries[i];
    }
  }

  /** The real and imaginary error series have one entry per dictionary, so they are equally long. */
  lemma ExtractSpec(entries: seq<Item>, key: string)
    ensures |Extract(entries, key)| == |Dicts(entries)|
    ensures |Extract(entries, "g_u_real")| == |Extract(entries, "g_u_imag")|
    ensures forall i | 0 <= i < |Dicts(entries)| ::
      Extract(entries, key)[i] == if key in Dicts(entries)[i] then Scalar(Dicts(entries)[i][key]) else NoneItem
  {
  }

  /** A dictionary missing the key gives None in the extracted series. */
  lemma ExtractMissing(d: map<string, Value>)
    requires "g_u_imag" !in d
    ensures Extract([Dict(d), Scalar(Real(0.5))], "g_u_imag") == [NoneItem]
  {
    assert [Dict(d), Scalar(Real(0.5))][..1] == [Dict(d)];
    assert Dicts([Dict(d)]) == [d] by {
      assert [Dict(d)][..0] == [];
    }
  }

  /**
   * Each phase has the seven series; the epoch count is the largest of the two loss and the
   * two training-error lengths; those four series and the epochs are exactly that long, while
   * a longer validation-error series is left at its own length.
   */
  lemma AlignPhaseSpec(metrics: Metrics)
    ensures AlignPhase(metrics).Keys ==
      {"epochs", "train_loss", "val_loss", "train_errors_real", "train_errors_imag", "val_errors_real", "val_errors_imag"}
    ensures var a, n := AlignPhase(metrics), |AlignPhase(metrics)["epochs"]|;
      && n == Max4(|GetList(metrics, "train_loss")|, |GetList(metrics, "val_loss")|,
                   |Dicts(GetList(metrics, "train_errors"))|, |Dicts(GetList(metrics, "train_errors"))|)
      && (forall i | 0 <= i < n :: a["epochs"][i] == Scalar(Int(i)))
      && |a["train_loss"]| == n && |a["val_loss"]| == n
      && |a["train_errors_real"]| == n && |a["train_errors_imag"]| == n
      && |a["val_errors_real"]| == Max(|Dicts(GetList(metrics, "val_errors"))|, n)
      && |a["val_errors_imag"]| == Max(|Dicts(GetList(metrics, "val_errors"))|, n)
    ensures var a := AlignPhase(metrics);
      && a["train_loss"][..|GetList(metrics, "train_loss")|] == GetList(metrics, "train_loss")
      && a["val_loss"][..|GetList(metrics, "val_loss")|] == GetList(metrics, "val_loss")
      && a["train_errors_real"][..|Extract(GetList(metrics, "train_errors"), "g_u_real")|] ==
           Extract(GetList(metrics, "train_errors"), "g_u_real")
      && a["val_errors_real"][..|Extract(GetList(metrics, "val_errors"), "g_u_real")|] ==
           Extract(GetList(metrics, "val_errors"), "g_u_real")
  {
    var trainLoss, valLoss := GetList(metrics, "train_loss"), GetList(metrics, "val_loss");
    var trainErrors, valErrors := GetList(metrics, "train_errors"), GetList(metrics, "val_errors");
    var n := Max4(|trainLoss|, |valLoss|, |Extract(trainErrors, "g_u_real")|, |Extract(trainErrors, "g_u_imag")|);
    ExtractSpec(trainErrors, "g_u_real");
    ExtractSpec(valErrors, "g_u_real");
    PadSpec(trainLoss, n);
    PadSpec(valLoss, n);
    PadSpec(Extract(trainErrors, "g_u_real"), n);
    PadSpec(Extract(trainErrors, "g_u_imag"), n);
    PadSpec(Extract(valErrors, "g_u_real"), n);
    PadSpec(Extract(valErrors, "g_u_imag"), n);
    var a := AlignPhase(metrics);
    assert a["epochs"] == Epochs(n);
    assert a["train_loss"] == Pad(trainLoss, n) && a["val_loss"] == Pad(valLoss, n);
    assert a["train_errors_real"] == Pad(Extract(trainErrors, "g_u_real"), n);
    assert a["train_errors_imag"] == Pad(Extract(trainErrors, "g_u_imag"), n);
    assert a["val_errors_real"] == Pad(Extract(valErrors, "g_u_real"), n);
    assert a["val_errors_imag"] == Pad(Extract(valErrors, "g_u_imag"), n);
  }
}
