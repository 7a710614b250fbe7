/**
 * `process_config`: the run configuration is completed in place. The model name
 * gets a date prefix and tags for the problem, strategy, normalisation, trunk
 * expansion and output handling; the data file is moved under a directory named
 * after the problem; the log and image folders get a per-run sub-directory.
 * The date is a parameter, and paths follow POSIX `os.path` rules.
 */
module ConfigUtils {
  import opened Common

  type Config = map<string, Value>

  /** The keys that must be present and not None, in the order they are checked. */
  const RequiredKeys: seq<string> :=
    ["MODELNAME", "PROBLEM", "TRAINING_STRATEGY", "OUTPUT_HANDLING", "DATAFILE", "OUTPUT_LOG_FOLDER", "IMAGES_FOLDER"]

  // ---------------------------------------------------------------------------
  // Strings

  /** `str.lower()` on ASCII letters; every other character is kept. */
  function Lower(s: string): string {
    seq(|s|, i requires 0 <= i < |s| => if 'A' <= s[i] <= 'Z' then (s[i] as int + 32) as char else s[i])
  }

  /** Lower-casing twice is lower-casing once, and no '/' appears or disappears. */
  lemma LowerIdempotent(s: string)
    ensures Lower(Lower(s)) == Lower(s)
    ensures ('/' in Lower(s)) <==> ('/' in s)
  {
    assert forall i | 0 <= i < |s| :: Lower(s)[i] == '/' <==> s[i] == '/';
  }

  /** `t` occurs in `s` starting at position `i`. */
  predicate OccursAt(s: string, t: string, i: nat) {
    i + |t| <= |s| && s[i..i + |t|] == t
  }

  /** The `in` operator on strings: `t` occurs somewhere in `s`. */
  predicate Contains(s: string, t: string) {
    exists i | 0 <= i <= |s| - |t| :: OccursAt(s, t, i)
  }

  // ---------------------------------------------------------------------------
  // POSIX paths

  /** `os.path.isabs`: the path starts with '/'. */
  predicate IsAbs(p: string) {
    |p| > 0 && p[0] == '/'
  }

  /** One step of `os.path.join`: an absolute part restarts the path; a '/' is put between parts. */
  function JoinStep(path: string, b: string): string {
    if IsAbs(b) then b
    else if path == "" || path[|path| - 1] == '/' then path + b
    else path + "/" + b
  }

  /** `os.path.join(parts[0], *parts[1:])`. */
  function Join(parts: seq<string>): string
    requires |parts| > 0
  {
    if |parts| == 1 then parts[0] else JoinStep(Join(parts[..|parts| - 1]), parts[|parts| - 1])
  }

  /** The parts written one after another with a '/' between each two. */
  function Interleave(parts: seq<string>): string
    requires |parts| > 0
  {
    if |parts| == 1 then parts[0] else Interleave(parts[..|parts| - 1]) + "/" + parts[|parts| - 1]
  }

  predicate Plain(s: string) {
    |s| > 0 && '/' !in s
  }

  /** Joining a part without '/' to a path not ending in '/' puts one '/' between them. */
  lemma StepPlain(path: string, b: string)
    requires path != "" && path[|path| - 1] != '/' && Plain(b)
    ensures JoinStep(path, b) == path + "/" + b
    ensures var r := JoinStep(path, b); r != "" && r[|r| - 1] != '/'
  {
    assert b[0] in b && b[|b| - 1] in b;
    var r := path + "/" + b;
    assert r[|r| - 1] == b[|b| - 1];
  }

  /** Joining non-empty parts without any '/' puts exactly one '/' between each two. */
  lemma {:induction false} JoinPlain(parts: seq<string>)
    requires |parts| > 0 && forall i | 0 <= i < |parts| :: Plain(parts[i])
    ensures Join(parts) == Interleave(parts)
    ensures Join(parts) != "" && Join(parts)[|Join(parts)| - 1] != '/'
  {
    if |parts| == 1 {
      assert Plain(parts[0]);
      assert parts[0][|parts[0]| - 1] in parts[0];
    } else {
      var front := parts[..|parts| - 1];
      assert forall i | 0 <= i < |front| :: front[i] == parts[i];
      JoinPlain(front);
      assert Plain(parts[|parts| - 1]);
      StepPlain(Join(front), parts[|parts| - 1]);
    }
  }

  /** The length of the path up to and including its last '/', 0 when there is none. */
  function LastSep(p: string): (n: nat)
    ensures n <= |p|
    ensures n > 0 ==> p[n - 1] == '/'
    ensures forall i | n <= i < |p| :: p[i] != '/'
  {
    if |p| == 0 then 0
    else if p[|p| - 1] == '/' then |p|
    else LastSep(p[..|p| - 1])
  }

  /** `os.path.basename`: what follows the last '/'. */
  function Basename(p: string): string {
    p[LastSep(p)..]
  }

  function StripTrailingSlashes(s: string): string {
    if |s| > 0 && s[|s| - 1] == '/' then StripTrailingSlashes(s[..|s| - 1]) else s
  }

  predicate AllSlashes(s: string) {
    forall i | 0 <= i < |s| :: s[i] == '/'
  }

  /** `os.path.dirname`: what precedes the last '/', trailing slashes removed unless it is all slashes. */
  function Dirname(p: string): string {
    var head := p[..LastSep(p)];
    if head != "" && !AllSlashes(head) then StripTrailingSlashes(head) else head
  }

  /** The base name has no '/', and the path is its head followed by its base name. */
  lemma BasenameSplits(p: string)
    ensures '/' !in Basename(p)
    ensures p == p[..LastSep(p)] + Basename(p)
  {
  }

  /** A path `dir/name` splits back into `dir` and `name`. */
  lemma DirBaseOfNested(dir: string, name: string)
    requires dir != "" && dir[|dir| - 1] != '/' && '/' !in name
    ensures Dirname(dir + "/" + name) == dir
    ensures Basename(dir + "/" + name) == name
  {
    var p := dir + "/" + name;
    assert p[..|p| - |name|] == dir + "/";
    LastSepIs(p, |dir| + 1);
    var head := p[..|dir| + 1];
    assert head[..|head| - 1] == dir;
    assert head[|head| - 1] == '/' && head[|head| - 2] != '/';
    assert StripTrailingSlashes(head) == StripTrailingSlashes(dir);
  }

  /** A path without '/' has an empty directory and is its own base name. */
  lemma DirBaseOfBare(name: string)
    requires '/' !in name
    ensures Dirname(name) == "" && Basename(name) == name
  {
    LastSepIs(name, 0);
  }

  lemma {:induction false} LastSepIs(p: string, n: nat)
    requires n <= |p| && (n > 0 ==> p[n - 1] == '/') && forall i | n <= i < |p| :: p[i] != '/'
    ensures LastSep(p) == n
  {
    if |p| > n {
      var front := p[..|p| - 1];
      assert forall i | n <= i < |front| :: front[i] == p[i];
      LastSepIs(front, n);
    }
  }

  /** `os.path.join(os.path.dirname(d), problem, os.path.basename(d))`. */
  function RelocatedDataFile(d: string, problem: string): string {
    Join([Dirname(d), problem, Basename(d)])
  }

  lemma JoinThree(a: string, b: string, c: string)
    ensures Join([a, b, c]) == JoinStep(JoinStep(a, b), c)
  {
    var abc, ab := [a, b, c], [a, b];
    assert abc[..2] == ab && abc[2] == c;
    assert Join(abc) == JoinStep(Join(ab), c);
    assert ab[..1] == [a] && ab[1] == b;
    assert Join(ab) == JoinStep(Join([a]), b);
  }

  /** A data file `dir/name` is moved to `dir/problem/name`. */
  lemma RelocateNested(dir: string, name: string, problem: string)
    requires dir != "" && dir[|dir| - 1] != '/' && '/' !in name && Plain(problem)
    ensures RelocatedDataFile(dir + "/" + name, problem) == dir + "/" + problem + "/" + name
  {
    DirBaseOfNested(dir, name);
    JoinThree(dir, problem, name);
    StepPlain(dir, problem);
    var path := dir + "/" + problem;
    assert path[|path| - 1] == problem[|problem| - 1] && problem[|problem| - 1] in problem;
    assert !IsAbs(name) by {
      assert |name| > 0 ==> name[0] in name;
    }
  }

  /** Joining onto an empty directory starts from the first part. */
  lemma JoinFromEmpty(problem: string, name: string)
    requires '/' !in name && Plain(problem)
    ensures Join(["", problem, name]) == problem + "/" + name
  {
    JoinThree("", problem, name);
    assert !IsAbs(problem) by {
      assert problem[0] in problem;
    }
    assert JoinStep("", problem) == problem by {
      assert "" + problem == problem;
    }
    assert !IsAbs(name) by {
      assert |name| > 0 ==> name[0] in name;
    }
    assert problem[|problem| - 1] != '/' by {
      assert problem[|problem| - 1] in problem;
    }
  }

  /** A data file without a directory is moved to `problem/name`. */
  lemma RelocateBare(name: string, problem: string)
    requires '/' !in name && Plain(problem)
    ensures RelocatedDataFile(name, problem) == problem + "/" + name
  {
    DirBaseOfBare(name);
    JoinFromEmpty(problem, name);
  }

  /** `os.path.join(base, problem, strategy, handling, name) + os.sep`. */
  function RunFolder(base: string, problem: string, strategy: string, handling: string, name: string): string {
    Join([base, problem, strategy, handling, name]) + "/"
  }

  /** With plain parts the run folder is `base/problem/strategy/handling/name/`. */
  lemma RunFolderPlain(base: string, problem: string, strategy: string, handling: string, name: string)
    requires Plain(base) && Plain(problem) && Plain(strategy) && Plain(handling) && Plain(name)
    ensures RunFolder(base, problem, strategy, handling, name) ==
      base + "/" + problem + "/" + strategy + "/" + handling + "/" + name + "/"
  {
    var p5, p4, p3, p2 := [base, problem, strategy, handling, name], [base, problem, strategy, handling],
      [base, problem, strategy], [base, problem];
    assert p5[..4] == p4 && p5[4] == name && Join(p5) == JoinStep(Join(p4), name);
    assert p4[..3] == p3 && p4[3] == handling && Join(p4) == JoinStep(Join(p3), handling);
    assert p3[..2] == p2 && p3[2] == strategy && Join(p3) == JoinStep(Join(p2), strategy);
    assert p2[..1] == [base] && p2[1] == problem && Join(p2) == JoinStep(base, problem);
    assert base[|base| - 1] in base;
    StepPlain(base, problem);
    StepPlain(base + "/" + problem, strategy);
    StepPlain(base + "/" + problem + "/" + strategy, handling);
    StepPlain(base + "/" + problem + "/" + strategy + "/" + handling, name);
  }

  // ---------------------------------------------------------------------------
  // The model name

  function Base(date: string): string {
    date + "_" + "DeepONet"
  }

  /** The output-handling tag: the first of the three substrings found decides it. */
  function HandlingTag(handling: string): string {
    if Contains(handling, "single_trunk") then "_singlebasis"
    else if Contains(handling, "multiple_trunks") then "_multitrunks"
    else if Contains(handling, "split_trunk") then "_splitbasis"
    else ""
  }

  /** `tag` when the condition holds, nothing otherwise. */
  function TagIf(b: bool, tag: string): string {
    if b then tag else ""
  }

  function StrategyTag(strategy: Option<string>): string {
    if strategy.Some? then "_" + strategy.value else ""
  }

  /** The model name: the date prefix followed by each applicable tag, in this fixed order. */
  function ModelName(date: string, problem: string, strategy: Option<string>, inNorm: bool, outNorm: bool,
                     trunkExp: bool, handling: string): string {
    Base(date)
    + TagIf(problem != "", "_" + problem)
    + StrategyTag(strategy)
    + TagIf(inNorm, "_in")
    + TagIf(outNorm, "_out")
    + TagIf(inNorm || outNorm, "_norm")
    + TagIf(trunkExp, "_trunkexp")
    + HandlingTag(handling)
  }

  // ---------------------------------------------------------------------------
  // The whole procedure

  /** A required key is missing when it is absent or holds None. */
  predicate Missing(c: Config, key: string) {
    key !in c || c[key] == NoneValue
  }

  /** `config.get(key, False)`, taken for its truth value. */
  predicate Flag(c: Config, key: string) {
    key in c && Truthy(c[key])
  }

  /** The first of the keys that is missing, if any. */
  function FirstMissing(c: Config, keys: seq<string>): Option<string> {
    if |keys| == 0 then None
    else if Missing(c, keys[0]) then Some(keys[0])
    else FirstMissing(c, keys[1..])
  }

  /** No key is reported exactly when none is missing; a reported key is missing and every earlier one is present. */
  lemma {:induction false} FirstMissingSpec(c: Config, keys: seq<string>)
    ensures FirstMissing(c, keys).None? <==> forall j | 0 <= j < |keys| :: !Missing(c, keys[j])
    ensures FirstMissing(c, keys).Some? ==>
      exists i | 0 <= i < |keys| :: keys[i] == FirstMissing(c, keys).value && Missing(c, keys[i]) &&
        forall j | 0 <= j < i :: !Missing(c, keys[j])
  {
    if |keys| > 0 {
      FirstMissingSpec(c, keys[1..]);
      assert forall j | 1 <= j < |keys| :: keys[1..][j - 1] == keys[j];
      if !Missing(c, keys[0]) && FirstMissing(c, keys[1..]).Some? {
        var i :| 0 <= i < |keys[1..]| && keys[1..][i] == FirstMissing(c, keys[1..]).value &&
          Missing(c, keys[1..][i]) && forall j | 0 <= j < i :: !Missing(c, keys[1..][j]);
        assert keys[i + 1] == FirstMissing(c, keys).value;
      }
    }
  }

  /** The key reported when the loop stops at position i. */
  lemma {:induction false} FirstMissingAt(c: Config, keys: seq<string>, i: nat)
    requires i < |keys| && Missing(c, keys[i]) && forall j | 0 <= j < i :: !Missing(c, keys[j])
    ensures FirstMissing(c, keys) == Some(keys[i])
  {
    if i > 0 {
      assert forall j | 0 <= j < i - 1 :: keys[1..][j] == keys[j + 1];
      FirstMissingAt(c, keys[1..], i - 1);
    }
  }

  /** Two configurations that agree on the keys report the same missing key. */
  lemma {:induction false} FirstMissingAgree(c: Config, d: Config, keys: seq<string>)
    requires forall j | 0 <= j < |keys| :: Missing(c, keys[j]) == Missing(d, keys[j])
    ensures FirstMissing(c, keys) == FirstMissing(d, keys)
  {
    if |keys| > 0 {
      assert forall j | 0 <= j < |keys| - 1 :: keys[1..][j] == keys[j + 1];
      FirstMissingAgree(c, d, keys[1..]);
    }
  }

  /** Every required key is present and not None. */
  predicate HasRequired(c: Config) {
    forall j | 0 <= j < |RequiredKeys| :: !Missing(c, RequiredKeys[j])
  }

  lemma RequiredPresent(c: Config)
    requires HasRequired(c)
    ensures "PROBLEM" in c && "TRAINING_STRATEGY" in c && "OUTPUT_HANDLING" in c
    ensures "DATAFILE" in c && "OUTPUT_LOG_FOLDER" in c && "IMAGES_FOLDER" in c
  {
    assert !Missing(c, RequiredKeys[1]) && !Missing(c, RequiredKeys[2]) && !Missing(c, RequiredKeys[3]);
    assert !Missing(c, RequiredKeys[4]) && !Missing(c, RequiredKeys[5]) && !Missing(c, RequiredKeys[6]);
  }

  /** What `process_config` raises, if anything, and the dictionary as it is left. */
  datatype Processed = Processed(outcome: Outcome, config: Config)

  /**
   * `process_config(config)`, step by step: the model name is overwritten, the required keys
   * are checked, the name is built (`NameStage`), then DATAFILE, OUTPUT_LOG_FOLDER and
   * IMAGES_FOLDER are rewritten in that order (`PathStage`). A non-string where a string
   * method or path function is applied raises, leaving the writes made so far.
   */
  function Process(config: Config, date: string): Processed {
    var c1 := config["MODELNAME" := Str(Base(date))];
    match FirstMissing(c1, RequiredKeys)
    case Some(key) => Processed(Fail(MissingConfigKey(key)), c1)
    case None =>
      FirstMissingSpec(c1, RequiredKeys);
      NameStage(c1, date)
  }

  /** The strategy tag: the lower-cased strategy when it is truthy. */
  function Strategy(ts: Value): Option<string> {
    if Truthy(ts) && ts.Str? then Some(Lower(ts.s)) else None
  }

  /** The lower-cased problem and the model name built from it. */
  datatype Named = Named(problem: string, name: string)

  /**
   * The model name of a checked dictionary; the problem and handling must be strings,
   * and so must the strategy when it is truthy (`.lower()` is applied to each).
   */
  function NameOf(c1: Config, date: string): Result<Named>
    requires HasRequired(c1)
  {
    RequiredPresent(c1);
    var p, ts, oh := c1["PROBLEM"], c1["TRAINING_STRATEGY"], c1["OUTPUT_HANDLING"];
    if !p.Str? || (Truthy(ts) && !ts.Str?) || !oh.Str? then Err(WrongType)
    else
      Ok(Named(Lower(p.s), ModelName(date, Lower(p.s), Strategy(ts), Flag(c1, "INPUT_NORMALIZATION"),
        Flag(c1, "OUTPUT_NORMALIZATION"), Flag(c1, "TRUNK_FEATURE_EXPANSION"), Lower(oh.s))))
  }

  /** The model name is built from the checked dictionary and written back, then the paths. */
  function NameStage(c1: Config, date: string): Processed
    requires HasRequired(c1)
  {
    RequiredPresent(c1);
    match NameOf(c1, date)
    case Err(e) => Processed(Fail(e), c1)
    case Ok(n) => PathStage(c1["MODELNAME" := Str(n.name)], n.problem, n.name)
  }

  /**
   * The data file and the two folders are rewritten, in that order; the folders are joined
   * with the strategy and handling strings as they stand in the dictionary.
   */
  function PathStage(c2: Config, problem: string, name: string): Processed
    requires "DATAFILE" in c2 && "OUTPUT_LOG_FOLDER" in c2 && "IMAGES_FOLDER" in c2
    requires "TRAINING_STRATEGY" in c2 && "OUTPUT_HANDLING" in c2
  {
    var df := c2["DATAFILE"];
    if !df.Str? then Processed(Fail(WrongType), c2)
    else
      var c3 := if !IsAbs(df.s) && problem != "" then c2["DATAFILE" := Str(RelocatedDataFile(df.s, problem))] else c2;
      var logs, ts, oh := c3["OUTPUT_LOG_FOLDER"], c3["TRAINING_STRATEGY"], c3["OUTPUT_HANDLING"];
      if !logs.Str? || !ts.Str? || !oh.Str? then Processed(Fail(WrongType), c3)
      else
        var c4 := c3["OUTPUT_LOG_FOLDER" := Str(RunFolder(logs.s, problem, ts.s, oh.s, name))];
        var images := c4["IMAGES_FOLDER"];
        if !images.Str? then Processed(Fail(WrongType), c4)
        else Processed(Pass, c4["IMAGES_FOLDER" := Str(RunFolder(images.s, problem, ts.s, oh.s, name))])
  }

  /** The mutable configuration dictionary. */
  class ConfigDict {
    var entries: Config

    constructor (entries: Config)
      ensures this.entries == entries
    {
      this.entries := entries;
    }
  }

  /** Lines 40-47 of `process_config`: the normalization and feature-expansion tags. */
  method AppendFlagTags(name: string, inNorm: bool, outNorm: bool, trunkExp: bool) returns (out: string)
    ensures out == name + TagIf(inNorm, "_in") + TagIf(outNorm, "_out") + TagIf(inNorm || outNorm, "_norm")
      + TagIf(trunkExp, "_trunkexp")
  {
    out := name;
    if inNorm {
      out := out + "_in";
    }
    ghost var expected := name + TagIf(inNorm, "_in");
    assert out == expected;
    if outNorm {
      out := out + "_out";
    }
    expected := expected + TagIf(outNorm, "_out");
    assert out == expected;
    if inNorm || outNorm {
      out := out + "_norm";
    }
    expected := expected + TagIf(inNorm || outNorm, "_norm");
    assert out == expected;
    if trunkExp {
      out := out + "_trunkexp";
    }
  }

  /** Lines 49-54 of `process_config`: at most one tag for the output handling, the first that matches. */
  method AppendHandlingTag(name: string, handling: string) returns (out: string)
    ensures out == name + HandlingTag(handling)
  {
    out := name;
    if Contains(handling, "single_trunk") {
      out := out + "_singlebasis";
    } else if Contains(handling, "multiple_trunks") {
      out := out + "_multitrunks";
    } else if Contains(handling, "split_trunk") {
      out := out + "_splitbasis";
    }
  }

  /** Lines 32-54 of `process_config`: the model name grows by successive appends. */
  method BuildModelName(c: Config, date: string) returns (r: Result<Named>)
    requires HasRequired(c) && "MODELNAME" in c && c["MODELNAME"] == Str(Base(date))
    ensures r == NameOf(c, date)
  {
    RequiredPresent(c);
    var p := c["PROBLEM"];
    if !p.Str? {
      return Err(WrongType);
    }
    var problem := Lower(p.s);
    var modelName := c["MODELNAME"].s;
    if problem != "" {
      modelName := modelName + "_" + problem;
    }
    ghost var expected := Base(date) + TagIf(problem != "", "_" + problem);
    assert modelName == expected;
    var ts := c["TRAINING_STRATEGY"];
    if Truthy(ts) {
      if !ts.Str? {
        return Err(WrongType);
      }
      modelName := modelName + "_" + Lower(ts.s);
    }
    expected := expected + StrategyTag(Strategy(ts));
    assert modelName == expected;
    var inNorm, outNorm := Flag(c, "INPUT_NORMALIZATION"), Flag(c, "OUTPUT_NORMALIZATION");
    var trunkExp := Flag(c, "TRUNK_FEATURE_EXPANSION");
    modelName := AppendFlagTags(modelName, inNorm, outNorm, trunkExp);
    expected := expected + TagIf(inNorm, "_in") + TagIf(outNorm, "_out") + TagIf(inNorm || outNorm, "_norm")
      + TagIf(trunkExp, "_trunkexp");
    var oh := c["OUTPUT_HANDLING"];
    if !oh.Str? {
      return Err(WrongType);
    }
    var handling := Lower(oh.s);
    modelName := AppendHandlingTag(modelName, handling);
    assert modelName == ModelName(date, problem, Strategy(ts), inNorm, outNorm, trunkExp, handling);
    return Ok(Named(problem, modelName));
  }

  /** Lines 58-67 of `process_config`: the data file and the two folders, in that order. */
  method RewritePaths(config: ConfigDict, problem: string, modelName: string) returns (o: Outcome)
    requires "DATAFILE" in config.entries && "OUTPUT_LOG_FOLDER" in config.entries && "IMAGES_FOLDER" in config.entries
    requires "TRAINING_STRATEGY" in config.entries && "OUTPUT_HANDLING" in config.entries
    modifies config
    ensures Processed(o, config.entries) == PathStage(old(config.entries), problem, modelName)
  {
    var datafile := config.entries["DATAFILE"];
    if !datafile.Str? {
      return Fail(WrongType);
    }
    if !IsAbs(datafile.s) && problem != "" {
      config.entries := config.entries["DATAFILE" := Str(Join([Dirname(datafile.s), problem, Basename(datafile.s)]))];
    }

    var outputLogFolder := config.entries["OUTPUT_LOG_FOLDER"];
    var imagesFolder := config.entries["IMAGES_FOLDER"];
    var strategyStr := config.entries["TRAINING_STRATEGY"];
    var handlingStr := config.entries["OUTPUT_HANDLING"];
    if !outputLogFolder.Str? || !strategyStr.Str? || !handlingStr.Str? {
      return Fail(WrongType);
    }
    config.entries := config.entries["OUTPUT_LOG_FOLDER" :=
      Str(Join([outputLogFolder.s, problem, strategyStr.s, handlingStr.s, modelName]) + "/")];
    if !imagesFolder.Str? {
      return Fail(WrongType);
    }
    config.entries := config.entries["IMAGES_FOLDER" :=
      Str(Join([imagesFolder.s, problem, strategyStr.s, handlingStr.s, modelName]) + "/")];
    return Pass;
  }

  /** `process_config`: completes the dictionary in place. */
  method ProcessConfig(config: ConfigDict, date: string) returns (o: Outcome)
    modifies config
    ensures Processed(o, config.entries) == Process(old(config.entries), date)
  {
    config.entries := config.entries["MODELNAME" := Str(date + "_" + "DeepONet")];
    ghost var c1 := config.entries;
    for i := 0 to |RequiredKeys|
      invariant config.entries == c1
      invariant forall j | 0 <= j < i :: !Missing(c1, RequiredKeys[j])
    {
      var key := RequiredKeys[i];
      if key !in config.entries || config.entries[key] == NoneValue {
        FirstMissingAt(c1, RequiredKeys, i);
        return Fail(MissingConfigKey(key));
      }
    }
    FirstMissingSpec(c1, RequiredKeys);
    RequiredPresent(c1);
    assert Process(old(config.entries), date) == NameStage(c1, date);

    var named := BuildModelName(config.entries, date);
    if named.Err? {
      return Fail(named.error);
    }
    var problem, modelName := named.value.problem, named.value.name;
    config.entries := config.entries["MODELNAME" := Str(modelName)];
    assert NameStage(c1, date) == PathStage(config.entries, problem, modelName);

    o := RewritePaths(config, problem, modelName);
  }

  // ---------------------------------------------------------------------------
  // Properties

  /**
   * The required-key error names the first required key, other than MODELNAME, that the
   * caller's dictionary lacks or holds as None; MODELNAME itself is never reported, since
   * it is written before the check.
   */
  lemma RequiredKeyError(config: Config, date: string)
    ensures Process(config, date).outcome.Fail? && Process(config, date).outcome.error.MissingConfigKey? <==>
      FirstMissing(config, RequiredKeys[1..]).Some?
    ensures FirstMissing(config, RequiredKeys[1..]).Some? ==>
      Process(config, date).outcome == Fail(MissingConfigKey(FirstMissing(config, RequiredKeys[1..]).value))
    ensures Process(config, date).outcome != Fail(MissingConfigKey("MODELNAME"))
  {
    var c1 := config["MODELNAME" := Str(Base(date))];
    var rest := RequiredKeys[1..];
    assert forall j | 0 <= j < |rest| :: rest[j] != "MODELNAME";
    FirstMissingAgree(c1, config, rest);
    assert !Missing(c1, RequiredKeys[0]);
    assert RequiredKeys[1..] == rest;
    assert FirstMissing(c1, RequiredKeys) == FirstMissing(c1, rest);
    FirstMissingSpec(c1, rest);
    if FirstMissing(c1, RequiredKeys).None? {
      FirstMissingSpec(c1, RequiredKeys);
      NoOtherErrorKey(c1, date);
    }
  }

  /** Past the required-key check no MissingConfigKey error is raised. */
  lemma NoOtherErrorKey(c1: Config, date: string)
    requires HasRequired(c1)
    ensures !(NameStage(c1, date).outcome.Fail? && NameStage(c1, date).outcome.error.MissingConfigKey?)
  {
  }

  /** The keys the path stage does not rewrite keep their values, and no key is added. */
  lemma PathStageKeys(c2: Config, problem: string, name: string)
    requires "DATAFILE" in c2 && "OUTPUT_LOG_FOLDER" in c2 && "IMAGES_FOLDER" in c2
    requires "TRAINING_STRATEGY" in c2 && "OUTPUT_HANDLING" in c2
    ensures PathStage(c2, problem, name).config.Keys == c2.Keys
    ensures forall key | key !in {"DATAFILE", "OUTPUT_LOG_FOLDER", "IMAGES_FOLDER"} && key in c2 ::
      PathStage(c2, problem, name).config[key] == c2[key]
  {
  }

  /** Every key other than the four rewritten ones keeps its presence and its value, whatever is raised. */
  lemma OtherKeysUntouched(config: Config, date: string)
    ensures Process(config, date).config.Keys == config.Keys + {"MODELNAME"}
    ensures forall key | key !in {"MODELNAME", "DATAFILE", "OUTPUT_LOG_FOLDER", "IMAGES_FOLDER"} && key in config ::
      Process(config, date).config[key] == config[key]
  {
    var c1 := config["MODELNAME" := Str(Base(date))];
    if FirstMissing(c1, RequiredKeys).None? {
      FirstMissingSpec(c1, RequiredKeys);
      RequiredPresent(c1);
      assert Process(config, date) == NameStage(c1, date);
      var n := NameOf(c1, date);
      if n.Ok? {
        PathStageKeys(c1["MODELNAME" := Str(n.value.name)], n.value.problem, n.value.name);
      }
    }
  }

  /** Success needs the problem, strategy and handling to be strings. */
  lemma SuccessNeedsStrings(config: Config, date: string)
    requires Process(config, date).outcome.Pass?
    ensures HasRequired(config["MODELNAME" := Str(Base(date))])
    ensures "PROBLEM" in config && config["PROBLEM"].Str? && "OUTPUT_HANDLING" in config && config["OUTPUT_HANDLING"].Str?
    ensures "TRAINING_STRATEGY" in config && config["TRAINING_STRATEGY"].Str?
    ensures "DATAFILE" in config && config["DATAFILE"].Str?
    ensures "OUTPUT_LOG_FOLDER" in config && config["OUTPUT_LOG_FOLDER"].Str? && "IMAGES_FOLDER" in config && config["IMAGES_FOLDER"].Str?
  {
    var c1 := config["MODELNAME" := Str(Base(date))];
    FirstMissingSpec(c1, RequiredKeys);
    RequiredPresent(c1);
  }

  /** The path stage leaves the model name as the name stage wrote it. */
  lemma PathStageKeepsName(c2: Config, problem: string, name: string)
    requires "DATAFILE" in c2 && "OUTPUT_LOG_FOLDER" in c2 && "IMAGES_FOLDER" in c2
    requires "TRAINING_STRATEGY" in c2 && "OUTPUT_HANDLING" in c2 && "MODELNAME" in c2
    ensures "MODELNAME" in PathStage(c2, problem, name).config
    ensures PathStage(c2, problem, name).config["MODELNAME"] == c2["MODELNAME"]
  {
  }

  /** A successful run passed the key check and the name stage, and ended in the path stage. */
  lemma PassStages(config: Config, date: string)
    requires Process(config, date).outcome.Pass?
    ensures HasRequired(config["MODELNAME" := Str(Base(date))])
    ensures NameOf(config["MODELNAME" := Str(Base(date))], date).Ok?
    ensures "DATAFILE" in config && "OUTPUT_LOG_FOLDER" in config && "IMAGES_FOLDER" in config
    ensures "TRAINING_STRATEGY" in config && "OUTPUT_HANDLING" in config
    ensures var c1 := config["MODELNAME" := Str(Base(date))];
      var n := NameOf(c1, date).value;
      Process(config, date) == PathStage(c1["MODELNAME" := Str(n.name)], n.problem, n.name)
  {
    var c1 := config["MODELNAME" := Str(Base(date))];
    FirstMissingSpec(c1, RequiredKeys);
    RequiredPresent(c1);
  }

  /**
   * On success the model name is the date prefix followed by the tags: the lower-cased
   * problem and strategy, the normalisation and expansion flags, and the handling tag.
   */
  lemma ModelNameOnSuccess(config: Config, date: string)
    requires Process(config, date).outcome.Pass?
    ensures "PROBLEM" in config && config["PROBLEM"].Str? && "OUTPUT_HANDLING" in config && config["OUTPUT_HANDLING"].Str?
    ensures "TRAINING_STRATEGY" in config && config["TRAINING_STRATEGY"].Str?
    ensures Process(config, date).config["MODELNAME"] == Str(ModelName(date, Lower(config["PROBLEM"].s),
      if config["TRAINING_STRATEGY"].s != "" then Some(Lower(config["TRAINING_STRATEGY"].s)) else None,
      Flag(config, "INPUT_NORMALIZATION"), Flag(config, "OUTPUT_NORMALIZATION"), Flag(config, "TRUNK_FEATURE_EXPANSION"),
      Lower(config["OUTPUT_HANDLING"].s)))
  {
    SuccessNeedsStrings(config, date);
    PassStages(config, date);
    var c1 := config["MODELNAME" := Str(Base(date))];
    var n := NameOf(c1, date).value;
    PathStageKeepsName(c1["MODELNAME" := Str(n.name)], n.problem, n.name);
    assert c1["PROBLEM"] == config["PROBLEM"] && c1["TRAINING_STRATEGY"] == config["TRAINING_STRATEGY"];
    assert c1["OUTPUT_HANDLING"] == config["OUTPUT_HANDLING"];
    assert Flag(c1, "INPUT_NORMALIZATION") == Flag(config, "INPUT_NORMALIZATION");
    assert Flag(c1, "OUTPUT_NORMALIZATION") == Flag(config, "OUTPUT_NORMALIZATION");
    assert Flag(c1, "TRUNK_FEATURE_EXPANSION") == Flag(config, "TRUNK_FEATURE_EXPANSION");
  }

  /** The "split_trunk" handling is tagged "_splitbasis". */
  lemma SplitTrunkTag()
    ensures HandlingTag("split_trunk") == "_splitbasis"
  {
    assert OccursAt("split_trunk", "split_trunk", 0);
  }

  /** An example: the tags appear in order, and "_norm" follows either normalisation flag. */
  lemma ModelNameExample(date: string)
    ensures ModelName(date, "kelvin", Some("two_step"), true, false, false, "split_trunk") ==
      Base(date) + "_kelvin" + "_two_step" + "_in" + "_norm" + "_splitbasis"
  {
    SplitTrunkTag();
    assert TagIf(true, "_in") == "_in" && TagIf(false, "_out") == "" && TagIf(false, "_trunkexp") == "";
    assert StrategyTag(Some("two_step")) == "_two_step" && TagIf("kelvin" != "", "_" + "kelvin") == "_kelvin";
    assert TagIf(true || false, "_norm") == "_norm";
    var x := Base(date) + "_kelvin" + "_two_step" + "_in";
    EmptyRight(x);
    EmptyRight(x + "_norm");
  }

  /**
   * On success a relative data file with a non-empty problem is moved under the problem's
   * directory, and otherwise (absolute path, or empty problem) left as it was.
   */
  lemma DataFileOnSuccess(config: Config, date: string)
    requires Process(config, date).outcome.Pass?
    ensures "DATAFILE" in config && config["DATAFILE"].Str? && "PROBLEM" in config && config["PROBLEM"].Str?
    ensures var d, problem := config["DATAFILE"].s, Lower(config["PROBLEM"].s);
      Process(config, date).config["DATAFILE"] ==
        if !IsAbs(d) && problem != "" then Str(RelocatedDataFile(d, problem)) else config["DATAFILE"]
  {
    SuccessNeedsStrings(config, date);
    var c1 := config["MODELNAME" := Str(Base(date))];
    FirstMissingSpec(c1, RequiredKeys);
  }

  /**
   * On success both folders are their base joined with the lower-cased problem, the strategy
   * and handling strings as given (not lower-cased) and the model name, with a final '/'.
   */
  lemma FoldersOnSuccess(config: Config, date: string)
    requires Process(config, date).outcome.Pass?
    ensures var c := config;
      && "OUTPUT_LOG_FOLDER" in c && c["OUTPUT_LOG_FOLDER"].Str? && "IMAGES_FOLDER" in c && c["IMAGES_FOLDER"].Str?
      && "PROBLEM" in c && c["PROBLEM"].Str? && "TRAINING_STRATEGY" in c && c["TRAINING_STRATEGY"].Str?
      && "OUTPUT_HANDLING" in c && c["OUTPUT_HANDLING"].Str?
    ensures var c, r := config, Process(config, date).config;
      var problem, strategy, handling := Lower(c["PROBLEM"].s), c["TRAINING_STRATEGY"].s, c["OUTPUT_HANDLING"].s;
      && r["MODELNAME"].Str?
      && r["OUTPUT_LOG_FOLDER"] == Str(RunFolder(c["OUTPUT_LOG_FOLDER"].s, problem, strategy, handling, r["MODELNAME"].s))
      && r["IMAGES_FOLDER"] == Str(RunFolder(c["IMAGES_FOLDER"].s, problem, strategy, handling, r["MODELNAME"].s))
  {
    SuccessNeedsStrings(config, date);
    PassStages(config, date);
    var c1 := config["MODELNAME" := Str(Base(date))];
    var n := NameOf(c1, date).value;
    assert n.problem == Lower(config["PROBLEM"].s);
    var c2 := c1["MODELNAME" := Str(n.name)];
    assert c2["OUTPUT_LOG_FOLDER"] == config["OUTPUT_LOG_FOLDER"] && c2["IMAGES_FOLDER"] == config["IMAGES_FOLDER"];
    assert c2["TRAINING_STRATEGY"] == config["TRAINING_STRATEGY"] && c2["OUTPUT_HANDLING"] == config["OUTPUT_HANDLING"];
  }

  // ---------------------------------------------------------------------------
  // String helpers: proof steps about concatenation, not part of
  // the modelled behaviour.

  lemma EmptyRight(s: string)
    ensures s + "" == s
  {
  }
}
