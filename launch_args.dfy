/**
 * The argument list handed to the distributed launcher (`process_accelerate_launch_args`): the
 * user's `accelerate_launch_args` turned into flags according to the kind of each option in the
 * launcher's own parser, then the process topology (config file and process count), then the
 * training script.
 *
 * The launcher's parser, the process environment, the file system and the GPU count are outside
 * the modelled code; they enter as an `Environment`.
 */
module LaunchArgs {
  import opened Wrappers
  import opened PyValues

  /** The argparse action class of an option of the launcher's parser. */
  datatype ActionKind =
    | AppendAction      // _AppendAction: may repeat, each occurrence adds one value
    | StoreAction       // _StoreAction: takes one value
    | StoreTrueAction   // _StoreTrueAction: a flag that sets True
    | StoreFalseAction  // _StoreFalseAction: a flag that sets False
    | OtherAction       // any other action class, or a name the parser does not know

  datatype Environment = Environment(
    actions: map<string, ActionKind>,     // option destination -> action kind
    fsdpDefaultsFilePath: Option<string>, // the FSDP_DEFAULTS_FILE_PATH environment variable
    existingPaths: set<string>,           // the paths for which os.path.exists holds
    deviceCount: nat)                     // torch.cuda.device_count()

  const TrainingScript := "/app/launch_training.py"
  const DefaultFsdpConfigFile := "/app/accelerate_fsdp_defaults.yaml"

  datatype LaunchError =
    | NotIterable(key: string)  // an append option whose value cannot be iterated (TypeError)
    | NotAMapping               // accelerate_launch_args is not a dict (AttributeError)

  /** `actions_type_map.get(key)`, with every kind the code does not test for folded into one. */
  function Kind(env: Environment, key: string): ActionKind {
    if key in env.actions then env.actions[key] else OtherAction
  }

  function Flag(key: string): string { "--" + key }

  const ConfigFileFlag := Flag("config_file")
  const NumProcessesFlag := Flag("num_processes")

  /** What `for x in v` visits: list items, one-character strings, or dict keys. */
  function Elements(v: Value): (r: Option<seq<Value>>)
    ensures v.VList? ==> r == Some(v.items)
    ensures v.VStr? ==> (r.Some? && |r.value| == |v.s| &&
      forall i :: 0 <= i < |v.s| ==> r.value[i] == VStr([v.s[i]]))
    ensures v.VDict? ==> (r.Some? && |r.value| == |v.entries| &&
      forall i :: 0 <= i < |v.entries| ==> r.value[i] == VStr(v.entries[i].key))
    ensures r.None? <==> !(v.VList? || v.VStr? || v.VDict?)
  {
    match v
    case VList(xs) => Some(xs)
    case VStr(s) => Some(Chars(s))
    case VDict(es) => Some(Keys(es))
    case _ => None
  }

  /** The one-character strings of `s`, in order. */
  function Chars(s: string): (r: seq<Value>)
    ensures |r| == |s| && forall i :: 0 <= i < |s| ==> r[i] == VStr([s[i]])
  {
    if s == [] then [] else [VStr([s[0]])] + Chars(s[1..])
  }

  /** The keys of a dict, in insertion order. */
  function Keys(es: seq<Entry>): (r: seq<Value>)
    ensures |r| == |es| && forall i :: 0 <= i < |es| ==> r[i] == VStr(es[i].key)
  {
    if es == [] then [] else [VStr(es[0].key)] + Keys(es[1..])
  }

  /** `--key`, `str(x)` for each element `x` of an append option, in order. */
  function AppendTokens(key: string, xs: seq<Value>): seq<string>
    decreases |xs|
  {
    if xs == [] then [] else AppendTokens(key, xs[..|xs| - 1]) + [Flag(key), Str(xs[|xs| - 1])]
  }

  /** The tokens for one user option, by the kind of option it is. */
  function KeyTokens(kind: ActionKind, key: string, val: Value): (r: Result<seq<string>, LaunchError>)
    ensures kind == StoreAction ==> r == Success([Flag(key), Str(val)])
    ensures kind !in {AppendAction, StoreAction} ==> r == Success([Flag(key)])
    ensures kind == AppendAction ==> (r.Failure? <==> Elements(val).None?)
    ensures kind == AppendAction && Elements(val).Some? ==> r == Success(AppendTokens(key, Elements(val).value))
    ensures r.Failure? ==> r.error == NotIterable(key)
  {
    assert [Flag(key)] + [Str(val)] == [Flag(key), Str(val)];
    if kind == AppendAction then
      match Elements(val)
      case None => Failure(NotIterable(key))
      case Some(xs) => Success(AppendTokens(key, xs))
    else if (kind == StoreTrueAction && Truthy(val)) || (kind == StoreFalseAction && !Truthy(val)) then
      Success([Flag(key)])
    else
      assert [Flag(key)] + [] == [Flag(key)];
      Success([Flag(key)] + if kind == StoreAction then [Str(val)] else [])
  }

  /** The tokens of one option followed by those of the rest, or the first error among them. */
  function Combine(first: Result<seq<string>, LaunchError>, rest: Result<seq<string>, LaunchError>)
    : Result<seq<string>, LaunchError>
  {
    if first.Failure? then first else if rest.Failure? then rest else Success(first.value + rest.value)
  }

  /** The tokens for all user options, in the order of the dict; the first bad option raises. */
  function UserTokens(env: Environment, entries: seq<Entry>): (r: Result<seq<string>, LaunchError>)
    ensures r.Failure? ==> r.error.NotIterable?
  {
    if entries == [] then Success([])
    else Combine(KeyTokens(Kind(env, entries[0].key), entries[0].key, entries[0].val), UserTokens(env, entries[1..]))
  }

  /** `accelerate_config.get("config_file") or os.getenv("FSDP_DEFAULTS_FILE_PATH", default)`. */
  function ConfigFilePath(accel: seq<Entry>, env: Environment): (path: string)
    ensures Truthy(GetValue(accel, "config_file")) ==> path == Str(GetValue(accel, "config_file"))
    ensures !Truthy(GetValue(accel, "config_file")) && env.fsdpDefaultsFilePath.Some? ==>
      path == env.fsdpDefaultsFilePath.value
    ensures !Truthy(GetValue(accel, "config_file")) && env.fsdpDefaultsFilePath.None? ==>
      path == DefaultFsdpConfigFile
  {
    var user := GetValue(accel, "config_file");
    if Truthy(user) then Str(user) else env.fsdpDefaultsFilePath.GetOr(DefaultFsdpConfigFile)
  }

  /** The tokens that fix the process topology, added after the user's options. */
  function TopologyTokens(multiGpu: bool, accel: seq<Entry>, env: Environment): (ts: seq<string>)
    ensures !multiGpu ==> ts == [NumProcessesFlag, "1"]
    ensures var path := ConfigFilePath(accel, env); var count := !Truthy(GetValue(accel, "num_processes"));
      multiGpu ==> |ts| == (if path in env.existingPaths then 2 else 0) + (if count then 2 else 0)
    ensures multiGpu && ConfigFilePath(accel, env) in env.existingPaths ==>
      ts[0] == ConfigFileFlag && ts[1] == ConfigFilePath(accel, env)
    ensures multiGpu && !Truthy(GetValue(accel, "num_processes")) ==>
      ts[|ts| - 2] == NumProcessesFlag && ts[|ts| - 1] == Str(VInt(env.deviceCount))
  {
    assert Str(VInt(1)) == "1";
    if multiGpu then
      var path := ConfigFilePath(accel, env);
      (if path in env.existingPaths then [ConfigFileFlag, path] else [])
      + (if !Truthy(GetValue(accel, "num_processes")) then [NumProcessesFlag, Str(VInt(env.deviceCount))] else [])
    else
      [NumProcessesFlag, Str(VInt(1))]
  }

  /** The `accelerate_launch_args` value of a job configuration; `{}` when absent. */
  function LaunchConfig(job: seq<Entry>): Value {
    Get(job, "accelerate_launch_args").GetOr(VDict([]))
  }

  function IsMultiGpu(job: seq<Entry>): bool {
    Truthy(GetValue(job, "multi_gpu"))
  }

  /** The tokens for the user's options: none when the launch configuration is falsy. */
  function UserPart(accel: Value, env: Environment): (r: Result<seq<string>, LaunchError>)
    ensures !Truthy(accel) ==> r == Success([])
    ensures Truthy(accel) && !accel.VDict? ==> r == Failure(NotAMapping)
    ensures accel.VDict? ==> r == UserTokens(env, accel.entries)
  {
    if !Truthy(accel) then Success([])
    else if !accel.VDict? then Failure(NotAMapping)
    else UserTokens(env, accel.entries)
  }

  /** The whole argument list, or the error the code raises before it is complete. */
  function LaunchTokens(job: seq<Entry>, env: Environment): (r: Result<seq<string>, LaunchError>)
    ensures r.Success? ==> |r.value| > 0 && r.value[|r.value| - 1] == TrainingScript
    ensures r.Failure? <==>
      UserPart(LaunchConfig(job), env).Failure? || (IsMultiGpu(job) && !LaunchConfig(job).VDict?)
  {
    var accel := LaunchConfig(job);
    var user := UserPart(accel, env);
    if user.Failure? then user
    else if IsMultiGpu(job) && !accel.VDict? then Failure(NotAMapping)
    else
      var entries := if accel.VDict? then accel.entries else [];
      Success(user.value + TopologyTokens(IsMultiGpu(job), entries, env) + [TrainingScript])
  }

  /**
   * `process_accelerate_launch_args` up to the call of the launcher's parser: builds the token
   * list one option at a time.
   */
  method ProcessAccelerateLaunchArgs(jobConfig: seq<Entry>, env: Environment)
    returns (r: Result<seq<string>, LaunchError>)
    ensures r == LaunchTokens(jobConfig, env)
  {
    var accel := Get(jobConfig, "accelerate_launch_args").GetOr(VDict([]));
    var args: seq<string> := [];
    if Truthy(accel) {
      if !accel.VDict? {
        return Failure(NotAMapping);
      }
      var user := UserArgs(env, accel.entries);
      if user.Failure? {
        return Failure(user.error);
      }
      args := user.value;
    }
    if Truthy(GetValue(jobConfig, "multi_gpu")) {
      if !accel.VDict? {
        return Failure(NotAMapping);
      }
      ghost var user := args;
      var userPath := GetValue(accel.entries, "config_file");
      var path := if Truthy(userPath) then Str(userPath) else env.fsdpDefaultsFilePath.GetOr(DefaultFsdpConfigFile);
      if path in env.existingPaths {
        args := args + [ConfigFileFlag, path];
      }
      if !Truthy(GetValue(accel.entries, "num_processes")) {
        args := args + [NumProcessesFlag, Str(VInt(env.deviceCount))];
      }
      assert args == user + TopologyTokens(true, accel.entries, env);
    } else {
      args := args + [NumProcessesFlag, Str(VInt(1))];
    }
    args := args + [TrainingScript];
    return Success(args);
  }

  /** The loop over the user's options in `process_accelerate_launch_args`. */
  method UserArgs(env: Environment, entries: seq<Entry>) returns (r: Result<seq<string>, LaunchError>)
    ensures r == UserTokens(env, entries)
  {
    var args: seq<string> := [];
    var i := 0;
    while i < |entries|
      invariant 0 <= i <= |entries|
      invariant UserTokens(env, entries[..i]) == Success(args)
    {
      UserTokensStep(env, entries, i);
      var key, val := entries[i].key, entries[i].val;
      var tokens := OptionArgs(Kind(env, key), key, val);
      if tokens.Failure? {
        UserTokensStops(env, entries, i + 1);
        return tokens;
      }
      args := args + tokens.value;
      i := i + 1;
    }
    assert entries[..i] == entries;
    return Success(args);
  }

  /** The body of that loop for one option: the branch its action kind selects. */
  method OptionArgs(kind: ActionKind, key: string, val: Value) returns (r: Result<seq<string>, LaunchError>)
    ensures r == KeyTokens(kind, key, val)
  {
    if kind == AppendAction {
      var elems := Elements(val);
      if elems.None? {
        return Failure(NotIterable(key));
      }
      var xs := elems.value;
      var args: seq<string> := [];
      var j := 0;
      while j < |xs|
        invariant 0 <= j <= |xs|
        invariant args == AppendTokens(key, xs[..j])
      {
        assert xs[..j + 1][..j] == xs[..j];
        args := args + [Flag(key), Str(xs[j])];
        j := j + 1;
      }
      assert xs[..j] == xs;
      return Success(args);
    } else if (kind == StoreTrueAction && Truthy(val)) || (kind == StoreFalseAction && !Truthy(val)) {
      return Success([Flag(key)]);
    } else if kind == StoreAction {
      return Success([Flag(key), Str(val)]);
    } else {
      return Success([Flag(key)]);
    }
  }

  /** One more option: its tokens are appended, or its error is the result. */
  lemma UserTokensStep(env: Environment, entries: seq<Entry>, i: nat)
    requires i < |entries|
    requires UserTokens(env, entries[..i]).Success?
    ensures UserTokens(env, entries[..i + 1]) ==
      Combine(UserTokens(env, entries[..i]), KeyTokens(Kind(env, entries[i].key), entries[i].key, entries[i].val))
  {
    var e := entries[i];
    var k := KeyTokens(Kind(env, e.key), e.key, e.val);
    assert entries[..i + 1] == entries[..i] + [e];
    UserTokensConcat(env, entries[..i], [e]);
    assert [e][1..] == [];
    assert k.Success? ==> k.value + [] == k.value;
  }

  /**
   * The user's options fail exactly when one of them is an append option with a value that
   * cannot be iterated, and the error names such an option.
   */
  lemma {:induction false} UserTokensErrors(env: Environment, entries: seq<Entry>)
    ensures UserTokens(env, entries).Success? <==>
      forall i :: 0 <= i < |entries| ==> KeyTokens(Kind(env, entries[i].key), entries[i].key, entries[i].val).Success?
    ensures UserTokens(env, entries).Failure? ==> exists i :: (0 <= i < |entries| &&
      Kind(env, entries[i].key) == AppendAction && Elements(entries[i].val).None? &&
      UserTokens(env, entries).error == NotIterable(entries[i].key))
  {
    if entries != [] {
      var rest := entries[1..];
      UserTokensErrors(env, rest);
      assert forall i :: 0 <= i < |rest| ==> rest[i] == entries[i + 1];
      if UserTokens(env, entries).Failure? && KeyTokens(Kind(env, entries[0].key), entries[0].key, entries[0].val).Success? {
        var i :| 0 <= i < |rest| && Kind(env, rest[i].key) == AppendAction && Elements(rest[i].val).None? &&
          UserTokens(env, rest).error == NotIterable(rest[i].key);
        assert entries[i + 1] == rest[i];
      }
    }
  }

  /** Once an option has raised, the rest of the options do not matter. */
  lemma UserTokensStops(env: Environment, entries: seq<Entry>, i: nat)
    requires i <= |entries|
    requires UserTokens(env, entries[..i]).Failure?
    ensures UserTokens(env, entries) == UserTokens(env, entries[..i])
  {
    assert entries == entries[..i] + entries[i..];
    UserTokensConcat(env, entries[..i], entries[i..]);
  }

  // ---------------------------------------------------------------------------------------------
  // Properties of the token list

  /** An append option contributes the pair `--key`, `str(x)` for each element, and nothing else. */
  lemma {:induction false} AppendTokensPairs(key: string, xs: seq<Value>)
    ensures |AppendTokens(key, xs)| == 2 * |xs|
    ensures forall i :: 0 <= i < |xs| ==>
      AppendTokens(key, xs)[2 * i] == Flag(key) && AppendTokens(key, xs)[2 * i + 1] == Str(xs[i])
    decreases |xs|
  {
    if xs != [] {
      var prefix := xs[..|xs| - 1];
      AppendTokensPairs(key, prefix);
      assert forall i :: 0 <= i < |prefix| ==> prefix[i] == xs[i];
    }
  }

  /**
   * User options are emitted in dict order: the tokens of a concatenation are the concatenation
   * of the tokens, and its error is the first part's error, if any, else the second's.
   */
  lemma {:induction false} UserTokensConcat(env: Environment, a: seq<Entry>, b: seq<Entry>)
    ensures UserTokens(env, a + b) == Combine(UserTokens(env, a), UserTokens(env, b))
  {
    if a == [] {
      assert a + b == b;
      assert UserTokens(env, b).Success? ==> [] + UserTokens(env, b).value == UserTokens(env, b).value;
    } else {
      assert (a + b)[1..] == a[1..] + b;
      assert (a + b)[0] == a[0];
      UserTokensConcat(env, a[1..], b);
      CombineAssoc(KeyTokens(Kind(env, a[0].key), a[0].key, a[0].val), UserTokens(env, a[1..]), UserTokens(env, b));
    }
  }

  lemma CombineAssoc(x: Result<seq<string>, LaunchError>, y: Result<seq<string>, LaunchError>,
                     z: Result<seq<string>, LaunchError>)
    ensures Combine(x, Combine(y, z)) == Combine(Combine(x, y), z)
  {
    if x.Success? && y.Success? && z.Success? {
      assert x.value + (y.value + z.value) == (x.value + y.value) + z.value;
    }
  }

  /**
   * The only errors: a launch configuration that is not a dict where the code reads it as one,
   * and an append option whose value cannot be iterated.
   */
  lemma LaunchTokensFailure(job: seq<Entry>, env: Environment)
    ensures var accel := LaunchConfig(job);
      LaunchTokens(job, env) == Failure(NotAMapping) <==>
        !accel.VDict? && (Truthy(accel) || IsMultiGpu(job))
    ensures var accel := LaunchConfig(job); var r := LaunchTokens(job, env);
      r.Failure? && r.error != NotAMapping ==>
        accel.VDict? && exists i :: (0 <= i < |accel.entries| &&
          Kind(env, accel.entries[i].key) == AppendAction && Elements(accel.entries[i].val).None? &&
          r.error == NotIterable(accel.entries[i].key))
  {
    var accel := LaunchConfig(job);
    if accel.VDict? {
      UserTokensErrors(env, accel.entries);
    }
  }

  // ---------------------------------------------------------------------------------------------
  // "Last occurrence wins": the reading of a repeated option by the launcher's parser

  /** The token following the last occurrence of `flag`, if `flag` occurs before the final token. */
  function LastValue(ts: seq<string>, flag: string): (r: Option<string>)
    ensures r.Some? ==> exists i :: 0 <= i < |ts| - 1 && ts[i] == flag && ts[i + 1] == r.value
    decreases |ts|
  {
    if |ts| < 2 then None
    else if ts[|ts| - 2] == flag then Some(ts[|ts| - 1])
    else
      var r := LastValue(ts[..|ts| - 1], flag);
      assert forall i :: 0 <= i < |ts| - 1 ==> ts[..|ts| - 1][i] == ts[i];
      r
  }

  /** The integer option `flag` as the launcher's parser reads it: `int` of its last value. */
  function LastInt(ts: seq<string>, flag: string): Option<int> {
    match LastValue(ts, flag)
    case None => None
    case Some(v) => ParseInt(v)
  }

  /** Tokens after the last occurrence do not change what it reads. */
  lemma {:induction false} LastValueSkip(ts: seq<string>, tail: seq<string>, flag: string)
    requires |ts| > 0 && ts[|ts| - 1] != flag
    requires forall i :: 0 <= i < |tail| ==> tail[i] != flag
    ensures LastValue(ts + tail, flag) == LastValue(ts, flag)
    decreases |tail|
  {
    if tail != [] {
      var all, tail' := ts + tail, tail[..|tail| - 1];
      assert all[..|all| - 1] == ts + tail';
      if tail' == [] {
        assert all[|all| - 2] == ts[|ts| - 1];
      } else {
        assert all[|all| - 2] == tail[|tail| - 2];
      }
      assert all[|all| - 2] != flag;
      assert LastValue(all, flag) == LastValue(ts + tail', flag);
      LastValueSkip(ts, tail', flag);
    } else {
      assert ts + tail == ts;
    }
  }

  lemma LastValueAt(prefix: seq<string>, flag: string, v: string, tail: seq<string>)
    requires v != flag
    requires forall i :: 0 <= i < |tail| ==> tail[i] != flag
    ensures LastValue(prefix + [flag, v] + tail, flag) == Some(v)
  {
    LastValueSkip(prefix + [flag, v], tail, flag);
  }

  /** A numeral never looks like a flag. */
  lemma NumeralIsNotFlag(n: nat, flag: string)
    requires |flag| > 0 && flag[0] == '-'
    ensures Str(VInt(n)) != flag
  {
    assert IsDigit(NatToString(n)[0]);
  }

  /**
   * Without `multi_gpu` the list is the user's options, a process count of 1 and the script, so a
   * last-occurrence-wins reading sees 1 process whatever the user passed.
   */
  lemma SingleProcessLaunch(job: seq<Entry>, env: Environment)
    requires !IsMultiGpu(job)
    ensures LaunchTokens(job, env).Success? <==> UserPart(LaunchConfig(job), env).Success?
    ensures LaunchTokens(job, env).Success? ==>
      LaunchTokens(job, env).value == UserPart(LaunchConfig(job), env).value + [NumProcessesFlag, "1", TrainingScript]
    ensures LaunchTokens(job, env).Success? ==> LastInt(LaunchTokens(job, env).value, NumProcessesFlag) == Some(1)
  {
    if LaunchTokens(job, env).Success? {
      var user := UserPart(LaunchConfig(job), env).value;
      assert Str(VInt(1)) == "1";
      assert LaunchTokens(job, env).value == user + [NumProcessesFlag, "1"] + [TrainingScript];
      FixedTokensDistinct();
      LastValueAt(user, NumProcessesFlag, "1", [TrainingScript]);
    }
  }

  /**
   * With `multi_gpu` the launch configuration must be a dict; the list is the user's options,
   * the config file (the user's if given, else the environment's default, else the built-in
   * path) if it exists, the GPU count unless the user gave a process count, and the script.
   */
  lemma MultiGpuLaunch(job: seq<Entry>, env: Environment)
    requires IsMultiGpu(job)
    ensures LaunchTokens(job, env).Success? <==>
      LaunchConfig(job).VDict? && UserPart(LaunchConfig(job), env).Success?
    ensures LaunchTokens(job, env).Success? ==>
      var accel := LaunchConfig(job).entries;
      var path := ConfigFilePath(accel, env);
      LaunchTokens(job, env).value ==
        UserPart(LaunchConfig(job), env).value
        + (if path in env.existingPaths then [ConfigFileFlag, path] else [])
        + (if !Truthy(GetValue(accel, "num_processes")) then [NumProcessesFlag, Str(VInt(env.deviceCount))] else [])
        + [TrainingScript]
  {
  }

  /** With `multi_gpu` and no user process count, the launcher reads the GPU count. */
  lemma MultiGpuProcessCount(job: seq<Entry>, env: Environment)
    requires IsMultiGpu(job) && LaunchTokens(job, env).Success?
    requires !Truthy(GetValue(LaunchConfig(job).entries, "num_processes"))
    ensures LastInt(LaunchTokens(job, env).value, NumProcessesFlag) == Some(env.deviceCount as int)
  {
    MultiGpuLaunch(job, env);
    var accel := LaunchConfig(job).entries;
    var user := UserPart(LaunchConfig(job), env).value;
    var path := ConfigFilePath(accel, env);
    var conf := if path in env.existingPaths then [ConfigFileFlag, path] else [];
    var n := Str(VInt(env.deviceCount));
    NumeralIsNotFlag(env.deviceCount, NumProcessesFlag);
    FixedTokensDistinct();
    LastValueAt(user + conf, NumProcessesFlag, n, [TrainingScript]);
    StrIntParses(env.deviceCount);
  }

  /** With `multi_gpu` and an existing config path, the launcher reads that path. */
  lemma MultiGpuConfigFile(job: seq<Entry>, env: Environment)
    requires IsMultiGpu(job) && LaunchTokens(job, env).Success?
    requires ConfigFilePath(LaunchConfig(job).entries, env) in env.existingPaths
    requires ConfigFilePath(LaunchConfig(job).entries, env) != ConfigFileFlag
    ensures LastValue(LaunchTokens(job, env).value, ConfigFileFlag) == Some(ConfigFilePath(LaunchConfig(job).entries, env))
  {
    MultiGpuLaunch(job, env);
    var accel := LaunchConfig(job).entries;
    var user := UserPart(LaunchConfig(job), env).value;
    var path := ConfigFilePath(accel, env);
    var count := if !Truthy(GetValue(accel, "num_processes")) then [NumProcessesFlag, Str(VInt(env.deviceCount))] else [];
    NumeralIsNotFlag(env.deviceCount, ConfigFileFlag);
    FixedTokensDistinct();
    LastValueAt(user, ConfigFileFlag, path, count + [TrainingScript]);
    assert user + [ConfigFileFlag, path] + count + [TrainingScript]
        == user + [ConfigFileFlag, path] + (count + [TrainingScript]);
  }

  /** The fixed tokens of the topology are told apart by their lengths. */
  lemma FixedTokensDistinct()
    ensures |ConfigFileFlag| == 13 && |NumProcessesFlag| == 15 && |TrainingScript| == 23
    ensures ConfigFileFlag != NumProcessesFlag && TrainingScript != ConfigFileFlag && TrainingScript != NumProcessesFlag
    ensures ConfigFileFlag[0] == '-' && NumProcessesFlag[0] == '-'
  {
  }

  // ---------------------------------------------------------------------------------------------
  // The expectations of the repository's launch-argument tests, for any config path and count

  /** A path the launcher's parser cannot mistake for an option. */
  predicate NotAFlag(s: string) {
    |s| > 0 && s[0] != '-'
  }

  /** The launcher's `--config_file` and `--num_processes` are options that take one value. */
  predicate StoresTopology(env: Environment) {
    Kind(env, "config_file") == StoreAction && Kind(env, "num_processes") == StoreAction
  }

  /** The tokens of a launch configuration holding only `config_file`. */
  lemma ConfigFileOnlyTokens(env: Environment, path: string)
    requires StoresTopology(env) && path != ""
    ensures UserPart(VDict([Entry("config_file", VStr(path))]), env) == Success([ConfigFileFlag, path])
  {
    var es := [Entry("config_file", VStr(path))];
    assert es[1..] == [];
    assert KeyTokens(Kind(env, "config_file"), "config_file", VStr(path)) == Success([ConfigFileFlag, path]);
    assert UserTokens(env, es) == Combine(Success([ConfigFileFlag, path]), Success([]));
    assert [ConfigFileFlag, path] + [] == [ConfigFileFlag, path];
  }

  /** The tokens of a launch configuration holding `config_file` and `num_processes`. */
  lemma ConfigFileAndCountTokens(env: Environment, path: string, n: nat)
    requires StoresTopology(env) && path != ""
    ensures UserPart(VDict([Entry("config_file", VStr(path)), Entry("num_processes", VInt(n))]), env)
         == Success([ConfigFileFlag, path, NumProcessesFlag, Str(VInt(n))])
  {
    var es := [Entry("config_file", VStr(path)), Entry("num_processes", VInt(n))];
    var count := [NumProcessesFlag, Str(VInt(n))];
    assert es[1..] == [es[1]] && es[1..][1..] == [];
    assert KeyTokens(Kind(env, "num_processes"), "num_processes", VInt(n)) == Success(count);
    assert UserTokens(env, es[1..]) == Combine(Success(count), Success([]));
    assert count + [] == count;
    assert KeyTokens(Kind(env, "config_file"), "config_file", VStr(path)) == Success([ConfigFileFlag, path]);
    assert [ConfigFileFlag, path] + [NumProcessesFlag, Str(VInt(n))] == [ConfigFileFlag, path, NumProcessesFlag, Str(VInt(n))];
  }

  /** A user config file without `multi_gpu`: that file, and a single process. */
  lemma UserConfigFileSingleProcess(job: seq<Entry>, env: Environment, path: string)
    requires LaunchConfig(job) == VDict([Entry("config_file", VStr(path))]) && !IsMultiGpu(job)
    requires StoresTopology(env) && NotAFlag(path)
    ensures LaunchTokens(job, env) == Success([ConfigFileFlag, path, NumProcessesFlag, "1", TrainingScript])
    ensures LastValue(LaunchTokens(job, env).value, ConfigFileFlag) == Some(path)
    ensures LastInt(LaunchTokens(job, env).value, NumProcessesFlag) == Some(1)
  {
    ConfigFileOnlyTokens(env, path);
    SingleProcessLaunch(job, env);
    assert [ConfigFileFlag, path] + [NumProcessesFlag, "1", TrainingScript]
        == [ConfigFileFlag, path, NumProcessesFlag, "1", TrainingScript];
    SingleProcessReadsConfigFile(path);
  }

  lemma SingleProcessReadsConfigFile(path: string)
    requires NotAFlag(path)
    ensures LastValue([ConfigFileFlag, path, NumProcessesFlag, "1", TrainingScript], ConfigFileFlag) == Some(path)
  {
    FixedTokensDistinct();
    LastValueAt([], ConfigFileFlag, path, [NumProcessesFlag, "1", TrainingScript]);
    assert [] + [ConfigFileFlag, path] + [NumProcessesFlag, "1", TrainingScript]
        == [ConfigFileFlag, path, NumProcessesFlag, "1", TrainingScript];
  }

  /** A user config file with `multi_gpu`: that file, if it exists, and the GPU count. */
  lemma UserConfigFileMultiGpu(job: seq<Entry>, env: Environment, path: string)
    requires LaunchConfig(job) == VDict([Entry("config_file", VStr(path))]) && IsMultiGpu(job)
    requires StoresTopology(env) && NotAFlag(path) && path in env.existingPaths
    ensures LaunchTokens(job, env).Success?
    ensures LastValue(LaunchTokens(job, env).value, ConfigFileFlag) == Some(path)
    ensures LastInt(LaunchTokens(job, env).value, NumProcessesFlag) == Some(env.deviceCount as int)
  {
    var es := [Entry("config_file", VStr(path))];
    ConfigFileOnlyTokens(env, path);
    MultiGpuLaunch(job, env);
    assert GetValue(es, "num_processes") == VNone;
    assert ConfigFilePath(es, env) == path;
    MultiGpuConfigFile(job, env);
    MultiGpuProcessCount(job, env);
  }

  /** A user config file and process count with `multi_gpu`: both of the user's values. */
  lemma UserProcessCountMultiGpu(job: seq<Entry>, env: Environment, path: string, n: nat)
    requires LaunchConfig(job) == VDict([Entry("config_file", VStr(path)), Entry("num_processes", VInt(n))])
    requires IsMultiGpu(job)
    requires StoresTopology(env) && NotAFlag(path) && path in env.existingPaths && n != 0
    ensures LaunchTokens(job, env) == Success([ConfigFileFlag, path, NumProcessesFlag, Str(VInt(n)),
                                               ConfigFileFlag, path, TrainingScript])
    ensures LastValue(LaunchTokens(job, env).value, ConfigFileFlag) == Some(path)
    ensures LastInt(LaunchTokens(job, env).value, NumProcessesFlag) == Some(n as int)
  {
    var es := [Entry("config_file", VStr(path)), Entry("num_processes", VInt(n))];
    ConfigFileAndCountTokens(env, path, n);
    MultiGpuLaunch(job, env);
    assert es[1..] == [Entry("num_processes", VInt(n))];
    assert Get(es[1..], "num_processes") == Some(VInt(n));
    assert GetValue(es, "num_processes") == VInt(n);
    assert ConfigFilePath(es, env) == path;
    var k := Str(VInt(n));
    assert [ConfigFileFlag, path, NumProcessesFlag, k] + [ConfigFileFlag, path] + [] + [TrainingScript]
        == [ConfigFileFlag, path, NumProcessesFlag, k, ConfigFileFlag, path, TrainingScript];
    UserCountReads(path, n);
  }

  lemma UserCountReads(path: string, n: nat)
    requires NotAFlag(path)
    ensures var ts := [ConfigFileFlag, path, NumProcessesFlag, Str(VInt(n)), ConfigFileFlag, path, TrainingScript];
      LastValue(ts, ConfigFileFlag) == Some(path) && LastInt(ts, NumProcessesFlag) == Some(n as int)
  {
    var k := Str(VInt(n));
    var user := [ConfigFileFlag, path, NumProcessesFlag, k];
    FixedTokensDistinct();
    LastValueAt(user, ConfigFileFlag, path, [TrainingScript]);
    NumeralIsNotFlag(n, NumProcessesFlag);
    LastValueAt([ConfigFileFlag, path], NumProcessesFlag, k, [ConfigFileFlag, path, TrainingScript]);
    var ts := [ConfigFileFlag, path, NumProcessesFlag, k, ConfigFileFlag, path, TrainingScript];
    assert ts == user + [ConfigFileFlag, path] + [TrainingScript];
    assert ts == [ConfigFileFlag, path] + [NumProcessesFlag, k] + [ConfigFileFlag, path, TrainingScript];
    StrIntParses(n);
  }
}
