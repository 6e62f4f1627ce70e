/** Desired state of the pool: which queue-sets should have how many workers, read from a
    configuration array or file, overlaid by the active environment's block, and reset and
    reloaded by the manager. */
module Config {
  import opened Wrappers
  import opened OrderedArrays

  const LOG_NONE := 0
  const LOG_NORMAL := 1
  const LOG_VERBOSE := 2

  const DEFAULT_WORKER_INTERVAL := 5

  /** The PHP values a configuration array can hold. A whole environment block is an `Arr`. */
  datatype PhpValue =
    | Int(i: int)
    | Str(s: string)
    | Bool(b: bool)
    | Null
    | Arr(entries: seq<Entry<PhpValue>>)

  /** What the constructor may be handed: an array, a path, nothing, or anything else. */
  datatype ConfigArgument =
    | ArrayArg(entries: seq<Entry<PhpValue>>)
    | PathArg(path: string)
    | NullArg
    | OtherArg

  /** The errors that abort construction or loading. `InvalidArgument` is the constructor's
      InvalidArgumentException; `InvalidConfigFile` is a YAML parse failure (whose rethrow names a
      class that does not exist, so the process dies); `UnsupportedOperandTypes` is PHP's fatal
      error for `$block + $array` when the environment's entry is a scalar. */
  datatype ConfigError = InvalidArgument | InvalidConfigFile | UnsupportedOperandTypes

  /** What the file-loading path of initialize yields: the mapping read from the chosen file
      (empty when no file exists or the file is empty), or a parse failure. */
  datatype ConfigLoad = Loaded(contents: seq<Entry<PhpValue>>) | Unparsable

  /** Where the queue configuration comes from once the constructor has run. */
  datatype Source = Source(queueConfig: seq<Entry<PhpValue>>, queueConfigFile: Option<string>)

  /** The configuration after initialize: the new queue configuration and, when PHP aborts,
      the error (the configuration is then what it was at the throw). */
  datatype InitResult = InitResult(queueConfig: seq<Entry<PhpValue>>, error: Option<ConfigError>)

  /** The process environment, variable name to value. */
  type Environment = map<string, string>

  /** `getenv($name)`: `false` (here `None`) when the variable is not set. */
  function GetEnv(env: Environment, name: string): Option<string> {
    if name in env then Some(env[name]) else None
  }

  /** PHP truthiness of a `getenv` result: unset, "" and "0" are falsy. */
  predicate Truthy(v: Option<string>) {
    v.Some? && v.value != "" && v.value != "0"
  }

  /** `getenv('INTERVAL') ?: DEFAULT_WORKER_INTERVAL`: the variable's string when it is truthy. */
  function WorkerIntervalFrom(env: Environment): (r: PhpValue)
    ensures r == Int(DEFAULT_WORKER_INTERVAL) <==> !Truthy(GetEnv(env, "INTERVAL"))
    ensures r != Int(DEFAULT_WORKER_INTERVAL) ==> r == Str(env["INTERVAL"])
  {
    var v := GetEnv(env, "INTERVAL");
    if Truthy(v) then Str(v.value) else Int(DEFAULT_WORKER_INTERVAL)
  }

  /** VVERBOSE wins over LOGGING and VERBOSE; with none of them the level stays LOG_NONE. */
  function LogLevelFrom(env: Environment): (r: int)
    ensures r == LOG_VERBOSE <==> Truthy(GetEnv(env, "VVERBOSE"))
    ensures r == LOG_NORMAL <==>
      !Truthy(GetEnv(env, "VVERBOSE")) && (Truthy(GetEnv(env, "LOGGING")) || Truthy(GetEnv(env, "VERBOSE")))
    ensures r in {LOG_NONE, LOG_NORMAL, LOG_VERBOSE}
  {
    if Truthy(GetEnv(env, "VVERBOSE")) then LOG_VERBOSE
    else if Truthy(GetEnv(env, "LOGGING")) || Truthy(GetEnv(env, "VERBOSE")) then LOG_NORMAL
    else LOG_NONE
  }

  /** The constructor's argument check. The environment's RESQUE_POOL_CONFIG, read first, is
      kept only when no argument is given. */
  function ClassifyArgument(arg: ConfigArgument, envConfigFile: Option<string>): (r: Result<Source, ConfigError>)
    ensures r.Failure? <==> arg.OtherArg?
    ensures r.Failure? ==> r.error == InvalidArgument
    ensures r.Success? && arg.ArrayArg? ==> r.value == Source(arg.entries, None)
    ensures r.Success? && !arg.ArrayArg? ==> r.value.queueConfig == []
    ensures r.Success? && arg.PathArg? ==> r.value.queueConfigFile == Some(arg.path)
    ensures r.Success? && arg.NullArg? ==> r.value.queueConfigFile == envConfigFile
  {
    match arg
    case ArrayArg(entries) => Success(Source(entries, None))
    case PathArg(path) => Success(Source([], Some(path)))
    case NullArg => Success(Source([], envConfigFile))
    case OtherArg => Failure(InvalidArgument)
  }

  predicate AllIntegers(a: seq<Entry<PhpValue>>) {
    forall i :: 0 <= i < |a| ==> a[i].value.Int?
  }

  /** `array_filter($a, 'is_integer')`: the integer-valued slots, in order. */
  function FilterIntegers(a: seq<Entry<PhpValue>>): (r: seq<Entry<PhpValue>>)
    ensures AllIntegers(r)
    ensures forall k :: k in Keys(r) ==> k in Keys(a)
  {
    if a == [] then []
    else
      KeysOfTail(a);
      var rest := FilterIntegers(a[1..]);
      if a[0].value.Int? then
        KeysAppend([a[0]], rest);
        [a[0]] + rest
      else rest
  }

  /** The value under `k` if it is an integer, otherwise nothing. */
  function IntegerAt(a: seq<Entry<PhpValue>>, k: string): Option<PhpValue> {
    var v := Get(a, k);
    if v.Some? && v.value.Int? then v else None
  }

  /** Filtering keeps exactly the integer slots: an integer under `k` stays, anything else (an
      environment block, a string) disappears from the keys, and a PHP array stays one. */
  lemma {:induction false} FilterIntegersLookup(a: seq<Entry<PhpValue>>, k: string)
    requires UniqueKeys(a)
    ensures Get(FilterIntegers(a), k) == IntegerAt(a, k)
    ensures UniqueKeys(FilterIntegers(a))
  {
    if a != [] {
      UniqueKeysTail(a);
      FilterIntegersLookup(a[1..], k);
      GetFound(a[1..], k);
      var rest := FilterIntegers(a[1..]);
      assert Keys([a[0]]) == [a[0].key];
      if a[0].value.Int? {
        GetAppend([a[0]], rest, k);
        KeysAppend([a[0]], rest);
        assert a[0].key !in Keys(rest);
        NoDupsCons(a[0].key, Keys(rest));
      }
    }
  }

  /** A plain array of integers passes the filter untouched. */
  lemma {:induction false} FilterKeepsIntegerArray(a: seq<Entry<PhpValue>>)
    requires AllIntegers(a)
    ensures FilterIntegers(a) == a
  {
    if a != [] {
      FilterKeepsIntegerArray(a[1..]);
      assert a == [a[0]] + a[1..];
    }
  }

  /** A PHP array value: its keys are unique, and so are those of every array nested in it. */
  predicate WellKeyed(a: seq<Entry<PhpValue>>)
    decreases a
  {
    && UniqueKeys(a)
    && forall i :: 0 <= i < |a| && a[i].value.Arr? ==> WellKeyed(a[i].value.entries)
  }

  /** An array of integer counts with unique keys nests nothing, so it is a PHP array. */
  lemma IntegersWellKeyed(a: seq<Entry<PhpValue>>)
    requires AllIntegers(a) && UniqueKeys(a)
    ensures WellKeyed(a)
  {
    assert forall i :: 0 <= i < |a| ==> !a[i].value.Arr?;
  }

  /** The desired state once every value is an integer. */
  function Ints(a: seq<Entry<PhpValue>>): (r: seq<Entry<int>>)
    requires AllIntegers(a)
    ensures |r| == |a| && Keys(r) == Keys(a)
    ensures forall i :: 0 <= i < |a| ==> r[i] == Entry(a[i].key, a[i].value.i)
  {
    seq(|a|, i requires 0 <= i < |a| => Entry(a[i].key, a[i].value.i))
  }

  /** `workerCount($queues)`: the configured number, or 0 for an unknown queue-set. */
  function WorkerCount(d: seq<Entry<int>>, q: string): int {
    match Get(d, q)
    case Some(n) => n
    case None => 0
  }

  /** `workerCount` returns the stored count of a configured queue-set and 0 for any other. */
  lemma WorkerCountLookup(d: seq<Entry<int>>, q: string)
    requires UniqueKeys(d)
    ensures q !in Keys(d) ==> WorkerCount(d, q) == 0
    ensures forall i :: 0 <= i < |d| && d[i].key == q ==> WorkerCount(d, q) == d[i].value
  {
    GetFound(d, q);
    forall i | 0 <= i < |d| && d[i].key == q ensures WorkerCount(d, q) == d[i].value {
      GetAt(d, i);
    }
  }

  /** `workerCount` over the filtered configuration reads the integer stored in it. */
  lemma {:induction false} WorkerCountOfInts(a: seq<Entry<PhpValue>>, q: string)
    requires AllIntegers(a)
    ensures Get(a, q).Some? ==> Get(a, q).value.Int? && WorkerCount(Ints(a), q) == Get(a, q).value.i
    ensures Get(a, q).None? ==> WorkerCount(Ints(a), q) == 0
  {
    if a != [] {
      WorkerCountOfInts(a[1..], q);
      assert Ints(a)[1..] == Ints(a[1..]);
    }
  }

  /** The first half of initialize: a non-empty configuration is kept; an empty one (never
      set, reset, or an empty array) is replaced by what the file-loading path yields. */
  function LoadBase(current: seq<Entry<PhpValue>>, load: ConfigLoad): Result<seq<Entry<PhpValue>>, ConfigError> {
    if current != [] then Success(current)
    else match load
      case Loaded(c) => Success(c)
      case Unparsable => Failure(InvalidConfigFile)
  }

  /** The second half of initialize: `$config[$env] + $config` when the environment is set and
      names a non-null slot, then the integer filter. */
  function Overlaid(base: seq<Entry<PhpValue>>, environment: Option<string>): InitResult {
    var block := if Truthy(environment) then Get(base, environment.value) else None;
    if block.Some? && block.value != Null then
      if block.value.Arr? then InitResult(FilterIntegers(Union(block.value.entries, base)), None)
      else InitResult(base, Some(UnsupportedOperandTypes))
    else InitResult(FilterIntegers(base), None)
  }

  /** `initialize()`. */
  function Initialized(current: seq<Entry<PhpValue>>, environment: Option<string>, load: ConfigLoad): (r: InitResult)
    ensures r.error.None? ==> AllIntegers(r.queueConfig)
  {
    match LoadBase(current, load)
    case Failure(e) => InitResult(current, Some(e))
    case Success(base) => Overlaid(base, environment)
  }

  /** initialize turns a PHP array into a PHP array: on success the counts have unique keys,
      and on failure what is left is still well keyed. */
  lemma InitializedKeyed(current: seq<Entry<PhpValue>>, environment: Option<string>, load: ConfigLoad)
    requires WellKeyed(current) && (load.Loaded? ==> WellKeyed(load.contents))
    ensures WellKeyed(Initialized(current, environment, load).queueConfig)
    ensures Initialized(current, environment, load).error.None? ==>
      UniqueKeys(Initialized(current, environment, load).queueConfig)
  {
    var r := Initialized(current, environment, load);
    if LoadBase(current, load).Success? {
      var base := LoadBase(current, load).value;
      var block := if Truthy(environment) then Get(base, environment.value) else None;
      if block.Some? && block.value.Arr? {
        var i := GetSlot(base, environment.value);
        EnvironmentOverlay(base, environment.value, block.value.entries, "");
      } else if block.None? || block.value == Null {
        FilterIntegersLookup(base, "");
      }
      if r.error.None? {
        IntegersWellKeyed(r.queueConfig);
      }
    }
  }

  /** With the active environment naming an array block, the block's counts win on conflict,
      the other top-level counts stay, and nothing but integers survives. */
  lemma EnvironmentOverlay(base: seq<Entry<PhpValue>>, env: string, block: seq<Entry<PhpValue>>, k: string)
    requires UniqueKeys(base) && UniqueKeys(block)
    requires Truthy(Some(env)) && Get(base, env) == Some(Arr(block))
    ensures Overlaid(base, Some(env)).error.None?
    ensures Get(Overlaid(base, Some(env)).queueConfig, k) ==
      if k in Keys(block) then IntegerAt(block, k) else IntegerAt(base, k)
    ensures UniqueKeys(Overlaid(base, Some(env)).queueConfig)
  {
    var u := Union(block, base);
    UnionLookup(block, base, k);
    FilterIntegersLookup(u, k);
  }

  /** Without an active environment only the top-level integer counts are visible. */
  lemma NoEnvironmentTopLevelOnly(base: seq<Entry<PhpValue>>, environment: Option<string>, k: string)
    requires UniqueKeys(base) && !Truthy(environment)
    ensures Overlaid(base, environment).error.None?
    ensures Get(Overlaid(base, environment).queueConfig, k) == IntegerAt(base, k)
  {
    FilterIntegersLookup(base, k);
  }

  /** A non-empty plain array of integers is kept key for key, so the known queue-sets are
      exactly its keys (when the active environment names none of them). */
  lemma PlainArrayPreserved(a: seq<Entry<PhpValue>>, environment: Option<string>, load: ConfigLoad)
    requires a != [] && AllIntegers(a)
    requires !Truthy(environment) || environment.value !in Keys(a)
    ensures Initialized(a, environment, load) == InitResult(a, None)
    ensures Keys(Ints(Initialized(a, environment, load).queueConfig)) == Keys(a)
  {
    if Truthy(environment) { GetFound(a, environment.value); }
    FilterKeepsIntegerArray(a);
  }

  /** An environment named like a queue-set makes `$count + $array` abort. */
  lemma EnvironmentNamingQueueAborts(a: seq<Entry<PhpValue>>, env: string, n: int, load: ConfigLoad)
    requires a != [] && Truthy(Some(env)) && Get(a, env) == Some(Int(n))
    ensures Initialized(a, Some(env), load).error == Some(UnsupportedOperandTypes)
  {
  }

  /** After resetQueues the next initialize takes the file-loading path. */
  lemma ResetTakesFilePath(environment: Option<string>, load: ConfigLoad)
    ensures load.Loaded? ==> Initialized([], environment, load) == Overlaid(load.contents, environment)
    ensures load.Unparsable? ==> Initialized([], environment, load) == InitResult([], Some(InvalidConfigFile))
  {
  }

  /** The configuration object: the queue configuration (raw until initialize, then integers
      only) and the settings read from the environment and the command line. */
  class Configuration {
    var queueConfig: seq<Entry<PhpValue>>
    var queueConfigFile: Option<string>
    var environment: Option<string>
    var workerInterval: PhpValue
    var logLevel: int
    var handleWinch: bool
    var termBehavior: string

    /** The queue config is a PHP array, as every value the constructor, the file loader and
        initialize hand it is. */
    predicate Keyed()
      reads this
    {
      WellKeyed(queueConfig)
    }

    /** True after initialize and after resetQueues: only integer counts remain, under unique
        keys. */
    predicate Filtered()
      reads this
    {
      AllIntegers(queueConfig) && UniqueKeys(queueConfig)
    }

    /** The desired state as queue-set => count. */
    function Desired(): seq<Entry<int>>
      reads this
      requires Filtered()
    {
      Ints(queueConfig)
    }

    /** `knownQueues()`: the configured queue-sets, in order. */
    function KnownQueues(): (ks: seq<string>)
      reads this
      requires Filtered()
      ensures ks == Keys(Desired())
    {
      Keys(queueConfig)
    }

    /** `workerCount($queues)`. */
    function WorkerCountFor(q: string): (n: int)
      reads this
      requires Filtered()
      ensures q !in KnownQueues() ==> n == 0
      ensures forall i :: 0 <= i < |queueConfig| && queueConfig[i].key == q ==> n == queueConfig[i].value.i
    {
      GetFound(Desired(), q);
      WorkerCountLookup(Desired(), q);
      WorkerCount(Desired(), q)
    }

    /** The part of the constructor that cannot fail: loadEnvironment, then the argument. */
    constructor FromSource(src: Source, env: Environment)
      requires WellKeyed(src.queueConfig)
      ensures Keyed()
      ensures queueConfig == src.queueConfig && queueConfigFile == src.queueConfigFile
      ensures environment == GetEnv(env, "RESQUE_ENV")
      ensures workerInterval == WorkerIntervalFrom(env) && logLevel == LogLevelFrom(env)
      ensures !handleWinch && termBehavior == ""
    {
      environment := GetEnv(env, "RESQUE_ENV");
      workerInterval := WorkerIntervalFrom(env);
      logLevel := LogLevelFrom(env);
      queueConfig := src.queueConfig;
      queueConfigFile := src.queueConfigFile;
      handleWinch := false;
      termBehavior := "";
    }

    /** `new Configuration($config)`: throws InvalidArgumentException for an argument that is
        neither an array, a string nor null. */
    static method Create(arg: ConfigArgument, env: Environment) returns (r: Result<Configuration, ConfigError>)
      requires arg.ArrayArg? ==> WellKeyed(arg.entries)
      ensures r.Success? ==> r.value.Keyed()
      ensures match ClassifyArgument(arg, GetEnv(env, "RESQUE_POOL_CONFIG"))
        case Failure(e) => r == Failure(e)
        case Success(src) =>
          && r.Success? && fresh(r.value)
          && r.value.queueConfig == src.queueConfig && r.value.queueConfigFile == src.queueConfigFile
          && r.value.environment == GetEnv(env, "RESQUE_ENV")
          && r.value.workerInterval == WorkerIntervalFrom(env) && r.value.logLevel == LogLevelFrom(env)
    {
      var src := ClassifyArgument(arg, GetEnv(env, "RESQUE_POOL_CONFIG"));
      if src.Failure? {
        return Failure(src.error);
      }
      var c := new Configuration.FromSource(src.value, env);
      return Success(c);
    }

    /** `initialize()`: load from file when empty, overlay the active environment, keep the
        integers. */
    method Initialize(load: ConfigLoad) returns (err: Option<ConfigError>)
      requires Keyed() && (load.Loaded? ==> WellKeyed(load.contents))
      modifies this`queueConfig
      ensures InitResult(queueConfig, err) == Initialized(old(queueConfig), environment, load)
      ensures Keyed()
      ensures err.None? ==> Filtered()
    {
      InitializedKeyed(queueConfig, environment, load);
      if queueConfig == [] {
        match load {
          case Unparsable =>
            return Some(InvalidConfigFile);
          case Loaded(c) =>
            queueConfig := c;
        }
      }
      if Truthy(environment) {
        var block := Get(queueConfig, environment.value);
        if block.Some? && block.value != Null {
          if !block.value.Arr? {
            return Some(UnsupportedOperandTypes);
          }
          queueConfig := Union(block.value.entries, queueConfig);
        }
      }
      queueConfig := FilterIntegers(queueConfig);
      return None;
    }

    /** `resetQueues()`: the desired state becomes empty; the settings stay. */
    method ResetQueues()
      modifies this`queueConfig
      ensures queueConfig == [] && Filtered() && Keyed()
      ensures Desired() == [] && KnownQueues() == []
      ensures forall q :: WorkerCountFor(q) == 0
    {
      queueConfig := [];
    }
  }
}
