/**
 * `NodeBin#start` rendered as a pure function: the logger settings, the
 * fixed options record, the `additional_config` hook and the pid path,
 * extracted in the order the source writes them. The first failing
 * property aborts startup before any node is constructed.
 */
module NodeBin {
  import opened Wrappers
  import opened ConfigValue
  import opened PropertyParser
  import opened LogLevel

  /** Where the logger writes: the `log_file` path, or STDOUT. */
  datatype LogTarget = Stdout | LogFile(path: string)

  /** The logger handle, reduced to its destination and its level. */
  datatype LoggerSetup = LoggerSetup(target: LogTarget, level: Severity)

  /** The options hash handed to the node's constructor. */
  datatype Options = Options(
    logger: LoggerSetup,
    index: Option<int>,
    baseDir: string,
    ipRoute: Option<string>,
    nodeId: string,
    mbus: string,
    localDb: string,
    migrationNfs: Option<string>,
    extra: map<string, Parsed>)   // entries the concrete node's hook adds

  /** What reaches node construction: the options and the pid file path. */
  datatype Launch = Launch(options: Options, pidFile: string)

  /** `additional_config(options, config)`, supplied by the concrete node. */
  type Hook = (Options, Config) -> Result<Options, PropertyError>

  /** `parse_property(config, key, String, ...)`, typed. */
  function StringProperty(config: Config, key: string, optional: bool): (r: Result<Option<string>, PropertyError>)
    ensures r.Err? <==> ParseProperty(config, key, TString, optional).Err?
    ensures r.Err? ==> ParseProperty(config, key, TString, optional) == Err(r.error)
    ensures r.Ok? ==> r.value == (if Lookup(config, key).Some? then Some(config[key].s) else None)
  {
    match ParseProperty(config, key, TString, optional)
    case Err(e) => Err(e)
    case Ok(None) => Ok(None)
    case Ok(Some(p)) => Ok(Some(p.v.s))
  }

  /** `parse_property(config, key, Integer, ...)`, typed. */
  function IntegerProperty(config: Config, key: string, optional: bool): (r: Result<Option<int>, PropertyError>)
    ensures r.Err? <==> ParseProperty(config, key, TInteger, optional).Err?
    ensures r.Err? ==> ParseProperty(config, key, TInteger, optional) == Err(r.error)
    ensures r.Ok? ==> r.value == (if Lookup(config, key).Some? then Some(config[key].i) else None)
  {
    match ParseProperty(config, key, TInteger, optional)
    case Err(e) => Err(e)
    case Ok(None) => Ok(None)
    case Ok(Some(p)) => Ok(Some(p.v.i))
  }

  /** A required String property. */
  function RequiredString(config: Config, key: string): (r: Result<string, PropertyError>)
    ensures r.Ok? <==> key in config && config[key].VStr?
    ensures r.Ok? ==> r.value == config[key].s
    ensures r.Err? ==> ParseProperty(config, key, TString, false) == Err(r.error)
  {
    match ParseProperty(config, key, TString, false)
    case Err(e) => Err(e)
    case Ok(None) => Err(MissingRequired(key))
    case Ok(Some(p)) => Ok(p.v.s)
  }

  /** The logger's destination and level (node_bin.rb lines 49-57). */
  function ConfigureLogger(config: Config): (r: Result<LoggerSetup, PropertyError>)
    ensures r.Ok? <==> Satisfies(config, CoreSpecs[0]) && Satisfies(config, CoreSpecs[1])
    ensures r.Ok? ==> r.value.level == LevelFor(OptString(config, "log_level"))
    ensures r.Ok? ==> r.value.target == if OptString(config, "log_file").Some?
      then LogFile(OptString(config, "log_file").value) else Stdout
  {
    var file :- StringProperty(config, "log_file", true);
    var level :- StringProperty(config, "log_level", true);
    Ok(LoggerSetup(if file.Some? then LogFile(file.value) else Stdout, LevelFor(level)))
  }

  /** The options hash literal (lines 59-68), given the logger. */
  function ExtractOptions(config: Config, logger: LoggerSetup): (r: Result<Options, PropertyError>)
    ensures r.Ok? ==> r.value.logger == logger && r.value.extra == map[]
    ensures r.Ok? ==>
      && r.value.index == OptInt(config, "index")
      && HasString(config, "base_dir") && r.value.baseDir == config["base_dir"].s
      && r.value.ipRoute == OptString(config, "ip_route")
      && HasString(config, "node_id") && r.value.nodeId == config["node_id"].s
      && HasString(config, "mbus") && r.value.mbus == config["mbus"].s
      && HasString(config, "local_db") && r.value.localDb == config["local_db"].s
      && r.value.migrationNfs == OptString(config, "migration_nfs")
    ensures r.Err? && r.error.MissingRequired? ==> r.error.key in {"base_dir", "node_id", "mbus", "local_db"}
  {
    var index :- IntegerProperty(config, "index", true);
    var baseDir :- RequiredString(config, "base_dir");
    var ipRoute :- StringProperty(config, "ip_route", true);
    var nodeId :- RequiredString(config, "node_id");
    var mbus :- RequiredString(config, "mbus");
    var localDb :- RequiredString(config, "local_db");
    var migrationNfs :- StringProperty(config, "migration_nfs", true);
    Ok(Options(logger, index, baseDir, ipRoute, nodeId, mbus, localDb, migrationNfs, map[]))
  }

  /** The string configured under `key`, if there is one. */
  function OptString(config: Config, key: string): Option<string> {
    if key in config && config[key].VStr? then Some(config[key].s) else None
  }

  /** The integer configured under `key`, if there is one. */
  function OptInt(config: Config, key: string): Option<int> {
    if key in config && config[key].VInt? then Some(config[key].i) else None
  }

  /** `key` holds a string: the required String call site on `key` is satisfied. */
  predicate HasString(config: Config, key: string) {
    Satisfies(config, PropertySpec(key, TString, false))
  }

  /** Everything the core extracts before calling the hook (lines 49-68). */
  function CoreOptions(config: Config): (r: Result<Options, PropertyError>)
    ensures r.Ok? ==> ValidCore(config)
    ensures r.Ok? ==>
      && r.value.logger.target == (if OptString(config, "log_file").Some? then LogFile(OptString(config, "log_file").value) else Stdout)
      && r.value.logger.level == LevelFor(OptString(config, "log_level"))
      && r.value.index == OptInt(config, "index")
      && HasString(config, "base_dir") && r.value.baseDir == config["base_dir"].s
      && r.value.ipRoute == OptString(config, "ip_route")
      && HasString(config, "node_id") && r.value.nodeId == config["node_id"].s
      && HasString(config, "mbus") && r.value.mbus == config["mbus"].s
      && HasString(config, "local_db") && r.value.localDb == config["local_db"].s
      && r.value.migrationNfs == OptString(config, "migration_nfs")
      && r.value.extra == map[]
  {
    var logger :- ConfigureLogger(config);
    ExtractOptions(config, logger)
  }

  /** `start` up to node construction (lines 49-77): a launch, or the error that aborts it. */
  function Start(config: Config, hook: Hook): (r: Result<Launch, PropertyError>)
    ensures r.Ok? ==> ValidCore(config) && Satisfies(config, PidSpec)
    ensures r.Ok? ==> CoreOptions(config).Ok? && hook(CoreOptions(config).value, config) == Ok(r.value.options)
    ensures r.Ok? ==> HasString(config, "pid") && r.value.pidFile == config["pid"].s
  {
    var options :- CoreOptions(config);
    var extended :- hook(options, config);
    var pidFile :- RequiredString(config, "pid");
    Ok(Launch(extended, pidFile))
  }

  // ---------------------------------------------------------------------------
  // The call sites in source order, and the reference "first failing key"
  // ---------------------------------------------------------------------------

  /** Lines 49, 50 and 61-67: the properties read before the hook. */
  const CoreSpecs: seq<PropertySpec> := [
    PropertySpec("log_file", TString, true),
    PropertySpec("log_level", TString, true),
    PropertySpec("index", TInteger, true),
    PropertySpec("base_dir", TString, false),
    PropertySpec("ip_route", TString, true),
    PropertySpec("node_id", TString, false),
    PropertySpec("mbus", TString, false),
    PropertySpec("local_db", TString, false),
    PropertySpec("migration_nfs", TString, true)
  ]

  /** Line 77: the pid path, read after the hook. */
  const PidSpec: PropertySpec := PropertySpec("pid", TString, false)

  /** The keys without which startup cannot succeed. */
  const RequiredKeys: set<string> := {"base_dir", "node_id", "mbus", "local_db", "pid"}

  /** Every call site before the hook is satisfied. */
  predicate ValidCore(config: Config) {
    forall i :: 0 <= i < |CoreSpecs| ==> Satisfies(config, CoreSpecs[i])
  }

  /** The error of the first call site, in order, that fails. */
  function FirstFailure(config: Config, specs: seq<PropertySpec>): Option<PropertyError>
  {
    if specs == [] then None
    else match Parse(config, specs[0])
      case Err(e) => Some(e)
      case Ok(_) => FirstFailure(config, specs[1..])
  }

  /** No failure at all exactly when every call site is satisfied. */
  lemma {:induction false} FirstFailureNoneIff(config: Config, specs: seq<PropertySpec>)
    ensures FirstFailure(config, specs).None? <==> forall i :: 0 <= i < |specs| ==> Satisfies(config, specs[i])
  {
    if specs != [] {
      ParseOkIffSatisfies(config, specs[0]);
      FirstFailureNoneIff(config, specs[1..]);
      assert forall i :: 1 <= i < |specs| ==> specs[i] == specs[1..][i - 1];
    }
  }

  /** The reported error is that of a failing call site all of whose predecessors are satisfied. */
  lemma {:induction false} FirstFailureIsFirst(config: Config, specs: seq<PropertySpec>)
    requires FirstFailure(config, specs).Some?
    ensures exists i ::
      && 0 <= i < |specs|
      && Parse(config, specs[i]) == Err(FirstFailure(config, specs).value)
      && (forall j :: 0 <= j < i ==> Satisfies(config, specs[j]))
  {
    ParseOkIffSatisfies(config, specs[0]);
    if Parse(config, specs[0]).Err? {
      assert Parse(config, specs[0]) == Err(FirstFailure(config, specs).value);
    } else {
      FirstFailureIsFirst(config, specs[1..]);
      var i :| 0 <= i < |specs[1..]| && Parse(config, specs[1..][i]) == Err(FirstFailure(config, specs[1..]).value)
        && forall j :: 0 <= j < i ==> Satisfies(config, specs[1..][j]);
      forall j | 0 <= j < i + 1 ensures Satisfies(config, specs[j]) {
        if j > 0 { assert specs[j] == specs[1..][j - 1]; }
      }
    }
  }

  /** One step of the scan, at an arbitrary position. */
  lemma FirstFailureStep(config: Config, specs: seq<PropertySpec>, k: nat)
    requires k < |specs|
    ensures FirstFailure(config, specs[k..]) ==
      match Parse(config, specs[k])
      case Err(e) => Some(e)
      case Ok(_) => FirstFailure(config, specs[k + 1..])
  {
  }

  /** The core extraction fails exactly with the first failing call site's error. */
  lemma CoreOptionsFailsAtFirstFailure(config: Config)
    ensures CoreOptions(config).Err? <==> FirstFailure(config, CoreSpecs).Some?
    ensures CoreOptions(config).Err? ==> FirstFailure(config, CoreSpecs) == Some(CoreOptions(config).error)
  {
    var s := CoreSpecs;
    assert s == s[0..];
    FirstFailureStep(config, s, 0);
    FirstFailureStep(config, s, 1);
    FirstFailureStep(config, s, 2);
    FirstFailureStep(config, s, 3);
    FirstFailureStep(config, s, 4);
    FirstFailureStep(config, s, 5);
    FirstFailureStep(config, s, 6);
    FirstFailureStep(config, s, 7);
    FirstFailureStep(config, s, 8);
    assert s[9..] == [];
  }

  /** When every call site before the hook is satisfied, the core extraction succeeds. */
  lemma ValidCoreExtracts(config: Config)
    ensures CoreOptions(config).Ok? <==> ValidCore(config)
  {
    CoreOptionsFailsAtFirstFailure(config);
    FirstFailureNoneIff(config, CoreSpecs);
  }

  /**
   * Startup succeeds iff the core extraction succeeds, the hook accepts its
   * record and `pid` is a string: nothing invalid reaches node construction.
   */
  lemma StartSucceedsIff(config: Config, hook: Hook)
    ensures Start(config, hook).Ok? <==>
      CoreOptions(config).Ok? && hook(CoreOptions(config).value, config).Ok? && Satisfies(config, PidSpec)
  {
  }

  /** Every required key is present as a string, and every optional one absent or well-typed. */
  lemma NoInvalidConfigReachesNode(config: Config, hook: Hook)
    requires Start(config, hook).Ok?
    ensures forall k :: k in RequiredKeys ==> k in config && config[k].VStr?
    ensures forall k :: k in {"log_file", "log_level", "ip_route", "migration_nfs"} && k in config ==>
      config[k].VStr? || config[k].VNull?
    ensures "index" in config ==> config["index"].VInt? || config["index"].VNull?
  {
  }

  /**
   * A failed startup reports the first failure in source order: a core call
   * site, else the hook's own error, else the pid property.
   */
  lemma StartErrorIsFirstFailure(config: Config, hook: Hook)
    requires Start(config, hook).Err?
    ensures var e := Start(config, hook).error;
      && (FirstFailure(config, CoreSpecs).Some? ==> e == FirstFailure(config, CoreSpecs).value)
      && (FirstFailure(config, CoreSpecs).None? ==>
            && CoreOptions(config).Ok?
            && (hook(CoreOptions(config).value, config).Err? ==> e == hook(CoreOptions(config).value, config).error)
            && (hook(CoreOptions(config).value, config).Ok? ==> Parse(config, PidSpec) == Err(e)))
  {
    CoreOptionsFailsAtFirstFailure(config);
  }

  /** Scanning two lists of call sites one after the other. */
  lemma {:induction false} FirstFailureAppend(config: Config, a: seq<PropertySpec>, b: seq<PropertySpec>)
    ensures FirstFailure(config, a + b) ==
      if FirstFailure(config, a).Some? then FirstFailure(config, a) else FirstFailure(config, b)
  {
    if a != [] {
      assert (a + b)[0] == a[0];
      assert (a + b)[1..] == a[1..] + b;
      FirstFailureAppend(config, a[1..], b);
    } else {
      assert a + b == b;
    }
  }

  /**
   * With a hook that accepts the core options, startup fails exactly with the
   * first failing key of all ten, in the order the source reads them.
   */
  lemma AcceptingHookFailsAtFirstKey(config: Config, hook: Hook)
    requires CoreOptions(config).Ok? ==> hook(CoreOptions(config).value, config).Ok?
    ensures Start(config, hook).Err? <==> FirstFailure(config, CoreSpecs + [PidSpec]).Some?
    ensures Start(config, hook).Err? ==> FirstFailure(config, CoreSpecs + [PidSpec]) == Some(Start(config, hook).error)
  {
    CoreOptionsFailsAtFirstFailure(config);
    FirstFailureAppend(config, CoreSpecs, [PidSpec]);
    assert [PidSpec][1..] == [];
  }

  /** The fixed fields of two option records agree. */
  predicate SameCoreFields(a: Options, b: Options) {
    a.(extra := map[]) == b.(extra := map[])
  }

  /**
   * A hook that only adds entries leaves the node with the configured values
   * of every fixed field.
   */
  lemma AddingHookKeepsConfiguredValues(config: Config, hook: Hook)
    requires Start(config, hook).Ok? && CoreOptions(config).Ok?
    requires hook(CoreOptions(config).value, config).Ok?
    requires SameCoreFields(hook(CoreOptions(config).value, config).value, CoreOptions(config).value)
    ensures var o := Start(config, hook).value.options;
      HasString(config, "base_dir") && o.baseDir == config["base_dir"].s
      && HasString(config, "node_id") && o.nodeId == config["node_id"].s
      && HasString(config, "mbus") && o.mbus == config["mbus"].s
      && HasString(config, "local_db") && o.localDb == config["local_db"].s
      && o.index == OptInt(config, "index")
      && o.ipRoute == OptString(config, "ip_route")
      && o.migrationNfs == OptString(config, "migration_nfs")
      && o.logger.level == LevelFor(OptString(config, "log_level"))
      && o.logger.target == (if OptString(config, "log_file").Some? then LogFile(OptString(config, "log_file").value) else Stdout)
  {
  }

  /**
   * Once `log_file` and `log_level` are absent or strings, an `index` given as
   * a string aborts startup with an invalid Integer error.
   */
  lemma IndexAsStringFails(config: Config, hook: Hook, s: string)
    requires "index" in config && config["index"] == VStr(s)
    requires Satisfies(config, CoreSpecs[0]) && Satisfies(config, CoreSpecs[1])
    ensures Start(config, hook) == Err(InvalidType(TInteger, VStr(s)))
  {
  }

  /** An `index` given as a string always aborts startup, whatever else is configured. */
  lemma IndexAsStringAlwaysAborts(config: Config, hook: Hook, s: string)
    requires "index" in config && config["index"] == VStr(s)
    ensures Start(config, hook).Err?
  {
    assert !Satisfies(config, CoreSpecs[2]);
    ValidCoreExtracts(config);
  }
}
