# NodeBin configuration model

This project models the configuration side of `VCAP::Services::Base::NodeBin`, the bootstrap template that every
service node binary inherits. Before it builds a node, `start` turns the parsed YAML configuration hash into an
options record. The model covers three pieces of that work:

* `parse_property(hash, key, type, :optional)` extracts one typed value. It returns the object unchanged, `nil` for
  an absent optional key, or an inclusive `Range` built from a `{first, last}` hash. Otherwise it raises one of
  three errors: missing required option, invalid Range object, or invalid `<type>` object.
* The `log_level` case maps an optional string to a Logger severity. The match is case-sensitive. An unknown
  name falls back to UNKNOWN and does not fail.
* `start` then reads its properties in a fixed order: `log_file`, `log_level`, the seven keys of the options hash,
  the concrete node's `additional_config` hook, and `pid`. It either reaches node construction with a complete
  options record and a pid path, or it stops at the first property that fails.

The model is pure: datatypes, functions and lemmas. The configuration is a `map<string, Value>`, where `Value` is
a tagged YAML object. `nil?` is read as "key absent or value null" (`ConfigValue.Lookup`). Each `raise` becomes an
`Err` of `PropertyError`. `start` becomes `NodeBin.Start`. It takes the already-parsed hash, plus the
`additional_config` hook as a function parameter, and returns a `Launch`: the options that node construction
(`node_class.new(options)`) receives, and the pid path the pid file is written to. `NodeBin.FirstFailure` is a separate reference definition: it scans the call sites
(`CoreSpecs`, then `PidSpec`) and returns the error of the first one that fails. The lemmas tie `Start` to that
scan.

Logger severities carry Ruby's `Logger` constants (DEBUG = 0 … UNKNOWN = 5). `LogLevel.Emits` states Logger's
threshold rule: a message is written when its severity is not below the level.

Points where the model follows the code:

* `InvalidType` carries the expected type and the offending object, not the key. The message at
  base/lib/base/node_bin.rb:109 does not name the key.
* `log_level` and `log_file` are read through `parse_property(..., String, :optional => true)`. So a non-string
  `log_level` (for example `3`) aborts startup with an invalid String error. Only unrecognised *strings* fall back
  to UNKNOWN.
* An `index` or optional key of the wrong type aborts startup too. The `:optional` flag only excuses absence.
* `shutdown` has no guard against being run twice, so the model claims no idempotency for it.

## Model

| member | source | states |
|---|---|---|
| ConfigValue.Lookup | base/lib/base/node_bin.rb:99-100 | the lookup is absent exactly when the key is missing or its value is null, and otherwise yields the stored object |
| PropertyParser.KindOf | base/lib/base/node_bin.rb:109 | `kind_of?` holds only for String and Integer, and for those it agrees with the reference reading Conforms |
| PropertyParser.ParseProperty | base/lib/base/node_bin.rb:98-112 | a returned value conforms to the declared type, is the configured object unchanged for String/Integer, and is first..last of the configured bounds for Range; `nil` only when optional; a missing-option error only when required, and it names the key |
| PropertyParser.ParseOkIffSatisfies | base/lib/base/node_bin.rb:98-112 | a call succeeds iff the key is absent/null and optional, or present and conforming to its type |
| PropertyParser.MissingRequiredNamesKey | base/lib/base/node_bin.rb:99-101 | a required call fails with MissingRequired(k) iff k is exactly the key and the key is absent or null |
| PropertyParser.OptionalAbsentIsNil | base/lib/base/node_bin.rb:100-102 | an absent or null optional key yields nil, not an error |
| PropertyParser.OptionalOnlySuppressesMissing | base/lib/base/node_bin.rb:100-111 | for a present value the optional flag changes nothing, and the result is never nil |
| PropertyParser.WrongPlainTypeFails | base/lib/base/node_bin.rb:108-109 | a present String/Integer property fails with InvalidType(type, obj) iff the object is not of that type, optional or not |
| PropertyParser.NoCoercion | base/lib/base/node_bin.rb:108-110 | a string is rejected where an Integer is expected and an integer where a String is expected |
| PropertyParser.PlainValueUnchanged | base/lib/base/node_bin.rb:108-110 | a present value of the right plain type is returned unchanged |
| PropertyParser.RangeErrorsAreRangeErrors | base/lib/base/node_bin.rb:103-107 | for a present Range property every failure is InvalidRange of the object, and it fails iff the object is not a hash with integer first and last |
| PropertyParser.RangeRejectsNonMap | base/lib/base/node_bin.rb:103-104 | a present non-hash value is an invalid Range |
| PropertyParser.RangeFromBounds | base/lib/base/node_bin.rb:105-107 | a hash with integer first and last yields IntRange(first, last), both ends included; first > last is accepted and denotes the empty range |
| PropertyParser.RangeIgnoresOtherKeys | base/lib/base/node_bin.rb:105-107 | adding or changing a key other than first/last in a Range hash does not change the outcome |
| PropertyParser.RangeBadBounds | base/lib/base/node_bin.rb:105-106 | a missing, null or non-integer first or last is an invalid Range of that hash |
| PropertyParser.ParseRenderRoundTrip | base/lib/base/node_bin.rb:98-112 | writing a string, integer or range into the configuration and parsing it with its type gives it back |
| PropertyParser.RenderParseRoundTrip | base/lib/base/node_bin.rb:103-110 | a parsed value has the requested type and renders back to the configured object (for Range, to its first/last entries) |
| PropertyParser.Members | base/lib/base/node_bin.rb:107 | the set a Range first..last denotes holds exactly the x with first <= x <= last |
| PropertyParser.MembersCount | base/lib/base/node_bin.rb:105-107 | an inclusive range first..last has last - first + 1 members, and none when first > last, which is accepted unchecked |
| PropertyParser.RangeExamples | base/lib/base/node_bin.rb:103-107 | {first: 5, last: 10} gives 5..10; {first: "a", last: 10} is an invalid Range |
| LogLevel.LevelFor | base/lib/base/node_bin.rb:50-56 | with a missing log_level read as "INFO", the level is UNKNOWN exactly when the string is none of the five names, and otherwise is the severity whose exact name it is |
| LogLevel.AbsentIsInfo | base/lib/base/node_bin.rb:50-52 | no log_level gives INFO |
| LogLevel.NamedLevelsRoundTrip | base/lib/base/node_bin.rb:50-56 | each of DEBUG, INFO, WARN, ERROR, FATAL selects its own severity, UNKNOWN has no name, and a string selects a named severity iff it is that severity's exact name |
| LogLevel.OtherNamesAreUnknown | base/lib/base/node_bin.rb:56 | every other string gives UNKNOWN, never an error |
| LogLevel.CaseSensitive | base/lib/base/node_bin.rb:50-56 | "warn", "Debug", "" and "INFO " all give UNKNOWN |
| LogLevel.WarnThreshold | base/lib/base/node_bin.rb:53 | at level WARN, DEBUG and INFO messages are suppressed and the rest are written |
| LogLevel.UnknownIsLeastVerbose | base/lib/base/node_bin.rb:56 | the fallback level writes only UNKNOWN messages, and whatever it writes every level writes |
| NodeBin.StringProperty | base/lib/base/node_bin.rb:49-50 | a String call fails exactly when parse_property does, with its error, and otherwise yields the configured string or nothing |
| NodeBin.IntegerProperty | base/lib/base/node_bin.rb:61 | an Integer call fails exactly when parse_property does, with its error, and otherwise yields the configured integer or nothing |
| NodeBin.RequiredString | base/lib/base/node_bin.rb:62 | succeeds iff the key holds a string, and returns it; otherwise reports parse_property's error |
| NodeBin.ConfigureLogger | base/lib/base/node_bin.rb:49-57 | succeeds iff log_file and log_level are absent or strings; the level is the mapped log_level and the target is the log_file path or STDOUT |
| NodeBin.ExtractOptions | base/lib/base/node_bin.rb:59-68 | a built record keeps the logger, has no extra entries, and holds in each field the configured value of its key (base_dir, node_id, mbus and local_db as strings; index, ip_route and migration_nfs when present); a missing-option error names one of the four required keys |
| NodeBin.CoreOptions | base/lib/base/node_bin.rb:49-68 | a built record means every call site is satisfied, and each field holds the configured value of its key |
| NodeBin.Start | base/lib/base/node_bin.rb:49-77 | a launch means every call site including pid is satisfied; its options are what the hook returned for the core options, and its pid path is the configured pid |
| NodeBin.FirstFailureNoneIff | base/lib/base/node_bin.rb:59-68 | the scan finds no failure iff every call site is satisfied |
| NodeBin.FirstFailureIsFirst | base/lib/base/node_bin.rb:59-68 | the reported error is that of a failing call site whose predecessors are all satisfied |
| NodeBin.FirstFailureAppend | base/lib/base/node_bin.rb:59-77 | scanning two runs of call sites reports the first run's failure, else the second's |
| NodeBin.CoreOptionsFailsAtFirstFailure | base/lib/base/node_bin.rb:49-68 | the core extraction fails iff some call site fails, and its error is that of the first failing call site in source order |
| NodeBin.ValidCoreExtracts | base/lib/base/node_bin.rb:49-68 | the core extraction succeeds iff every call site before the hook is satisfied |
| NodeBin.StartSucceedsIff | base/lib/base/node_bin.rb:49-77 | startup passes every property check and yields a launch iff the core extraction succeeds, the hook accepts its record, and pid is a string (I/O failures aside) |
| NodeBin.NoInvalidConfigReachesNode | base/lib/base/node_bin.rb:59-87 | when a node is constructed, base_dir, node_id, mbus, local_db and pid are strings, the optional string keys are absent, null or strings, and index is absent, null or an integer |
| NodeBin.StartErrorIsFirstFailure | base/lib/base/node_bin.rb:49-77 | a failed startup reports the first failing core call site, else the hook's own error, else the pid error |
| NodeBin.AcceptingHookFailsAtFirstKey | base/lib/base/node_bin.rb:49-77 | with a hook that accepts, startup fails iff one of the ten keys fails, with the error of the first one in source order |
| NodeBin.AddingHookKeepsConfiguredValues | base/lib/base/node_bin.rb:59-70 | a hook that only adds entries leaves the node with the configured value of every fixed field: base_dir, node_id, mbus, local_db, index, ip_route, migration_nfs, the log level and the log target |
| NodeBin.IndexAsStringFails | base/lib/base/node_bin.rb:49-61 | once log_file and log_level are absent or strings, an index given as a string aborts startup with an invalid Integer error |
| NodeBin.IndexAsStringAlwaysAborts | base/lib/base/node_bin.rb:49-61 | an index given as a string always aborts startup, with whichever error comes first |

## Left out

- Command-line parsing (`OptionParser`, `-c/--config`, `-h/--help`, `exit`, the `$0` banner, lines 31-40): library and process-exit plumbing. The model starts from the chosen configuration.
- `YAML.load_file` and its rescue (lines 42-47): file I/O and a foreign parser. The model takes the parsed hash as input.
- `Logger.new` with daily rotation and the STDOUT fallback (line 49): an I/O object. Only its destination (`LogTarget`) and level are kept. Ruby `Logger`'s own threshold rule is stated in `LogLevel.Emits`.
- `EM.error_handler`, `EM.run`, `trap("INT")`/`trap("TERM")` and `shutdown` (lines 72-75, 86-96): event loop, signals and concurrency, all foreign calls. The model stops at the options that `node_class.new` would receive (`Launch.options`).
- Pid directory creation and the pid-file write (`FileUtils.mkdir_p`, `File.open`, `Process.pid`, lines 78-84): filesystem I/O. Only the `pid` property at line 77 is modelled.
- The I/O steps between the property reads can also stop startup before `node_class.new` at line 87: `Logger.new` raising when it cannot open `log_file` (line 49), a failed `FileUtils.mkdir_p` exiting (lines 80-82), and `File.open` raising (line 84). The model treats them as succeeding, so `Start` returning Ok (and `NodeBin.StartSucceedsIff`) means every property check passed, not that the process reached node construction.
- `default_config_file`, `node_class` and `additional_config` (lines 24-26, 70) are abstract and have no code here. `additional_config` is the `Hook` parameter of `NodeBin.Start`. Its failures are modelled as `PropertyError`s, the errors a hook built on `parse_property` raises. Other exceptions a hook could raise are not modelled. The hook is modelled as not modifying `config`. In the source it receives the same hash that `pid` is read from at line 77, so a hook that writes `config["pid"]` would change the pid path and whether startup succeeds; `NodeBin.Start`, `NodeBin.StartSucceedsIff` and `NodeBin.NoInvalidConfigReachesNode` read `pid` from the configuration as loaded.
- Exact error message texts are not modelled. The errors are variants carrying the key, or the type and the offending object.
- Types other than String, Integer and Range are not modelled for `parse_property`. The core never passes any other class.
- Hash keys that are not strings are not modelled: YAML non-string keys and symbols do not arise for the keys the core reads.
