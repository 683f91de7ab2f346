# timatanga/logger — a Dafny model of channel resolution and dispatch

This project models the core of the PHP package `timatanga/logger`, a
configuration-driven facade over Monolog. It covers:

- **`ResolveConfig`**, which builds the configuration. It reads `config/logger.php`,
  fills in the top-level defaults and moves `logFile` below `logPath`. It then
  merges the caller's custom channels and sanitises every channel: it checks the
  handler, sets a default formatter and processor, and normalises the severity.
- **`ResolveLogger`**, a stateful object holding `config`, `channel` and `arguments`.
  It selects a channel, binds the handler's constructor parameters to the channel's
  settings (including the `filename`/`stream` path rules and the casting of
  defaults), and builds the handler with its formatter and processor.
- **`Logger`**, the PSR-3 facade. It builds one Monolog logger per requested
  channel, and its level methods forward every call to all of them through `pushLog`.
- **`helpers.php`**, which provides `root_path`, `config_path`, `storage_path` and the
  `.env` scanner `env`.
- **`LinePrettyFormatter::format`**.

PHP arrays are ordered sequences of key/value entries (`PhpValues`).
`Lookup` finds the first entry with a key, and `Put` is `$a[$k] = $v`: an
existing key is updated in place and a new key is appended. This keeps
PHP's iteration order, which `foreach` and `array_merge` depend on.

Exceptions are a `Result` error:

- `ConfigError` is `LoggerConfigException`.
- `ResolveError` is `ResolveLoggerException`, with its message.
- `Uncaught` is an error PHP raises itself (a `TypeError`, a `ReflectionException`, an `Error`).
- `Raised` is an exception a Monolog constructor throws.

What the code reads from its surroundings is given as data:

- `Runtime.Host` holds the application root, the files that exist, what `require`
  of each returns, and the lines of `.env`.
- `Runtime.Classes` holds the loadable classes, the interfaces each implements,
  each constructor's parameters as reflection reports them, and an oracle saying
  whether `new C(...args)` throws.
- `json_encode` and `DateTime::format` are function parameters.

Each loop of the source is a method whose `ensures` ties its result, or its new
state, to a specification function. Each of these is such a method:
`mergeCustomChannels`, `sanitizeConfiguration`, `buildHandlerArguments`, `env`,
`resolveLoggers` and `pushLog`. The properties are lemmas about those functions.

The model reproduces the code in these behaviours, which a reader might expect to be otherwise:

- Without any configuration file, `readConfigFile` returns null. Passing it to the
  `array`-typed `setConfigurationDefaults` is a `TypeError`; it is not an empty channel map.
- A configured `level` that names no severity becomes the string
  `env('LOG_LEVEL','debug')` itself. It is not an environment variable name that is looked up.
- A channel without `config.level` has its whole `config` replaced by `{level: …}`.
- With neither `filename` nor `stream` configured, both parameters get the top-level
  `logFile` as `setConfigurationDefaults` left it.
- A custom channel key only has to be a string. The empty string is accepted.
- `json_encode` is applied to every message, once more for each further logger.

## Model

| member | source | states |
|---|---|---|
| Helpers.RootPath | src/helpers.php:20-38 | `root_path(null)` is the root. `root_path(p)` is the root, one separator and `p`, in that order. |
| Helpers.ConfigPath | src/helpers.php:50-60 | `config_path(p)` is `root_path('config')`, a separator and `p`, which is `root_path("config/p")`. `config_path(null)` is `root_path('config')`. |
| Helpers.StoragePath | src/helpers.php:72-82 | The same for `storage_path` below `root_path('storage')`. |
| Helpers.TrimLeft | src/helpers.php:129-132 | The result is a suffix of the input with only trim()'s blank characters removed before it. It starts with a non-blank character. |
| Helpers.TrimRight | src/helpers.php:129-132 | The result is a prefix of the input with only blank characters removed after it. It ends with a non-blank character. |
| Helpers.Env | src/helpers.php:113-139 | The line-by-line loop with `continue` and early return computes `EnvValue`. A missing or unreadable `.env` gives the default. |
| Helpers.EnvFirstDefinitionWins | src/helpers.php:123-136 | Comment lines (trimmed text starting with `#`) are skipped. The first other line whose trimmed name equals the key decides the value. Later duplicates are never read. |
| Helpers.EnvUndefinedGivesDefault | src/helpers.php:123-138 | When no non-comment line defines the key, `env` returns the default. |
| Helpers.SplitAtFirstEquals | src/helpers.php:129-135 | A line splits at its first `=` only. The value keeps any later `=` and is returned trimmed but otherwise verbatim, with no unquoting. |
| ResolveConfig.SeveritiesAscend | src/ResolveConfig.php:75-84 | The severity table has exactly the eight level names. Its values increase strictly from `debug` to `emergency`. |
| ResolveConfig.WithDefault | src/ResolveConfig.php:171-184 | After `if (!isset($a[k])) $a[k] = v` the key is set. It keeps its value when it was set before and holds `v` otherwise. No other key changes. |
| ResolveConfig.ApplyDefaults | src/ResolveConfig.php:169-184 | `dateFormat`, `timezone`, `logFile`, `logPath` and `channels` are all set afterwards. Each keeps a value it already had, and otherwise holds its default: `'Y-m-d H:i:s'`, `'Europe/Berlin'`, `'log'`, `'storage/logs'` or `[]`. No other key changes. |
| ResolveConfig.RelocateLogFile | src/ResolveConfig.php:186-189 | When `logFile` names an existing file, the configuration is returned unchanged. When it does not, `logPath` becomes `root_path(logPath)` plus a separator, and `logFile` becomes that new `logPath` followed by the old `logFile`. A `logFile` or a `logPath` that cannot be passed to these string functions is a TypeError. Only those two keys change. |
| ResolveConfig.SetConfigurationDefaults | src/ResolveConfig.php:169-192 | A non-array configuration, such as the null that `readConfigFile` returns without a file, is a TypeError. A result has all five default keys set. |
| ResolveConfig.ReadConfigFile | src/ResolveConfig.php:143-161 | With neither the application's nor the package's `logger.php` present, the result is null. |
| ResolveConfig.ConfigPathsDiffer | src/ResolveConfig.php:150-155 | The application's `config_path('logger.php')` and the package's `root_path('timatanga/logger/config/logger.php')` are different paths. |
| ResolveConfig.AppConfigShadowsPackage | src/ResolveConfig.php:150-153 | While the application's `config/logger.php` exists, it is what `require` returns. Removing the package's copy, or changing what it holds, changes nothing. |
| ResolveConfig.PackageConfigFallback | src/ResolveConfig.php:155-158 | Without the application's file, the package's copy is read when it exists. |
| ResolveConfig.NoConfigFileFails | src/ResolveConfig.php:143-161 | With neither the application's nor the package's `logger.php` present, `resolve` fails with a TypeError. |
| ResolveConfig.MergeChannel | src/ResolveConfig.php:212-220 | A non-string key, or a value without `handler`, throws `LoggerConfigException`. Otherwise the channel table gets `$channels[$k] = $arg`. No other top-level key changes. |
| ResolveConfig.MergeCustomChannels | src/ResolveConfig.php:206-224 | The foreach computes `Merged`. An empty `custom` returns the configuration unchanged. |
| ResolveConfig.MergeAcceptsOnlyGoodEntries | src/ResolveConfig.php:212-218 | A successful merge means every custom entry had a string key and a handler. |
| ResolveConfig.MergeRejectsBadEntry | src/ResolveConfig.php:214-218 | Any custom entry with a non-string key or without a handler makes the merge throw `LoggerConfigException`, and no configuration is returned. |
| ResolveConfig.MergeReplacesWholesale | src/ResolveConfig.php:212-220 | After a merge each custom channel is exactly its custom value, with no field merge. Channels that were not overridden are unchanged, and so is every top-level key other than `channels`. |
| ResolveConfig.MergeTopLevel | src/ResolveConfig.php:212-223 | The merge touches no top-level key except `channels`. |
| ResolveConfig.MergeChannelsWritable | src/ResolveConfig.php:219-220 | Once a custom channel has been written, `channels` is an array. |
| ResolveConfig.MergedChannelsDistinct | src/ResolveConfig.php:219-220 | The merged channel table keeps distinct channel names. |
| ResolveConfig.ValidateHandler | src/ResolveConfig.php:256-267 | A channel without `handler` throws `LoggerConfigException`. The channel passes unchanged exactly when its handler names a class implementing HandlerInterface. A non-array channel is a TypeError. |
| ResolveConfig.SanitizeFormatter | src/ResolveConfig.php:276-285 | An absent formatter becomes the default line formatter. A configured one is kept when it implements FormatterInterface and otherwise throws `LoggerConfigException`. A value naming no class is a TypeError. Only `formatter` can change. |
| ResolveConfig.SanitizeProcessor | src/ResolveConfig.php:294-303 | An absent processor becomes the PSR message processor. A configured one is kept only when it implements ProcessableHandlerInterface, as the code checks, and otherwise throws `LoggerConfigException`. Only `processor` can change. |
| ResolveConfig.SanitizeSeverity | src/ResolveConfig.php:312-328 | On success `config` is an array holding `level`. No key of the channel other than `config` changes. |
| ResolveConfig.SeverityRule | src/ResolveConfig.php:312-328 | Without a level, `config` becomes exactly `{level: severities[env('LOG_LEVEL','debug')]}` and every other config key is dropped. A known severity name becomes its number. Any other scalar, including a numeric level, becomes the string `env('LOG_LEVEL','debug')`. An array or object level fails. No other config key changes. |
| ResolveConfig.SeverityNotIdempotent | src/ResolveConfig.php:320-325 | Sanitising a named level twice differs from sanitising it once. The name becomes a number, and the second pass turns that number into `env('LOG_LEVEL','debug')`. |
| ResolveConfig.SanitizeChannel | src/ResolveConfig.php:120-131 | A non-array channel is a TypeError. A `validateHandler` failure is the result, before any other step runs, and a success has passed `validateHandler`. |
| ResolveConfig.SanitizeChannelShape | src/ResolveConfig.php:120-131 | After `sanitizeChannel` the channel has a HandlerInterface handler, a formatter, a processor and a `config` array holding `level`. An absent formatter or processor is replaced by the default one, and a present one is kept. |
| ResolveConfig.SanitizeConfiguration | src/ResolveConfig.php:233-247 | The foreach computes `SanitizedConfiguration`: each channel is read from the table as it stands and written back sanitised. A `channels` value that is not an array is skipped. |
| ResolveConfig.SanitizeFromResult | src/ResolveConfig.php:235-244 | With distinct channel names, the loop keeps the channel order and replaces every channel by the sanitised form of its original value. |
| ResolveConfig.SanitizeFromFirstFailure | src/ResolveConfig.php:235-244 | The first channel, in order, that fails to sanitise decides the error, and no configuration is returned. |
| ResolveConfig.Resolve | src/ResolveConfig.php:97-108 | The four steps run in order (read, defaults, merge, sanitise), and the first failure is the result. |
| ResolveConfig.ResolvedTopLevel | src/ResolveConfig.php:97-108 | After `resolve` the five default keys are all set. Every top-level key except `channels` holds what `setConfigurationDefaults` gave it. |
| ResolveConfig.CustomChannelResolved | src/ResolveConfig.php:97-108 | A custom channel ends up in the resolved configuration as `sanitizeChannel` of its custom value alone. Nothing of a same-named channel from the file survives. |
| ResolveConfig.ResolvedChannelsSanitized | src/ResolveConfig.php:97-108 | Every channel of a resolved configuration is sanitised. |
| LoggerResolution.CastParameter | src/ResolveLogger.php:275-288 | `'string'`, `'int'` and `'bool'` cast the value: null becomes `""`, `0` or `false`, and a value already of that type is kept. Any other type, or none, passes the value through. |
| LoggerResolution.ExtractParameters | src/ResolveLogger.php:254-265 | The parameter's name, and its declared default. A declared default comes back unchanged by the cast. A missing one becomes `""`, `0` or `false` for a `string`, `int` or `bool` parameter, and null for any other type. |
| LoggerResolution.ArgumentsPerParameter | src/ResolveLogger.php:126-156 | A successful binding has exactly one argument per constructor parameter, in declaration order, each given by that parameter's rule. |
| LoggerResolution.ArgumentsFirstFailure | src/ResolveLogger.php:128-155 | Binding fails with the first failing parameter's error. |
| LoggerResolution.ArgumentRules | src/ResolveLogger.php:133-150 | A parameter not named `filename` or `stream` gets its configured non-null value, else its cast default; configured values are never cast. A configured `filename` (`stream`) goes through the path rule. With neither configured, both names get `logFile`. With only the other one configured, the parameter keeps its cast default. |
| LoggerResolution.FileArgumentRule | src/ResolveLogger.php:139-146 | A configured file name containing a separator is passed through unchanged. Otherwise it is appended to `logPath`. |
| LoggerResolution.ConstructorParameters | src/ResolveLogger.php:235-245 | Reflection succeeds exactly for a class implementing HandlerInterface that declares a constructor, and yields that constructor's parameters. A class name that is not a handler throws `ResolveLoggerException` with the handler in its message. |
| LoggerResolution.SetChannelRule | src/ResolveLogger.php:91-112 | An unknown channel throws `ResolveLoggerException` before `channel` or `arguments` change. A known channel is recorded. `arguments` are replaced only when binding succeeds. The configuration never changes. |
| LoggerResolution.Instantiate | src/ResolveLogger.php:164-197 | With no bound arguments `createInstance` throws `ResolveLoggerException`. With arguments bound, a successful build is returned as it is, and a failed one is rethrown as `ResolveLoggerException` with the original message. A built handler carries the bound arguments. |
| LoggerResolution.BuildHandlerRule | src/ResolveLogger.php:174-191 | The build succeeds exactly when the handler names a class whose constructor accepts the bound arguments, and any attached formatter and processor each name a class constructible without arguments. The formatter class must implement FormatterInterface (the parameter type of `setFormatter`). The processor class must be invokable (the `callable` parameter of `pushProcessor`). |
| LoggerResolution.AttachRules | src/ResolveLogger.php:184-189 | A built handler has the configured handler class. It gets the configured formatter exactly when its class is formattable and the formatter is not null. It gets the configured processor exactly when its class is processable and the processor is not null. |
| LoggerResolution.NoParametersNeverInstantiate | src/ResolveLogger.php:168-169 | A handler whose constructor has no parameters binds no arguments, so `createInstance` always fails for it. |
| LoggerResolution.Configuration | src/ResolveLogger.php:206-215 | `getConfiguration(null)` returns the whole configuration. A set key returns its value. An unset key throws `ResolveLoggerException` naming the key. |
| LoggerResolution.DefaultsReadable | src/ResolveLogger.php:206-215 | After a successful resolve, `timezone`, `logPath` and `logFile` can always be read. |
| LoggerResolution.ResolveLogger.New | src/ResolveLogger.php:55-63 | The constructor holds `resolve($custom)`, with no channel and no arguments, or throws what `resolve` throws. |
| LoggerResolution.ResolveLogger.AppendConfig | src/ResolveLogger.php:72-78 | `config` becomes a fresh `resolve($custom)`, so earlier custom channels are not kept. `channel` and `arguments` are unchanged. On failure nothing changes. |
| LoggerResolution.ResolveLogger.SetChannel | src/ResolveLogger.php:91-112 | The new state and the outcome are those of `AfterSetChannel`. |
| LoggerResolution.ResolveLogger.BuildHandlerArguments | src/ResolveLogger.php:126-156 | The loop, which appends one argument per parameter, computes `HandlerArguments`. |
| LoggerResolution.ResolveLogger.CreateInstance | src/ResolveLogger.php:164-197 | Returns `Instantiate` of the current state and changes nothing. |
| LoggerResolution.ResolveLogger.GetConfiguration | src/ResolveLogger.php:206-215 | Returns `Configuration` of the current configuration. |
| LoggerResolution.ResolveLogger.GetArguments | src/ResolveLogger.php:223-226 | Returns the bound arguments. |
| Logging.ArrayFilter | src/Logger.php:250 | `array_filter` keeps no falsy value and never grows the array. |
| Logging.FilterKeeps | src/Logger.php:250 | A truthy value survives `array_filter` under its key. |
| Logging.CallContextOverrides | src/Logger.php:250 | A truthy value given at the call site under a string key reaches the logger, whatever the global context holds under that key. |
| Logging.ContextHasNoFalsy | src/Logger.php:250 | No value in the context a logger receives is falsy. |
| Logging.ContextOfStrings | src/Logger.php:44 | With the global context empty, as it always is, a string-keyed call context reaches the logger as `array_filter` of itself. |
| Logging.IntegerKeysShift | src/Logger.php:250 | Integer keys are renumbered by `array_merge` again for every further logger. For example, `[0 => '', 1 => 'a']` reaches the first logger as `[1 => 'a']` and the second as `[0 => 'a']`. |
| Logging.DispatchShape | src/Logger.php:245-254 | `pushLog` calls every logger exactly once, in order, with the given level. The k-th logger (1-based) receives `json_encode` applied k times to the message, and the context filtered k times. |
| Logging.DispatchFiltersCallContext | src/Logger.php:245-254 | Since `$this->context` is never assigned, every logger receives the same `array_filter` of a string-keyed call context. |
| Logging.ChannelNames | src/Logger.php:78 | `(array) $channels`: null gives no channel, a string gives one, and a list gives its names in order. |
| Logging.Register | src/Logger.php:89 | `$loggers[$channel] = $logger` keeps the name order, replacing the logger of a name already present and appending a new name. |
| Logging.FirstOccurrencesDistinct | src/Logger.php:78-89 | The logger names list each requested name once: exactly the requested names. |
| Logging.ResolveOneIsHandlerFor | src/Logger.php:84 | `setChannel($c)->createInstance()` yields the same handler whatever channel and arguments the resolver held before, and leaves the configuration alone. |
| Logging.LoggersResolved | src/Logger.php:74-93 | `resolveLoggers` succeeds exactly when every requested channel yields a handler. It then holds one logger per distinct name, in order of first request, each with its own channel's handler. |
| Logging.LoggersFirstFailure | src/Logger.php:84 | When a channel cannot be built, the first such channel's error propagates unchanged. |
| Logging.NoChannelsOpens | src/Logger.php:54-65 | A logger with no channels is built exactly when the configuration resolves, and it holds no loggers. |
| Logging.Logger.Open | src/Logger.php:54-65 | The constructor resolves the configuration, reads `timezone`, and builds the loggers. Otherwise it throws the first error. The global context and the log are empty. |
| Logging.Logger.ResolveLoggers | src/Logger.php:74-93 | The loop of `setChannel`/`createInstance` calls computes `LoggersFrom` of the resolver, for the resolver's final state and for the result alike. |
| Logging.Logger.FormatMessage | src/Logger.php:263-269 | `json_encode` of the message, with `json_encode` given as the logger's `encode` function. `DispatchShape` states how `pushLog` chains it from logger to logger. |
| Logging.Logger.GetChannels | src/Logger.php:101-104 | Returns the loggers. |
| Logging.Logger.PushLog | src/Logger.php:245-254 | The loop appends `DispatchFrom` to the log of calls made on the Monolog loggers, and leaves the loggers unchanged. |
| Logging.Logger.Emergency | src/Logger.php:114-117 | Forwards to `pushLog` with level `emergency`. |
| Logging.Logger.Alert | src/Logger.php:130-134 | Forwards with level `alert`. |
| Logging.Logger.Critical | src/Logger.php:146-149 | Forwards with level `critical`. |
| Logging.Logger.Error | src/Logger.php:160-163 | Forwards with level `error`. |
| Logging.Logger.Warning | src/Logger.php:176-179 | Forwards with level `warning`. |
| Logging.Logger.Notice | src/Logger.php:189-192 | Forwards with level `notice`. |
| Logging.Logger.Info | src/Logger.php:204-207 | Forwards with level `info`. |
| Logging.Logger.Debug | src/Logger.php:217-220 | Forwards with level `debug`. |
| Logging.Logger.Log | src/Logger.php:231-234 | Forwards with the caller's level. |
| LinePrettyFormatting.Format | src/Formatter/LinePrettyFormatter.php:25-34 | The output starts with `[` and ends with a line break. |
| LinePrettyFormatting.FormatSplits | src/Formatter/LinePrettyFormatter.php:30-31 | The output is exactly the header line `[date] channel.level:`, a line break, the message and a line break. Splitting at the first line break gives back the header and the message. |
| LinePrettyFormatting.HeaderLayout | src/Formatter/LinePrettyFormatter.php:30 | The header is the bracketed timestamp and a space, then `channel.level_name:`. |
| LinePrettyFormatting.FormatIgnores | src/Formatter/LinePrettyFormatter.php:27-31 | The timestamp always uses `'Y-m-d H:i:s'`, whatever date format the formatter was built with. The record's `context` and `extra` never reach the output. |

## Left out

- **File and process I/O.** Reading the filesystem, `require` of the configuration file, `fileExists`, `is_readable` and `file()` are the `Host` data. Also left out are `mkdir`/`is_dir` in the `ResolveLogger` constructor (src/ResolveLogger.php:61-62) and `date_default_timezone_set` (src/Logger.php:61).
- **The root directory.** `root_path` derives the root from `__DIR__` and whether it contains `vendor`. That choice is the given `Host.base`.
- **Reflection.** Reflection is the `Classes` data. A handler class without a constructor fails with an engine `Error` (src/ResolveLogger.php:242-244). Engine errors are known by kind only (`Runtime.Message`), not by their full message text.
- **Monolog itself.** Handler construction is the `construct` oracle. `setFormatter` and `pushProcessor` are modelled as fields of `Handler`. Level filtering, `PsrLogMessageProcessor` interpolation and the actual writes are not modelled; the Monolog calls are recorded in `Logger.journal`. Calling `pushLog` with a level name that Monolog's logger has no method for is not modelled.
- **The default formatter and processor** (src/ResolveConfig.php:336-354). They are objects known by class name; their constructor arguments are not modelled.
- **`json_encode` and `DateTime::format`.** They are uninterpreted function parameters.
- **PHP number and comparison semantics.**
  - Floats and resources are not modelled.
  - Numeric-string array keys are not coerced to integers.
  - Loose `==` between numeric strings (in `env`, `castParameter` and `buildHandlerArguments`) is taken as string equality.
  - Class names are compared case-sensitively.
- **Objects where arrays are expected.** An object given where an array is iterated or indexed is treated like any other non-array value.
- **Exception messages.** `LoggerConfigException` messages are not modelled; the `ConfigFault` records why the exception was thrown. A message built from an object handler, formatter or processor without `__toString` would itself fail with an `Error`; that failure is not modelled.
- **Platform assumptions.** `DIRECTORY_SEPARATOR` is `/` and `PHP_EOL` is a line feed.
- **Channel names.** The names passed to `Logger` are strings.
- **Typed defaults.** A default of a `string`, `int` or `bool` parameter is assumed to have that type (`Runtime.WellTyped`), as PHP enforces for declared defaults. As in `castParameter`, any other type name is passed through uncast, and so are nullable and union types such as `?string`.
- **PHP 8 semantics.** The model follows PHP 8, where these cases throw a TypeError; under PHP 7 they only warn and execution continues:
  - `ResolveConfig.SanitizeFormatter` and `ResolveConfig.SanitizeProcessor`: `class_implements` of a value that names no class. PHP 7 returns false, `in_array` warns, and the source then throws `LoggerConfigException`.
  - `ResolveConfig.SanitizeSeverity` and `ResolveConfig.NormaliseLevel`: an array or object level used as an array offset in `isset`.
- LoggerResolution.SetChannelRule: states the unknown-channel case in one direction only: an unknown channel fails with "channel not found". A known channel whose binding fails with the same message is not ruled out.
- **Other files.** `src/Formatter/JsonPrettyFormatter.php` and `src/Providers/LoggerServiceProvider.php` are not part of this model: one is a single `json_encode` call, the other is framework registration glue.
