/**
 * ResolveConfig: reads the configuration file, fills in the top-level
 * defaults, merges the caller's custom channels and sanitises every channel
 * (handler check, default formatter and processor, severity).
 */
module ResolveConfig {
  import opened Results
  import opened PhpValues
  import opened Runtime
  import opened Helpers

  const ConfigFile := "logger.php"
  const PackageConfigPath := "timatanga/logger/config/"
  const DefaultLogFile := "log"
  const DefaultLogPath := "storage/logs"
  const DefaultDateFormat := "Y-m-d H:i:s"
  const DefaultTimezone := "Europe/Berlin"

  /** The classes of the default formatter and processor objects. */
  const LineFormatterClass := "Monolog\\Formatter\\LineFormatter"
  const PsrProcessorClass := "Monolog\\Processor\\PsrLogMessageProcessor"

  /** The top-level keys that setConfigurationDefaults always fills in. */
  const DefaultedKeys: set<Key> :=
    {StrKey("dateFormat"), StrKey("timezone"), StrKey("logFile"), StrKey("logPath"), StrKey("channels")}

  /** The severity names, lowest first. */
  const LevelNames: seq<string> :=
    ["debug", "info", "notice", "warning", "error", "critical", "alert", "emergency"]

  /** self::$severities: Monolog's numeric value of each severity name. */
  const Severities: map<string, int> := map[
    "debug" := 100, "info" := 200, "notice" := 250, "warning" := 300,
    "error" := 400, "critical" := 500, "alert" := 550, "emergency" := 600]

  /** The severity table covers exactly the eight names, in ascending order. */
  lemma SeveritiesAscend()
    ensures Severities.Keys == set n | n in LevelNames
    ensures forall i, j :: 0 <= i < j < |LevelNames| ==> Severities[LevelNames[i]] < Severities[LevelNames[j]]
  {
  }

  /** `self::$severities[$name]`: null (with a warning) for a name the table lacks. */
  function SeverityOf(name: string): Value {
    if name in Severities then Int(Severities[name]) else Null
  }

  /** env('LOG_LEVEL', 'debug'). */
  function EnvLevel(host: Host): string {
    EnvValue(host.dotenv, "LOG_LEVEL", "debug")
  }

  // ---------------------------------------------------------------- reading

  /** What `require` of an existing PHP file evaluates to. */
  function Require(host: Host, path: string): Value {
    if path in host.required then host.required[path] else Int(1)
  }

  /**
   * readConfigFile(): the application's config/logger.php, else the package's
   * own copy below the root, else null.
   */
  function ReadConfigFile(host: Host): (r: Value)
    ensures (&& ConfigPath(host.base, Some(ConfigFile)) !in host.files
             && RootPath(host.base, Some(PackageConfigPath + ConfigFile)) !in host.files) ==> r == Null
  {
    var rootConfig := ConfigPath(host.base, Some(ConfigFile));
    var localConfig := RootPath(host.base, Some(PackageConfigPath + ConfigFile));
    if rootConfig in host.files then Require(host, rootConfig)
    else if localConfig in host.files then Require(host, localConfig)
    else Null
  }

  /** The application's configuration file and the package's copy are different paths. */
  lemma ConfigPathsDiffer(base: string)
    ensures ConfigPath(base, Some(ConfigFile)) != RootPath(base, Some(PackageConfigPath + ConfigFile))
  {
    var app := ConfigPath(base, Some(ConfigFile));
    var pkg := RootPath(base, Some(PackageConfigPath + ConfigFile));
    assert app[|base| + 1] == 'c';
    assert pkg[|base| + 1] == 't';
  }

  /**
   * The application's config/logger.php comes first: while it exists, whether
   * the package's copy exists and what it holds make no difference.
   */
  lemma AppConfigShadowsPackage(host: Host, files: set<string>, required: map<string, Value>)
    requires ConfigPath(host.base, Some(ConfigFile)) in host.files
    requires files == host.files - {RootPath(host.base, Some(PackageConfigPath + ConfigFile))}
    requires required == host.required - {RootPath(host.base, Some(PackageConfigPath + ConfigFile))}
    ensures ReadConfigFile(host) == ReadConfigFile(host.(files := files, required := required))
    ensures ReadConfigFile(host) == Require(host, ConfigPath(host.base, Some(ConfigFile)))
  {
    ConfigPathsDiffer(host.base);
  }

  /** Without the application's file, the package's copy is read when it exists. */
  lemma PackageConfigFallback(host: Host)
    requires ConfigPath(host.base, Some(ConfigFile)) !in host.files
    requires RootPath(host.base, Some(PackageConfigPath + ConfigFile)) in host.files
    ensures ReadConfigFile(host) == Require(host, RootPath(host.base, Some(PackageConfigPath + ConfigFile)))
  {
  }

  // --------------------------------------------------------------- defaults

  /** `if (! isset($a[$name])) $a[$name] = $v;` */
  function WithDefault(a: seq<Entry>, name: string, v: Value): (r: seq<Entry>)
    requires v != Null
    ensures Isset(r, name)
    ensures Get(r, name) == if Isset(a, name) then Get(a, name) else v
    ensures forall k :: k != StrKey(name) ==> Lookup(r, k) == Lookup(a, k)
  {
    if Isset(a, name) then a else Put(a, StrKey(name), v)
  }

  /** After defaulting `name` to `v`: set, and holding its old value when that was set. */
  predicate DefaultedTo(before: seq<Entry>, after: seq<Entry>, name: string, v: Value) {
    && Isset(after, name)
    && Get(after, name) == if Isset(before, name) then Get(before, name) else v
  }

  /** The five `isset` checks of setConfigurationDefaults. */
  function ApplyDefaults(a: seq<Entry>): (r: seq<Entry>)
    ensures DefaultedTo(a, r, "dateFormat", Str(DefaultDateFormat))
    ensures DefaultedTo(a, r, "timezone", Str(DefaultTimezone))
    ensures DefaultedTo(a, r, "logFile", Str(DefaultLogFile))
    ensures DefaultedTo(a, r, "logPath", Str(DefaultLogPath))
    ensures DefaultedTo(a, r, "channels", Arr([]))
    ensures forall k :: k !in DefaultedKeys ==> Lookup(r, k) == Lookup(a, k)
  {
    var c1 := WithDefault(a, "dateFormat", Str(DefaultDateFormat));
    var c2 := WithDefault(c1, "timezone", Str(DefaultTimezone));
    var c3 := WithDefault(c2, "logFile", Str(DefaultLogFile));
    var c4 := WithDefault(c3, "logPath", Str(DefaultLogPath));
    var r := WithDefault(c4, "channels", Arr([]));
    assert Lookup(r, StrKey("dateFormat")) == Lookup(c1, StrKey("dateFormat"));
    assert Lookup(r, StrKey("timezone")) == Lookup(c2, StrKey("timezone"));
    assert Lookup(r, StrKey("logFile")) == Lookup(c3, StrKey("logFile"));
    assert Lookup(r, StrKey("logPath")) == Lookup(c4, StrKey("logPath"));
    assert Lookup(c1, StrKey("timezone")) == Lookup(a, StrKey("timezone"));
    assert Lookup(c2, StrKey("logFile")) == Lookup(a, StrKey("logFile"));
    assert Lookup(c3, StrKey("logPath")) == Lookup(a, StrKey("logPath"));
    assert Lookup(c4, StrKey("channels")) == Lookup(a, StrKey("channels"));
    r
  }

  /** The directory that a log file without an existing path is moved to. */
  function LogDir(host: Host, path: string): string {
    RootPath(host.base, Some(path)) + [Sep]
  }

  /**
   * Unless the log file already exists, logPath becomes root_path(logPath)
   * followed by a separator and logFile is moved below it.
   */
  function RelocateLogFile(host: Host, c: seq<Entry>): (r: Result<seq<Entry>, Error>)
    ensures CoerceString(Get(c, "logFile")).None? ==> r == Failure(TypeError)
    ensures CoerceString(Get(c, "logFile")).Some? && CoerceString(Get(c, "logFile")).value in host.files ==>
              r == Success(c)
    ensures r.Success? ==>
              forall k :: k != StrKey("logPath") && k != StrKey("logFile") ==> Lookup(r.value, k) == Lookup(c, k)
    ensures var file := CoerceString(Get(c, "logFile"));
            var path := CoerceString(Get(c, "logPath"));
            file.Some? && file.value !in host.files ==>
              && (path.None? ==> r == Failure(TypeError))
              && (path.Some? ==>
                    && r.Success?
                    && Get(r.value, "logPath") == Str(LogDir(host, path.value))
                    && Get(r.value, "logFile") == Str(LogDir(host, path.value) + file.value))
  {
    match CoerceString(Get(c, "logFile"))
    case None => Failure(TypeError)
    case Some(file) =>
      if file in host.files then Success(c)
      else
        match CoerceString(Get(c, "logPath"))
        case None => Failure(TypeError)
        case Some(path) =>
          var logPath := LogDir(host, path);
          var r := Put(Put(c, StrKey("logPath"), Str(logPath)), StrKey("logFile"), Str(logPath + file));
          assert Get(r, "logFile") != Get(c, "logFile");
          Success(r)
  }

  /** The five top-level keys that setConfigurationDefaults fills in are all set. */
  predicate HasDefaults(c: seq<Entry>) {
    && Isset(c, "dateFormat") && Isset(c, "timezone") && Isset(c, "logFile")
    && Isset(c, "logPath") && Isset(c, "channels")
  }

  /** setConfigurationDefaults(array $config): a non-array (such as null) is a TypeError. */
  function SetConfigurationDefaults(host: Host, config: Value): (r: Result<seq<Entry>, Error>)
    ensures !config.Arr? ==> r == Failure(TypeError)
    ensures r.Success? ==> HasDefaults(r.value)
  {
    if !config.Arr? then Failure(TypeError)
    else
      var c := ApplyDefaults(config.entries);
      var r := RelocateLogFile(host, c);
      if r.Success? && r.value != c then
        assert Lookup(r.value, StrKey("dateFormat")) == Lookup(c, StrKey("dateFormat"));
        assert Lookup(r.value, StrKey("timezone")) == Lookup(c, StrKey("timezone"));
        assert Lookup(r.value, StrKey("channels")) == Lookup(c, StrKey("channels"));
        r
      else
        r
  }

  // ------------------------------------------------------------------ merge

  /** `$config['channels'][$k] = $v` needs an array there (null and false become one). */
  function WritableArray(v: Value): Option<seq<Entry>> {
    match v
    case Arr(es) => Some(es)
    case Null => Some([])
    case Bool(b) => if b then None else Some([])
    case _ => None
  }

  /** One custom entry is acceptable: a string key and a value with a handler. */
  predicate GoodCustomEntry(e: Entry) {
    e.key.StrKey? && IssetIn(e.val, "handler")
  }

  /** One iteration of the foreach in mergeCustomChannels. */
  function MergeChannel(config: seq<Entry>, e: Entry): (r: Result<seq<Entry>, Error>)
    ensures !e.key.StrKey? ==> r == Failure(ConfigError(MalformedCustomChannel))
    ensures e.key.StrKey? && !IssetIn(e.val, "handler") ==> r == Failure(ConfigError(MissingHandler))
    ensures r.Success? <==> GoodCustomEntry(e) && WritableArray(Get(config, "channels")).Some?
    ensures r.Success? ==>
              var before := WritableArray(Get(config, "channels")).value;
              && Get(r.value, "channels") == Arr(Put(before, e.key, e.val))
              && forall k :: k != StrKey("channels") ==> Lookup(r.value, k) == Lookup(config, k)
  {
    if !e.key.StrKey? then Failure(ConfigError(MalformedCustomChannel))
    else if !IssetIn(e.val, "handler") then Failure(ConfigError(MissingHandler))
    else
      match WritableArray(Get(config, "channels"))
      case None => Failure(EngineError)
      case Some(channels) => Success(Put(config, StrKey("channels"), Arr(Put(channels, e.key, e.val))))
  }

  /** The foreach over `custom` from the entry `pending[0]` on. */
  function MergeFrom(config: seq<Entry>, pending: seq<Entry>): Result<seq<Entry>, Error>
    decreases |pending|
  {
    if pending == [] then Success(config)
    else
      var next :- MergeChannel(config, pending[0]);
      MergeFrom(next, pending[1..])
  }

  /** mergeCustomChannels($config, $custom): empty custom returns the config as it is. */
  function Merged(config: seq<Entry>, custom: seq<Entry>): Result<seq<Entry>, Error> {
    if custom == [] then Success(config) else MergeFrom(config, custom)
  }

  /** mergeCustomChannels, looping over the custom channels as the source does. */
  method MergeCustomChannels(config: seq<Entry>, custom: seq<Entry>) returns (r: Result<seq<Entry>, Error>)
    ensures r == Merged(config, custom)
    ensures custom == [] ==> r == Success(config)
  {
    if custom == [] {
      return Success(config);
    }
    var c := config;
    var i := 0;
    while i < |custom|
      invariant 0 <= i <= |custom|
      invariant MergeFrom(c, custom[i..]) == MergeFrom(config, custom)
    {
      assert custom[i..][0] == custom[i] && custom[i..][1..] == custom[i + 1..];
      var step := MergeChannel(c, custom[i]);
      if step.Failure? {
        return Failure(step.error);
      }
      c := step.value;
      i := i + 1;
    }
    return Success(c);
  }

  /** A merge succeeds only when every custom entry has a string key and a handler. */
  lemma {:induction false} MergeAcceptsOnlyGoodEntries(config: seq<Entry>, pending: seq<Entry>)
    requires MergeFrom(config, pending).Success?
    ensures forall i :: 0 <= i < |pending| ==> GoodCustomEntry(pending[i])
    decreases |pending|
  {
    if pending != [] {
      var next := MergeChannel(config, pending[0]).value;
      MergeAcceptsOnlyGoodEntries(next, pending[1..]);
      assert forall i :: 1 <= i < |pending| ==> pending[i] == pending[1..][i - 1];
    }
  }

  /**
   * A custom entry with a non-string key or without a handler makes the merge
   * throw LoggerConfigException, whatever surrounds it.
   */
  lemma {:induction false} MergeRejectsBadEntry(config: seq<Entry>, pending: seq<Entry>, i: nat)
    requires WritableArray(Get(config, "channels")).Some?
    requires i < |pending| && !GoodCustomEntry(pending[i])
    ensures MergeFrom(config, pending).Failure? && MergeFrom(config, pending).error.ConfigError?
    decreases |pending|
  {
    if GoodCustomEntry(pending[0]) {
      var next := MergeChannel(config, pending[0]).value;
      assert pending[1..][i - 1] == pending[i];
      MergeRejectsBadEntry(next, pending[1..], i - 1);
    }
  }

  /**
   * After a successful merge each custom channel replaces the same-named one
   * wholesale, every other channel is untouched, and so is every top-level key
   * other than `channels`.
   */
  lemma {:induction false} MergeReplacesWholesale(config: seq<Entry>, pending: seq<Entry>)
    requires DistinctKeys(pending)
    requires WritableArray(Get(config, "channels")).Some?
    requires MergeFrom(config, pending).Success?
    ensures var r := MergeFrom(config, pending).value;
            var before := WritableArray(Get(config, "channels")).value;
            && WritableArray(Get(r, "channels")).Some?
            && (forall k :: k in KeysOf(pending) ==> Lookup(WritableArray(Get(r, "channels")).value, k) == Lookup(pending, k))
            && (forall k :: k !in KeysOf(pending) ==> Lookup(WritableArray(Get(r, "channels")).value, k) == Lookup(before, k))
            && (forall k :: k != StrKey("channels") ==> Lookup(r, k) == Lookup(config, k))
    decreases |pending|
  {
    if pending != [] {
      var e := pending[0];
      var next := MergeChannel(config, e).value;
      assert DistinctKeys(pending[1..]);
      MergeReplacesWholesale(next, pending[1..]);
      assert KeysOf(pending) == [e.key] + KeysOf(pending[1..]);
      assert e.key !in KeysOf(pending[1..]) by {
        forall j | 0 <= j < |pending[1..]| ensures KeysOf(pending[1..])[j] != e.key {
          assert pending[1..][j] == pending[j + 1];
        }
      }
    }
  }

  // --------------------------------------------------------------- sanitise

  /** validateHandler(array $channel). */
  function ValidateHandler(classes: Classes, channel: Value): (r: Result<seq<Entry>, Error>)
    ensures !channel.Arr? ==> r == Failure(TypeError)
    ensures channel.Arr? && !Isset(channel.entries, "handler") ==> r == Failure(ConfigError(MissingHandler))
    ensures r.Success? <==>
              channel.Arr? && Isset(channel.entries, "handler")
              && HandlerClassOk(classes, Get(channel.entries, "handler"))
    ensures r.Success? ==> r.value == channel.entries
  {
    if !channel.Arr? then Failure(TypeError)
    else if !Isset(channel.entries, "handler") then Failure(ConfigError(MissingHandler))
    else
      var handler := Get(channel.entries, "handler");
      var c :- ReflectClass(classes, handler);
      if IsHandler(classes, c) then Success(channel.entries) else Failure(ConfigError(NotAHandler(handler)))
  }

  /** The value names a class that implements HandlerInterface. */
  predicate HandlerClassOk(classes: Classes, handler: Value) {
    ClassOf(classes, handler).Some? && IsHandler(classes, ClassOf(classes, handler).value)
  }

  /** sanitizeFormatter: a configured formatter must implement FormatterInterface. */
  function SanitizeFormatter(classes: Classes, channel: seq<Entry>): (r: Result<seq<Entry>, Error>)
    ensures !Isset(channel, "formatter") ==> r == Success(Put(channel, StrKey("formatter"), Obj(LineFormatterClass)))
    ensures Isset(channel, "formatter") ==>
              match ClassOf(classes, Get(channel, "formatter"))
              case None => r == Failure(TypeError)
              case Some(c) =>
                r == if IsFormatter(classes, c) then Success(channel)
                     else Failure(ConfigError(NotAFormatter(Get(channel, "formatter"))))
    ensures r.Success? ==>
              && Isset(r.value, "formatter")
              && forall k :: k != StrKey("formatter") ==> Lookup(r.value, k) == Lookup(channel, k)
  {
    if Isset(channel, "formatter") then
      var formatter := Get(channel, "formatter");
      match ClassOf(classes, formatter)
      case None => Failure(TypeError)
      case Some(c) =>
        if IsFormatter(classes, c) then Success(channel) else Failure(ConfigError(NotAFormatter(formatter)))
    else
      Success(Put(channel, StrKey("formatter"), Obj(LineFormatterClass)))
  }

  /**
   * sanitizeProcessor: a configured processor must implement
   * ProcessableHandlerInterface (the handler-side interface, as the source checks).
   */
  function SanitizeProcessor(classes: Classes, channel: seq<Entry>): (r: Result<seq<Entry>, Error>)
    ensures !Isset(channel, "processor") ==> r == Success(Put(channel, StrKey("processor"), Obj(PsrProcessorClass)))
    ensures Isset(channel, "processor") ==>
              match ClassOf(classes, Get(channel, "processor"))
              case None => r == Failure(TypeError)
              case Some(c) =>
                r == if IsProcessableHandler(classes, c) then Success(channel)
                     else Failure(ConfigError(NotAProcessor(Get(channel, "processor"))))
    ensures r.Success? ==>
              && Isset(r.value, "processor")
              && forall k :: k != StrKey("processor") ==> Lookup(r.value, k) == Lookup(channel, k)
  {
    if Isset(channel, "processor") then
      var processor := Get(channel, "processor");
      match ClassOf(classes, processor)
      case None => Failure(TypeError)
      case Some(c) =>
        if IsProcessableHandler(classes, c) then Success(channel) else Failure(ConfigError(NotAProcessor(processor)))
    else
      Success(Put(channel, StrKey("processor"), Obj(PsrProcessorClass)))
  }

  /**
   * The else branch of sanitizeSeverity: `isset(self::$severities[$level])`.
   * Arrays and objects are illegal offsets.
   */
  function NormaliseLevel(host: Host, level: Value): Result<Value, Error> {
    match level
    case Str(n) => if n in Severities then Success(Int(Severities[n])) else Success(Str(EnvLevel(host)))
    case Arr(_) => Failure(TypeError)
    case Obj(_) => Failure(TypeError)
    case _ => Success(Str(EnvLevel(host)))
  }

  /** sanitizeSeverity. */
  function SanitizeSeverity(host: Host, channel: seq<Entry>): (r: Result<seq<Entry>, Error>)
    ensures r.Success? ==>
              && Get(r.value, "config").Arr?
              && Lookup(Get(r.value, "config").entries, StrKey("level")).Some?
              && forall k :: k != StrKey("config") ==> Lookup(r.value, k) == Lookup(channel, k)
  {
    var config := Get(channel, "config");
    if !IssetIn(config, "level") then
      Success(Put(channel, StrKey("config"), Arr([Entry(StrKey("level"), SeverityOf(EnvLevel(host)))])))
    else
      var level :- NormaliseLevel(host, Get(config.entries, "level"));
      Success(Put(channel, StrKey("config"), Arr(Put(config.entries, StrKey("level"), level))))
  }

  /**
   * The severity rule. Without a level, `config` is replaced by exactly
   * {level: severities[env('LOG_LEVEL','debug')]}, dropping every other key.
   * A known severity name becomes its number; any other scalar, an already
   * numeric level included, becomes the string env('LOG_LEVEL','debug');
   * an array or object level fails. Nothing else in the channel changes.
   */
  lemma SeverityRule(host: Host, channel: seq<Entry>)
    ensures var config := Get(channel, "config");
            var r := SanitizeSeverity(host, channel);
            && (!IssetIn(config, "level") ==>
                  r.Success? && Get(r.value, "config") == Arr([Entry(StrKey("level"), SeverityOf(EnvLevel(host)))]))
            && (IssetIn(config, "level") ==>
                  var level := Get(config.entries, "level");
                  && (r.Failure? <==> level.Arr? || level.Obj?)
                  && (r.Success? ==>
                        && Get(r.value, "config").Arr?
                        && Get(Get(r.value, "config").entries, "level")
                           == (if level.Str? && level.s in Severities then Int(Severities[level.s]) else Str(EnvLevel(host)))
                        && forall k :: k != StrKey("level") ==>
                             Lookup(Get(r.value, "config").entries, k) == Lookup(config.entries, k)))
            && (r.Success? ==> forall k :: k != StrKey("config") ==> Lookup(r.value, k) == Lookup(channel, k))
  {
  }

  /**
   * Sanitising the severity twice is not sanitising it once: a level given
   * by name becomes a number, and that number is then not a name, so the
   * second pass replaces it by the string env('LOG_LEVEL','debug').
   */
  lemma SeverityNotIdempotent(host: Host, channel: seq<Entry>)
    requires IssetIn(Get(channel, "config"), "level")
    requires Get(Get(channel, "config").entries, "level").Str?
    requires Get(Get(channel, "config").entries, "level").s in Severities
    ensures SanitizeSeverity(host, channel).Success?
    ensures var once := SanitizeSeverity(host, channel).value;
            && Get(Get(once, "config").entries, "level").Int?
            && SanitizeSeverity(host, once).Success?
            && Get(Get(SanitizeSeverity(host, once).value, "config").entries, "level") == Str(EnvLevel(host))
  {
    SeverityRule(host, channel);
    var once := SanitizeSeverity(host, channel).value;
    SeverityRule(host, once);
  }

  /** sanitizeChannel: validate the handler, then formatter, processor and severity. */
  function SanitizeChannel(host: Host, classes: Classes, channel: Value): (r: Result<seq<Entry>, Error>)
    ensures !channel.Arr? ==> r == Failure(TypeError)
    ensures ValidateHandler(classes, channel).Failure? ==> r == Failure(ValidateHandler(classes, channel).error)
    ensures r.Success? ==> ValidateHandler(classes, channel).Success?
  {
    var c :- ValidateHandler(classes, channel);
    var c :- SanitizeFormatter(classes, c);
    var c :- SanitizeProcessor(classes, c);
    SanitizeSeverity(host, c)
  }

  /** What every channel looks like after sanitising. */
  predicate Sanitized(classes: Classes, channel: seq<Entry>) {
    && Isset(channel, "handler") && HandlerClassOk(classes, Get(channel, "handler"))
    && Isset(channel, "formatter")
    && Isset(channel, "processor")
    && Get(channel, "config").Arr?
    && Lookup(Get(channel, "config").entries, StrKey("level")).Some?
  }

  /**
   * A sanitised channel has a handler implementing HandlerInterface, a
   * formatter, a processor and a `config` array holding `level`; that level is
   * set (not null) unless env('LOG_LEVEL','debug') names no severity.
   * An absent formatter or processor becomes the default line formatter or
   * PSR message processor; a present one is kept.
   */
  lemma SanitizeChannelShape(host: Host, classes: Classes, channel: Value)
    requires SanitizeChannel(host, classes, channel).Success?
    ensures channel.Arr?
    ensures var r := SanitizeChannel(host, classes, channel).value;
            && Sanitized(classes, r)
            && Get(r, "formatter") == (if Isset(channel.entries, "formatter") then Get(channel.entries, "formatter") else Obj(LineFormatterClass))
            && Get(r, "processor") == (if Isset(channel.entries, "processor") then Get(channel.entries, "processor") else Obj(PsrProcessorClass))
  {
    var v1 := ValidateHandler(classes, channel);
    assert v1.Success?;
    var c1 := v1.value;
    var v2 := SanitizeFormatter(classes, c1);
    assert v2.Success?;
    var c2 := v2.value;
    var v3 := SanitizeProcessor(classes, c2);
    assert v3.Success?;
    var c3 := v3.value;
    var r := SanitizeSeverity(host, c3).value;
    FormatterStep(classes, c1);
    ProcessorStep(classes, c2);
    SeverityKeeps(host, c3, StrKey("handler"));
    SeverityKeeps(host, c3, StrKey("formatter"));
    SeverityKeeps(host, c3, StrKey("processor"));
  }

  /** What the formatter step keeps and sets. */
  lemma FormatterStep(classes: Classes, c1: seq<Entry>)
    requires SanitizeFormatter(classes, c1).Success?
    ensures var c2 := SanitizeFormatter(classes, c1).value;
            && Lookup(c2, StrKey("handler")) == Lookup(c1, StrKey("handler"))
            && Lookup(c2, StrKey("processor")) == Lookup(c1, StrKey("processor"))
            && Isset(c2, "formatter")
            && Get(c2, "formatter") == (if Isset(c1, "formatter") then Get(c1, "formatter") else Obj(LineFormatterClass))
  {
  }

  /** What the processor step keeps and sets. */
  lemma ProcessorStep(classes: Classes, c2: seq<Entry>)
    requires SanitizeProcessor(classes, c2).Success?
    ensures var c3 := SanitizeProcessor(classes, c2).value;
            && Lookup(c3, StrKey("handler")) == Lookup(c2, StrKey("handler"))
            && Lookup(c3, StrKey("formatter")) == Lookup(c2, StrKey("formatter"))
            && Isset(c3, "processor")
            && Get(c3, "processor") == (if Isset(c2, "processor") then Get(c2, "processor") else Obj(PsrProcessorClass))
  {
  }

  /** The severity step keeps every key other than `config`. */
  lemma SeverityKeeps(host: Host, c3: seq<Entry>, k: Key)
    requires k != StrKey("config")
    requires SanitizeSeverity(host, c3).Success?
    ensures Lookup(SanitizeSeverity(host, c3).value, k) == Lookup(c3, k)
  {
  }

  /** sanitizeChannel as a value, for the loop below. */
  function ChannelSanitizer(host: Host, classes: Classes): Value -> Result<seq<Entry>, Error> {
    c => SanitizeChannel(host, classes, c)
  }

  /**
   * The foreach of sanitizeConfiguration from the entry `pending[0]` on: each
   * channel is read from the table as it stands and written back after `step`.
   */
  function SanitizeFrom(step: Value -> Result<seq<Entry>, Error>, channels: seq<Entry>, pending: seq<Entry>): Result<seq<Entry>, Error>
    decreases |pending|
  {
    if pending == [] then Success(channels)
    else
      var k := pending[0].key;
      var s :- step(At(channels, k));
      SanitizeFrom(step, Put(channels, k, Arr(s)), pending[1..])
  }

  /**
   * sanitizeConfiguration: every channel is sanitised in place. A `channels`
   * entry that is not an array is skipped by foreach (with a warning).
   */
  function SanitizedConfiguration(host: Host, classes: Classes, config: seq<Entry>): Result<seq<Entry>, Error> {
    var channels := Get(config, "channels");
    if !channels.Arr? then Success(config)
    else
      var cs :- SanitizeFrom(ChannelSanitizer(host, classes), channels.entries, channels.entries);
      Success(Put(config, StrKey("channels"), Arr(cs)))
  }

  /** sanitizeConfiguration, looping over the channels as the source does. */
  method SanitizeConfiguration(host: Host, classes: Classes, config: seq<Entry>) returns (r: Result<seq<Entry>, Error>)
    ensures r == SanitizedConfiguration(host, classes, config)
  {
    var channels := Get(config, "channels");
    if !channels.Arr? {
      return Success(config);
    }
    ghost var step := ChannelSanitizer(host, classes);
    var pending := channels.entries;
    var cs := channels.entries;
    var i := 0;
    while i < |pending|
      invariant 0 <= i <= |pending|
      invariant SanitizeFrom(step, cs, pending[i..]) == SanitizeFrom(step, pending, pending)
    {
      assert pending[i..][0] == pending[i] && pending[i..][1..] == pending[i + 1..];
      var k := pending[i].key;
      var s := SanitizeChannel(host, classes, At(cs, k));
      assert s == step(At(cs, k));
      if s.Failure? {
        return Failure(s.error);
      }
      cs := Put(cs, k, Arr(s.value));
      i := i + 1;
    }
    return Success(Put(config, StrKey("channels"), Arr(cs)));
  }

  /** The entries after the first of an array with distinct keys lack the first key. */
  lemma TailLacksHeadKey(a: seq<Entry>)
    requires a != [] && DistinctKeys(a)
    ensures DistinctKeys(a[1..])
    ensures KeysOf(a) == [a[0].key] + KeysOf(a[1..])
    ensures a[0].key !in KeysOf(a[1..])
  {
    forall j | 0 <= j < |a[1..]| ensures KeysOf(a[1..])[j] != a[0].key {
      assert a[1..][j] == a[j + 1];
    }
  }

  /**
   * With distinct channel names (as in any PHP array), the loop keeps the
   * channel order and replaces each channel by `step` of its original value;
   * channels not iterated are untouched.
   */
  lemma {:induction false} SanitizeFromResult(step: Value -> Result<seq<Entry>, Error>, channels: seq<Entry>, pending: seq<Entry>)
    requires DistinctKeys(pending)
    requires forall i :: 0 <= i < |pending| ==> Lookup(channels, pending[i].key) == Some(pending[i].val)
    requires SanitizeFrom(step, channels, pending).Success?
    ensures var r := SanitizeFrom(step, channels, pending).value;
            && KeysOf(r) == KeysOf(channels)
            && (forall i :: 0 <= i < |pending| ==>
                  step(pending[i].val).Success? && Lookup(r, pending[i].key) == Some(Arr(step(pending[i].val).value)))
            && (forall k :: k !in KeysOf(pending) ==> Lookup(r, k) == Lookup(channels, k))
    decreases |pending|
  {
    if pending != [] {
      var k := pending[0].key;
      assert At(channels, k) == pending[0].val;
      var s := step(pending[0].val).value;
      var next := Put(channels, k, Arr(s));
      PutKeys(channels, k, Arr(s));
      LookupFinds(channels, k);
      TailLacksHeadKey(pending);
      forall i | 0 <= i < |pending[1..]|
        ensures Lookup(next, pending[1..][i].key) == Some(pending[1..][i].val)
      {
        assert pending[1..][i] == pending[i + 1];
      }
      SanitizeFromResult(step, next, pending[1..]);
      forall i | 1 <= i < |pending| ensures pending[i] == pending[1..][i - 1] { }
    }
  }

  /**
   * The first channel, in order, that fails to sanitise decides the exception,
   * and no configuration is returned.
   */
  lemma {:induction false} SanitizeFromFirstFailure(step: Value -> Result<seq<Entry>, Error>, channels: seq<Entry>, pending: seq<Entry>, i: nat)
    requires DistinctKeys(pending)
    requires forall j :: 0 <= j < |pending| ==> Lookup(channels, pending[j].key) == Some(pending[j].val)
    requires i < |pending| && step(pending[i].val).Failure?
    requires forall j :: 0 <= j < i ==> step(pending[j].val).Success?
    ensures SanitizeFrom(step, channels, pending) == Failure(step(pending[i].val).error)
    decreases |pending|
  {
    var k := pending[0].key;
    assert At(channels, k) == pending[0].val;
    if i > 0 {
      var s := step(pending[0].val).value;
      var next := Put(channels, k, Arr(s));
      TailLacksHeadKey(pending);
      forall j | 0 <= j < |pending[1..]|
        ensures Lookup(next, pending[1..][j].key) == Some(pending[1..][j].val)
      {
        assert pending[1..][j] == pending[j + 1];
      }
      assert pending[1..][i - 1] == pending[i];
      forall j | 0 <= j < i - 1 ensures step(pending[1..][j].val).Success? {
        assert pending[1..][j] == pending[j + 1];
      }
      SanitizeFromFirstFailure(step, next, pending[1..], i - 1);
    }
  }

  // ---------------------------------------------------------------- resolve

  /** ResolveConfig::resolve($custom): read, default, merge, sanitise. */
  function Resolved(host: Host, classes: Classes, custom: seq<Entry>): Result<seq<Entry>, Error> {
    var config :- SetConfigurationDefaults(host, ReadConfigFile(host));
    var config :- Merged(config, custom);
    SanitizedConfiguration(host, classes, config)
  }

  /** resolve, running the four steps in order. */
  method Resolve(host: Host, classes: Classes, custom: seq<Entry>) returns (r: Result<seq<Entry>, Error>)
    ensures r == Resolved(host, classes, custom)
  {
    var defaults := SetConfigurationDefaults(host, ReadConfigFile(host));
    if defaults.Failure? {
      return Failure(defaults.error);
    }
    var merged := MergeCustomChannels(defaults.value, custom);
    if merged.Failure? {
      return Failure(merged.error);
    }
    r := SanitizeConfiguration(host, classes, merged.value);
  }

  /** Without any configuration file, readConfigFile gives null and resolve fails with a TypeError. */
  lemma NoConfigFileFails(host: Host, classes: Classes, custom: seq<Entry>)
    requires ConfigPath(host.base, Some(ConfigFile)) !in host.files
    requires RootPath(host.base, Some(PackageConfigPath + ConfigFile)) !in host.files
    ensures Resolved(host, classes, custom) == Failure(TypeError)
  {
  }

  /**
   * After resolve the five top-level keys are set, each holding what
   * setConfigurationDefaults gave it except `channels`, which is an array.
   */
  lemma ResolvedTopLevel(host: Host, classes: Classes, custom: seq<Entry>)
    requires Resolved(host, classes, custom).Success?
    ensures var d := SetConfigurationDefaults(host, ReadConfigFile(host));
            var r := Resolved(host, classes, custom).value;
            && d.Success?
            && HasDefaults(r)
            && (forall k :: k != StrKey("channels") ==> Lookup(r, k) == Lookup(d.value, k))
  {
    var d := SetConfigurationDefaults(host, ReadConfigFile(host)).value;
    var m := Merged(d, custom).value;
    if custom != [] {
      MergeTopLevel(d, custom);
      MergeChannelsWritable(d, custom);
    }
    assert Isset(m, "channels");
  }

  /** The merge touches no top-level key except `channels`. */
  lemma {:induction false} MergeTopLevel(config: seq<Entry>, pending: seq<Entry>)
    requires MergeFrom(config, pending).Success?
    ensures forall k :: k != StrKey("channels") ==> Lookup(MergeFrom(config, pending).value, k) == Lookup(config, k)
    decreases |pending|
  {
    if pending != [] {
      MergeTopLevel(MergeChannel(config, pending[0]).value, pending[1..]);
    }
  }

  /** A merge that writes a channel leaves `channels` set to an array. */
  lemma {:induction false} MergeChannelsWritable(config: seq<Entry>, pending: seq<Entry>)
    requires pending != [] && MergeFrom(config, pending).Success?
    ensures Get(MergeFrom(config, pending).value, "channels").Arr?
    decreases |pending|
  {
    var next := MergeChannel(config, pending[0]).value;
    if pending[1..] != [] {
      MergeChannelsWritable(next, pending[1..]);
    }
  }

  /**
   * A custom channel reaches the resolved configuration as sanitizeChannel of
   * the custom value alone: nothing of a same-named channel in the file survives.
   */
  lemma CustomChannelResolved(host: Host, classes: Classes, custom: seq<Entry>, i: nat)
    requires DistinctKeys(custom) && i < |custom|
    requires SetConfigurationDefaults(host, ReadConfigFile(host)).Success?
    requires var d := SetConfigurationDefaults(host, ReadConfigFile(host)).value;
             Get(d, "channels").Arr? && DistinctKeys(Get(d, "channels").entries)
    requires Resolved(host, classes, custom).Success?
    ensures var channels := Get(Resolved(host, classes, custom).value, "channels");
            && channels.Arr?
            && SanitizeChannel(host, classes, custom[i].val).Success?
            && Lookup(channels.entries, custom[i].key) == Some(Arr(SanitizeChannel(host, classes, custom[i].val).value))
  {
    var d := SetConfigurationDefaults(host, ReadConfigFile(host)).value;
    ResolvedChannels(host, classes, custom);
    var j := MergedCustomEntry(d, custom, i);
    var chs := Get(Merged(d, custom).value, "channels").entries;
    var step := ChannelSanitizer(host, classes);
    SanitizedTable(step, chs);
    LookupAt(SanitizeFrom(step, chs, chs).value, j);
  }

  /** The custom entry `custom[i]` sits, key and value, at some index of the merged channel table. */
  lemma MergedCustomEntry(d: seq<Entry>, custom: seq<Entry>, i: nat) returns (j: nat)
    requires DistinctKeys(custom) && i < |custom|
    requires Get(d, "channels").Arr? && DistinctKeys(Get(d, "channels").entries)
    requires Merged(d, custom).Success?
    ensures var chs := Get(Merged(d, custom).value, "channels");
            && chs.Arr? && DistinctKeys(chs.entries)
            && j < |chs.entries| && chs.entries[j] == custom[i]
  {
    MergeReplacesWholesale(d, custom);
    MergedChannelsDistinct(d, custom);
    MergeChannelsWritable(d, custom);
    var chs := Get(Merged(d, custom).value, "channels").entries;
    var key := custom[i].key;
    LookupAt(custom, i);
    assert key == KeysOf(custom)[i];
    assert Lookup(chs, key) == Some(custom[i].val);
    LookupFinds(chs, key);
    j :| 0 <= j < |chs| && KeysOf(chs)[j] == key;
    LookupAt(chs, j);
  }

  /** resolve's result, step by step: defaults, merge, then the sanitised channel table. */
  lemma ResolvedChannels(host: Host, classes: Classes, custom: seq<Entry>)
    requires Resolved(host, classes, custom).Success?
    ensures var d := SetConfigurationDefaults(host, ReadConfigFile(host));
            && d.Success?
            && Merged(d.value, custom).Success?
            && var m := Merged(d.value, custom).value;
               Get(m, "channels").Arr? ==>
                 var chs := Get(m, "channels").entries;
                 && SanitizeFrom(ChannelSanitizer(host, classes), chs, chs).Success?
                 && Get(Resolved(host, classes, custom).value, "channels")
                    == Arr(SanitizeFrom(ChannelSanitizer(host, classes), chs, chs).value)
  {
  }

  /**
   * Sanitising a channel table with distinct names keeps the names in order
   * and replaces each channel by `step` of its value.
   */
  lemma SanitizedTable(step: Value -> Result<seq<Entry>, Error>, chs: seq<Entry>)
    requires DistinctKeys(chs)
    requires SanitizeFrom(step, chs, chs).Success?
    ensures var r := SanitizeFrom(step, chs, chs).value;
            && |r| == |chs| && DistinctKeys(r)
            && forall j :: 0 <= j < |r| ==>
                 r[j].key == chs[j].key && step(chs[j].val).Success? && r[j].val == Arr(step(chs[j].val).value)
  {
    forall j | 0 <= j < |chs| ensures Lookup(chs, chs[j].key) == Some(chs[j].val) {
      LookupAt(chs, j);
    }
    SanitizeFromResult(step, chs, chs);
    var r := SanitizeFrom(step, chs, chs).value;
    assert DistinctKeys(r) by {
      forall a, b | 0 <= a < b < |r| ensures r[a].key != r[b].key {
        assert r[a].key == KeysOf(chs)[a] && r[b].key == KeysOf(chs)[b];
      }
    }
    forall j | 0 <= j < |r|
      ensures r[j].key == chs[j].key && step(chs[j].val).Success? && r[j].val == Arr(step(chs[j].val).value)
    {
      assert r[j].key == KeysOf(r)[j] == KeysOf(chs)[j] == chs[j].key;
      LookupAt(r, j);
      LookupAt(chs, j);
      assert chs[j].key in KeysOf(chs);
    }
  }

  /** The merged channel table still has distinct names. */
  lemma {:induction false} MergedChannelsDistinct(config: seq<Entry>, pending: seq<Entry>)
    requires Get(config, "channels").Arr? && DistinctKeys(Get(config, "channels").entries)
    requires MergeFrom(config, pending).Success?
    ensures Get(MergeFrom(config, pending).value, "channels").Arr?
    ensures DistinctKeys(Get(MergeFrom(config, pending).value, "channels").entries)
    decreases |pending|
  {
    if pending != [] {
      var e := pending[0];
      PutKeepsKeysDistinct(Get(config, "channels").entries, e.key, e.val);
      MergedChannelsDistinct(MergeChannel(config, e).value, pending[1..]);
    }
  }

  /**
   * With distinct channel names, every channel of the resolved configuration is
   * sanitised: handler, formatter, processor and config.level are all present.
   */
  lemma ResolvedChannelsSanitized(host: Host, classes: Classes, custom: seq<Entry>)
    requires DistinctKeys(custom)
    requires SetConfigurationDefaults(host, ReadConfigFile(host)).Success?
    requires var d := SetConfigurationDefaults(host, ReadConfigFile(host)).value;
             Get(d, "channels").Arr? && DistinctKeys(Get(d, "channels").entries)
    requires Resolved(host, classes, custom).Success?
    ensures var channels := Get(Resolved(host, classes, custom).value, "channels");
            && channels.Arr?
            && forall j :: 0 <= j < |channels.entries| ==>
                 channels.entries[j].val.Arr? && Sanitized(classes, channels.entries[j].val.entries)
  {
    var d := SetConfigurationDefaults(host, ReadConfigFile(host)).value;
    ResolvedChannels(host, classes, custom);
    var m := Merged(d, custom).value;
    if custom != [] {
      MergedChannelsDistinct(d, custom);
    }
    var chs := Get(m, "channels").entries;
    var step := ChannelSanitizer(host, classes);
    SanitizedTable(step, chs);
    var r := SanitizeFrom(step, chs, chs).value;
    forall j | 0 <= j < |r| ensures r[j].val.Arr? && Sanitized(classes, r[j].val.entries) {
      assert step(chs[j].val) == SanitizeChannel(host, classes, chs[j].val);
      SanitizeChannelShape(host, classes, chs[j].val);
    }
  }
}
