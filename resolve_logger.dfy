/**
 * ResolveLogger: holds the resolved configuration, selects a channel, binds
 * the handler's constructor parameters to the channel's settings, and builds
 * the handler instance.
 */
module LoggerResolution {
  import opened Results
  import opened PhpValues
  import opened Runtime
  import opened Helpers
  import opened ResolveConfig

  /** The three fields of a ResolveLogger. A channel never set is None. */
  datatype ResolverState = ResolverState(config: seq<Entry>, channel: Option<string>, arguments: seq<Value>)

  const NoArgumentsMessage := "Can not create handler instance. Please use setConfig or setHandler upfront."
  const NotAHandlerMessage := "Given handler is not instance of HandlerInterface: "
  const MissingKeyMessage := "Configuration key not found. Key: "

  function ChannelNotFoundMessage(c: string): string {
    "Failed to set channel. Configuration for channel \"" + c + "\" not found."
  }

  // ------------------------------------------------------------ parameters

  /** The declared default fits the cast: null, or a value of the named type. */
  predicate Fits(v: Value, typeName: Option<string>) {
    && (typeName == Some("string") ==> v.Null? || v.Str?)
    && (typeName == Some("int") ==> v.Null? || v.Int?)
    && (typeName == Some("bool") ==> v.Null? || v.Bool?)
  }

  /**
   * castParameter: `(string)`, `(int)` or `(bool)` for those three type names;
   * any other type name, or none, passes the value through.
   */
  function CastParameter(v: Value, typeName: Option<string>): (r: Value)
    requires Fits(v, typeName)
    ensures typeName == Some("string") ==> r.Str? && (v.Str? ==> r == v) && (v.Null? ==> r == Str(""))
    ensures typeName == Some("int") ==> r.Int? && (v.Int? ==> r == v) && (v.Null? ==> r == Int(0))
    ensures typeName == Some("bool") ==> r.Bool? && (v.Bool? ==> r == v) && (v.Null? ==> r == Bool(false))
    ensures typeName != Some("string") && typeName != Some("int") && typeName != Some("bool") ==> r == v
  {
    if typeName == Some("string") then (if v.Null? then Str("") else v)
    else if typeName == Some("int") then (if v.Null? then Int(0) else v)
    else if typeName == Some("bool") then (if v.Null? then Bool(false) else v)
    else v
  }

  /**
   * extractParameters: the name, and the declared default (null if none) after
   * casting. A declared default comes back unchanged; a missing one becomes the
   * cast of null for the three scalar types, and null for any other type.
   */
  function ExtractParameters(p: Param): (r: (string, Value))
    requires DefaultFits(p)
    ensures r.0 == p.name
    ensures p.default.Some? ==> r.1 == p.default.value
    ensures p.default.None? ==>
              r.1 == if p.typeName == Some("string") then Str("")
                     else if p.typeName == Some("int") then Int(0)
                     else if p.typeName == Some("bool") then Bool(false)
                     else Null
  {
    (p.name, CastParameter(if p.default.Some? then p.default.value else Null, p.typeName))
  }

  /**
   * A configured `filename` or `stream`: kept as it is when it contains a
   * directory separator, otherwise put below `logPath`.
   */
  function FileArgument(logPath: Value, file: Value): Result<Value, Error> {
    match CoerceString(file)
    case None => Failure(TypeError)
    case Some(f) =>
      if Sep in f then Success(file)
      else
        match ToPhpString(logPath)
        case None => Failure(EngineError)
        case Some(p) => Success(Str(p + f))
  }

  /** One iteration of the loop in buildHandlerArguments. */
  function ArgumentFor(logPath: Value, logFile: Value, cfg: seq<Entry>, p: Param): Result<Value, Error>
    requires DefaultFits(p)
  {
    var (name, default) := ExtractParameters(p);
    var arg := if Isset(cfg, name) then Get(cfg, name) else default;
    var arg :- if name == "filename" && Isset(cfg, "filename") then FileArgument(logPath, Get(cfg, "filename")) else Success(arg);
    var arg :- if name == "stream" && Isset(cfg, "stream") then FileArgument(logPath, Get(cfg, "stream")) else Success(arg);
    if (name == "filename" || name == "stream") && !Isset(cfg, "filename") && !Isset(cfg, "stream") then Success(logFile)
    else Success(arg)
  }

  predicate AllFit(params: seq<Param>) {
    forall i :: 0 <= i < |params| ==> DefaultFits(params[i])
  }

  /** buildHandlerArguments: one argument per parameter, the first failure ends it. */
  function HandlerArguments(logPath: Value, logFile: Value, cfg: seq<Entry>, params: seq<Param>): Result<seq<Value>, Error>
    requires AllFit(params)
    decreases |params|
  {
    if params == [] then Success([])
    else
      var a :- ArgumentFor(logPath, logFile, cfg, params[0]);
      var rest :- HandlerArguments(logPath, logFile, cfg, params[1..]);
      Success([a] + rest)
  }

  /** The arguments bound so far, before the outcome of binding the rest. */
  function Prepend(args: seq<Value>, rest: Result<seq<Value>, Error>): Result<seq<Value>, Error> {
    match rest
    case Success(more) => Success(args + more)
    case Failure(e) => Failure(e)
  }

  lemma PrependNothing(r: Result<seq<Value>, Error>)
    ensures Prepend([], r) == r
  {
    if r.Success? {
      assert [] + r.value == r.value;
    }
  }

  lemma PrependOne(args: seq<Value>, a: Value, rest: Result<seq<Value>, Error>)
    ensures Prepend(args, (var more :- rest; Success([a] + more))) == Prepend(args + [a], rest)
  {
    if rest.Success? {
      assert args + ([a] + rest.value) == args + [a] + rest.value;
    }
  }

  /** A successful binding has exactly one argument per parameter, in declaration order. */
  lemma {:induction false} ArgumentsPerParameter(logPath: Value, logFile: Value, cfg: seq<Entry>, params: seq<Param>)
    requires AllFit(params)
    requires HandlerArguments(logPath, logFile, cfg, params).Success?
    ensures var args := HandlerArguments(logPath, logFile, cfg, params).value;
            && |args| == |params|
            && forall i :: 0 <= i < |params| ==> ArgumentFor(logPath, logFile, cfg, params[i]) == Success(args[i])
    decreases |params|
  {
    if params != [] {
      ArgumentsPerParameter(logPath, logFile, cfg, params[1..]);
      var args := HandlerArguments(logPath, logFile, cfg, params).value;
      forall i | 1 <= i < |params| ensures ArgumentFor(logPath, logFile, cfg, params[i]) == Success(args[i]) {
        assert params[i] == params[1..][i - 1];
      }
    }
  }

  /** Binding fails exactly when some parameter fails, and then with the first such failure. */
  lemma {:induction false} ArgumentsFirstFailure(logPath: Value, logFile: Value, cfg: seq<Entry>, params: seq<Param>, i: nat)
    requires AllFit(params)
    requires i < |params| && ArgumentFor(logPath, logFile, cfg, params[i]).Failure?
    requires forall j :: 0 <= j < i ==> ArgumentFor(logPath, logFile, cfg, params[j]).Success?
    ensures HandlerArguments(logPath, logFile, cfg, params) == Failure(ArgumentFor(logPath, logFile, cfg, params[i]).error)
    decreases |params|
  {
    if i > 0 {
      assert params[1..][i - 1] == params[i];
      forall j | 0 <= j < i - 1 ensures ArgumentFor(logPath, logFile, cfg, params[1..][j]).Success? {
        assert params[1..][j] == params[j + 1];
      }
      ArgumentsFirstFailure(logPath, logFile, cfg, params[1..], i - 1);
    }
  }

  /**
   * The binding rules for one parameter:
   * a parameter named neither `filename` nor `stream` gets its configured,
   * non-null value, else its cast default (configured values are never cast);
   * a configured `filename` (`stream`) is kept when it holds a separator and
   * put below `logPath` otherwise;
   * with neither configured, both names get the top-level `logFile`;
   * with only the other one configured, the parameter keeps its cast default.
   */
  lemma ArgumentRules(logPath: Value, logFile: Value, cfg: seq<Entry>, p: Param)
    requires DefaultFits(p)
    ensures var r := ArgumentFor(logPath, logFile, cfg, p);
            var default := ExtractParameters(p).1;
            && (p.name != "filename" && p.name != "stream" ==>
                  r == Success(if Isset(cfg, p.name) then Get(cfg, p.name) else default))
            && (p.name == "filename" && Isset(cfg, "filename") ==> r == FileArgument(logPath, Get(cfg, "filename")))
            && (p.name == "stream" && Isset(cfg, "stream") ==> r == FileArgument(logPath, Get(cfg, "stream")))
            && ((p.name == "filename" || p.name == "stream") && !Isset(cfg, "filename") && !Isset(cfg, "stream") ==>
                  r == Success(logFile))
            && (p.name == "filename" && !Isset(cfg, "filename") && Isset(cfg, "stream") ==> r == Success(default))
            && (p.name == "stream" && !Isset(cfg, "stream") && Isset(cfg, "filename") ==> r == Success(default))
  {
  }

  /**
   * A configured file name with a separator is passed through untouched; one
   * without is appended to the text of `logPath`.
   */
  lemma FileArgumentRule(logPath: string, file: string)
    ensures Sep in file ==> FileArgument(Str(logPath), Str(file)) == Success(Str(file))
    ensures Sep !in file ==> FileArgument(Str(logPath), Str(file)) == Success(Str(logPath + file))
  {
  }

  // ---------------------------------------------------------------- channel

  /** `$this->config['channels'][$channel]`. */
  function ChannelValue(config: seq<Entry>, c: string): Value {
    GetIn(Get(config, "channels"), c)
  }

  /** `isset($this->config['channels'][$channel])`. */
  predicate HasChannel(config: seq<Entry>, c: string) {
    IssetIn(Get(config, "channels"), c)
  }

  /** resolveContructorParameters: the handler's constructor parameters. */
  function ConstructorParameters(classes: Classes, handler: Value): (r: Result<seq<Param>, Error>)
    ensures r.Success? <==>
              ClassOf(classes, handler).Some? && IsHandler(classes, ClassOf(classes, handler).value)
              && ClassOf(classes, handler).value in classes.constructors
    ensures r.Success? ==> r.value == classes.constructors[ClassOf(classes, handler).value]
    ensures ClassOf(classes, handler).Some? && !IsHandler(classes, ClassOf(classes, handler).value) && handler.Str? ==>
              r == Failure(ResolveError(NotAHandlerMessage + handler.s))
  {
    var c :- ReflectClass(classes, handler);
    if !IsHandler(classes, c) then
      match ToPhpString(handler)
      case None => Failure(EngineError)
      case Some(t) => Failure(ResolveError(NotAHandlerMessage + t))
    else if c !in classes.constructors then Failure(EngineError)
    else Success(classes.constructors[c])
  }

  /** `$this->config['channels'][$channel]['config'] ?? []`. */
  function ChannelConfig(channelValue: Value): Value {
    if IssetIn(channelValue, "config") then GetIn(channelValue, "config") else Arr([])
  }

  /** The arguments setChannel binds for an existing channel. */
  function ChannelArguments(classes: Classes, config: seq<Entry>, c: string): Result<seq<Value>, Error>
    requires WellTyped(classes)
  {
    var chv := ChannelValue(config, c);
    var params :- ConstructorParameters(classes, GetIn(chv, "handler"));
    var cfg := ChannelConfig(chv);
    if !cfg.Arr? then Failure(TypeError)
    else HandlerArguments(Get(config, "logPath"), Get(config, "logFile"), cfg.entries, params)
  }

  /**
   * setChannel: an unknown channel throws before anything changes; otherwise
   * the channel is recorded first, and the arguments only once they are bound.
   */
  function AfterSetChannel(classes: Classes, s: ResolverState, c: string): (ResolverState, Outcome<Error>)
    requires WellTyped(classes)
  {
    if !HasChannel(s.config, c) then (s, Fail(ResolveError(ChannelNotFoundMessage(c))))
    else
      match ChannelArguments(classes, s.config, c)
      case Success(args) => (s.(channel := Some(c), arguments := args), Pass)
      case Failure(e) => (s.(channel := Some(c)), Fail(e))
  }

  /** setChannel never touches the configuration, and fails on an unknown channel without any change. */
  lemma SetChannelRule(classes: Classes, s: ResolverState, c: string)
    requires WellTyped(classes)
    ensures var (t, o) := AfterSetChannel(classes, s, c);
            && t.config == s.config
            && (!HasChannel(s.config, c) ==> t == s && o == Fail(ResolveError(ChannelNotFoundMessage(c))))
            && (HasChannel(s.config, c) ==> t.channel == Some(c))
            && (o.Pass? <==> HasChannel(s.config, c) && ChannelArguments(classes, s.config, c).Success?)
            && (o.Pass? ==> t.arguments == ChannelArguments(classes, s.config, c).value)
            && (o.Fail? ==> t.arguments == s.arguments)
  {
  }

  // --------------------------------------------------------------- instance

  /** `new $v`: a declared class name or an object; anything else is an Error. */
  function NewClass(classes: Classes, v: Value): Result<string, Error> {
    match ClassOf(classes, v)
    case Some(c) => Success(c)
    case None => Failure(EngineError)
  }

  /** `new c(...$args)`: an object of class `c`, unless its constructor throws. */
  function Construct(classes: Classes, c: string, args: seq<Value>): Result<string, Error> {
    match classes.construct(c, args)
    case None => Success(c)
    case Some(m) => Failure(Raised(m))
  }

  /**
   * The formatter attached to a new handler of class `cls`, if any.
   * setFormatter takes a FormatterInterface: any other object is a TypeError.
   */
  function AttachFormatter(classes: Classes, cls: string, formatter: Value): Result<Option<string>, Error> {
    if IsFormattableHandler(classes, cls) && formatter != Null then
      var c :- NewClass(classes, formatter);
      var f :- Construct(classes, c, []);
      if !IsFormatter(classes, f) then Failure(TypeError) else Success(Some(f))
    else Success(None)
  }

  /**
   * The processors pushed onto a new handler of class `cls`.
   * pushProcessor takes a callable: an object without `__invoke` is a TypeError.
   */
  function AttachProcessor(classes: Classes, cls: string, processor: Value): Result<seq<string>, Error> {
    if IsProcessableHandler(classes, cls) && processor != Null then
      var c :- NewClass(classes, processor);
      var p :- Construct(classes, c, []);
      if !IsInvokable(classes, p) then Failure(TypeError) else Success([p])
    else Success([])
  }

  /** The key `$this->channel` reads as: a channel never set is null, i.e. "". */
  function ChannelKey(s: ResolverState): string {
    if s.channel.Some? then s.channel.value else ""
  }

  /** The body of the try block in createInstance after its first check. */
  function BuildHandler(classes: Classes, s: ResolverState): Result<Handler, Error> {
    var chv := ChannelValue(s.config, ChannelKey(s));
    var c :- NewClass(classes, GetIn(chv, "handler"));
    var cls :- Construct(classes, c, s.arguments);
    var f :- AttachFormatter(classes, cls, GetIn(chv, "formatter"));
    var p :- AttachProcessor(classes, cls, GetIn(chv, "processor"));
    Success(Handler(cls, s.arguments, f, p))
  }

  /**
   * createInstance: with no bound arguments it refuses; every failure is
   * rethrown as ResolveLoggerException with the original message.
   */
  function Instantiate(classes: Classes, s: ResolverState): (r: Result<Handler, Error>)
    ensures s.arguments == [] ==> r == Failure(ResolveError(NoArgumentsMessage))
    ensures r.Failure? ==> r.error.ResolveError?
    ensures s.arguments != [] && BuildHandler(classes, s).Failure? ==>
              r == Failure(ResolveError(Message(BuildHandler(classes, s).error)))
    ensures s.arguments != [] && BuildHandler(classes, s).Success? ==> r == BuildHandler(classes, s)
    ensures r.Success? ==> r == BuildHandler(classes, s) && r.value.args == s.arguments
  {
    if s.arguments == [] then Failure(ResolveError(NoArgumentsMessage))
    else
      match BuildHandler(classes, s)
      case Success(h) => Success(h)
      case Failure(e) => Failure(ResolveError(Message(e)))
  }

  /**
   * Building succeeds exactly when the handler names a class whose constructor
   * accepts the bound arguments, an attached formatter names a formatter class
   * constructible without arguments, and an attached processor names an
   * invokable class constructible without arguments.
   */
  lemma BuildHandlerRule(classes: Classes, s: ResolverState)
    ensures var chv := ChannelValue(s.config, ChannelKey(s));
            var handler := ClassOf(classes, GetIn(chv, "handler"));
            var formatter := GetIn(chv, "formatter");
            var processor := GetIn(chv, "processor");
            BuildHandler(classes, s).Success? <==>
              && handler.Some?
              && classes.construct(handler.value, s.arguments).None?
              && (IsFormattableHandler(classes, handler.value) && formatter != Null ==>
                    && ClassOf(classes, formatter).Some?
                    && classes.construct(ClassOf(classes, formatter).value, []).None?
                    && IsFormatter(classes, ClassOf(classes, formatter).value))
              && (IsProcessableHandler(classes, handler.value) && processor != Null ==>
                    && ClassOf(classes, processor).Some?
                    && classes.construct(ClassOf(classes, processor).value, []).None?
                    && IsInvokable(classes, ClassOf(classes, processor).value))
  {
  }

  /**
   * A built handler has the configured handler class and the bound arguments;
   * it gets the configured formatter exactly when its class is formattable and
   * the formatter is not null, and likewise the processor.
   */
  lemma AttachRules(classes: Classes, s: ResolverState)
    requires Instantiate(classes, s).Success?
    ensures var h := Instantiate(classes, s).value;
            var chv := ChannelValue(s.config, ChannelKey(s));
            var formatter := GetIn(chv, "formatter");
            var processor := GetIn(chv, "processor");
            && Some(h.cls) == ClassOf(classes, GetIn(chv, "handler"))
            && h.args == s.arguments != []
            && (h.formatter.Some? <==> IsFormattableHandler(classes, h.cls) && formatter != Null)
            && (h.formatter.Some? ==> Some(h.formatter.value) == ClassOf(classes, formatter))
            && (h.processors != [] <==> IsProcessableHandler(classes, h.cls) && processor != Null)
            && (h.processors != [] ==> h.processors == [ClassOf(classes, processor).value])
  {
  }

  /**
   * A handler whose constructor takes no parameters binds no arguments, so no
   * instance of it can ever be created.
   */
  lemma NoParametersNeverInstantiate(classes: Classes, s: ResolverState, c: string)
    requires WellTyped(classes)
    requires HasChannel(s.config, c)
    requires var cls := ClassOf(classes, GetIn(ChannelValue(s.config, c), "handler"));
             cls.Some? && cls.value in classes.constructors && classes.constructors[cls.value] == []
    ensures var (t, o) := AfterSetChannel(classes, s, c);
            o.Pass? ==> Instantiate(classes, t) == Failure(ResolveError(NoArgumentsMessage))
  {
  }

  /** getConfiguration($key). */
  function Configuration(config: seq<Entry>, key: Option<string>): (r: Result<Value, Error>)
    ensures key.None? ==> r == Success(Arr(config))
    ensures key.Some? ==>
              r == if Isset(config, key.value) then Success(Get(config, key.value))
                   else Failure(ResolveError(MissingKeyMessage + key.value))
  {
    match key
    case None => Success(Arr(config))
    case Some(k) => if Isset(config, k) then Success(Get(config, k)) else Failure(ResolveError(MissingKeyMessage + k))
  }

  /** After a successful resolve, every top-level key with a default can be read. */
  lemma DefaultsReadable(host: Host, classes: Classes, custom: seq<Entry>)
    requires Resolved(host, classes, custom).Success?
    ensures var config := Resolved(host, classes, custom).value;
            && Configuration(config, Some("timezone")) == Success(Get(config, "timezone"))
            && Configuration(config, Some("logPath")) == Success(Get(config, "logPath"))
            && Configuration(config, Some("logFile")) == Success(Get(config, "logFile"))
  {
    ResolvedTopLevel(host, classes, custom);
  }

  // ------------------------------------------------------------------ class

  class ResolveLogger {
    const host: Host
    const classes: Classes
    var config: seq<Entry>
    var channel: Option<string>
    var arguments: seq<Value>

    function State(): ResolverState
      reads this
    {
      ResolverState(config, channel, arguments)
    }

    /** The object as __construct leaves it once resolve has produced `config`. */
    constructor (host: Host, classes: Classes, config: seq<Entry>)
      ensures this.host == host && this.classes == classes
      ensures State() == ResolverState(config, None, [])
    {
      this.host := host;
      this.classes := classes;
      this.config := config;
      this.channel := None;
      this.arguments := [];
    }

    /** `new ResolveLogger($custom)`: resolve, or throw what resolve throws. */
    static method New(host: Host, classes: Classes, custom: seq<Entry>) returns (r: Result<ResolveLogger, Error>)
      ensures r.Failure? <==> Resolved(host, classes, custom).Failure?
      ensures r.Failure? ==> r.error == Resolved(host, classes, custom).error
      ensures r.Success? ==>
                && fresh(r.value) && r.value.host == host && r.value.classes == classes
                && r.value.State() == ResolverState(Resolved(host, classes, custom).value, None, [])
    {
      var config := Resolve(host, classes, custom);
      if config.Failure? {
        return Failure(config.error);
      }
      var resolver := new ResolveLogger(host, classes, config.value);
      return Success(resolver);
    }

    /** appendConfig: a fresh resolve of `custom` replaces the configuration; nothing else changes. */
    method AppendConfig(custom: seq<Entry>) returns (r: Outcome<Error>)
      modifies this
      ensures Resolved(host, classes, custom).Success? ==>
                r == Pass && State() == old(State()).(config := Resolved(host, classes, custom).value)
      ensures Resolved(host, classes, custom).Failure? ==>
                r == Fail(Resolved(host, classes, custom).error) && State() == old(State())
    {
      var resolved := Resolve(host, classes, custom);
      if resolved.Failure? {
        return Fail(resolved.error);
      }
      config := resolved.value;
      return Pass;
    }

    /** setChannel($channel). */
    method SetChannel(c: string) returns (r: Outcome<Error>)
      requires WellTyped(classes)
      modifies this
      ensures (State(), r) == AfterSetChannel(classes, old(State()), c)
    {
      if !HasChannel(config, c) {
        return Fail(ResolveError(ChannelNotFoundMessage(c)));
      }
      channel := Some(c);
      var chv := ChannelValue(config, c);
      var params := ConstructorParameters(classes, GetIn(chv, "handler"));
      if params.Failure? {
        return Fail(params.error);
      }
      var cfg := ChannelConfig(chv);
      if !cfg.Arr? {
        return Fail(TypeError);
      }
      assert AllFit(params.value);
      var args := BuildHandlerArguments(params.value, cfg.entries);
      if args.Failure? {
        return Fail(args.error);
      }
      arguments := args.value;
      return Pass;
    }

    /** buildHandlerArguments, appending one argument per parameter. */
    method BuildHandlerArguments(params: seq<Param>, cfg: seq<Entry>) returns (r: Result<seq<Value>, Error>)
      requires AllFit(params)
      ensures r == HandlerArguments(Get(config, "logPath"), Get(config, "logFile"), cfg, params)
    {
      var logPath := Get(config, "logPath");
      var logFile := Get(config, "logFile");
      var args: seq<Value> := [];
      var i := 0;
      assert params[0..] == params;
      PrependNothing(HandlerArguments(logPath, logFile, cfg, params));
      while i < |params|
        invariant 0 <= i <= |params|
        invariant HandlerArguments(logPath, logFile, cfg, params)
                  == Prepend(args, HandlerArguments(logPath, logFile, cfg, params[i..]))
      {
        assert params[i..][0] == params[i] && params[i..][1..] == params[i + 1..];
        var a := ArgumentFor(logPath, logFile, cfg, params[i]);
        if a.Failure? {
          return Failure(a.error);
        }
        PrependOne(args, a.value, HandlerArguments(logPath, logFile, cfg, params[i + 1..]));
        args := args + [a.value];
        i := i + 1;
      }
      assert params[i..] == [];
      assert args + [] == args;
      return Success(args);
    }

    /** createInstance. */
    method CreateInstance() returns (r: Result<Handler, Error>)
      ensures r == Instantiate(classes, State())
    {
      if arguments == [] {
        return Failure(ResolveError(NoArgumentsMessage));
      }
      var built := BuildHandler(classes, State());
      if built.Failure? {
        return Failure(ResolveError(Message(built.error)));
      }
      return built;
    }

    /** getConfiguration($key). */
    method GetConfiguration(key: Option<string>) returns (r: Result<Value, Error>)
      ensures r == Configuration(config, key)
    {
      if key.None? {
        return Success(Arr(config));
      }
      if !Isset(config, key.value) {
        return Failure(ResolveError(MissingKeyMessage + key.value));
      }
      return Success(Get(config, key.value));
    }

    /** getArguments(). */
    method GetArguments() returns (r: seq<Value>)
      ensures r == arguments
    {
      return arguments;
    }
  }
}
