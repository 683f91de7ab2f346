/**
 * What the logger asks of its surroundings, given as data: the filesystem and
 * `.env` file (Host), and the classes PHP can load together with what
 * reflection would report about them (Classes). Monolog's handlers,
 * formatters and processors are known only by class name and capability.
 */
module Runtime {
  import opened Results
  import opened PhpValues

  /**
   * The filesystem as the logger sees it.
   * `base` is the application root that root_path() starts from;
   * `files` holds the paths for which fileExists() is true;
   * `required` is what `require` of a PHP file evaluates to (1 when it has no return);
   * `dotenv` is the lines that file() reads from the root `.env` (empty lines
   * skipped, line ends dropped), or None when that file is missing or unreadable.
   */
  datatype Host = Host(
    base: string,
    files: set<string>,
    required: map<string, Value>,
    dotenv: Option<seq<string>>)

  /** A constructor parameter as ReflectionParameter describes it. */
  datatype Param = Param(name: string, default: Option<Value>, typeName: Option<string>)

  /**
   * The loadable classes.
   * `handlers`, `formatters`, `formattable` and `processable` are the classes
   * implementing Monolog's HandlerInterface, FormatterInterface,
   * FormattableHandlerInterface and ProcessableHandlerInterface;
   * `invokable` are the classes whose objects PHP can call (they declare
   * `__invoke`), the only processors Monolog's pushProcessor accepts;
   * `constructors` gives each class that declares a constructor its parameters;
   * `construct(c, args)` is the message of the exception that `new c(...args)`
   * throws, or None when construction succeeds.
   */
  datatype Classes = Classes(
    declared: set<string>,
    handlers: set<string>,
    formatters: set<string>,
    formattable: set<string>,
    processable: set<string>,
    invokable: set<string>,
    constructors: map<string, seq<Param>>,
    construct: (string, seq<Value>) -> Option<string>)

  predicate IsHandler(classes: Classes, c: string) { c in classes.handlers }
  predicate IsFormatter(classes: Classes, c: string) { c in classes.formatters }
  predicate IsFormattableHandler(classes: Classes, c: string) { c in classes.formattable }
  predicate IsProcessableHandler(classes: Classes, c: string) { c in classes.processable }
  predicate IsInvokable(classes: Classes, c: string) { c in classes.invokable }

  /**
   * The class a value names when used as a class reference: a declared class
   * name, or the class of an object. Anything else names no class.
   */
  function ClassOf(classes: Classes, v: Value): (r: Option<string>)
    ensures r.Some? <==> (v.Obj? || (v.Str? && v.s in classes.declared))
  {
    match v
    case Str(c) => if c in classes.declared then Some(c) else None
    case Obj(c) => Some(c)
    case _ => None
  }

  /**
   * `new \ReflectionClass($v)`: an array is refused with a TypeError, any
   * other value that names no class with a ReflectionException.
   */
  function ReflectClass(classes: Classes, v: Value): (r: Result<string, Error>)
    ensures r.Success? <==> ClassOf(classes, v).Some?
    ensures r.Success? ==> r.value == ClassOf(classes, v).value
    ensures r.Failure? ==> r.error == if v.Arr? then TypeError else ReflectionError
  {
    match ClassOf(classes, v)
    case Some(c) => Success(c)
    case None => if v.Arr? then Failure(TypeError) else Failure(ReflectionError)
  }

  /** A declared default of a parameter typed `string`, `int` or `bool` has that type. */
  predicate DefaultFits(p: Param) {
    p.default.Some? ==>
      && (p.typeName == Some("string") ==> p.default.value.Str?)
      && (p.typeName == Some("int") ==> p.default.value.Int?)
      && (p.typeName == Some("bool") ==> p.default.value.Bool?)
  }

  /** Reflection only reports defaults that PHP accepted for the declared type. */
  predicate WellTyped(classes: Classes) {
    forall c, i :: c in classes.constructors && 0 <= i < |classes.constructors[c]| ==>
      DefaultFits(classes.constructors[c][i])
  }

  /** A handler object built by the resolver. */
  datatype Handler = Handler(
    cls: string,
    args: seq<Value>,
    formatter: Option<string>,
    processors: seq<string>)

  /** Why a channel configuration is refused (LoggerConfigException). */
  datatype ConfigFault =
    | MalformedCustomChannel
    | MissingHandler
    | NotAHandler(handler: Value)
    | NotAFormatter(formatter: Value)
    | NotAProcessor(processor: Value)

  datatype Error =
    | ConfigError(fault: ConfigFault)  // LoggerConfigException
    | ResolveError(message: string)    // ResolveLoggerException
    | Uncaught(kind: string)           // an error PHP itself raises
    | Raised(message: string)          // an exception a Monolog constructor throws

  /** getMessage() of the exception, with engine errors known only by kind. */
  function Message(e: Error): string {
    match e
    case ConfigError(_) => "LoggerConfigException"
    case ResolveError(m) => m
    case Uncaught(k) => k
    case Raised(m) => m
  }

  const TypeError := Uncaught("TypeError")
  const ReflectionError := Uncaught("ReflectionException")
  const EngineError := Uncaught("Error")
}
