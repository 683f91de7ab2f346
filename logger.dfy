/**
 * Logger: the PSR-3 facade. It builds one Monolog logger per requested
 * channel, and forwards each log call to every one of them. Monolog is outside
 * the model: the calls made on its loggers are recorded in `journal`.
 */
module Logging {
  import opened Results
  import opened PhpValues
  import opened Runtime
  import opened ResolveConfig
  import opened LoggerResolution

  // ---------------------------------------------------------------- context

  /** The number of integer keys in an array. */
  function IntKeyCount(a: seq<Entry>): nat {
    if a == [] then 0 else (if a[0].key.IntKey? then 1 else 0) + IntKeyCount(a[1..])
  }

  /**
   * One element of array_merge: a string key is assigned (overwriting in
   * place), an integer key is renumbered and appended.
   */
  function MergeEntry(r: seq<Entry>, e: Entry): seq<Entry> {
    if e.key.StrKey? then Put(r, e.key, e.val) else r + [Entry(IntKey(IntKeyCount(r)), e.val)]
  }

  function MergeInto(r: seq<Entry>, b: seq<Entry>): seq<Entry>
    decreases |b|
  {
    if b == [] then r else MergeInto(MergeEntry(r, b[0]), b[1..])
  }

  /** array_merge($a, $b). */
  function ArrayMerge(a: seq<Entry>, b: seq<Entry>): seq<Entry> {
    MergeInto(MergeInto([], a), b)
  }

  /** array_filter($a): the entries whose value is truthy, keys kept. */
  function ArrayFilter(a: seq<Entry>): (r: seq<Entry>)
    ensures |r| <= |a|
    ensures forall i :: 0 <= i < |r| ==> !Falsy(r[i].val)
  {
    if a == [] then []
    else if Falsy(a[0].val) then ArrayFilter(a[1..])
    else [a[0]] + ArrayFilter(a[1..])
  }

  /** The context handed to a logger: array_filter(array_merge($this->context, $context)). */
  function FilterContext(global: seq<Entry>, ctx: seq<Entry>): seq<Entry> {
    ArrayFilter(ArrayMerge(global, ctx))
  }

  /** array_filter keeps the first entry of a key whenever its value is truthy. */
  lemma {:induction false} FilterKeeps(a: seq<Entry>, k: Key)
    requires Lookup(a, k).Some? && !Falsy(Lookup(a, k).value)
    ensures Lookup(ArrayFilter(a), k) == Lookup(a, k)
  {
    if a[0].key != k {
      FilterKeeps(a[1..], k);
    }
  }

  /** array_filter never lets a falsy value through. */
  lemma {:induction false} FilterDrops(a: seq<Entry>, k: Key)
    requires Lookup(ArrayFilter(a), k).Some?
    ensures !Falsy(Lookup(ArrayFilter(a), k).value)
  {
    var r := ArrayFilter(a);
    if r[0].key != k {
      if Falsy(a[0].val) {
        FilterDrops(a[1..], k);
      } else {
        assert r[1..] == ArrayFilter(a[1..]);
        FilterDrops(a[1..], k);
      }
    }
  }

  /** Appending an integer-keyed entry leaves string-keyed lookups alone. */
  lemma {:induction false} LookupPastEnd(r: seq<Entry>, e: Entry, k: Key)
    requires k != e.key
    ensures Lookup(r + [e], k) == Lookup(r, k)
  {
    if r != [] {
      assert (r + [e])[1..] == r[1..] + [e];
      LookupPastEnd(r[1..], e, k);
    }
  }

  /** In array_merge, the last entry of a string key decides its value. */
  lemma {:induction false} MergeLookup(r: seq<Entry>, b: seq<Entry>, k: Key)
    requires k.StrKey?
    requires DistinctKeys(b)
    ensures Lookup(MergeInto(r, b), k) == if Lookup(b, k).Some? then Lookup(b, k) else Lookup(r, k)
    decreases |b|
  {
    if b != [] {
      var e := b[0];
      var next := MergeEntry(r, e);
      if !e.key.StrKey? {
        LookupPastEnd(r, Entry(IntKey(IntKeyCount(r)), e.val), k);
      }
      assert DistinctKeys(b[1..]);
      MergeLookup(next, b[1..], k);
      if e.key == k {
        LookupFinds(b[1..], k);
        assert k !in KeysOf(b[1..]) by {
          forall j | 0 <= j < |b[1..]| ensures KeysOf(b[1..])[j] != k {
            assert b[1..][j] == b[j + 1];
          }
        }
      }
    }
  }

  /**
   * A truthy value given at the call site under a string key reaches the
   * logger, whatever the global context holds under that key.
   */
  lemma CallContextOverrides(global: seq<Entry>, ctx: seq<Entry>, k: Key)
    requires k.StrKey? && DistinctKeys(ctx)
    requires Lookup(ctx, k).Some? && !Falsy(Lookup(ctx, k).value)
    ensures Lookup(FilterContext(global, ctx), k) == Lookup(ctx, k)
  {
    MergeLookup(MergeInto([], global), ctx, k);
    FilterKeeps(ArrayMerge(global, ctx), k);
  }

  /** Every value the logger receives in its context is truthy. */
  lemma ContextHasNoFalsy(global: seq<Entry>, ctx: seq<Entry>, k: Key)
    requires Lookup(FilterContext(global, ctx), k).Some?
    ensures !Falsy(Lookup(FilterContext(global, ctx), k).value)
  {
    FilterDrops(ArrayMerge(global, ctx), k);
  }

  predicate StringKeyed(a: seq<Entry>) {
    forall i :: 0 <= i < |a| ==> a[i].key.StrKey?
  }

  /** Assigning a key an array lacks appends it. */
  lemma {:induction false} PutNew(r: seq<Entry>, k: Key, v: Value)
    requires k !in KeysOf(r)
    ensures Put(r, k, v) == r + [Entry(k, v)]
  {
    if r != [] {
      assert KeysOf(r)[0] == r[0].key;
      assert k !in KeysOf(r[1..]) by {
        forall j | 0 <= j < |r[1..]| ensures KeysOf(r[1..])[j] != k {
          assert KeysOf(r[1..])[j] == r[j + 1].key == KeysOf(r)[j + 1];
        }
      }
      PutNew(r[1..], k, v);
      assert [r[0]] + (r[1..] + [Entry(k, v)]) == r + [Entry(k, v)];
    }
  }

  /** Merging string-keyed entries with fresh keys only appends them. */
  lemma {:induction false} MergeFreshStrings(r: seq<Entry>, b: seq<Entry>)
    requires StringKeyed(b) && DistinctKeys(r + b)
    ensures MergeInto(r, b) == r + b
    decreases |b|
  {
    if b != [] {
      var e := b[0];
      assert e.key !in KeysOf(r) by {
        forall j | 0 <= j < |r| ensures KeysOf(r)[j] != e.key {
          assert (r + b)[j] == r[j] && (r + b)[|r|] == e;
        }
      }
      PutNew(r, e.key, e.val);
      assert r + b == (r + [e]) + b[1..];
      MergeFreshStrings(r + [e], b[1..]);
    }
  }

  /** array_filter keeps a sub-sequence, so string keys stay string keys and stay distinct. */
  lemma {:induction false} FilterKeepsShape(a: seq<Entry>)
    requires StringKeyed(a) && DistinctKeys(a)
    ensures StringKeyed(ArrayFilter(a)) && DistinctKeys(ArrayFilter(a))
    ensures forall i :: 0 <= i < |ArrayFilter(a)| ==> ArrayFilter(a)[i] in a
  {
    if a != [] {
      FilterKeepsShape(a[1..]);
      var rest := ArrayFilter(a[1..]);
      forall i | 0 <= i < |rest| ensures rest[i].key != a[0].key {
        var j :| 0 <= j < |a[1..]| && a[1..][j] == rest[i];
        assert a[j + 1] == rest[i];
      }
    }
  }

  /** With no global context and a string-keyed call context, the logger gets array_filter of it. */
  lemma ContextOfStrings(ctx: seq<Entry>)
    requires StringKeyed(ctx) && DistinctKeys(ctx)
    ensures FilterContext([], ctx) == ArrayFilter(ctx)
  {
    assert [] + ctx == ctx;
    MergeFreshStrings([], ctx);
  }

  /**
   * Because pushLog reassigns `$context` each round, a context with integer
   * keys is renumbered again for every further logger: [1 => 'a'], left by
   * dropping a falsy entry 0, reaches the next logger as [0 => 'a'].
   */
  lemma IntegerKeysShift()
    ensures var ctx := [Entry(IntKey(0), Str("")), Entry(IntKey(1), Str("a"))];
            var first := FilterContext([], ctx);
            && first == [Entry(IntKey(1), Str("a"))]
            && FilterContext([], first) == [Entry(IntKey(0), Str("a"))]
  {
    var ctx := [Entry(IntKey(0), Str("")), Entry(IntKey(1), Str("a"))];
    var m := MergeInto([], ctx);
    assert MergeEntry([], ctx[0]) == [Entry(IntKey(0), Str(""))];
    assert m == [Entry(IntKey(0), Str("")), Entry(IntKey(1), Str("a"))];
    assert ArrayFilter(m) == [Entry(IntKey(1), Str("a"))];
    var first := [Entry(IntKey(1), Str("a"))];
    assert MergeInto([], first) == [Entry(IntKey(0), Str("a"))];
  }

  // --------------------------------------------------------------- dispatch

  /** `f` applied `n` times. */
  function Iterate(f: Value -> Value, x: Value, n: nat): Value {
    if n == 0 then x else f(Iterate(f, x, n - 1))
  }

  datatype MonologLogger = MonologLogger(name: string, handler: Handler)

  /** One call `$logger->{$level}($message, $context)` made on a Monolog logger. */
  datatype LogCall = LogCall(channel: string, level: string, message: Value, context: seq<Entry>)

  /**
   * The foreach of pushLog from `loggers[0]` on: `$message` and `$context`
   * are reassigned before each call, so each logger receives the previous
   * logger's values transformed once more.
   */
  function DispatchFrom(encode: Value -> Value, global: seq<Entry>, loggers: seq<MonologLogger>,
                        level: string, message: Value, ctx: seq<Entry>): seq<LogCall>
    decreases |loggers|
  {
    if loggers == [] then []
    else
      var m := encode(message);
      var c := FilterContext(global, ctx);
      [LogCall(loggers[0].name, level, m, c)] + DispatchFrom(encode, global, loggers[1..], level, m, c)
  }

  /** The context handed to the n-th logger (1-based). */
  function ContextRound(global: seq<Entry>, ctx: seq<Entry>, n: nat): seq<Entry> {
    if n == 0 then ctx else FilterContext(global, ContextRound(global, ctx, n - 1))
  }

  /**
   * pushLog calls every logger once, in order, with the given level; the
   * k-th logger (1-based) receives json_encode applied k times to the message.
   */
  lemma {:induction false} DispatchShape(encode: Value -> Value, global: seq<Entry>, loggers: seq<MonologLogger>,
                                         level: string, message: Value, ctx: seq<Entry>)
    ensures var calls := DispatchFrom(encode, global, loggers, level, message, ctx);
            && |calls| == |loggers|
            && forall k :: 0 <= k < |loggers| ==>
                 && calls[k].channel == loggers[k].name
                 && calls[k].level == level
                 && calls[k].message == Iterate(encode, message, k + 1)
                 && calls[k].context == ContextRound(global, ctx, k + 1)
    decreases |loggers|
  {
    if loggers != [] {
      var m := encode(message);
      var c := FilterContext(global, ctx);
      DispatchShape(encode, global, loggers[1..], level, m, c);
      var calls := DispatchFrom(encode, global, loggers, level, message, ctx);
      forall k | 1 <= k < |loggers|
        ensures calls[k].message == Iterate(encode, message, k + 1)
        ensures calls[k].context == ContextRound(global, ctx, k + 1)
      {
        IterateShift(encode, message, k);
        ContextRoundShift(global, ctx, k);
      }
    }
  }

  lemma {:induction false} IterateShift(f: Value -> Value, x: Value, n: nat)
    ensures Iterate(f, f(x), n) == Iterate(f, x, n + 1)
  {
    if n > 0 {
      IterateShift(f, x, n - 1);
    }
  }

  lemma {:induction false} ContextRoundShift(global: seq<Entry>, ctx: seq<Entry>, n: nat)
    ensures ContextRound(global, FilterContext(global, ctx), n) == ContextRound(global, ctx, n + 1)
  {
    if n > 0 {
      ContextRoundShift(global, ctx, n - 1);
    }
  }

  /**
   * With the global context empty, as it always is, and a string-keyed call
   * context, every logger receives the same context: array_filter of it.
   */
  lemma {:induction false} ContextRoundOfStrings(ctx: seq<Entry>, n: nat)
    requires StringKeyed(ctx) && DistinctKeys(ctx)
    ensures n > 0 ==> ContextRound([], ctx, n) == ArrayFilter(ctx)
  {
    if n > 1 {
      ContextRoundOfStrings(ctx, n - 1);
      FilterKeepsShape(ctx);
      ContextOfStrings(ArrayFilter(ctx));
      FilterIdempotent(ctx);
    } else if n == 1 {
      ContextOfStrings(ctx);
    }
  }

  /**
   * Since `$this->context` is never assigned, each logger receives
   * array_filter of a string-keyed call context, unchanged from one logger
   * to the next.
   */
  lemma DispatchFiltersCallContext(encode: Value -> Value, loggers: seq<MonologLogger>,
                                   level: string, message: Value, ctx: seq<Entry>)
    requires StringKeyed(ctx) && DistinctKeys(ctx)
    ensures var calls := DispatchFrom(encode, [], loggers, level, message, ctx);
            forall k :: 0 <= k < |calls| ==> calls[k].context == ArrayFilter(ctx)
  {
    DispatchShape(encode, [], loggers, level, message, ctx);
    var calls := DispatchFrom(encode, [], loggers, level, message, ctx);
    forall k | 0 <= k < |calls| ensures calls[k].context == ArrayFilter(ctx) {
      ContextRoundOfStrings(ctx, k + 1);
    }
  }

  lemma {:induction false} FilterIdempotent(a: seq<Entry>)
    ensures ArrayFilter(ArrayFilter(a)) == ArrayFilter(a)
  {
    if a != [] {
      FilterIdempotent(a[1..]);
      if !Falsy(a[0].val) {
        var r := ArrayFilter(a);
        assert r[0] == a[0] && r[1..] == ArrayFilter(a[1..]);
      }
    }
  }

  // ---------------------------------------------------------------- loggers

  /** The `$channels` argument: null, one channel name, or a list of names. */
  datatype Channels = NoChannels | OneChannel(name: string) | ChannelList(names: seq<string>)

  /** `(array) $channels`: the names iterated, in order. */
  function ChannelNames(channels: Channels): (r: seq<string>)
    ensures channels.NoChannels? ==> r == []
    ensures channels.OneChannel? ==> r == [channels.name]
    ensures channels.ChannelList? ==> r == channels.names
  {
    match channels
    case NoChannels => []
    case OneChannel(n) => [n]
    case ChannelList(ns) => ns
  }

  function Names(ls: seq<MonologLogger>): (r: seq<string>)
    ensures |r| == |ls|
    ensures forall i :: 0 <= i < |ls| ==> r[i] == ls[i].name
  {
    if ls == [] then [] else [ls[0].name] + Names(ls[1..])
  }

  /** `$loggers[$channel] = $logger`: a repeated name replaces the logger at its first position. */
  function Register(ls: seq<MonologLogger>, l: MonologLogger): (r: seq<MonologLogger>)
    ensures Names(r) == if l.name in Names(ls) then Names(ls) else Names(ls) + [l.name]
    ensures forall i :: 0 <= i < |r| ==> r[i] == l || r[i] in ls
  {
    if ls == [] then [l]
    else if ls[0].name == l.name then
      var r := [l] + ls[1..];
      assert Names(r) == [l.name] + Names(ls[1..]);
      r
    else
      var r := [ls[0]] + Register(ls[1..], l);
      assert Names(r) == [ls[0].name] + Names(Register(ls[1..], l));
      assert Names(ls) == [ls[0].name] + Names(ls[1..]);
      r
  }

  /** The names in order of first occurrence, after those already in `seen`. */
  function FirstOccurrences(seen: seq<string>, names: seq<string>): seq<string>
    decreases |names|
  {
    if names == [] then seen
    else FirstOccurrences(if names[0] in seen then seen else seen + [names[0]], names[1..])
  }

  predicate NoRepeats(s: seq<string>) {
    forall i, j :: 0 <= i < j < |s| ==> s[i] != s[j]
  }

  /** First occurrences list every name once. */
  lemma {:induction false} FirstOccurrencesDistinct(seen: seq<string>, names: seq<string>)
    requires NoRepeats(seen)
    ensures NoRepeats(FirstOccurrences(seen, names))
    ensures forall n :: n in FirstOccurrences(seen, names) <==> n in seen || n in names
    decreases |names|
  {
    if names != [] {
      var next := if names[0] in seen then seen else seen + [names[0]];
      assert NoRepeats(next) by {
        if names[0] !in seen {
          forall i, j | 0 <= i < j < |next| ensures next[i] != next[j] {
            if j == |seen| {
              assert next[i] == seen[i];
            }
          }
        }
      }
      assert forall n :: n in next <==> n in seen || n == names[0];
      FirstOccurrencesDistinct(next, names[1..]);
      assert forall n :: n in names <==> n == names[0] || n in names[1..] by {
        assert names == [names[0]] + names[1..];
      }
    }
  }

  /**
   * What `setChannel($channel)->createInstance()` yields for a channel,
   * whatever channel and arguments the resolver held before.
   */
  function HandlerFor(classes: Classes, config: seq<Entry>, name: string): Result<Handler, Error>
    requires WellTyped(classes)
  {
    if !HasChannel(config, name) then Failure(ResolveError(ChannelNotFoundMessage(name)))
    else
      var args :- ChannelArguments(classes, config, name);
      Instantiate(classes, ResolverState(config, Some(name), args))
  }

  /** One round of resolveLoggers, as the resolver object runs it. */
  function ResolveOne(classes: Classes, s: ResolverState, name: string): (ResolverState, Result<Handler, Error>)
    requires WellTyped(classes)
  {
    var (t, o) := AfterSetChannel(classes, s, name);
    if o.Fail? then (t, Failure(o.error)) else (t, Instantiate(classes, t))
  }

  /** The resolver's earlier channel and arguments do not influence the next handler. */
  lemma ResolveOneIsHandlerFor(classes: Classes, s: ResolverState, name: string)
    requires WellTyped(classes)
    ensures ResolveOne(classes, s, name).1 == HandlerFor(classes, s.config, name)
    ensures ResolveOne(classes, s, name).0.config == s.config
  {
  }

  /** A round is setChannel followed, when that passes, by createInstance on the new state. */
  lemma ResolveOneSteps(classes: Classes, s: ResolverState, name: string, t: ResolverState, o: Outcome<Error>)
    requires WellTyped(classes)
    requires (t, o) == AfterSetChannel(classes, s, name)
    ensures ResolveOne(classes, s, name) == (t, if o.Fail? then Failure(o.error) else Instantiate(classes, t))
  {
  }

  /** A round of resolveLoggers: from the resolver's state and a channel name, its next state and handler. */
  type Step = (ResolverState, string) -> (ResolverState, Result<Handler, Error>)

  function Resolver(classes: Classes): Step
    requires WellTyped(classes)
  {
    (s, name) => ResolveOne(classes, s, name)
  }

  /** The foreach of resolveLoggers from `names[0]` on, with the loggers built so far. */
  function LoggersFrom(step: Step, s: ResolverState, acc: seq<MonologLogger>, names: seq<string>)
    : (ResolverState, Result<seq<MonologLogger>, Error>)
    decreases |names|
  {
    if names == [] then (s, Success(acc))
    else
      var (t, h) := step(s, names[0]);
      if h.Failure? then (t, Failure(h.error))
      else LoggersFrom(step, t, Register(acc, MonologLogger(names[0], h.value)), names[1..])
  }

  /** One round of the foreach, from the state it starts in and what the step yields there. */
  lemma LoggersFromRound(step: Step, s: ResolverState, acc: seq<MonologLogger>, names: seq<string>, i: nat,
                         t: ResolverState, h: Result<Handler, Error>)
    requires i < |names| && step(s, names[i]) == (t, h)
    ensures LoggersFrom(step, s, acc, names[i..])
            == if h.Failure? then (t, Failure(h.error))
               else LoggersFrom(step, t, Register(acc, MonologLogger(names[i], h.value)), names[i + 1..])
  {
    assert names[i..][0] == names[i] && names[i..][1..] == names[i + 1..];
  }

  /** A step keeps the configuration and yields each channel's handler, whatever else the state holds. */
  ghost predicate Faithful(step: Step, config: seq<Entry>, handlerFor: string -> Result<Handler, Error>) {
    forall t: ResolverState, name: string :: t.config == config ==>
      step(t, name).0.config == config && step(t, name).1 == handlerFor(name)
  }

  /** Each logger carries its own channel's handler. */
  predicate WellBuilt(handlerFor: string -> Result<Handler, Error>, ls: seq<MonologLogger>) {
    forall i :: 0 <= i < |ls| ==> handlerFor(ls[i].name) == Success(ls[i].handler)
  }

  /** The resolver object's rounds are faithful to HandlerFor. */
  lemma ResolverFaithful(classes: Classes, config: seq<Entry>)
    requires WellTyped(classes)
    ensures Faithful(Resolver(classes), config, name => HandlerFor(classes, config, name))
  {
    forall t: ResolverState, name: string | t.config == config
      ensures Resolver(classes)(t, name).0.config == config
      ensures Resolver(classes)(t, name).1 == HandlerFor(classes, config, name)
    {
      ResolveOneIsHandlerFor(classes, t, name);
    }
  }

  /** The loop of resolveLoggers, for any faithful step. */
  lemma {:induction false} LoggersFromRule(step: Step, handlerFor: string -> Result<Handler, Error>,
                                           s: ResolverState, acc: seq<MonologLogger>, names: seq<string>)
    requires Faithful(step, s.config, handlerFor) && WellBuilt(handlerFor, acc)
    ensures var (t, r) := LoggersFrom(step, s, acc, names);
            && t.config == s.config
            && (r.Success? <==> forall i :: 0 <= i < |names| ==> handlerFor(names[i]).Success?)
            && (r.Success? ==>
                  && Names(r.value) == FirstOccurrences(Names(acc), names)
                  && WellBuilt(handlerFor, r.value))
    decreases |names|
  {
    if names != [] {
      var (t, h) := step(s, names[0]);
      assert t.config == s.config && h == handlerFor(names[0]);
      if h.Success? {
        var l := MonologLogger(names[0], h.value);
        var acc' := Register(acc, l);
        assert WellBuilt(handlerFor, acc') by {
          forall i | 0 <= i < |acc'| ensures handlerFor(acc'[i].name) == Success(acc'[i].handler) {
            if acc'[i] != l {
              var j :| 0 <= j < |acc| && acc[j] == acc'[i];
            }
          }
        }
        LoggersFromRule(step, handlerFor, t, acc', names[1..]);
        forall i | 1 <= i < |names| ensures names[i] == names[1..][i - 1] { }
      }
    }
  }

  /** With a faithful step, the first channel that yields no handler decides the error. */
  lemma {:induction false} LoggersFromFirstFailure(step: Step, handlerFor: string -> Result<Handler, Error>,
                                                   s: ResolverState, acc: seq<MonologLogger>, names: seq<string>, i: nat)
    requires Faithful(step, s.config, handlerFor)
    requires i < |names| && handlerFor(names[i]).Failure?
    requires forall j :: 0 <= j < i ==> handlerFor(names[j]).Success?
    ensures LoggersFrom(step, s, acc, names).1 == Failure(handlerFor(names[i]).error)
    decreases |names|
  {
    var (t, h) := step(s, names[0]);
    assert t.config == s.config && h == handlerFor(names[0]);
    if i > 0 {
      forall j | 0 <= j < i - 1 ensures handlerFor(names[1..][j]).Success? {
        assert names[1..][j] == names[j + 1];
      }
      assert names[1..][i - 1] == names[i];
      LoggersFromFirstFailure(step, handlerFor, t, Register(acc, MonologLogger(names[0], h.value)), names[1..], i - 1);
    }
  }

  /**
   * resolveLoggers succeeds exactly when every requested channel yields a
   * handler; it then holds one logger per distinct name, in order of first
   * request, each with its channel's handler. The resolver's configuration
   * is never changed.
   */
  lemma LoggersResolved(classes: Classes, s: ResolverState, names: seq<string>)
    requires WellTyped(classes)
    ensures var (t, r) := LoggersFrom(Resolver(classes), s, [], names);
            && t.config == s.config
            && (r.Success? <==> forall i :: 0 <= i < |names| ==> HandlerFor(classes, s.config, names[i]).Success?)
            && (r.Success? ==>
                  && Names(r.value) == FirstOccurrences([], names)
                  && NoRepeats(Names(r.value))
                  && (forall n :: n in Names(r.value) <==> n in names)
                  && forall i :: 0 <= i < |r.value| ==>
                       HandlerFor(classes, s.config, r.value[i].name) == Success(r.value[i].handler))
  {
    var handlerFor := name => HandlerFor(classes, s.config, name);
    ResolverFaithful(classes, s.config);
    LoggersFromRule(Resolver(classes), handlerFor, s, [], names);
    FirstOccurrencesDistinct([], names);
  }

  /** When a channel cannot be built, resolveLoggers throws the first such channel's error unchanged. */
  lemma LoggersFirstFailure(classes: Classes, s: ResolverState, names: seq<string>, i: nat)
    requires WellTyped(classes)
    requires i < |names| && HandlerFor(classes, s.config, names[i]).Failure?
    requires forall j :: 0 <= j < i ==> HandlerFor(classes, s.config, names[j]).Success?
    ensures LoggersFrom(Resolver(classes), s, [], names).1 == Failure(HandlerFor(classes, s.config, names[i]).error)
  {
    var handlerFor := name => HandlerFor(classes, s.config, name);
    ResolverFaithful(classes, s.config);
    LoggersFromFirstFailure(Resolver(classes), handlerFor, s, [], names, i);
  }

  /** `new Logger($channels, $custom)`: the loggers it ends up with, or the error it throws. */
  function Opened(host: Host, classes: Classes, channels: Channels, custom: seq<Entry>): Result<seq<MonologLogger>, Error>
    requires WellTyped(classes)
  {
    var config :- Resolved(host, classes, custom);
    var _ :- Configuration(config, Some("timezone"));
    LoggersFrom(Resolver(classes), ResolverState(config, None, []), [], ChannelNames(channels)).1
  }

  /** A logger for no channels is always built once the configuration resolves. */
  lemma NoChannelsOpens(host: Host, classes: Classes, custom: seq<Entry>)
    requires WellTyped(classes)
    ensures Opened(host, classes, NoChannels, custom).Success? <==> Resolved(host, classes, custom).Success?
    ensures Opened(host, classes, NoChannels, custom).Success? ==> Opened(host, classes, NoChannels, custom).value == []
  {
    if Resolved(host, classes, custom).Success? {
      DefaultsReadable(host, classes, custom);
    }
  }

  // ------------------------------------------------------------------ class

  class Logger {
    const resolver: ResolveLogger
    /** json_encode, which formatMessage applies. */
    const encode: Value -> Value
    /** `$this->context`, which nothing ever assigns. */
    const context: seq<Entry>
    var loggers: seq<MonologLogger>
    var journal: seq<LogCall>

    constructor (resolver: ResolveLogger, encode: Value -> Value)
      ensures this.resolver == resolver && this.encode == encode
      ensures context == [] && loggers == [] && journal == []
    {
      this.resolver := resolver;
      this.encode := encode;
      this.context := [];
      this.loggers := [];
      this.journal := [];
    }

    /**
     * `new Logger($channels, $custom)`: resolve the configuration, read the
     * timezone, then build the loggers. Setting the process timezone is left out.
     */
    static method Open(host: Host, classes: Classes, encode: Value -> Value, channels: Channels, custom: seq<Entry>)
      returns (r: Result<Logger, Error>)
      requires WellTyped(classes)
      ensures r.Failure? <==> Opened(host, classes, channels, custom).Failure?
      ensures r.Failure? ==> r.error == Opened(host, classes, channels, custom).error
      ensures r.Success? ==>
                && fresh(r.value) && fresh(r.value.resolver)
                && r.value.loggers == Opened(host, classes, channels, custom).value
                && r.value.resolver.config == Resolved(host, classes, custom).value
                && r.value.encode == encode && r.value.context == [] && r.value.journal == []
    {
      var resolver := ResolveLogger.New(host, classes, custom);
      if resolver.Failure? {
        return Failure(resolver.error);
      }
      var timezone := resolver.value.GetConfiguration(Some("timezone"));
      if timezone.Failure? {
        return Failure(timezone.error);
      }
      var logger := new Logger(resolver.value, encode);
      LoggersResolved(classes, resolver.value.State(), ChannelNames(channels));
      var built := logger.ResolveLoggers(channels);
      if built.Failure? {
        return Failure(built.error);
      }
      logger.loggers := built.value;
      return Success(logger);
    }

    /** resolveLoggers($channels): one setChannel and createInstance per name. */
    method ResolveLoggers(channels: Channels) returns (r: Result<seq<MonologLogger>, Error>)
      requires WellTyped(resolver.classes)
      modifies resolver
      ensures (resolver.State(), r) == LoggersFrom(Resolver(resolver.classes), old(resolver.State()), [], ChannelNames(channels))
    {
      var names := ChannelNames(channels);
      ghost var step := Resolver(resolver.classes);
      var built: seq<MonologLogger> := [];
      var i := 0;
      while i < |names|
        invariant 0 <= i <= |names|
        invariant LoggersFrom(step, resolver.State(), built, names[i..])
                  == LoggersFrom(step, old(resolver.State()), [], names)
      {
        ghost var before := resolver.State();
        var selected := resolver.SetChannel(names[i]);
        ResolveOneSteps(resolver.classes, before, names[i], resolver.State(), selected);
        if selected.Fail? {
          LoggersFromRound(step, before, built, names, i, resolver.State(), Failure(selected.error));
          return Failure(selected.error);
        }
        var handler := resolver.CreateInstance();
        LoggersFromRound(step, before, built, names, i, resolver.State(), handler);
        if handler.Failure? {
          return Failure(handler.error);
        }
        built := Register(built, MonologLogger(names[i], handler.value));
        i := i + 1;
      }
      return Success(built);
    }

    /** getChannels(). */
    method GetChannels() returns (r: seq<MonologLogger>)
      ensures r == loggers
    {
      return loggers;
    }

    /** formatMessage($message). */
    function FormatMessage(message: Value): Value {
      encode(message)
    }

    /** pushLog($level, $message, $context). */
    method PushLog(level: string, message: Value, ctx: seq<Entry>)
      modifies this
      ensures loggers == old(loggers)
      ensures journal == old(journal) + DispatchFrom(encode, context, loggers, level, message, ctx)
    {
      var m := message;
      var c := ctx;
      var i := 0;
      assert loggers[0..] == loggers;
      assert old(journal) == journal;
      while i < |loggers|
        invariant 0 <= i <= |loggers|
        invariant loggers == old(loggers)
        invariant old(journal) + DispatchFrom(encode, context, loggers, level, message, ctx)
                  == journal + DispatchFrom(encode, context, loggers[i..], level, m, c)
      {
        ghost var rest := DispatchFrom(encode, context, loggers[i + 1..], level, encode(m), FilterContext(context, c));
        assert loggers[i..][0] == loggers[i] && loggers[i..][1..] == loggers[i + 1..];
        assert DispatchFrom(encode, context, loggers[i..], level, m, c)
               == [LogCall(loggers[i].name, level, encode(m), FilterContext(context, c))] + rest;
        m := FormatMessage(m);
        c := FilterContext(context, c);
        journal := journal + [LogCall(loggers[i].name, level, m, c)];
        i := i + 1;
      }
      assert loggers[i..] == [];
      assert journal + [] == journal;
    }

    /** emergency($message, $context). */
    method Emergency(message: Value, ctx: seq<Entry>)
      modifies this
      ensures loggers == old(loggers)
      ensures journal == old(journal) + DispatchFrom(encode, context, loggers, "emergency", message, ctx)
    {
      PushLog("emergency", message, ctx);
    }

    /** alert($message, $context). */
    method Alert(message: Value, ctx: seq<Entry>)
      modifies this
      ensures loggers == old(loggers)
      ensures journal == old(journal) + DispatchFrom(encode, context, loggers, "alert", message, ctx)
    {
      PushLog("alert", message, ctx);
    }

    /** critical($message, $context). */
    method Critical(message: Value, ctx: seq<Entry>)
      modifies this
      ensures loggers == old(loggers)
      ensures journal == old(journal) + DispatchFrom(encode, context, loggers, "critical", message, ctx)
    {
      PushLog("critical", message, ctx);
    }

    /** error($message, $context). */
    method Error(message: Value, ctx: seq<Entry>)
      modifies this
      ensures loggers == old(loggers)
      ensures journal == old(journal) + DispatchFrom(encode, context, loggers, "error", message, ctx)
    {
      PushLog("error", message, ctx);
    }

    /** warning($message, $context). */
    method Warning(message: Value, ctx: seq<Entry>)
      modifies this
      ensures loggers == old(loggers)
      ensures journal == old(journal) + DispatchFrom(encode, context, loggers, "warning", message, ctx)
    {
      PushLog("warning", message, ctx);
    }

    /** notice($message, $context). */
    method Notice(message: Value, ctx: seq<Entry>)
      modifies this
      ensures loggers == old(loggers)
      ensures journal == old(journal) + DispatchFrom(encode, context, loggers, "notice", message, ctx)
    {
      PushLog("notice", message, ctx);
    }

    /** info($message, $context). */
    method Info(message: Value, ctx: seq<Entry>)
      modifies this
      ensures loggers == old(loggers)
      ensures journal == old(journal) + DispatchFrom(encode, context, loggers, "info", message, ctx)
    {
      PushLog("info", message, ctx);
    }

    /** debug($message, $context). */
    method Debug(message: Value, ctx: seq<Entry>)
      modifies this
      ensures loggers == old(loggers)
      ensures journal == old(journal) + DispatchFrom(encode, context, loggers, "debug", message, ctx)
    {
      PushLog("debug", message, ctx);
    }

    /** log($level, $message, $context). */
    method Log(level: string, message: Value, ctx: seq<Entry>)
      modifies this
      ensures loggers == old(loggers)
      ensures journal == old(journal) + DispatchFrom(encode, context, loggers, level, message, ctx)
    {
      PushLog(level, message, ctx);
    }
  }
}
