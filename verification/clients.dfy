/**
 * The decorator chain behind the `HttpClient` facade, and the library's own
 * retry decorators `Retry\RetryableHttpClient` and `Retry\MutableRetryableHttpClient`.
 *
 * Clients the library does not define (the transport, Symfony's retry decorator)
 * are opaque nodes; how they merge options in `withOptions` is not interpreted,
 * the call is only recorded as a `Configured` node.
 */
module Clients {
  import opened Wrappers
  import opened Php
  import opened Keys

  /** Which of the two retry decorators of the library a node is. */
  datatype RetryKind = Plain | Mutable

  datatype Client =
    /** A transport client created with `opts`; `loggerAware` says whether it implements `LoggerAwareInterface`. */
    | Transport(id: nat, opts: Options, loggerAware: bool, logger: Option<nat>)
    /** `$inner->withOptions($opts)` on a client whose merge is not modelled. */
    | Configured(inner: Client, opts: Options)
    /** Symfony's `RetryableHttpClient` around `inner`. */
    | SfRetry(inner: Client, strategy: Option<nat>, maxRetries: int, logger: Option<nat>)
    /** The library's retry decorator: the undecorated `raw` client and the `current` one requests go to. */
    | Retryable(kind: RetryKind, raw: Client, current: Client, strategy: Option<nat>, maxRetries: int, logger: Option<nat>)
    /** `SharedTraceableHttpClient` around `inner`; `streamOpen` is whether its stream client exists. */
    | SharedTraced(inner: Client, streamOpen: bool)

  /** A constructor argument `array|string|null`. */
  predicate UriArg(v: Value) {
    v.Null? || v.Str? || v.Arr?
  }

  /** Whether the retry constructors put Symfony's retry decorator in front of the raw client. */
  predicate WrapsRetry(strategy: Option<nat>, maxRetries: int, baseUri: Value) {
    strategy.Some? || baseUri.Arr? || maxRetries > 0
  }

  /**
   * The constructor of either retry decorator: the raw client is kept, and
   * wrapped in Symfony's retry decorator when a strategy is given, the base URI
   * is a list, or retries are allowed; a list of base URIs goes on that wrapper.
   */
  function NewRetryable(kind: RetryKind, client: Client, strategy: Option<nat>, maxRetries: int, logger: Option<nat>, baseUri: Value): (r: Client)
    requires UriArg(baseUri)
    ensures r.Retryable? && r.raw == client && r.kind == kind
    ensures r.strategy == strategy && r.maxRetries == maxRetries && r.logger == logger
  {
    var current :=
      if WrapsRetry(strategy, maxRetries, baseUri) then
        var wrapped := SfRetry(client, strategy, maxRetries, logger);
        if baseUri.Arr? then Configured(wrapped, map[BaseUri := baseUri]) else wrapped
      else client;
    Retryable(kind, client, current, strategy, maxRetries, logger)
  }

  /** The nesting depth of a chain. */
  function Height(c: Client): (h: nat)
    ensures c.Configured? || c.SfRetry? || c.SharedTraced? ==> h > Height(c.inner)
  {
    match c
    case Transport(_, _, _, _) => 0
    case Configured(inner, _) => Height(inner) + 1
    case SfRetry(inner, _, _, _) => Height(inner) + 1
    case Retryable(_, raw, current, _, _, _) => (if Height(raw) < Height(current) then Height(current) else Height(raw)) + 1
    case SharedTraced(inner, _) => Height(inner) + 1
  }

  /** `current` is `raw` itself or a single Symfony retry layer over it, with at most a base-URI list applied. */
  predicate OneLayerOver(current: Client, raw: Client) {
    current == raw
    || (current.SfRetry? && current.inner == raw)
    || (current.Configured? && current.opts.Keys == {BaseUri} && current.inner.SfRetry? && current.inner.inner == raw)
  }

  /** The constructor wraps exactly under its three conditions, in one layer, and puts a base-URI list on the wrapper only. */
  lemma WrapDecision(kind: RetryKind, client: Client, strategy: Option<nat>, maxRetries: int, logger: Option<nat>, baseUri: Value)
    requires UriArg(baseUri)
    ensures var r := NewRetryable(kind, client, strategy, maxRetries, logger, baseUri);
      OneLayerOver(r.current, r.raw) &&
      (r.current == client <==> !WrapsRetry(strategy, maxRetries, baseUri)) &&
      (baseUri.Arr? <==> r.current.Configured? && r.current.inner.SfRetry? && r.current.inner.inner == client)
  {
    var wrapped := SfRetry(client, strategy, maxRetries, logger);
    assert Height(wrapped) > Height(client);
    assert Height(Configured(wrapped, map[BaseUri := baseUri])) > Height(client);
  }

  /**
   * The retry strategy `withOptions` reads: `$options['retry_strategy'] ?? $this->strategy`,
   * passed to a `?RetryStrategyInterface` parameter. Only objects can implement the
   * interface, and a `Closure` never does (the class is final); the class tags do
   * not say which other classes implement it, so every other object is taken for one.
   */
  function StrategyArg(o: Options, current: Option<nat>): (r: Result<Option<nat>, Error>)
    ensures RetryStrategy !in o || o[RetryStrategy] == Null ==> r == Success(current)
    ensures RetryStrategy in o && o[RetryStrategy].Obj? && !o[RetryStrategy].cls.ClosureClass? ==>
      r == Success(Some(o[RetryStrategy].handle))
    ensures r.Failure? <==> RetryStrategy in o && o[RetryStrategy] != Null &&
                            (!o[RetryStrategy].Obj? || o[RetryStrategy].cls.ClosureClass?)
    ensures r.Failure? ==> r.error.TypeError?
  {
    match Coalesce(o, RetryStrategy, Null)
    case Null => Success(current)
    case Obj(_, ClosureClass) => Failure(TypeError("RetryableHttpClient::__construct"))
    case Obj(h, _) => Success(Some(h))
    case _ => Failure(TypeError("RetryableHttpClient::__construct"))
  }

  /** The retry count `withOptions` reads: `$options['max_retries'] ?? $this->maxRetries`, which must be an int. */
  function MaxRetriesArg(o: Options, current: int): (r: Result<int, Error>)
    ensures MaxRetries !in o || o[MaxRetries] == Null ==> r == Success(current)
    ensures MaxRetries in o && o[MaxRetries].Int? ==> r == Success(o[MaxRetries].i)
  {
    match Coalesce(o, MaxRetries, Null)
    case Null => Success(current)
    case Int(n) => Success(n)
    case _ => Failure(TypeError("RetryableHttpClient::__construct"))
  }

  /** The options a retry decorator forwards to its raw client: without its own two keys, and without a base-URI list. */
  function Stripped(o: Options): (r: Options)
    ensures RetryStrategy !in r && MaxRetries !in r
    ensures BaseUri in r <==> BaseUri in o && !o[BaseUri].Arr?
    ensures forall k :: k in r ==> k in o && r[k] == o[k]
    ensures forall k :: k in o && k != RetryStrategy && k != MaxRetries && k != BaseUri ==> k in r
  {
    var o1 := o - {RetryStrategy, MaxRetries};
    if Coalesce(o, BaseUri, Null).Arr? then o1 - {BaseUri} else o1
  }

  /**
   * `withOptions` on any client of the chain. The library's retry decorators
   * rebuild themselves around the reconfigured raw client; the trace decorator
   * reconfigures its inner client and drops its stream client; any other client
   * records the call.
   */
  function WithOptions(c: Client, o: Options): (r: Result<Client, Error>)
    ensures r.Success? ==> (r.value.Retryable? <==> c.Retryable?)
    ensures r.Success? && c.SharedTraced? ==> r.value.SharedTraced? && !r.value.streamOpen
  {
    match c
    case Retryable(kind, raw, _, strategy, maxRetries, logger) =>
      var newRaw :- WithOptions(raw, Stripped(o));
      var s :- StrategyArg(o, strategy);
      var n :- MaxRetriesArg(o, maxRetries);
      var b := Coalesce(o, BaseUri, Null);
      if !UriArg(b) then Failure(TypeError("RetryableHttpClient::__construct"))
      else Success(NewRetryable(kind, newRaw, s, n, logger, b))
    case SharedTraced(inner, _) =>
      var newInner :- WithOptions(inner, o);
      Success(SharedTraced(newInner, false))
    case _ => Success(Configured(c, o))
  }

  /**
   * A retry decorator's `withOptions` rebuilds from the raw client: the new raw
   * client is the old one reconfigured with the stripped options, and at most
   * one retry layer sits over it, whatever the old decorator had stacked.
   */
  lemma RebuildsFromRaw(c: Client, o: Options)
    requires c.Retryable? && WithOptions(c, o).Success?
    ensures var r := WithOptions(c, o).value;
      r.Retryable? && r.kind == c.kind &&
      WithOptions(c.raw, Stripped(o)) == Success(r.raw) &&
      OneLayerOver(r.current, r.raw)
  {
  }

  /**
   * A `Closure` given as `retry_strategy` does not implement the strategy
   * interface: once the raw client has taken the stripped options, the retry
   * decorator's constructor throws a `TypeError`.
   */
  lemma ClosureStrategyRefused(c: Client, o: Options, handle: nat)
    requires c.Retryable? && WithOptions(c.raw, Stripped(o)).Success?
    requires RetryStrategy in o && o[RetryStrategy] == Obj(handle, ClosureClass)
    ensures WithOptions(c, o).Failure? && WithOptions(c, o).error.TypeError?
  {
  }

  /** The strategy and retry count stay as they were unless the options give new ones. */
  lemma KeepsRetrySettings(c: Client, o: Options)
    requires c.Retryable? && WithOptions(c, o).Success?
    ensures RetryStrategy !in o || o[RetryStrategy] == Null ==> WithOptions(c, o).value.strategy == c.strategy
    ensures MaxRetries !in o || o[MaxRetries] == Null ==> WithOptions(c, o).value.maxRetries == c.maxRetries
  {
  }

  /**
   * A base-URI list given to `withOptions` goes on the new retry wrapper and not
   * to the raw client; without one, no earlier list survives the rebuild.
   */
  lemma BaseUriListOnWrapperOnly(c: Client, o: Options)
    requires c.Retryable? && WithOptions(c, o).Success?
    ensures var r := WithOptions(c, o).value;
      (BaseUri in o && o[BaseUri].Arr? <==> r.current.Configured? && r.current.inner.SfRetry? && r.current.inner.inner == r.raw)
  {
  }

  /** A second `withOptions` on a retry decorator still leaves one layer over the twice-reconfigured raw client. */
  lemma NeverCompounds(c: Client, o1: Options, o2: Options)
    requires c.Retryable? && WithOptions(c, o1).Success? && WithOptions(WithOptions(c, o1).value, o2).Success?
    ensures var r := WithOptions(WithOptions(c, o1).value, o2).value;
      r.Retryable? && OneLayerOver(r.current, r.raw) &&
      Success(r.raw) == (var raw1 :- WithOptions(c.raw, Stripped(o1)); WithOptions(raw1, Stripped(o2)))
  {
    RebuildsFromRaw(c, o1);
    RebuildsFromRaw(WithOptions(c, o1).value, o2);
  }

  // ---------------------------------------------------------------------------
  // Loggers

  /** Whether a client implements `LoggerAwareInterface`. */
  predicate LoggerAware(c: Client) {
    match c
    case Transport(_, _, aware, _) => aware
    case Configured(inner, _) => LoggerAware(inner)
    case Retryable(kind, _, _, _, _, _) => kind == Plain
    case _ => false
  }

  /**
   * `$c->setLogger($logger)` on a client that implements it; any other client is
   * left as it is. When the retry decorator added no layer, `$this->client` and
   * `$this->rawClient` are one object, so the raw client receives the logger too.
   */
  function SetLogger(c: Client, logger: nat): (r: Client)
    ensures r.Retryable? <==> c.Retryable?
  {
    match c
    case Transport(id, opts, aware, _) => if aware then Transport(id, opts, aware, Some(logger)) else c
    case Configured(inner, opts) => Configured(SetLogger(inner, logger), opts)
    case Retryable(Plain, raw, current, strategy, maxRetries, _) =>
      var current' := if LoggerAware(current) then SetLogger(current, logger) else current;
      Retryable(Plain, if current == raw then current' else raw, current', strategy, maxRetries, Some(logger))
    case _ => c
  }

  /** Setting the logger of a client that is not logger-aware changes nothing. */
  lemma {:induction false} SetLoggerNeedsAware(c: Client, logger: nat)
    requires !LoggerAware(c)
    ensures SetLogger(c, logger) == c
  {
    if c.Configured? {
      SetLoggerNeedsAware(c.inner, logger);
    }
  }

  /**
   * `RetryableHttpClient::setLogger` keeps the logger and forwards it only when
   * the current client is logger-aware. The raw client changes exactly when it
   * is the current client itself (no retry layer) and is logger-aware; then it
   * stays the current client.
   */
  lemma RetryableSetLogger(c: Client, logger: nat)
    requires c.Retryable? && c.kind == Plain
    ensures var r := SetLogger(c, logger);
      r.Retryable? && r.logger == Some(logger) &&
      (!LoggerAware(c.current) ==> r.current == c.current) &&
      (c.current != c.raw ==> r.raw == c.raw) &&
      (c.current == c.raw ==> r.raw == r.current && r.raw == SetLogger(c.raw, logger)) &&
      (r.raw != c.raw <==> c.current == c.raw && LoggerAware(c.raw) && SetLogger(c.raw, logger) != c.raw)
  {
    if c.current == c.raw && !LoggerAware(c.raw) {
      SetLoggerNeedsAware(c.raw, logger);
    }
  }

  /** With no retry layer, a logger-aware transport under the decorator receives the logger as well. */
  lemma UnwrappedTransportGetsLogger(id: nat, opts: Options, logger: nat)
    ensures var c := NewRetryable(Plain, Transport(id, opts, true, None), None, 0, None, Null);
      SetLogger(c, logger).raw == Transport(id, opts, true, Some(logger)) &&
      SetLogger(c, logger).current == SetLogger(c, logger).raw
  {
  }
}
