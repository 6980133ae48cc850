/**
 * The `HttpClient` facade: how its constructor and `withOptions` assemble option
 * arrays and decorate the inner client, and how `request` and the verb helpers
 * build the call they hand to that client.
 */
module Facade {
  import opened Wrappers
  import opened Php
  import opened Keys
  import SslContext
  import opened Clients

  /** The named option parameters of the constructor. */
  const ConstructorKeys: set<Opt> := ClientWideKeys + TransportKeys

  /** The named option parameters of `withOptions` besides `buffer`, `ssl`, `retry` and `maxRetries`. */
  const WithOptionsKeys: set<Opt> := ConstructorKeys - {Buffer}

  /** The facade: its decorated client and the logger it passes on. */
  datatype HttpClient = HttpClient(client: Client, logger: Option<nat>)

  /**
   * What the constructor learns from its environment: the id of the transport it
   * would create, whether that transport is logger-aware, and whether Tracy's
   * debugger is enabled.
   */
  datatype Env = Env(transportId: nat, transportLoggerAware: bool, tracyEnabled: bool)

  /** `$ssl?->toArray() ?? []`. */
  function SslArray(ssl: Option<SslContext.SslContext>): (r: Options)
    ensures ssl.None? ==> r == map[]
    ensures ssl.Some? ==> r.Keys == SslKeys
  {
    if ssl.Some? then SslContext.ToArray(ssl.value) else map[]
  }

  // ---------------------------------------------------------------------------
  // setClient, withClient, setLogger

  /** `HttpClient::setLogger`: the facade keeps the logger and hands it to a logger-aware client. */
  function SetFacadeLogger(h: HttpClient, logger: nat): (r: HttpClient)
    ensures r.logger == Some(logger)
    ensures !LoggerAware(h.client) ==> r.client == h.client
  {
    HttpClient(if LoggerAware(h.client) then SetLogger(h.client, logger) else h.client, Some(logger))
  }

  /**
   * `setClient($client, $options)`: the client is reconfigured only when options
   * are given, then installed, and then handed the facade's logger, if any.
   */
  function SetClient(h: HttpClient, c: Client, o: Options): (r: Result<HttpClient, Error>)
    ensures o == map[] ==> r.Success?
    ensures o == map[] && h.logger.None? ==> r.value == HttpClient(c, None)
    ensures r.Success? ==> r.value.logger == h.logger
  {
    var installed :- if o != map[] then WithOptions(c, o) else Success(c);
    var h' := HttpClient(installed, h.logger);
    if h.logger.Some? then Success(SetFacadeLogger(h', h.logger.value)) else Success(h')
  }

  /** `withClient`: `setClient` on a clone; a clone of an immutable value is the value itself. */
  function WithClient(h: HttpClient, c: Client, o: Options): (r: Result<HttpClient, Error>)
    ensures r.Success? ==> r.value.logger == h.logger
  {
    SetClient(h, c, o)
  }

  /** Options whose retry entries and base URI have the types the retry decorators' constructor declares. */
  predicate RetryTyped(o: Options) {
    var s := Coalesce(o, RetryStrategy, Null);
    var n := Coalesce(o, MaxRetries, Null);
    (s.Null? || (s.Obj? && !s.cls.ClosureClass?)) && (n.Null? || n.Int?) && UriArg(Coalesce(o, BaseUri, Null))
  }

  /** On well-typed options, reconfiguring any chain succeeds. */
  lemma {:induction false} WithOptionsTotal(c: Client, o: Options)
    requires RetryTyped(o)
    ensures WithOptions(c, o).Success?
  {
    match c
    case Retryable(_, raw, _, _, _, _) =>
      var o' := Stripped(o);
      assert Coalesce(o', BaseUri, Null) == Null || Coalesce(o', BaseUri, Null) == Coalesce(o, BaseUri, Null);
      WithOptionsTotal(raw, o');
    case SharedTraced(inner, _) =>
      WithOptionsTotal(inner, o);
    case _ =>
  }

  // ---------------------------------------------------------------------------
  // The constructor

  /** No named option of the constructor or of `withOptions` is a retry key, and the named ones are not SSL keys. */
  lemma KeyFacts()
    ensures RetryStrategy !in ConstructorKeys + SslKeys && MaxRetries !in ConstructorKeys + SslKeys
    ensures BaseUri !in SslKeys && Buffer !in SslKeys
  {
  }

  /** An SSL key is none of the named options, nor `buffer`, nor a retry key. */
  lemma SslKeyApart(k: Opt)
    requires k in SslKeys
    ensures k !in ConstructorKeys && k != RetryStrategy && k != MaxRetries
  {
  }

  /** The constructor's option array: the named options, then the SSL ones, with the nulls dropped. */
  function ConstructorOptions(args: Options, ssl: Option<SslContext.SslContext>): (r: Options)
    requires args.Keys <= ConstructorKeys
    ensures r.Keys <= ConstructorKeys + SslKeys
    ensures forall k :: k in r ==> r[k] != Null
    ensures forall k :: k in args ==> (k in r <==> args[k] != Null)
    ensures forall k :: k in r && k in args ==> r[k] == args[k]
  {
    FilterNull(Union(args, SslArray(ssl)))
  }

  /** Whether the constructor puts the trace decorator in: `$debug !== false || Debugger::isEnabled()`. */
  predicate Traces(debug: Option<bool>, env: Env) {
    debug != Some(false) || env.tracyEnabled
  }

  /** The client the constructor decorates: the given one, or a transport created with the option array. */
  function Inner(options: Options, client: Option<Client>, env: Env): Client {
    if client.None? then Transport(env.transportId, options, env.transportLoggerAware, None) else client.value
  }

  /** The inner client behind the trace decorator, when the constructor adds it. */
  function Traced(inner: Client, debug: Option<bool>, env: Env): (c: Client)
    ensures Traces(debug, env) ==> c == SharedTraced(inner, false)
    ensures !Traces(debug, env) ==> c == inner
  {
    if Traces(debug, env) then SharedTraced(inner, false) else inner
  }

  /**
   * `new HttpClient(...)`: with no client given, a transport is created with the
   * option array and the array is then emptied; the client is decorated with the
   * trace decorator when `Traces`, then with the retry decorator; and `setClient`
   * installs it with whatever options are left.
   */
  function Construct(args: Options, ssl: Option<SslContext.SslContext>, retry: Option<nat>, maxRetries: int,
                     client: Option<Client>, logger: Option<nat>, debug: Option<bool>, env: Env): (r: Result<HttpClient, Error>)
    requires args.Keys <= ConstructorKeys && UriArg(Coalesce(args, BaseUri, Null))
    ensures r.Success? ==> r.value.logger == logger
  {
    var options := ConstructorOptions(args, ssl);
    var traced := Traced(Inner(options, client, env), debug, env);
    SetClient(HttpClient(traced, logger), NewRetryable(Plain, traced, retry, maxRetries, logger, Coalesce(args, BaseUri, Null)),
              if client.None? then map[] else options)
  }

  lemma RetryTypedWithin(o: Options, args: Options)
    requires o.Keys <= ConstructorKeys + SslKeys && UriArg(Coalesce(args, BaseUri, Null))
    requires forall k :: k in o && k in args ==> o[k] == args[k]
    requires BaseUri in o ==> BaseUri in args
    ensures RetryTyped(o)
  {
    KeyFacts();
  }

  /** The constructor's option array carries no retry entries, and a base URI of a declared type. */
  lemma ConstructorOptionsTyped(args: Options, ssl: Option<SslContext.SslContext>)
    requires args.Keys <= ConstructorKeys && UriArg(Coalesce(args, BaseUri, Null))
    ensures RetryTyped(ConstructorOptions(args, ssl))
  {
    KeyFacts();
    RetryTypedWithin(ConstructorOptions(args, ssl), args);
  }

  /** The constructor never throws. */
  lemma ConstructSucceeds(args: Options, ssl: Option<SslContext.SslContext>, retry: Option<nat>, maxRetries: int,
                          client: Option<Client>, logger: Option<nat>, debug: Option<bool>, env: Env)
    requires args.Keys <= ConstructorKeys && UriArg(Coalesce(args, BaseUri, Null))
    ensures Construct(args, ssl, retry, maxRetries, client, logger, debug, env).Success?
  {
    var options := ConstructorOptions(args, ssl);
    var traced := Traced(Inner(options, client, env), debug, env);
    if client.Some? {
      ConstructorOptionsTyped(args, ssl);
      WithOptionsTotal(NewRetryable(Plain, traced, retry, maxRetries, logger, Coalesce(args, BaseUri, Null)), options);
    }
  }

  /**
   * The raw client of the retry decorator `c` once the facade has handed it
   * `logger`, if any: a plain decorator with no retry layer holds its raw client
   * as its current one, so `setLogger` reaches it.
   */
  function LoggedRaw(c: Client, logger: Option<nat>): Client
    requires c.Retryable?
  {
    if logger.Some? && c.kind == Plain && c.current == c.raw then SetLogger(c.raw, logger.value) else c.raw
  }

  /** The facade's `setLogger` on a retry decorator leaves the raw client as `LoggedRaw` says. */
  lemma FacadeLoggerRaw(c: Client, logger: nat)
    requires c.Retryable?
    ensures SetFacadeLogger(HttpClient(c, Some(logger)), logger).client.Retryable?
    ensures SetFacadeLogger(HttpClient(c, Some(logger)), logger).client.kind == c.kind
    ensures SetFacadeLogger(HttpClient(c, Some(logger)), logger).client.raw == LoggedRaw(c, Some(logger))
  {
    if c.kind == Plain {
      RetryableSetLogger(c, logger);
    }
  }

  /**
   * `setClient` keeps a retry decorator outermost: its raw client is the given
   * one, reconfigured when options are given, and it receives the facade's
   * logger exactly when it is also the decorator's current client.
   */
  lemma SetClientRaw(h: HttpClient, c: Client, o: Options)
    requires c.Retryable? && SetClient(h, c, o).Success?
    ensures var r := SetClient(h, c, o).value.client;
      r.Retryable? && r.kind == c.kind &&
      (o == map[] ==> r.raw == LoggedRaw(c, h.logger)) &&
      (o == map[] && h.logger.None? ==> r.raw == c.raw) &&
      (o != map[] ==> WithOptions(c, o).Success? && Success(WithOptions(c, o).value.raw) == WithOptions(c.raw, Stripped(o)) &&
                      r.raw == LoggedRaw(WithOptions(c, o).value, h.logger)) &&
      (o != map[] && h.logger.None? ==> Success(r.raw) == WithOptions(c.raw, Stripped(o)))
  {
    var installed := if o != map[] then WithOptions(c, o).value else c;
    if o != map[] {
      RebuildsFromRaw(c, o);
    }
    if h.logger.Some? {
      FacadeLoggerRaw(installed, h.logger.value);
    }
  }

  /**
   * The chain the constructor builds: the retry decorator is outermost, and the
   * client it keeps as raw is the trace decorator exactly when `Traces` (a null
   * `debug` traces too). A transport the constructor creates gets the option
   * array and is not reconfigured afterwards; it holds the logger exactly when
   * it is logger-aware and neither the trace decorator nor a retry layer
   * stands in front of it.
   */
  lemma ChainOrder(args: Options, ssl: Option<SslContext.SslContext>, retry: Option<nat>, maxRetries: int,
                   client: Option<Client>, logger: Option<nat>, debug: Option<bool>, env: Env)
    requires args.Keys <= ConstructorKeys && UriArg(Coalesce(args, BaseUri, Null))
    requires Construct(args, ssl, retry, maxRetries, client, logger, debug, env).Success?
    ensures var c := Construct(args, ssl, retry, maxRetries, client, logger, debug, env).value.client;
      c.Retryable? && c.kind == Plain &&
      (Traces(debug, env) ==> c.raw.SharedTraced?) &&
      (client.None? ==> c.raw == Traced(Transport(env.transportId, ConstructorOptions(args, ssl), env.transportLoggerAware,
        if logger.Some? && env.transportLoggerAware && !Traces(debug, env) && !WrapsRetry(retry, maxRetries, Coalesce(args, BaseUri, Null))
        then logger else None), debug, env))
  {
    var options := ConstructorOptions(args, ssl);
    var traced := Traced(Inner(options, client, env), debug, env);
    var rest := if client.None? then map[] else options;
    var nr := NewRetryable(Plain, traced, retry, maxRetries, logger, Coalesce(args, BaseUri, Null));
    WrapDecision(Plain, traced, retry, maxRetries, logger, Coalesce(args, BaseUri, Null));
    SetClientRaw(HttpClient(traced, logger), nr, rest);
  }

  /**
   * With a logger, `debug: false`, Tracy off and no retry settings, the created
   * logger-aware transport is both the raw and the current client, and holds the logger.
   */
  lemma LoggerReachesUnwrappedTransport()
    ensures Construct(map[], None, None, 0, None, Some(7), Some(false), Env(0, true, false)).Success?
    ensures var c := Construct(map[], None, None, 0, None, Some(7), Some(false), Env(0, true, false)).value.client;
      c.raw == Transport(0, map[], true, Some(7)) && c.current == c.raw
  {
    ConstructSucceeds(map[], None, None, 0, None, Some(7), Some(false), Env(0, true, false));
    assert ConstructorOptions(map[], None) == map[];
    ChainOrder(map[], None, None, 0, None, Some(7), Some(false), Env(0, true, false));
  }

  // ---------------------------------------------------------------------------
  // withOptions

  /** Which named `withOptions` parameter an option comes from: none of them is a retry key, `buffer` or an SSL key. */
  lemma WithOptionsKeysApart(k: Opt)
    requires k in WithOptionsKeys
    ensures k != Buffer && k != RetryStrategy && k != MaxRetries && k !in SslKeys
  {
  }

  /**
   * The array `withOptions` assembles before filtering: the named parameters,
   * `retry` as `retry_strategy` and `maxRetries` as `max_retries`, then the SSL keys.
   */
  function Assembled(args: Options, retry: Value, maxRetries: Option<int>, ssl: Option<SslContext.SslContext>): Options {
    Union(args[RetryStrategy := retry][MaxRetries := SslContext.OptInt(maxRetries)], SslArray(ssl))
  }

  lemma AssembledArg(args: Options, retry: Value, maxRetries: Option<int>, ssl: Option<SslContext.SslContext>, k: Opt)
    requires args.Keys <= WithOptionsKeys && k in args
    ensures k in Assembled(args, retry, maxRetries, ssl) && Assembled(args, retry, maxRetries, ssl)[k] == args[k]
  {
    WithOptionsKeysApart(k);
  }

  lemma AssembledSsl(args: Options, retry: Value, maxRetries: Option<int>, ssl: Option<SslContext.SslContext>, k: Opt)
    requires args.Keys <= WithOptionsKeys && ssl.Some? && k in SslKeys
    ensures k in Assembled(args, retry, maxRetries, ssl) && Assembled(args, retry, maxRetries, ssl)[k] == SslContext.ToArray(ssl.value)[k]
  {
    SslKeyApart(k);
    WithOptionsKeysSsl(k);
    var a := args[RetryStrategy := retry][MaxRetries := SslContext.OptInt(maxRetries)];
    assert k !in a;
    assert SslArray(ssl) == SslContext.ToArray(ssl.value);
  }

  lemma WithOptionsKeysSsl(k: Opt)
    requires k in SslKeys
    ensures k !in WithOptionsKeys
  {
  }

  lemma AssembledBaseUri(args: Options, retry: Value, maxRetries: Option<int>, ssl: Option<SslContext.SslContext>)
    requires BaseUri !in args
    ensures BaseUri !in Assembled(args, retry, maxRetries, ssl)
  {
    KeyFacts();
  }

  /** `array_filter` of the nulls, then `false` mapped to null. */
  function Clean(m: Options): (r: Options)
    ensures forall k :: k in r <==> k in m && m[k] != Null
    ensures forall k :: k in r ==> r[k] == if m[k] == Bool(false) then Null else m[k]
  {
    FalseToNull(FilterNull(m))
  }

  /** Away from `buffer`, an entry of the final array is the cleaned entry of the assembled one. */
  lemma CleanAt(u: Options, k: Opt, buffer: Value, v: Value)
    requires k != Buffer && k in u && u[k] == v
    ensures k in Clean(u)[Buffer := buffer] <==> v != Null
    ensures k in Clean(u)[Buffer := buffer] ==> Clean(u)[Buffer := buffer][k] == if v == Bool(false) then Null else v
  {
  }

  /**
   * The option array of `HttpClient::withOptions`: the assembled array with the
   * nulls dropped and `false` turned into null; `buffer` is then always set, to
   * exactly the given value.
   */
  function WithOptionsArray(args: Options, retry: Value, maxRetries: Option<int>, buffer: Value,
                            ssl: Option<SslContext.SslContext>): (r: Options)
    ensures Buffer in r && r[Buffer] == buffer
  {
    Clean(Assembled(args, retry, maxRetries, ssl))[Buffer := buffer]
  }

  /** A null argument leaves its key out; `false` gives the key with a null value; anything else is kept. */
  lemma WithOptionsArgs(args: Options, retry: Value, maxRetries: Option<int>, buffer: Value,
                        ssl: Option<SslContext.SslContext>, k: Opt)
    requires args.Keys <= WithOptionsKeys && k in args
    ensures k in WithOptionsArray(args, retry, maxRetries, buffer, ssl) <==> args[k] != Null
    ensures k in WithOptionsArray(args, retry, maxRetries, buffer, ssl) ==>
      WithOptionsArray(args, retry, maxRetries, buffer, ssl)[k] == if args[k] == Bool(false) then Null else args[k]
  {
    WithOptionsKeysApart(k);
    AssembledArg(args, retry, maxRetries, ssl, k);
    CleanAt(Assembled(args, retry, maxRetries, ssl), k, buffer, args[k]);
  }

  /** Each SSL key is present when the context gives it a value, and a `false` flag arrives as null. */
  lemma WithOptionsSsl(args: Options, retry: Value, maxRetries: Option<int>, buffer: Value,
                       ssl: Option<SslContext.SslContext>, k: Opt)
    requires args.Keys <= WithOptionsKeys && ssl.Some? && k in SslKeys
    ensures k in WithOptionsArray(args, retry, maxRetries, buffer, ssl) <==> SslContext.ToArray(ssl.value)[k] != Null
    ensures k in WithOptionsArray(args, retry, maxRetries, buffer, ssl) ==>
      WithOptionsArray(args, retry, maxRetries, buffer, ssl)[k] ==
        if SslContext.ToArray(ssl.value)[k] == Bool(false) then Null else SslContext.ToArray(ssl.value)[k]
  {
    SslKeyApart(k);
    KeyFacts();
    AssembledSsl(args, retry, maxRetries, ssl, k);
    CleanAt(Assembled(args, retry, maxRetries, ssl), k, buffer, SslContext.ToArray(ssl.value)[k]);
  }

  lemma AssembledRetry(args: Options, retry: Value, maxRetries: Option<int>, ssl: Option<SslContext.SslContext>)
    ensures RetryStrategy in Assembled(args, retry, maxRetries, ssl) && Assembled(args, retry, maxRetries, ssl)[RetryStrategy] == retry
    ensures MaxRetries in Assembled(args, retry, maxRetries, ssl) && Assembled(args, retry, maxRetries, ssl)[MaxRetries] == SslContext.OptInt(maxRetries)
  {
    AssembledNamed(args, retry, maxRetries, ssl, RetryStrategy, retry);
    AssembledNamed(args, retry, maxRetries, ssl, MaxRetries, SslContext.OptInt(maxRetries));
  }

  lemma AssembledNamed(args: Options, retry: Value, maxRetries: Option<int>, ssl: Option<SslContext.SslContext>, k: Opt, v: Value)
    requires k in args[RetryStrategy := retry][MaxRetries := SslContext.OptInt(maxRetries)]
    requires args[RetryStrategy := retry][MaxRetries := SslContext.OptInt(maxRetries)][k] == v
    ensures k in Assembled(args, retry, maxRetries, ssl) && Assembled(args, retry, maxRetries, ssl)[k] == v
  {
  }

  /** `retry` goes in as `retry_strategy` only when not null, and a `false` strategy arrives as null. */
  lemma WithOptionsRetryStrategy(args: Options, retry: Value, maxRetries: Option<int>, buffer: Value,
                                 ssl: Option<SslContext.SslContext>)
    ensures RetryStrategy in WithOptionsArray(args, retry, maxRetries, buffer, ssl) <==> retry != Null
    ensures RetryStrategy in WithOptionsArray(args, retry, maxRetries, buffer, ssl) ==>
      WithOptionsArray(args, retry, maxRetries, buffer, ssl)[RetryStrategy] == if retry == Bool(false) then Null else retry
  {
    AssembledRetry(args, retry, maxRetries, ssl);
    CleanAt(Assembled(args, retry, maxRetries, ssl), RetryStrategy, buffer, retry);
  }

  /** `maxRetries` goes in as `max_retries` only when not null. */
  lemma WithOptionsMaxRetries(args: Options, retry: Value, maxRetries: Option<int>, buffer: Value,
                              ssl: Option<SslContext.SslContext>)
    ensures MaxRetries in WithOptionsArray(args, retry, maxRetries, buffer, ssl) <==> maxRetries.Some?
    ensures maxRetries.Some? ==> WithOptionsArray(args, retry, maxRetries, buffer, ssl)[MaxRetries] == Int(maxRetries.value)
  {
    AssembledRetry(args, retry, maxRetries, ssl);
    CleanAt(Assembled(args, retry, maxRetries, ssl), MaxRetries, buffer, SslContext.OptInt(maxRetries));
  }

  /**
   * The SSL booleans go through the same `false` to null conversion: with
   * `SSLContext::insecure()` the verification keys are present and null, not false.
   */
  lemma InsecureSslBecomesNull(args: Options, retry: Value, maxRetries: Option<int>, buffer: Value)
    requires args.Keys <= WithOptionsKeys
    ensures var r := WithOptionsArray(args, retry, maxRetries, buffer, Some(SslContext.Insecure(true)));
      VerifyPeer in r && r[VerifyPeer] == Null && VerifyHost in r && r[VerifyHost] == Null
  {
    SslContext.InsecureDisablesVerification();
    WithOptionsSsl(args, retry, maxRetries, buffer, Some(SslContext.Insecure(true)), VerifyPeer);
    WithOptionsSsl(args, retry, maxRetries, buffer, Some(SslContext.Insecure(true)), VerifyHost);
  }

  /**
   * `HttpClient::withOptions`: `withClient` with the current client and the
   * assembled array; since `buffer` is always in the array, the client is always
   * reconfigured.
   */
  function WithOptionsFacade(h: HttpClient, args: Options, retry: Value, maxRetries: Option<int>, buffer: Value,
                             ssl: Option<SslContext.SslContext>): (r: Result<HttpClient, Error>)
    requires args.Keys <= WithOptionsKeys
    ensures r.Success? ==> r.value.logger == h.logger
  {
    WithClient(h, h.client, WithOptionsArray(args, retry, maxRetries, buffer, ssl))
  }

  /** The parameter types `withOptions` declares for `retry` and `baseUri`. */
  predicate WithOptionsTyped(args: Options, retry: Value) {
    (retry.Null? || retry == Bool(false) || (retry.Obj? && !retry.cls.ClosureClass?)) &&
    (BaseUri in args ==> UriArg(args[BaseUri]) || args[BaseUri] == Bool(false))
  }

  /** With arguments of the declared types, the array `withOptions` assembles is one the retry decorators accept. */
  lemma WithOptionsArrayTyped(args: Options, retry: Value, maxRetries: Option<int>, buffer: Value,
                              ssl: Option<SslContext.SslContext>)
    requires args.Keys <= WithOptionsKeys && WithOptionsTyped(args, retry)
    ensures RetryTyped(WithOptionsArray(args, retry, maxRetries, buffer, ssl))
  {
    WithOptionsRetryStrategy(args, retry, maxRetries, buffer, ssl);
    WithOptionsMaxRetries(args, retry, maxRetries, buffer, ssl);
    if BaseUri in args {
      WithOptionsArgs(args, retry, maxRetries, buffer, ssl, BaseUri);
    } else {
      AssembledBaseUri(args, retry, maxRetries, ssl);
    }
  }

  /**
   * With arguments of the declared types, `withOptions` succeeds: the array is
   * never empty, so the current client is always reconfigured with it.
   */
  lemma WithOptionsReconfigures(h: HttpClient, args: Options, retry: Value, maxRetries: Option<int>, buffer: Value,
                                ssl: Option<SslContext.SslContext>)
    requires args.Keys <= WithOptionsKeys && WithOptionsTyped(args, retry)
    ensures var o := WithOptionsArray(args, retry, maxRetries, buffer, ssl);
      o != map[] && WithOptions(h.client, o).Success? && WithOptionsFacade(h, args, retry, maxRetries, buffer, ssl).Success?
  {
    var o := WithOptionsArray(args, retry, maxRetries, buffer, ssl);
    WithOptionsArrayTyped(args, retry, maxRetries, buffer, ssl);
    WithOptionsTotal(h.client, o);
    assert Buffer in o;
  }

  /** Without a logger to hand on, the facade's new client is exactly the reconfigured one. */
  lemma WithOptionsClient(h: HttpClient, args: Options, retry: Value, maxRetries: Option<int>, buffer: Value,
                          ssl: Option<SslContext.SslContext>)
    requires args.Keys <= WithOptionsKeys && h.logger.None?
    requires WithOptionsFacade(h, args, retry, maxRetries, buffer, ssl).Success?
    ensures Success(WithOptionsFacade(h, args, retry, maxRetries, buffer, ssl).value.client)
      == WithOptions(h.client, WithOptionsArray(args, retry, maxRetries, buffer, ssl))
  {
    assert Buffer in WithOptionsArray(args, retry, maxRetries, buffer, ssl);
  }

  // ---------------------------------------------------------------------------
  // request and the verbs

  /** The optional parameters of `request` and of every verb helper. */
  datatype RequestArgs = RequestArgs(
    query: Option<seq<Entry>>,
    json: Value,
    body: Value,
    headers: Option<Iterable>,
    timeout: Option<real>,
    maxDuration: Option<real>,
    userData: Value,
    onProgress: Option<nat>,
    extra: Option<seq<Entry>>)

  /** The call `request` makes on the decorated client, whose response it wraps in an `HttpResponse`. */
  datatype Call = Call(client: Client, httpMethod: string, url: string, opts: Options)

  function OptReal(r: Option<real>): Value {
    if r.Some? then Float(r.value) else Null
  }

  /** `HttpClient::request`: the nine parameters under their option names, nulls dropped. */
  function Request(h: HttpClient, httpMethod: string, url: string, a: RequestArgs): (c: Call)
    ensures c.client == h.client && c.httpMethod == httpMethod && c.url == url
    ensures c.opts.Keys <= PerRequestKeys
    ensures forall k :: k in c.opts ==> c.opts[k] != Null
  {
    Call(h.client, httpMethod, url, FilterNull(RequestArray(a)))
  }

  /** The array `request` builds before dropping the nulls. */
  function RequestArray(a: RequestArgs): Options {
    map[Query := SslContext.OptArr(a.query), Json := a.json, Body := a.body,
        Headers := if a.headers.Some? then IterableValue(a.headers.value) else Null, Timeout := OptReal(a.timeout),
        MaxDuration := OptReal(a.maxDuration), UserData := a.userData,
        OnProgress := if a.onProgress.Some? then Obj(a.onProgress.value, ClosureClass) else Null,
        Extra := SslContext.OptArr(a.extra)]
  }

  lemma RequestAt(h: HttpClient, httpMethod: string, url: string, a: RequestArgs, k: Opt, v: Value)
    requires k in RequestArray(a) && RequestArray(a)[k] == v
    ensures k in Request(h, httpMethod, url, a).opts <==> v != Null
    ensures k in Request(h, httpMethod, url, a).opts ==> Request(h, httpMethod, url, a).opts[k] == v
  {
  }

  /** Each option of the request is present exactly when its parameter is not null, and holds that parameter. */
  lemma RequestOptions(h: HttpClient, httpMethod: string, url: string, a: RequestArgs)
    ensures var o := Request(h, httpMethod, url, a).opts;
      (Query in o <==> a.query.Some?) && (a.query.Some? ==> o[Query] == Arr(a.query.value)) &&
      (Json in o <==> a.json != Null) && (Json in o ==> o[Json] == a.json) &&
      (Body in o <==> a.body != Null) && (Body in o ==> o[Body] == a.body) &&
      (Headers in o <==> a.headers.Some?) && (a.headers.Some? ==> o[Headers] == IterableValue(a.headers.value)) &&
      (Timeout in o <==> a.timeout.Some?) && (a.timeout.Some? ==> o[Timeout] == Float(a.timeout.value)) &&
      (MaxDuration in o <==> a.maxDuration.Some?) && (a.maxDuration.Some? ==> o[MaxDuration] == Float(a.maxDuration.value)) &&
      (UserData in o <==> a.userData != Null) && (UserData in o ==> o[UserData] == a.userData) &&
      (OnProgress in o <==> a.onProgress.Some?) && (a.onProgress.Some? ==> o[OnProgress] == Obj(a.onProgress.value, ClosureClass)) &&
      (Extra in o <==> a.extra.Some?) && (a.extra.Some? ==> o[Extra] == Arr(a.extra.value))
  {
    RequestPayloadOptions(h, httpMethod, url, a);
    RequestTransferOptions(h, httpMethod, url, a);
  }

  /** The query, the JSON, the body and the headers, for `RequestOptions`. */
  lemma RequestPayloadOptions(h: HttpClient, httpMethod: string, url: string, a: RequestArgs)
    ensures var o := Request(h, httpMethod, url, a).opts;
      (Query in o <==> a.query.Some?) && (a.query.Some? ==> o[Query] == Arr(a.query.value)) &&
      (Json in o <==> a.json != Null) && (Json in o ==> o[Json] == a.json) &&
      (Body in o <==> a.body != Null) && (Body in o ==> o[Body] == a.body) &&
      (Headers in o <==> a.headers.Some?) && (a.headers.Some? ==> o[Headers] == IterableValue(a.headers.value))
  {
    var m := RequestArray(a);
    RequestAt(h, httpMethod, url, a, Query, m[Query]);
    RequestAt(h, httpMethod, url, a, Json, m[Json]);
    RequestAt(h, httpMethod, url, a, Body, m[Body]);
    RequestAt(h, httpMethod, url, a, Headers, m[Headers]);
  }

  /** The timeouts, the user data, the progress callback and the extra options, for `RequestOptions`. */
  lemma RequestTransferOptions(h: HttpClient, httpMethod: string, url: string, a: RequestArgs)
    ensures var o := Request(h, httpMethod, url, a).opts;
      (Timeout in o <==> a.timeout.Some?) && (a.timeout.Some? ==> o[Timeout] == Float(a.timeout.value)) &&
      (MaxDuration in o <==> a.maxDuration.Some?) && (a.maxDuration.Some? ==> o[MaxDuration] == Float(a.maxDuration.value)) &&
      (UserData in o <==> a.userData != Null) && (UserData in o ==> o[UserData] == a.userData) &&
      (OnProgress in o <==> a.onProgress.Some?) && (a.onProgress.Some? ==> o[OnProgress] == Obj(a.onProgress.value, ClosureClass)) &&
      (Extra in o <==> a.extra.Some?) && (a.extra.Some? ==> o[Extra] == Arr(a.extra.value))
  {
    var m := RequestArray(a);
    RequestAt(h, httpMethod, url, a, Timeout, m[Timeout]);
    RequestAt(h, httpMethod, url, a, MaxDuration, m[MaxDuration]);
    RequestAt(h, httpMethod, url, a, UserData, m[UserData]);
    RequestAt(h, httpMethod, url, a, OnProgress, m[OnProgress]);
    RequestAt(h, httpMethod, url, a, Extra, m[Extra]);
  }

  /** The verb helpers `get`, `post`, `put`, `patch` and `delete`. */
  datatype Verb = Get | Post | Put | Patch | Delete

  /** The method each verb helper passes to `request`, upper-case as HTTP methods are written. */
  function VerbMethod(v: Verb): (m: string)
    ensures v == Get <==> m == "GET"
    ensures v == Post <==> m == "POST"
    ensures v == Put <==> m == "PUT"
    ensures v == Patch <==> m == "PATCH"
    ensures v == Delete <==> m == "DELETE"
  {
    match v
    case Get => "GET"
    case Post => "POST"
    case Put => "PUT"
    case Patch => "PATCH"
    case Delete => "DELETE"
  }

  /** A verb helper: `request` with its method fixed and every other argument passed through. */
  function Send(h: HttpClient, v: Verb, url: string, a: RequestArgs): (c: Call)
    ensures c.client == h.client && c.url == url && c.httpMethod == VerbMethod(v)
    ensures c.opts == Request(h, "GET", url, a).opts
  {
    Request(h, VerbMethod(v), url, a)
  }

  /** The five verbs send five different methods, and otherwise the same call. */
  lemma VerbsDifferOnlyInMethod(h: HttpClient, v: Verb, w: Verb, url: string, a: RequestArgs)
    ensures Send(h, v, url, a).opts == Send(h, w, url, a).opts
    ensures Send(h, v, url, a).httpMethod == Send(h, w, url, a).httpMethod <==> v == w
  {
  }
}
