/**
 * The retry strategies: `Retry\CustomRetryStrategy` and its subclass
 * `Retry\RetryStrategy`, `Retry\MultiRetryStrategy`, and the stand-alone
 * `RetryStrategy`. Each decides nothing itself: `shouldRetry` and `getDelay`
 * delegate to a wrapped strategy, and `addDecorator` installs Symfony's retry
 * decorator on an `HttpClient` facade.
 */
module RetryStrategies {
  import opened Wrappers
  import opened Php
  import opened Keys
  import opened Clients
  import opened Facade

  /** `maxRetries` when none is given. */
  const DefaultMaxRetries: int := 3

  /** The delay of the generic strategy when none is given, in milliseconds. */
  const DefaultDelayMs: int := 1000

  /** A `RetryStrategyInterface` object, as far as delegation goes. */
  datatype Strategy =
    /** A strategy the library does not define. */
    | Foreign(handle: nat)
    /** Symfony's `GenericRetryStrategy`; `statusCodes` is `None` for its default list. */
    | Generic(statusCodes: Option<seq<Entry>>, delayMs: int, maxDelayMs: int)
    /** One of the library's delegating strategies, identified by `self`, wrapping `inner`. */
    | Delegating(self: nat, inner: Strategy, maxRetries: int)

  /** One retry attempt as a strategy sees it: the context, the content read so far, and the transport error. */
  datatype Attempt = Attempt(context: nat, content: Option<string>, exception: Option<nat>)

  /** The strategy that actually decides: the first one, going inwards, that is not one of the library's own. */
  function Decider(s: Strategy): (r: Strategy)
    ensures !r.Delegating?
  {
    if s.Delegating? then Decider(s.inner) else s
  }

  /** `shouldRetry`: the library's strategies return exactly what the wrapped one returns. */
  function ShouldRetry(s: Strategy, a: Attempt, decide: (Strategy, Attempt) -> Option<bool>): Option<bool> {
    if s.Delegating? then ShouldRetry(s.inner, a, decide) else decide(s, a)
  }

  /** `getDelay`: the library's strategies return exactly the wrapped one's delay. */
  function GetDelay(s: Strategy, a: Attempt, delay: (Strategy, Attempt) -> int): int {
    if s.Delegating? then GetDelay(s.inner, a, delay) else delay(s, a)
  }

  /** However deep the delegation, the answer is the deciding strategy's. */
  lemma {:induction false} ShouldRetryIsDeciders(s: Strategy, a: Attempt, decide: (Strategy, Attempt) -> Option<bool>)
    ensures ShouldRetry(s, a, decide) == decide(Decider(s), a)
  {
    if s.Delegating? {
      ShouldRetryIsDeciders(s.inner, a, decide);
    }
  }

  /** However deep the delegation, the delay is the deciding strategy's. */
  lemma {:induction false} GetDelayIsDeciders(s: Strategy, a: Attempt, delay: (Strategy, Attempt) -> int)
    ensures GetDelay(s, a, delay) == delay(Decider(s), a)
  {
    if s.Delegating? {
      GetDelayIsDeciders(s.inner, a, delay);
    }
  }

  // ---------------------------------------------------------------------------
  // Factories

  /** `new CustomRetryStrategy($strategy, $maxRetries)`. */
  function NewCustom(self: nat, strategy: Strategy, maxRetries: int): (r: Strategy)
    ensures r.Delegating? && r.self == self && r.maxRetries == maxRetries
    ensures Decider(r) == Decider(strategy)
  {
    Delegating(self, strategy, maxRetries)
  }

  /**
   * `new Retry\RetryStrategy(...)` and `new RetryStrategy(...)`: a delegating
   * strategy around a generic one built from the remaining arguments.
   */
  function NewGeneric(self: nat, maxRetries: int, statusCodes: Option<seq<Entry>>, delayMs: int, maxDelayMs: int): (r: Strategy)
    ensures r.Delegating? && r.self == self && r.maxRetries == maxRetries
    ensures Decider(r) == Generic(statusCodes, delayMs, maxDelayMs)
  {
    Delegating(self, Generic(statusCodes, delayMs, maxDelayMs), maxRetries)
  }

  /** `RetryStrategy::custom($strategy)`: a default instance whose strategy is then replaced, so three retries. */
  function CustomOf(self: nat, strategy: Strategy): (r: Strategy)
    ensures r.Delegating? && r.maxRetries == DefaultMaxRetries
    ensures Decider(r) == Decider(strategy)
  {
    var base := NewGeneric(self, DefaultMaxRetries, None, DefaultDelayMs, 0);
    Delegating(base.self, strategy, base.maxRetries)
  }

  /** `RetryStrategy::none()`: no retries, but still the generic strategy underneath. */
  function NoRetries(self: nat): (r: Strategy)
    ensures r.Delegating? && r.maxRetries == 0 && Decider(r).Generic?
  {
    NewGeneric(self, 0, None, DefaultDelayMs, 0)
  }

  // ---------------------------------------------------------------------------
  // addDecorator

  /** What `addDecorator` of a `ClientRetryStrategy` does: a single delegating strategy, or a list of them. */
  datatype ClientStrategy =
    | Single(strategy: Strategy)
    | Multi(strategies: seq<ClientStrategy>)

  /** `RetryStrategy::multi(...$strategies)`: the list, in the order given. */
  function MultiOf(strategies: seq<ClientStrategy>): (r: ClientStrategy)
    ensures r.Multi? && r.strategies == strategies
  {
    Multi(strategies)
  }

  /** The retry layer one strategy installs: Symfony's decorator with the strategy itself, and a base-URI list on it. */
  function Layer(c: Client, s: Strategy, logger: Option<nat>, baseUrl: Value): (r: Client)
    requires s.Delegating?
    ensures r.SfRetry? || (r.Configured? && r.inner.SfRetry?)
    ensures baseUrl.Arr? <==> r.Configured?
  {
    var retryClient := SfRetry(c, Some(s.self), s.maxRetries, logger);
    if baseUrl.Arr? then Configured(retryClient, map[BaseUri := baseUrl]) else retryClient
  }

  /** The strategies a client strategy installs, one layer each, in installation order. */
  predicate Installable(cs: ClientStrategy)
    decreases cs
  {
    match cs
    case Single(s) => s.Delegating?
    case Multi(parts) => forall i :: 0 <= i < |parts| ==> Installable(parts[i])
  }

  function Leaves(cs: ClientStrategy): (r: seq<Strategy>)
    requires Installable(cs)
    ensures forall i :: 0 <= i < |r| ==> r[i].Delegating?
    decreases cs, 1
  {
    match cs
    case Single(s) => [s]
    case Multi(parts) => LeavesOf(parts)
  }

  function LeavesOf(parts: seq<ClientStrategy>): (r: seq<Strategy>)
    requires forall i :: 0 <= i < |parts| ==> Installable(parts[i])
    ensures forall i :: 0 <= i < |r| ==> r[i].Delegating?
    decreases parts, 0
  {
    if |parts| == 0 then [] else LeavesOf(parts[..|parts| - 1]) + Leaves(parts[|parts| - 1])
  }

  /**
   * `addDecorator($client, $baseUrl)`: a single strategy puts one retry layer
   * around the facade's current client through `setClient` with no options; a
   * list calls each strategy's `addDecorator` in turn with the same base URL.
   */
  function AddDecorator(cs: ClientStrategy, h: HttpClient, baseUrl: Value): (r: HttpClient)
    requires Installable(cs)
    ensures r.logger == h.logger
    decreases cs, 1
  {
    match cs
    case Single(s) =>
      var installed := SetClient(h, Layer(h.client, s, h.logger, baseUrl), map[]);
      installed.value
    case Multi(parts) => AddEach(parts, h, baseUrl)
  }

  /** `foreach ($this->strategies as $strategy) $strategy->addDecorator($client, $baseUrl)`. */
  function AddEach(parts: seq<ClientStrategy>, h: HttpClient, baseUrl: Value): (r: HttpClient)
    requires forall i :: 0 <= i < |parts| ==> Installable(parts[i])
    ensures r.logger == h.logger
    decreases parts, 0
  {
    if |parts| == 0 then h else AddDecorator(parts[|parts| - 1], AddEach(parts[..|parts| - 1], h, baseUrl), baseUrl)
  }

  /** The client with one layer per strategy, the first innermost and the last outermost. */
  function Wrapped(c: Client, leaves: seq<Strategy>, logger: Option<nat>, baseUrl: Value): Client
    requires forall i :: 0 <= i < |leaves| ==> leaves[i].Delegating?
    decreases |leaves|
  {
    if |leaves| == 0 then c
    else Layer(Wrapped(c, leaves[..|leaves| - 1], logger, baseUrl), leaves[|leaves| - 1], logger, baseUrl)
  }

  /** Wrapping in `xs + ys` is wrapping in `xs`, then in `ys`. */
  lemma {:induction false} WrappedAppend(c: Client, xs: seq<Strategy>, ys: seq<Strategy>, logger: Option<nat>, baseUrl: Value)
    requires forall i :: 0 <= i < |xs| ==> xs[i].Delegating?
    requires forall i :: 0 <= i < |ys| ==> ys[i].Delegating?
    ensures forall i :: 0 <= i < |xs + ys| ==> (xs + ys)[i].Delegating?
    ensures Wrapped(c, xs + ys, logger, baseUrl) == Wrapped(Wrapped(c, xs, logger, baseUrl), ys, logger, baseUrl)
    decreases |ys|
  {
    if |ys| == 0 {
      assert xs + ys == xs;
    } else {
      var ys' := ys[..|ys| - 1];
      assert (xs + ys)[..|xs + ys| - 1] == xs + ys';
      assert (xs + ys)[|xs + ys| - 1] == ys[|ys| - 1];
      WrappedAppend(c, xs, ys', logger, baseUrl);
    }
  }

  /** A retry layer is never logger-aware, so handing it the facade's logger changes nothing. */
  lemma LayerNotLoggerAware(c: Client, s: Strategy, logger: Option<nat>, baseUrl: Value)
    requires s.Delegating?
    ensures !LoggerAware(Layer(c, s, logger, baseUrl))
  {
  }

  /**
   * `addDecorator` wraps the facade's client in one retry layer per strategy,
   * in the order the strategies are listed, so the last one listed is outermost;
   * every layer gets the same base URL and the facade's logger.
   */
  lemma {:induction false} AddDecoratorWraps(cs: ClientStrategy, h: HttpClient, baseUrl: Value)
    requires Installable(cs)
    ensures AddDecorator(cs, h, baseUrl) == HttpClient(Wrapped(h.client, Leaves(cs), h.logger, baseUrl), h.logger)
    decreases cs, 1
  {
    match cs
    case Single(s) =>
      LayerNotLoggerAware(h.client, s, h.logger, baseUrl);
      assert Wrapped(h.client, [s], h.logger, baseUrl) == Layer(h.client, s, h.logger, baseUrl) by {
        assert [s][..0] == [];
      }
    case Multi(parts) =>
      AddEachWraps(parts, h, baseUrl);
  }

  lemma {:induction false} AddEachWraps(parts: seq<ClientStrategy>, h: HttpClient, baseUrl: Value)
    requires forall i :: 0 <= i < |parts| ==> Installable(parts[i])
    ensures AddEach(parts, h, baseUrl) == HttpClient(Wrapped(h.client, LeavesOf(parts), h.logger, baseUrl), h.logger)
    decreases parts, 0
  {
    if |parts| > 0 {
      var init := parts[..|parts| - 1];
      var last := parts[|parts| - 1];
      AddEachWraps(init, h, baseUrl);
      var mid := AddEach(init, h, baseUrl);
      AddDecoratorWraps(last, mid, baseUrl);
      WrappedAppend(h.client, LeavesOf(init), Leaves(last), h.logger, baseUrl);
    }
  }

  /** An empty list of strategies leaves the facade as it was. */
  lemma EmptyMultiKeepsClient(h: HttpClient, baseUrl: Value)
    ensures AddDecorator(Multi([]), h, baseUrl) == h
  {
  }

  /** A list of single strategies installs exactly one layer per strategy, in the listed order. */
  lemma {:induction false} SinglesInstallInOrder(strategies: seq<Strategy>)
    requires forall i :: 0 <= i < |strategies| ==> strategies[i].Delegating?
    ensures Installable(Multi(SinglesOf(strategies)))
    ensures Leaves(Multi(SinglesOf(strategies))) == strategies
    decreases |strategies|
  {
    if |strategies| > 0 {
      var init := strategies[..|strategies| - 1];
      SinglesInstallInOrder(init);
      var parts := SinglesOf(strategies);
      assert parts[..|parts| - 1] == SinglesOf(init);
      assert LeavesOf(parts) == init + [strategies[|strategies| - 1]];
      assert init + [strategies[|strategies| - 1]] == strategies;
    }
  }

  function SinglesOf(strategies: seq<Strategy>): (r: seq<ClientStrategy>)
    ensures |r| == |strategies|
    ensures forall i :: 0 <= i < |r| ==> r[i] == Single(strategies[i])
  {
    seq(|strategies|, i requires 0 <= i < |strategies| => Single(strategies[i]))
  }

  /** `addDecorator` installs a layer even for `RetryStrategy::none()`, whose layer allows no retries. */
  lemma NoneStillWraps(self: nat, h: HttpClient, baseUrl: Value)
    ensures var c := AddDecorator(Single(NoRetries(self)), h, baseUrl).client;
      var layer := if baseUrl.Arr? then c.inner else c;
      layer == SfRetry(h.client, Some(self), 0, h.logger)
  {
    LayerNotLoggerAware(h.client, NoRetries(self), h.logger, baseUrl);
  }
}
