# efabrica http-client in Dafny

A Dafny model of the core of `efabrica-team/http-client`, a PHP facade over
Symfony HttpClient. The model covers:

- the `HttpClient` facade:
  - how its constructor and `withOptions` assemble option arrays;
  - the decorator chain it builds: a trace decorator when debugging, then the retry decorator;
  - `request` and the verb helpers;
  - `setClient`, `withClient` and `setLogger`;
- the library's own retry decorators `RetryableHttpClient` and
  `MutableRetryableHttpClient`, and the retry strategies that install Symfony's
  retry decorator through `addDecorator`;
- the option DTOs:
  - `HttpOptions`, with `toArray`, its inverse `fromArray`, and the fluent setters;
  - `HttpClientRequest`, `SSLContext` and `HttpAdvancedOptions`;
  - the `OptionScope` filter;
- the `RequestEvent` middleware chain;
- the responses: `HttpResponse`, `SerializedResponse` (the header-line replay,
  with its status-line pattern), and the cached client and response;
- the Tracy integration: `SharedTraceableHttpClient` and `TracedRequest`.

PHP values are modelled by the `Php.Value` datatype. Option maps are
`map<Opt, Value>`, keyed by option name. Ordered PHP arrays are `seq<Entry>`.
A method that throws returns a `Result` whose `Failure` carries the exception.
Objects the library only passes along become handles (`nat`), tagged with the
one fact about their class the code depends on: a `Closure`, a `Traversable`,
an object with `__toString` (and its text), or something else. Behaviour owned
by code outside the library becomes a parameter:

- the transport's responses (content, info, decoded body);
- `json_decode`;
- the retry strategies that actually decide;
- the cache's mock responses.

The files without `strict_types` convert scalar arguments the way PHP does
(module `Coercion`); setter arguments are modelled after their parameter has
converted them. Optional parameters are modelled with their defaults passed
explicitly, such as `setAuthBasic`'s `$password = ''` and
`CustomRetryStrategy`'s `$maxRetries = 3`.

Mutable objects become values that are passed in and returned. This covers the
trace decorator's process-wide registries, a cached response's saved flag, and
a response's memoised array.

Files: `wrappers.dfy`, `php.dfy` (PHP value, array and string helpers),
`coercion.dfy` (scalar conversion of arguments),
`keys.dfy` (option names and key groups), `ssl_context.dfy`,
`http_options.dfy`, `http_options_setters.dfy`, `http_client_request.dfy`,
`option_scope.dfy`, `clients.dfy` (the decorator chain and the retry
decorators), `http_client.dfy` (module `Facade`), `retry_strategies.dfy`,
`tracing.dfy`, `traced_request.dfy`, `request_event.dfy`,
`serialized_response.dfy`, `http_response.dfy`, `cache.dfy`.

## Model

| member | source | states |
|---|---|---|
| Php.IterableValue | src/HttpClient.php:233 | what an `iterable` parameter holds is an array or a `Traversable`, and an array exactly for an array argument |
| Php.NatTextDecimal | src/HttpOptions.php:381 | the decimal text of a natural number reads back as that number, and starts with `0` only for zero |
| Php.DecimalNatText | src/HttpOptions.php:381 | a digit string without a leading zero (or `0` itself) is the text of the number it denotes |
| Php.ArrayKey | src/HttpOptions.php:381 | a string key that PHP keeps as a string is the given string |
| Php.IntTextKey | src/HttpOptions.php:381 | the text of a 64-bit integer, as an array key, is that integer key |
| Php.IntKeyIsText | src/HttpOptions.php:381 | a string becomes an integer key only when it is exactly the canonical text of that integer |
| Coercion.Truncate | src/HttpOptions.php:180 | a float converted to `int` is truncated toward zero |
| Coercion.FloatToInt | src/HttpOptions.php:180 | a float converts to `int` exactly when it lies in the 64-bit range, and then truncated |
| Coercion.ToInt | src/HttpOptions.php:180 | an `int` parameter keeps an int, takes a bool as 0 or 1, refuses null, arrays and objects, and takes a string only when it reads as a number |
| Coercion.ToFloat | src/HttpOptions.php:174-175 | a `float` parameter keeps a float, widens an int, takes a bool as 0 or 1, refuses null, arrays and objects, and takes a string exactly when it reads as a number |
| Coercion.ToStr | src/HttpOptions.php:187 | a `string` parameter keeps a string, prints an int in decimal and a bool as `1` or `''`, refuses null and arrays, and takes an object exactly when it has `__toString` |
| Coercion.ToBool | src/HttpOptions.php:188 | a `bool` parameter takes exactly the scalars, by their truthiness |
| Coercion.IntTextReadsBack | src/HttpOptions.php:180 | the text of a 64-bit integer reads back as that integer with nothing after it |
| Coercion.ReadsSignedDigits | src/HttpOptions.php:180 | a string of an optional minus sign and then only digits reads as the integer they denote, or as a float beyond 64 bits, with nothing after it |
| Coercion.ToIntOfIntText | src/HttpOptions.php:180 | an `int` parameter takes the text of an integer back to the integer, and a `float` one to its value |
| Coercion.IntStringRoundTrip | src/HttpOptions.php:180-187 | printing an integer for a `string` parameter and reading it for an `int` one gives the integer back |
| Coercion.IntegerStrings | src/HttpOptions.php:180 | `'5'` reads as 5, and `' 42 '` as 42 with nothing after it |
| Coercion.FractionString | src/HttpOptions.php:174-180 | `'1.5'` reads as the float 1.5, which an `int` parameter truncates to 1 |
| Coercion.LeadingNumericString | src/HttpOptions.php:180 | `'12abc'` reads as 12 followed by other text, and an `int` parameter takes it as 12 |
| Coercion.NonNumericStrings | src/HttpOptions.php:180 | `'abc'`, `''` and `'.'` do not read as numbers, and numeric parameters refuse `'abc'` |
| Coercion.OffsetKey | src/HttpResponse.php:196-204 | the key an array offset of type `mixed` reads: a string is canonicalised, a bool reads 0 or 1, a float is truncated, null reads `''`; arrays, objects and floats beyond 64 bits fail |
| Coercion.DecimalStringOffset | src/HttpResponse.php:196-204 | the text of a 64-bit integer, as an offset, reads the same key as the integer |
| Coercion.KeyAsOffset | src/HttpResponse.php:196-204 | a key an array can hold, given back as an offset, reads that very key |
| Coercion.OffsetExamples | src/HttpResponse.php:196-204 | `'5'` reads key 5, `'05'` the string key, `true` key 1, `1.7` key 1, null key `''`, and an array offset throws |
| SslContext.ToArray | src/SSLContext.php:58-73 | `toArray` always has exactly the eleven SSL keys, null values included |
| SslContext.CaptureFlagIsBool | src/SSLContext.php:70 | `capture_peer_cert_chain` is never null: it is the bool the context holds |
| SslContext.Insecure | src/SSLContext.php:53-56 | `insecure($b)` sets both verification flags to `!$b` |
| SslContext.InsecureOnlyTouchesVerification | src/SSLContext.php:53-56 | the array of `insecure($b)` differs from the default array only in `verify_peer` and `verify_host` |
| SslContext.InsecureDisablesVerification | src/SSLContext.php:53-56 | `insecure()` with its default argument turns both verifications off |
| SslContext.DefaultIsAllNull | src/SSLContext.php:34-47 | a default context maps every key to null except `capture_peer_cert_chain`, which is false |
| AdvancedOptions.TransportArray | src/HttpAdvancedOptions.php:45-53 | the transport part of the array has exactly the six transport keys |
| AdvancedOptions.ToArray | src/HttpAdvancedOptions.php:45-66 | the advanced array's keys are the six transport keys plus the eleven SSL keys |
| AdvancedOptions.AdvancedKeyCount | src/HttpAdvancedOptions.php:45-66 | the advanced array has seventeen keys, and removing the SSL keys leaves the transport keys |
| AdvancedOptions.AdvancedExtendsSsl | src/HttpAdvancedOptions.php:54-64 | on every SSL key the advanced array agrees with `SSLContext::toArray` of the same settings |
| AdvancedOptions.TransportUnfiltered | src/HttpAdvancedOptions.php:48-53 | each transport key holds its constructor argument unchanged; nothing is filtered, so nulls stay |
| AdvancedOptions.DefaultIsAllNull | src/HttpAdvancedOptions.php:24-43 | with no arguments every key is null except `capture_peer_cert_chain`, which is false |
| Keys.KeyGroups | src/HttpAdvancedOptions.php:45-66 | the SSL keys and the transport keys are both among the thirty request options, and no key is in both groups |
| Keys.KeyCounts | src/SSLContext.php:58-73 | there are eleven SSL keys and six transport keys |
| Keys.RequestNamesExcludeMethodAndUrl | src/HttpClientRequest.php:139-173 | no request option is spelled `method` or `url` |
| HttpOptions.DefaultValue | src/HttpOptions.php:15-125 | every constructor default has the property's declared type |
| HttpOptions.Default | src/HttpOptions.php:15-126 | `new HttpOptions()` sets exactly the thirty properties, each to a value of its declared type |
| HttpOptions.ToArray | src/HttpOptions.php:128-162 | an option is in the array exactly when its property is not null, and then holds the property's value; `false` and `0` are kept |
| HttpOptions.NonNullDefaultsExact | src/HttpOptions.php:15-125 | exactly twelve of the thirty properties default to something other than null |
| HttpOptions.DefaultProps | src/HttpOptions.php:15-126 | the default instance holds each property's constructor default |
| HttpOptions.DefaultToArrayKey | src/HttpOptions.php:128-162 | an option appears in the default array exactly when its default is not null |
| HttpOptions.DefaultToArray | src/HttpOptions.php:128-162 | the default array's keys are the twelve options with non-null defaults, including `capture_peer_cert_chain => false` |
| HttpOptionsFromArray.CoerceTo | src/HttpOptions.php:169-200 | without `strict_types`, null and arrays are taken only by a type that allows them; an `int` property takes exactly what `int` conversion reads; a `bool` property takes every scalar, by truthiness |
| HttpOptionsFromArray.Coerce | src/HttpOptions.php:169-200 | the value a constructor parameter stores for an argument has the property's type, and an argument already of that type is stored unchanged |
| HttpOptionsFromArray.Build | src/HttpOptions.php:169-200 | the instance built has all thirty properties |
| HttpOptionsFromArray.FromArray | src/HttpOptions.php:164-201 | `fromArray` succeeds exactly when every parameter accepts, after conversion, the argument it reads, and then gives a well-typed instance |
| HttpOptionsFromArray.FromArrayMissing | src/HttpOptions.php:170-199 | an option that is missing, or null, gets the property's constructor default |
| HttpOptionsFromArray.FromArrayTyped | src/HttpOptions.php:170-199 | an option given with a value of its property's type is stored as it is |
| HttpOptionsFromArray.DefaultAccepted | src/HttpOptions.php:170-199 | every default `fromArray` falls back to is accepted unchanged |
| HttpOptionsFromArray.EmptyAccepted | src/HttpOptions.php:169-200 | every default `fromArray` falls back to is accepted by its parameter |
| HttpOptionsFromArray.EmptyArgsAreDefaults | src/HttpOptions.php:170-199 | from an empty array every parameter receives and stores its default |
| HttpOptionsFromArray.EmptyBuildsDefault | src/HttpOptions.php:169-200 | from an empty array the instance is `new HttpOptions()` |
| HttpOptionsFromArray.FromEmptyIsDefault | src/HttpOptions.php:164-201 | `fromArray([])` succeeds and equals `new HttpOptions()` |
| HttpOptionsFromArray.ArgOfToArray | src/HttpOptions.php:128-199 | reading an option back from `toArray` gives the property, or the property's default when it was null |
| HttpOptionsFromArray.ToArrayAccepted | src/HttpOptions.php:128-201 | every array `toArray` produces is accepted by `fromArray` |
| HttpOptionsFromArray.Restored | src/HttpOptions.php:128-200 | the instance `fromArray(toArray(o))` should equal: `o` itself, except that a null `buffer` becomes `true` |
| HttpOptionsFromArray.OnlyBufferNullableWithDefault | src/HttpOptions.php:80 | `buffer` is the only nullable property whose default is not null |
| HttpOptionsFromArray.ReadBack | src/HttpOptions.php:170-199 | a property present in the array exactly when not null is read back unchanged, except that a null `buffer` reads back as `true` |
| HttpOptionsFromArray.ToArrayBuildsRestoredAt | src/HttpOptions.php:128-200 | property by property, rebuilding from `toArray` gives the restored instance |
| HttpOptionsFromArray.ToArrayBuildsRestored | src/HttpOptions.php:128-200 | rebuilding from `toArray` gives the restored instance |
| HttpOptionsFromArray.RoundTrip | src/HttpOptions.php:128-201 | `fromArray(toArray($o))` succeeds and gives back `$o`, except that a null `buffer` becomes `true` |
| HttpOptionsFromArray.ToArrayBuildsRestoredKey | src/HttpOptions.php:128-200 | for one property, rebuilding from `toArray` gives the property, with a null `buffer` as `true` |
| HttpOptionsFromArray.MaxRedirectsFromString | src/HttpOptions.php:180 | `['max_redirects' => '5']` is accepted and gives 5 redirects |
| HttpOptionsFromArray.VerifyPeerFromInt | src/HttpOptions.php:188 | `['verify_peer' => 1]` is accepted and turns verification on |
| HttpOptionsFromArray.VerifyPeerFromString | src/HttpOptions.php:188 | `['verify_peer' => '0']` is accepted and turns verification off |
| HttpOptionsFromArray.BindToFromInt | src/HttpOptions.php:187 | `['bindto' => 0]` is accepted and binds to `'0'` |
| HttpOptionsFromArray.TimeoutFromString | src/HttpOptions.php:174 | `['timeout' => '1.5']` is accepted and waits 1.5 seconds |
| HttpOptionsFromArray.UncoercibleThrows | src/HttpOptions.php:180-185 | `'abc'` for `max_redirects`, or an array for `proxy`, still makes the constructor throw |
| HttpOptionsFromArray.SingleOptionAccepted | src/HttpOptions.php:170-199 | with one accepted option given, every parameter accepts its argument |
| HttpOptionsFromArray.SingleOptionDefaults | src/HttpOptions.php:170-199 | with one option given, every other property gets its default |
| HttpOptionsFromArray.SingleOption | src/HttpOptions.php:164-201 | with one accepted option given, `fromArray` succeeds, stores the option as converted, and defaults the rest |
| HttpOptionsSetters.Target | src/HttpOptions.php:203-383 | every setter writes one of the thirty properties |
| HttpOptionsSetters.WrittenTyped | src/HttpOptions.php:221-383 | a setter whose parameter accepted its argument writes a value of the property's type exactly when it is not `setPeerFingerprint` with an array, nor `setOnProgress` with a callable that is not a `Closure` |
| HttpOptionsSetters.OtherWrittenTyped | src/HttpOptions.php:203-383 | every setter other than `setPeerFingerprint`, `setOnProgress` and `setHeaders` writes a value of its property's type |
| HttpOptionsSetters.Assign | src/HttpOptions.php:203-383 | assigning a property succeeds exactly when the value has the property's type, and keeps the instance well-typed |
| HttpOptionsSetters.AssignTwice | src/HttpOptions.php:203-383 | a second assignment to a property overrides the first |
| HttpOptionsSetters.AssignSame | src/HttpOptions.php:203-383 | assigning a property the value it already holds changes nothing |
| HttpOptionsSetters.Apply | src/HttpOptions.php:203-383 | a setter call succeeds exactly when `setHeaders` gets an iterable, `setPeerFingerprint` a string and `setOnProgress` a `Closure`; the instance then stays well-typed |
| HttpOptionsSetters.ApplyOnlyTouchesTarget | src/HttpOptions.php:203-383 | a setter changes only its own property; every other property keeps its value |
| HttpOptionsSetters.OverwritesIgnoresCurrent | src/HttpOptions.php:203-383 | every setter except `setJson` and `setExtra` writes a value that ignores what the property held |
| HttpOptionsSetters.LastWriteWins | src/HttpOptions.php:203-383 | of two setter calls on the same property, where the second overwrites, only the second counts |
| HttpOptionsSetters.WrittenTwice | src/HttpOptions.php:203-383 | applying a setter to the value it wrote gives the same value |
| HttpOptionsSetters.ApplyIdempotent | src/HttpOptions.php:203-383 | calling the same setter twice is the same as calling it once |
| HttpOptionsSetters.SetJsonIgnoresScalars | src/HttpOptions.php:233-239 | `setJson` with anything other than an array or null leaves the options unchanged |
| HttpOptionsSetters.SetExtraReadsBack | src/HttpOptions.php:379-383 | after `setExtra($name, $v)`, the entry under the key PHP makes of `$name` reads `$v`, and every other `extra` entry reads as before |
| HttpOptionsSetters.SetExtraDecimalName | src/HttpOptions.php:381 | `setExtra('5', $v)` writes the integer key 5 |
| HttpOptionsSetters.SetAuthBasicStoresPair | src/HttpOptions.php:203-207 | `setAuthBasic($u, $p)` stores the list `[$u, $p]` |
| HttpOptionsSetters.PeerFingerprintArrayThrows | src/HttpOptions.php:367-371 | `setPeerFingerprint` with an array is allowed by the parameter type but is always rejected by the `?string` property |
| HttpOptionsSetters.OnProgressNeedsClosure | src/HttpOptions.php:277-281 | `setOnProgress` succeeds exactly for a `Closure`, which is then stored; any other callable throws on the property, which takes only a `Closure` or null |
| HttpOptionsSetters.HeadersTakeIterables | src/HttpOptions.php:221-225 | `setHeaders` succeeds exactly for an array or a `Traversable`, which is then stored |
| HttpClientRequest.Default | src/HttpClientRequest.php:14-137 | a default request is well-typed |
| HttpClientRequest.BodyOption | src/HttpClientRequest.php:146 | `body` falls back to the form payload only when the body is null |
| HttpClientRequest.ToOptionsArray | src/HttpClientRequest.php:139-173 | an option is present exactly when its value (the body falling back to the form) is not null, and then holds that value |
| HttpClientRequest.AgreesWithHttpOptions | src/HttpClientRequest.php:139-173 | apart from `body`, the options array equals `HttpOptions::toArray` of the same properties |
| HttpClientRequest.BodyOrForm | src/HttpClientRequest.php:146 | `body` is present when the body or the form payload is set; the body wins when both are set |
| HttpClientRequest.JsonIffSet | src/HttpClientRequest.php:147 | `json` is present exactly when the JSON body is set |
| HttpClientRequest.MethodAndUrlStayOut | src/HttpClientRequest.php:139-173 | neither the method nor the URL becomes an option |
| HttpClientRequest.DefaultRequest | src/HttpClientRequest.php:14-137 | a default request is a GET of `''` whose options are those of `new HttpOptions()` |
| OptionScope.Mask | src/OptionScope.php:10-31 | the backing values are bit masks within 24 bits |
| OptionScope.FilterUsing | src/OptionScope.php:37-51 | `SCOPE_ALL` returns the options unchanged; any other scope keeps at most the headers, the token key and `auth_basic` |
| OptionScope.Filter | src/OptionScope.php:37-51 | as written, a non-total scope keeps at most `headers`, `bearer_token` and `auth_basic` |
| OptionScope.FilterIntended | src/OptionScope.php:37-51 | as intended, a non-total scope keeps at most `headers`, `auth_bearer` and `auth_basic` |
| OptionScope.NoneIsEmpty | src/OptionScope.php:42-50 | `SCOPE_NONE` keeps nothing |
| OptionScope.HeadersBit | src/OptionScope.php:43-45 | `headers` is kept, defaulting to `[]`, exactly for the two scopes with the headers bit |
| OptionScope.TokensBit | src/OptionScope.php:46-49 | the token and `auth_basic` are kept, null when absent, exactly for the two scopes with the tokens bit |
| OptionScope.FilterIdempotent | src/OptionScope.php:37-51 | filtering twice is the same as filtering once |
| OptionScope.AuthBearerNeverKept | src/OptionScope.php:46-49 | as written, no scope other than `SCOPE_ALL` keeps the `auth_bearer` option |
| OptionScope.TokenLost | src/OptionScope.php:47 | as written, the tokens scope of `['auth_bearer' => 't']` loses the token and yields `bearer_token => null` |
| OptionScope.TokenKept | src/OptionScope.php:47 | as intended, the tokens scope keeps a given `auth_bearer` token unchanged |
| Clients.NewRetryable | src/Retry/RetryableHttpClient.php:36-52 | the retry decorator keeps the raw client, strategy, retry count and logger it is given |
| Clients.WrapDecision | src/Retry/RetryableHttpClient.php:43-51 | the current client is the raw one unwrapped exactly when there is no strategy, no base-URI list and no retry allowed; otherwise it is one retry layer, and a base-URI list goes on that layer only; the constructor of `MutableRetryableHttpClient` (lines 19-35 of its file) decides the same way |
| Clients.StrategyArg | src/Retry/RetryableHttpClient.php:36-71 | a missing or null `retry_strategy` keeps the current strategy, an object other than a `Closure` replaces it, and anything else (a `Closure` included) throws a `TypeError` at the `?RetryStrategyInterface` parameter |
| Clients.ClosureStrategyRefused | src/Retry/RetryableHttpClient.php:36-71 | reconfiguring a retry decorator with a `Closure` as `retry_strategy` throws a `TypeError` |
| Clients.MaxRetriesArg | src/Retry/RetryableHttpClient.php:62 | a missing or null `max_retries` keeps the current count, and an int replaces it |
| Clients.Stripped | src/Retry/RetryableHttpClient.php:59-68 | the raw client gets the options without the two retry keys, and without `base_uri` exactly when it is a list; every other option passes unchanged |
| Clients.WithOptions | src/Retry/RetryableHttpClient.php:57-72 | reconfiguring keeps a retry decorator a retry decorator, and leaves a trace decorator without its stream client |
| Clients.RebuildsFromRaw | src/Retry/RetryableHttpClient.php:70-71 | `withOptions` rebuilds from the raw client reconfigured with the stripped options, with at most one retry layer over it; the same holds for `MutableRetryableHttpClient::withOptions` (lines 37-52 of its file) |
| Clients.KeepsRetrySettings | src/Retry/RetryableHttpClient.php:59-63 | the strategy and retry count stay the same unless the options give new ones |
| Clients.BaseUriListOnWrapperOnly | src/Retry/RetryableHttpClient.php:65-68 | a `base_uri` list given to `withOptions` ends up on the new retry layer exactly when given; no earlier list survives |
| Clients.NeverCompounds | src/Retry/RetryableHttpClient.php:57-72 | two `withOptions` calls in a row still leave a single retry layer over the twice-reconfigured raw client |
| Clients.SetLogger | src/Retry/RetryableHttpClient.php:43-80 | setting a logger never turns a client into a retry decorator, or a retry decorator into something else; with no retry layer the raw client is the current object and receives the logger with it |
| Clients.SetLoggerNeedsAware | src/HttpClient.php:703-705 | handing a logger to a client that is not logger-aware changes nothing |
| Clients.RetryableSetLogger | src/Retry/RetryableHttpClient.php:43-80 | the retry decorator keeps the logger and forwards it only to a logger-aware current client; the raw client changes exactly when it is the current client (no retry layer) and takes the logger, and then it stays the current client |
| Clients.UnwrappedTransportGetsLogger | src/Retry/RetryableHttpClient.php:43-80 | a decorator with no retry layer over a logger-aware transport hands the logger to that transport, which is raw and current at once |
| Facade.SslArray | src/HttpClient.php:166 | no SSL context contributes no options; a context contributes exactly the eleven SSL keys |
| Facade.SetFacadeLogger | src/HttpClient.php:700-706 | the facade keeps the logger; a client that is not logger-aware is left as it is |
| Facade.SetClient | src/HttpClient.php:603-613 | with no options the client is installed as given and nothing can fail; the facade's logger is kept |
| Facade.WithClient | src/HttpClient.php:622-625 | `withClient` keeps the facade's logger |
| Facade.WithOptionsTotal | src/Retry/RetryableHttpClient.php:57-72 | reconfiguring any chain with options whose retry entries and base URI have their declared types never fails |
| Facade.KeyFacts | src/HttpClient.php:150-166 | the constructor's named options and the SSL keys include neither retry key; `base_uri` and `buffer` are not SSL keys |
| Facade.SslKeyApart | src/HttpClient.php:150-166 | an SSL key is none of the constructor's named options and neither retry key |
| Facade.ConstructorOptions | src/HttpClient.php:150-167 | the constructor's array holds only named and SSL options, has no nulls, and keeps every non-null named argument unchanged |
| Facade.Traced | src/HttpClient.php:178-180 | the trace decorator is added exactly when `$debug` is not `false` or Tracy's debugger is enabled |
| Facade.Construct | src/HttpClient.php:125-183 | the constructed facade keeps the logger it was given |
| Facade.ConstructorOptionsTyped | src/HttpClient.php:150-167 | the constructor's array carries no retry entries, and its base URI has a declared type |
| Facade.ConstructSucceeds | src/HttpClient.php:125-183 | the constructor never fails, whether it creates the transport or is given a client |
| Facade.FacadeLoggerRaw | src/HttpClient.php:703-705 | the facade's `setLogger` on a retry decorator changes its raw client only when that client is also the current one |
| Facade.SetClientRaw | src/HttpClient.php:603-608 | installing a retry decorator keeps it outermost; its raw client is the given one, reconfigured when options are given, and it also takes the facade's logger exactly when no retry layer stands in front of it |
| Facade.ChainOrder | src/HttpClient.php:169-182 | the retry decorator is outermost; its raw client is the trace decorator whenever tracing is on; a transport the constructor creates gets the option array, is not reconfigured, and holds the logger exactly when it is logger-aware with neither tracing nor a retry layer in front of it |
| Facade.LoggerReachesUnwrappedTransport | src/HttpClient.php:169-182 | with a logger, `debug: false`, Tracy off and no retry settings, the created transport is raw and current at once and holds the logger |
| Facade.WithOptionsKeysApart | src/HttpClient.php:661-678 | no named `withOptions` option is `buffer`, a retry key or an SSL key |
| Facade.Clean | src/HttpClient.php:679-681 | nulls are dropped, and a `false` that remains becomes null |
| Facade.WithOptionsArray | src/HttpClient.php:661-682 | the final array always has `buffer`, set to exactly the given value |
| Facade.WithOptionsArgs | src/HttpClient.php:661-681 | a null argument leaves its key out, `false` gives the key with a null value, and any other value is kept |
| Facade.WithOptionsSsl | src/HttpClient.php:678-681 | an SSL key is present when the context gives it a value, and a `false` flag arrives as null |
| Facade.WithOptionsRetryStrategy | src/HttpClient.php:676-681 | `retry` becomes `retry_strategy` only when not null, and `false` arrives as null |
| Facade.WithOptionsMaxRetries | src/HttpClient.php:677-679 | `maxRetries` becomes `max_retries` only when not null |
| Facade.InsecureSslBecomesNull | src/HttpClient.php:678-681 | with `SSLContext::insecure()`, `verify_peer` and `verify_host` arrive as null, not false |
| Facade.WithOptionsFacade | src/HttpClient.php:641-685 | `withOptions` keeps the facade's logger |
| Facade.WithOptionsArrayTyped | src/HttpClient.php:641-682 | with arguments of the declared types, the array is one the retry decorators accept |
| Facade.WithOptionsReconfigures | src/HttpClient.php:682-684 | the array is never empty, so with arguments of the declared types the current client is always reconfigured, and successfully |
| Facade.WithOptionsClient | src/HttpClient.php:684 | with no logger to hand on, the new client is exactly the current one reconfigured with the array |
| Facade.Request | src/HttpClient.php:227-253 | the call goes to the facade's client with the given method and URL; its options are per-request keys only, none of them null |
| Facade.RequestOptions | src/HttpClient.php:240-250 | each of the nine options is present exactly when its parameter is not null, and then holds that parameter |
| Facade.VerbMethod | src/HttpClient.php:294-583 | `get`, `post`, `put`, `patch` and `delete` pass exactly `GET`, `POST`, `PUT`, `PATCH` and `DELETE`, one verb per method |
| Facade.Send | src/HttpClient.php:294-583 | a verb helper sends to the facade's client, at the given URL, with its verb's method and the options `request` builds from the same arguments |
| Facade.VerbsDifferOnlyInMethod | src/HttpClient.php:294-583 | two verb helpers send the same options, and the same method exactly when they are the same verb |
| RetryStrategies.Decider | src/Retry/CustomRetryStrategy.php:29-43 | the deciding strategy is never one of the library's delegating ones |
| RetryStrategies.ShouldRetryIsDeciders | src/Retry/CustomRetryStrategy.php:29-35 | however deep the delegation, `shouldRetry` is the deciding strategy's answer; the same holds for the stand-alone `RetryStrategy::shouldRetry` (src/RetryStrategy.php lines 62-68) |
| RetryStrategies.GetDelayIsDeciders | src/Retry/CustomRetryStrategy.php:37-43 | however deep the delegation, `getDelay` is the deciding strategy's delay; the same holds for the stand-alone `RetryStrategy::getDelay` (src/RetryStrategy.php lines 73-79) |
| RetryStrategies.NewCustom | src/Retry/CustomRetryStrategy.php:16-18 | a custom strategy keeps its retry count and lets the wrapped strategy decide |
| RetryStrategies.NewGeneric | src/Retry/RetryStrategy.php:20-35 | the generic-backed strategy keeps its retry count and decides through a generic strategy with the given codes and delays; the stand-alone `RetryStrategy` constructor (src/RetryStrategy.php lines 23-34) does the same |
| RetryStrategies.CustomOf | src/RetryStrategy.php:36-40 | `custom($s)` allows the default three retries and lets `$s` decide |
| RetryStrategies.NoRetries | src/RetryStrategy.php:42-45 | `none()` allows zero retries and still decides through a generic strategy |
| RetryStrategies.MultiOf | src/Retry/RetryStrategy.php:40-43 | `multi(...)` keeps the strategies in the order given |
| RetryStrategies.Layer | src/Retry/CustomRetryStrategy.php:22-25 | one strategy installs one Symfony retry layer, with a base-URI configuration on it exactly when the base URL is a list |
| RetryStrategies.AddDecorator | src/Retry/CustomRetryStrategy.php:20-27 | `addDecorator` keeps the facade's logger |
| RetryStrategies.AddEach | src/Retry/MultiRetryStrategy.php:20-25 | installing a list keeps the facade's logger |
| RetryStrategies.LayerNotLoggerAware | src/Retry/CustomRetryStrategy.php:26 | a retry layer is not logger-aware, so `setClient` handing it the logger changes nothing |
| RetryStrategies.AddDecoratorWraps | src/Retry/CustomRetryStrategy.php:20-27 | `addDecorator` wraps the facade's client in one layer per strategy, in listed order with the last outermost, each with the same base URL and logger |
| RetryStrategies.AddEachWraps | src/Retry/MultiRetryStrategy.php:20-25 | a list installs its strategies' layers one after the other, in list order |
| RetryStrategies.EmptyMultiKeepsClient | src/Retry/MultiRetryStrategy.php:20-25 | an empty list leaves the facade as it was |
| RetryStrategies.SinglesInstallInOrder | src/Retry/MultiRetryStrategy.php:15-25 | a list of single strategies installs exactly those strategies, in the order listed |
| RetryStrategies.NoneStillWraps | src/RetryStrategy.php:42-57 | `none()->addDecorator` still installs a retry layer, with zero retries, around the current client |
| Tracing.EmptyRegistry | src/Tracy/SharedTraceableHttpClient.php:19-24 | the registries start empty and aligned |
| Tracing.WithRef | src/Tracy/SharedTraceableHttpClient.php:42 | setting `extra.__ref` succeeds exactly when `extra` is missing, null, false or an array; it then makes `extra` an array and changes no other option |
| Tracing.WithRefKeepsExtra | src/Tracy/SharedTraceableHttpClient.php:42 | `extra.__ref` holds the reference, and every other `extra` entry reads as before |
| Tracing.Request | src/Tracy/SharedTraceableHttpClient.php:32-47 | with `extra.trace === false` the inner client gets the request unchanged and nothing is registered; otherwise the request goes through the newly registered client |
| Tracing.RequestRegisters | src/Tracy/SharedTraceableHttpClient.php:38-39 | a traced request appends one stopwatch and one traceable client around the inner client, keeps earlier entries, and keeps the registries aligned |
| Tracing.TracedDispatch | src/Tracy/SharedTraceableHttpClient.php:38-43 | a traced request goes out through the new client with the same method and URL, and with the options plus `extra.__ref` |
| Tracing.FailureStillRegisters | src/Tracy/SharedTraceableHttpClient.php:38-42 | registration happens before `__ref` is set, so a request whose `extra` is a scalar fails but still leaves its registry entries |
| Tracing.Stream | src/Tracy/SharedTraceableHttpClient.php:49-53 | a stream client is created only when none exists yet |
| Tracing.StreamTimes | src/Tracy/SharedTraceableHttpClient.php:49-53 | repeated `stream` calls keep the same inner client |
| Tracing.AtMostOneStreamClient | src/Tracy/SharedTraceableHttpClient.php:51 | however often `stream` is called, at most one stream client is created, and none when one exists |
| Tracing.WithOptionsThenStream | src/Tracy/SharedTraceableHttpClient.php:55-62 | after `withOptions` the first `stream` creates its own client |
| Tracing.TracedWithOptions | src/Tracy/SharedTraceableHttpClient.php:55-62 | `withOptions` reconfigures the inner client and nothing else, and fails exactly when that does |
| Tracing.StopwatchEventsAppend | src/Tracy/SharedTraceableHttpClient.php:79-88 | the events of more stopwatches come after the earlier ones |
| Tracing.RequestKeepsEvents | src/Tracy/SharedTraceableHttpClient.php:38 | a request registers an empty stopwatch, so the events listed so far are unchanged |
| Tracing.GetEvents | src/Tracy/SharedTraceableHttpClient.php:79-88 | `getEvents` lists every event of every section of every stopwatch, in registry order |
| TracedRequests.Data | src/Tracy/TracedRequest.php:28-31 | `getData` is the first record, and fails when there are none |
| TracedRequests.GetMethod | src/Tracy/TracedRequest.php:33-36 | `getMethod` is the first record's method |
| TracedRequests.GetOptions | src/Tracy/TracedRequest.php:50-53 | `getOptions` is the first record's options |
| TracedRequests.GetInfo | src/Tracy/TracedRequest.php:58-61 | `getInfo` is the first record's info |
| TracedRequests.GetUrl | src/Tracy/TracedRequest.php:38-45 | with a falsy or missing `base_uri` the recorded URL is returned unchanged |
| TracedRequests.LTrimCharSuffix | src/Tracy/TracedRequest.php:42 | `ltrim($s, '/')` removes exactly the leading run of slashes |
| TracedRequests.RTrimCharPrefix | src/Tracy/TracedRequest.php:42 | `rtrim($s, '/')` removes exactly the trailing run of slashes |
| TracedRequests.UrlJoined | src/Tracy/TracedRequest.php:41-42 | with a truthy string `base_uri`, the URL is the base joined to the recorded URL |
| TracedRequests.JoinSeam | src/Tracy/TracedRequest.php:42 | the join has exactly one slash at the seam, with a prefix of the base before it and a suffix of the URL after it |
| TracedRequests.FalsyBaseKeepsUrl | src/Tracy/TracedRequest.php:41 | a `base_uri` of `''` or `'0'` is falsy, so the URL is not joined |
| TracedRequests.GetHeaders | src/Tracy/TracedRequest.php:103-107 | the headers are `info.response_headers` when that is an array, and `[]` otherwise |
| TracedRequests.GetStatus | src/Tracy/TracedRequest.php:88-91 | the status is the first header line when it is a truthy string, and `Headers not received` when there are no headers or the first line is falsy (`''`, `'0'`, null, false, 0, an empty array) |
| TracedRequests.StatusNeverEmpty | src/Tracy/TracedRequest.php:90 | a status is never `''` or `'0'` |
| TracedRequests.FirstEventIsFirstListed | src/Tracy/TracedRequest.php:93-101 | `getEvent` is the first event the stopwatch lists, or null when it has none |
| TracedRequests.SectionEventsCons | src/Tracy/TracedRequest.php:95-96 | the sections' events are the first section's events, then the rest's |
| TracedRequests.ContentWithoutHeaders | src/Tracy/TracedRequest.php:65-69 | with no headers recorded, the stored content is returned as it is, and null when none was stored; otherwise the response is consulted |
| RequestEvents.NewEvent | src/RequestEvent.php:10-18 | a new event starts at the first middleware and carries its request |
| RequestEvents.Send | src/RequestEvent.php:31-32 | the client is called with the request's method, URL and options array |
| RequestEvents.Handle | src/RequestEvent.php:25-33 | however the middlewares re-enter, the cursor only moves forward and each middleware runs at most once, in array order |
| RequestEvents.MiddlewareHandle | src/HttpClientMiddleware.php:9-12 | a middleware run keeps the event and runs later middlewares only in ascending order |
| RequestEvents.HandleTimes | src/RequestEvent.php:25-33 | calling `handle` repeatedly also runs each middleware at most once, in ascending order |
| RequestEvents.NoMiddlewares | src/RequestEvent.php:31-32 | with no middlewares, `handle` calls the client once with the request |
| RequestEvents.ExhaustedGoesToClient | src/RequestEvent.php:27-32 | once the cursor is past the last middleware, each `handle` calls the client and changes nothing |
| RequestEvents.PassThrough | src/HttpClientMiddleware.php:9-12 | a chain of default middlewares runs each one, then the client |
| RequestEvents.DefaultsPassThrough | src/HttpClientMiddleware.php:9-12 | from any position, default middlewares each run once, in order, and end in one client call |
| RequestEvents.DefaultsAsEmpty | src/HttpClientMiddleware.php:9-12 | a chain of default middlewares answers exactly as an empty chain does |
| RequestEvents.RespondStops | src/RequestEvent.php:27-29 | a middleware that answers on its own stops the chain: the client is not called and no later middleware runs |
| SerializedResponses.MatchStatus | src/SerializedResponse.php:94 | a matched status code is between 0 and 999 |
| SerializedResponses.StatusLineMatches | src/SerializedResponse.php:94 | every line of the pattern's form matches and captures its code |
| SerializedResponses.MatchedIsStatusLine | src/SerializedResponse.php:94 | every line the pattern matches has the pattern's form, and the captured code is its three digits |
| SerializedResponses.MatchedPositions | src/SerializedResponse.php:94 | a matched line has version digits, an optional fraction, a space, three digits and an allowed tail, at positions it names |
| SerializedResponses.OkIsStatusLine | src/SerializedResponse.php:94 | `HTTP/1.1 200 OK` is a status line with code 200 |
| SerializedResponses.ShortHttp2NotStatus | src/SerializedResponse.php:94 | `HTTP/2 200` matches the pattern but is too short to count as a status line |
| SerializedResponses.FourDigitsNoMatch | src/SerializedResponse.php:94 | a four-digit code does not match |
| SerializedResponses.ReplayHeaders | src/SerializedResponse.php:100-101 | header lines add their values under the lower-cased name, in order and with duplicates, and keep the code |
| SerializedResponses.ParseAppend | src/SerializedResponse.php:93-106 | replaying two lists of lines is replaying the second after the first |
| SerializedResponses.LastStatusLineWins | src/SerializedResponse.php:94-99 | the last status line sets the code, and the headers are exactly those of the lines after it |
| SerializedResponses.HeadersOnly | src/SerializedResponse.php:100-101 | without status lines no code is parsed and the headers are the lines' values |
| SerializedResponses.NewSerialized | src/SerializedResponse.php:24-27 | construction succeeds exactly when `response_headers` is an array of strings, and keeps the content with the replayed headers |
| SerializedResponses.InfoHeaderList | src/SerializedResponse.php:105 | as written, the rebuilt `response_headers` is the stored list with every line pushed onto it again |
| SerializedResponses.PushOwnLinesTwice | src/SerializedResponse.php:105 | pushing a list's own lines onto it lists every line twice |
| SerializedResponses.InfoListsLinesTwice | src/SerializedResponse.php:24-27 | as written, the rebuilt info lists the stored header lines, then the same lines again |
| SerializedResponses.OneLineListedTwice | src/SerializedResponse.php:24-27 | as written, `['HTTP/1.1 200 OK']` comes back as that line twice |
| SerializedResponses.NewSerializedIntended | src/SerializedResponse.php:24-27 | the corrected constructor accepts, fails and parses as the original does |
| SerializedResponses.IntendedListsLinesOnce | src/SerializedResponse.php:105 | as intended, `response_headers` holds each stored line once, in order |
| SerializedResponses.IntendedRebuildStable | src/SerializedResponse.php:24-27 | as intended, rebuilding from a rebuilt response's own info gives the same response |
| SerializedResponses.RebuiltLinesDoubled | src/SerializedResponse.php:24-27 | as written, the rebuilt info's header lines are the stored lines followed by the same lines again |
| SerializedResponses.DoubledStrings | src/SerializedResponse.php:105 | a list holding the lines twice over reads back as the lines twice over |
| SerializedResponses.GetStatusCode | src/SerializedResponse.php:29-32 | the status code is `http_code` as the `int` return type converts it; a missing or unconvertible code throws, and an int is returned as it is |
| SerializedResponses.StatusCodeConversions | src/SerializedResponse.php:29-32 | an `http_code` of 200 gives 200, `'404'` gives 404, and `'OK'` or a missing code throws |
| SerializedResponses.StatusCodeIsLastParsed | src/SerializedResponse.php:99 | the status code is the last status line's; without one, `http_code` stays as stored |
| SerializedResponses.GetInfo | src/SerializedResponse.php:81-84 | with no type the whole info is returned, and a type whose canonical key is missing reads null |
| SerializedResponses.GetInfoKeys | src/SerializedResponse.php:81-84 | the type name is an array key: the text of a 64-bit integer reads the integer key, any other name its string key |
| SerializedResponses.Cancel | src/SerializedResponse.php:77-79 | cancelling a stored response changes nothing |
| SerializedResponses.ToArray | src/SerializedResponse.php:50-75 | empty content always fails; a memoised array is returned without decoding; otherwise it succeeds exactly when the content decodes to an array, gives that array's entries and memoises them; a failure changes nothing |
| SerializedResponses.ToArrayMemoised | src/SerializedResponse.php:56-58 | after one successful `toArray`, the next one answers the same whatever the decoder would now say |
| HttpResponses.NewResponse | src/HttpResponse.php:31-33 | a new wrapper has no memoised array |
| HttpResponses.InnerToArray | src/HttpResponse.php:70 | a live inner response answers with the transport's decoded array and is not changed; a stored one answers as `SerializedResponse::toArray` does, keeping its memo |
| HttpResponses.ToArray | src/HttpResponse.php:67-71 | a memoised array is returned as it is; otherwise the answer is the inner response's `toArray`, a first success is memoised, and a failure memoises nothing |
| HttpResponses.ToArrayMemoised | src/HttpResponse.php:70 | once decoded, every later `toArray` gives the same array, whatever the transport would now answer |
| HttpResponses.OffsetGet | src/HttpResponse.php:201-204 | reading an offset decodes as `toArray` does; it fails exactly when decoding fails (with that error) or the offset is illegal, and otherwise gives the entry under the offset's key, or null |
| HttpResponses.OffsetExists | src/HttpResponse.php:196-199 | `isset` decodes as `toArray` does, and fails exactly when decoding fails (with that error) or the offset is illegal |
| HttpResponses.ExistsIffNonNull | src/HttpResponse.php:196-204 | a legal offset exists exactly when reading it gives something other than null |
| HttpResponses.EquivalentOffsets | src/HttpResponse.php:196-204 | offsets PHP turns into the same key read the same: `'5'` and 5, `true` and 1, `false` and 0, null and `''` |
| HttpResponses.IllegalOffsets | src/HttpResponse.php:196-204 | on a decoded array, an array or object offset throws a `TypeError` for both reading and `isset` |
| HttpResponses.OffsetSet | src/HttpResponse.php:206-209 | writing an offset always fails with `Response array is immutable.` and changes nothing |
| HttpResponses.OffsetUnset | src/HttpResponse.php:211-214 | unsetting an offset always fails with `Response array is immutable.` and changes nothing |
| HttpResponses.WritesChangeNothing | src/HttpResponse.php:206-214 | after a refused write, the array reads as before |
| HttpResponses.GetInfo | src/HttpResponse.php:78-81 | `getInfo` is forwarded: for a stored response it is `SerializedResponse::getInfo`, for a live one the transport's whole info, or its entry under the canonical key of the type, or null |
| HttpResponses.GetHttpCode | src/HttpResponse.php:108-112 | an int `http_code` is returned when positive and gives null otherwise; a null one gives null; a code is returned only when it is positive and equals `http_code` |
| HttpResponses.GetRedirectCount | src/HttpResponse.php:129-132 | the redirect count is `redirect_count`, and 0 when there is none |
| HttpResponses.Cancel | src/HttpResponse.php:73-76 | cancelling marks a live response cancelled, leaves a stored one as it is, and keeps the memoised array |
| HttpResponses.Serialize | src/HttpResponse.php:216-222 | serialising succeeds exactly when reading the content does, and gives the content and the whole info |
| HttpResponses.Unserialize | src/HttpResponse.php:245-248 | unserialising succeeds exactly when the info's header lines are an array of strings, and gives a stored response with the content and no memoised array |
| HttpResponses.RoundTrip | src/HttpResponse.php:216-248 | as written, unserialising a serialised response keeps its content, and its header lines come back listed twice |
| HttpResponses.RoundTripGrows | src/HttpResponse.php:216-248 | as written, a response with header lines never survives a second serialise-unserialise unchanged |
| HttpResponses.UnserializeIntended | src/HttpResponse.php:245-248 | with the corrected constructor, unserialising succeeds and fails as written and keeps the content |
| HttpResponses.RoundTripIntended | src/HttpResponse.php:216-248 | with the corrected constructor, the content and header lines survive, and a second serialise-unserialise gives the same response |
| Cache.NewCachedClient | src/Cache/CachedHttpClient.php:20-23 | the cached client's namespace is the given one extended by `http-client` |
| Cache.RequestNamespace | src/Cache/CachedHttpClient.php:30 | a request's namespace extends the client's by one level |
| Cache.Request | src/Cache/CachedHttpClient.php:25-33 | a request goes straight to the inner client exactly when its body is not empty, and then returns the inner response itself; a miss wraps the inner response, still live |
| Cache.HitIffStored | src/Cache/CachedHttpClient.php:30-32 | without a body, a request hits exactly when its slot holds a snapshot, and then gets that snapshot |
| Cache.MissWraps | src/Cache/CachedHttpClient.php:32 | a miss wraps the inner response, unsaved, under the request's own namespace |
| Cache.ZeroBodyIsCached | src/Cache/CachedHttpClient.php:27 | a body of `"0"` counts as empty, so such a request does not bypass the cache |
| Cache.SpaceShiftsShareSlot | src/Cache/CachedHttpClient.php:30 | any two requests whose texts `"$method $url "` agree share a slot, so a space can move between method and URL |
| Cache.SharedNamespaceIffSameText | src/Cache/CachedHttpClient.php:30 | two requests share a namespace exactly when their `"$method $url "` texts and their options agree |
| Cache.SpaceShiftExample | src/Cache/CachedHttpClient.php:30 | `GET` of `a b` and `GET a` of `b` share a slot |
| Cache.GetResponse | src/Cache/CachedHttpResponse.php:21-29 | a saved response answers from its snapshot; the first successful read snapshots the live response and saves it; a failed read changes nothing |
| Cache.FirstReadSaves | src/Cache/CachedHttpResponse.php:23-26 | the first read saves the live content and info under the response's `response` slot |
| Cache.Read | src/Cache/CachedHttpResponse.php:31-59 | every reader first goes through `getResponse`, with the same effect on the response and the store; its failure is the reader's; the content and info readers answer from the snapshot (the info by canonical key, or null), the others from the mock response |
| Cache.InfoIsLive | src/Cache/CachedHttpResponse.php:21-59 | the info a cached response reads on its first read is the live response's info |
| Cache.ContentIsLive | src/Cache/CachedHttpResponse.php:41-44 | the content read is the live response's content |
| Cache.SavedIgnoresLive | src/Cache/CachedHttpResponse.php:23 | once saved, readers answer from the snapshot and write nothing, whatever the live response would say |
| Cache.WritesUnderClientNamespace | src/Cache/CachedHttpResponse.php:25 | the only entry a response from a cached client writes is its own `response` slot, two levels under the client's `http-client` namespace |
| Cache.AtMostOneSave | src/Cache/CachedHttpResponse.php:23-27 | however many readers run, a cached response saves at most once, and never again once saved |
| Cache.Cancel | src/Cache/CachedHttpResponse.php:51-54 | `cancel` takes no snapshot and saves nothing: it reaches whatever is wrapped now |

## Left out

- Transport selection (the Amp client versus `SymfonyHttpClient::create`), with
  `maxHostConnections` and `maxPendingPushes`: the created transport is an
  opaque node holding the option array.
- Symfony's own merge of options inside `withOptions` of clients the library
  does not define: the call is recorded as a `Configured` node, not interpreted.
- `MutableRetryableHttpClient`'s differences from `RetryableHttpClient` beyond
  `setLogger`: it is modelled by the same constructor and `withOptions`. Its
  other difference is `static` versus `self` in `withOptions`, which only
  matters for subclasses.
- `stream`, `getClient`, `getLogger` and `reset` of the facade: they forward or
  return a field.
- `HttpResponse` readers that only forward one info entry (`getStatusCode`,
  `getHeaders`, `getContent`, `isCanceled`, `getError`, `getHttpMethod`,
  `getRedirectUrl`, `getResponseHeaders`, `getStartTime`, `getUrl`,
  `getUserData`, `getPeerCertificateChain`). Also left out: `serialize`,
  `unserialize`, `jsonSerialize`, `__clone` and `__destruct`. The destructor's
  asynchronous cancellation is concurrency.
- `SharedTraceableHttpClient::getTracedRequests`: it builds each `TracedRequest`
  with two arguments while the constructor declares three.
- `TracedRequest::getContent` past the no-headers case: it reads the live
  response, `trim`s it, `json_decode`s it, and formats exceptions as text.
- `HttpPanel`, `HttpResponseBluescreen` and `EventLoopHttpClient`: Tracy UI and
  the Amp event loop.
- `ClientRetryStrategy` is an interface with no code.
- Coercion.OffsetKey: a float offset outside the 64-bit range fails in the model,
  because PHP's key for it depends on the engine version; the deprecation notice
  for a float with a fraction, and the warning for a missing key, are not modelled.
- Clients.StrategyArg: takes every object that is not a `Closure` for a
  `RetryStrategyInterface`, because the class tags do not record which
  interfaces a class implements; only the `Closure` (a final class) is known not to.
- Symfony's `GenericRetryStrategy`: its backoff (a float multiplier and jitter)
  and its default status-code list. It is an opaque `Generic` node (`None`
  standing for the default list), and its decisions come from a function
  parameter.
- `HttpOptions::fromArray` given a Symfony `HttpOptions` object: the model takes
  the array that `toArray` of such an object would give.
- `ArrayAccess` objects as `extra`: any value other than null, false or an array
  is treated as a scalar that rejects `extra['__ref']`.
- Header names that are numeric strings, which PHP turns into integer keys.
- Floats are exact reals: a decimal string is not rounded to the nearest
  double, and a float printed for a `string` parameter comes from the
  `floatText` parameter, since its text depends on the `precision` setting.
- Integers are unbounded except where PHP's 64-bit range decides something:
  numeric strings outside it read as floats, floats outside it are refused by
  `int`, and array keys are integers only within it. Integer overflow into
  floats in arithmetic is not modelled.
- Which strings and arrays are callable depends on the functions and classes
  loaded: `setOnProgress` takes every string, array and object, and all but a
  `Closure` then fail on the property.
- The `bool $throw = true` parameter of `toArray`, `getContent` and
  `getHeaders` (src/HttpResponse.php lines 46-70) is only passed on to the
  Symfony response; the model has no status-code exceptions, so it does not
  take the flag.
- TracedRequests.GetUrl: a `base_uri` that is truthy but not a string is
  reported as a `TypeError`, rather than modelling `rtrim`'s coercion of it.
- TracedRequests.GetStatus: a truthy first header line that is not a string is
  reported as a `TypeError` rather than converted to a string.
- SerializedResponses.NewSerialized: header lines that are not strings are
  rejected as a `TypeError`, rather than following `strlen`'s coercion.
- HttpResponses.GetHttpCode: an `http_code` that is not an int or null is
  reported as a `TypeError` rather than compared with PHP's loose `>`.
- HttpResponses.GetRedirectCount: a `redirect_count` that is not an int or null
  is reported as a `TypeError`.
- Cache.Request: md5 and `serialize` are modelled as injective, so the slot
  holds the method-and-URL text and the option map itself. Option maps have no
  key order here, so two requests whose options differ only in order share a
  slot in the model but not in PHP.
- Cache.Read: the status code, headers and decoded array of the `MockResponse`
  come from a function parameter.
- RequestEvents.Handle: middleware behaviour is limited to three kinds: pass
  on once, answer without passing on, and pass on several times. A middleware
  that changes the request before passing it on is not modelled.
- Tracing.Request: the registries are an explicit value threaded through the
  calls, with no concurrency.
- HttpOptionsSetters.Apply: a fluent setter returns the same mutated instance;
  the model returns the updated value.

## Findings

| source | as written | input that shows it | evidently intended | confidence | as-written member | corrected member |
|---|---|---|---|---|---|---|
| src/OptionScope.php:47 | the tokens bit keeps `bearer_token`, which is not a Symfony HttpClient option; the token option is `auth_bearer` | `SCOPE_TOKENS->filter(['auth_bearer' => 't'])` gives `['bearer_token' => null, 'auth_basic' => null]` and drops the token | keep `auth_bearer` | medium, not executed | OptionScope.Filter, OptionScope.TokenLost | OptionScope.FilterIntended, OptionScope.TokenKept |
| src/SerializedResponse.php:24-27 | the constructor stores `$info` in `$this->info`, then pushes every line of `$info['response_headers']` onto `$this->info['response_headers']`, which already holds them | `new SerializedResponse('', ['response_headers' => ['HTTP/1.1 200 OK']])` ends with `response_headers` listing that line twice, and each serialise-unserialise round doubles it again | each stored line listed once | medium, not executed | SerializedResponses.NewSerialized, SerializedResponses.OneLineListedTwice, HttpResponses.RoundTripGrows | SerializedResponses.NewSerializedIntended, SerializedResponses.IntendedRebuildStable, HttpResponses.RoundTripIntended |
