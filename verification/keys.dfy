/**
 * The option names the library reads and writes. An option map is keyed by the
 * `Opt` enumeration rather than by raw strings; `Name` gives the snake_case
 * string PHP uses, and `Other` carries any name the library never inspects.
 */
module Keys {
  import opened Php

  /** An option name. */
  datatype Opt =
    // The thirty options of `HttpOptions::toArray`, in its order.
    | AuthBasic | AuthBearer | Query | Headers | Body | Json | UserData | MaxRedirects
    | HttpVersion | BaseUri | Buffer | OnProgress | Resolve | Proxy | NoProxy | Timeout
    | MaxDuration | BindTo | VerifyPeer | VerifyHost | Cafile | Capath | LocalCert | LocalPk
    | Passphrase | Ciphers | PeerFingerprint | CapturePeerCertChain | CryptoMethod | Extra
    // Options only this library's retry decorators understand.
    | RetryStrategy | MaxRetries
    // The token key `OptionScope::filter` writes; it is not an option Symfony knows.
    | BearerToken
    // Any other name, passed along uninspected; by convention never one `Name` gives a constructor above.
    | Other(name: string)

  /** An option map as passed to `HttpClientInterface::request` and `withOptions`. */
  type Options = map<Opt, Value>

  /** The PHP spelling of an option name. */
  function Name(k: Opt): string {
    match k
    case AuthBasic => "auth_basic"
    case AuthBearer => "auth_bearer"
    case Query => "query"
    case Headers => "headers"
    case Body => "body"
    case Json => "json"
    case UserData => "user_data"
    case MaxRedirects => "max_redirects"
    case HttpVersion => "http_version"
    case BaseUri => "base_uri"
    case Buffer => "buffer"
    case OnProgress => "on_progress"
    case Resolve => "resolve"
    case Proxy => "proxy"
    case NoProxy => "no_proxy"
    case Timeout => "timeout"
    case MaxDuration => "max_duration"
    case BindTo => "bindto"
    case VerifyPeer => "verify_peer"
    case VerifyHost => "verify_host"
    case Cafile => "cafile"
    case Capath => "capath"
    case LocalCert => "local_cert"
    case LocalPk => "local_pk"
    case Passphrase => "passphrase"
    case Ciphers => "ciphers"
    case PeerFingerprint => "peer_fingerprint"
    case CapturePeerCertChain => "capture_peer_cert_chain"
    case CryptoMethod => "crypto_method"
    case Extra => "extra"
    case RetryStrategy => "retry_strategy"
    case MaxRetries => "max_retries"
    case BearerToken => "bearer_token"
    case Other(n) => n
  }

  /** The eleven keys of `SSLContext::toArray`. */
  const SslKeys: set<Opt> := {
    VerifyPeer, VerifyHost, Cafile, Capath, LocalCert, LocalPk, Passphrase, Ciphers, PeerFingerprint,
    CapturePeerCertChain, CryptoMethod}

  /** The six keys `HttpAdvancedOptions::toArray` has besides the SSL ones. */
  const TransportKeys: set<Opt> := {HttpVersion, Buffer, Resolve, Proxy, NoProxy, BindTo}

  /** The thirty keys of `HttpOptions::toArray` and `HttpClientRequest::toOptionsArray`. */
  const RequestKeys: set<Opt> := {
    AuthBasic, AuthBearer, Query, Headers, Body, Json, UserData, MaxRedirects, HttpVersion, BaseUri,
    Buffer, OnProgress, Resolve, Proxy, NoProxy, Timeout, MaxDuration, BindTo, VerifyPeer, VerifyHost,
    Cafile, Capath, LocalCert, LocalPk, Passphrase, Ciphers, PeerFingerprint, CapturePeerCertChain,
    CryptoMethod, Extra}

  /** The nine keys `HttpClient::request` assembles. */
  const PerRequestKeys: set<Opt> := {Query, Json, Body, Headers, Timeout, MaxDuration, UserData, OnProgress, Extra}

  /** The nine client-wide keys common to the `HttpClient` constructor and `withOptions`. */
  const ClientWideKeys: set<Opt> := {
    BaseUri, AuthBearer, AuthBasic, Headers, Timeout, MaxDuration, MaxRedirects, OnProgress, Extra}

  /** The SSL and transport keys are request options, and the two groups are disjoint. */
  lemma KeyGroups()
    ensures SslKeys <= RequestKeys && TransportKeys <= RequestKeys && SslKeys !! TransportKeys
  {
  }

  /** No request option is spelled like the request's method or URL. */
  lemma RequestNamesExcludeMethodAndUrl(k: Opt)
    requires k in RequestKeys
    ensures Name(k) != "method" && Name(k) != "url"
  {
  }

  /** Example: the sizes of the SSL and transport key groups, as counted in the option lists. */
  lemma KeyCounts()
    ensures |SslKeys| == 11 && |TransportKeys| == 6
  {
  }
}
