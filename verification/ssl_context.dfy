/**
 * `SSLContext` and `HttpAdvancedOptions`: typed records projected, without any
 * filtering, onto a fixed set of option keys.
 */
module SslContext {
  import opened Wrappers
  import opened Php
  import opened Keys

  function OptBool(b: Option<bool>): Value {
    match b
    case Some(x) => Bool(x)
    case None => Null
  }

  function OptStr(s: Option<string>): Value {
    match s
    case Some(x) => Str(x)
    case None => Null
  }

  function OptInt(n: Option<int>): Value {
    match n
    case Some(x) => Int(x)
    case None => Null
  }

  function OptArr(a: Option<seq<Entry>>): Value {
    match a
    case Some(x) => Arr(x)
    case None => Null
  }

  /** The TLS settings of `SSLContext`; only `capturePeerCertChain` is not nullable. */
  datatype SslContext = SslContext(
    verifyPeer: Option<bool>,
    verifyHost: Option<bool>,
    cafile: Option<string>,
    capath: Option<string>,
    localCert: Option<string>,
    localPk: Option<string>,
    passphrase: Option<string>,
    ciphers: Option<string>,
    peerFingerprint: Option<string>,
    capturePeerCertChain: bool,
    cryptoMethod: Option<int>)

  /** `new SSLContext()`: every argument at its default. */
  function Default(): SslContext {
    SslContext(None, None, None, None, None, None, None, None, None, false, None)
  }

  /** `SSLContext::toArray`: always the same eleven keys, nulls included. */
  function ToArray(c: SslContext): (r: Options)
    ensures r.Keys == SslKeys
  {
    map[VerifyPeer := OptBool(c.verifyPeer), VerifyHost := OptBool(c.verifyHost), Cafile := OptStr(c.cafile),
        Capath := OptStr(c.capath), LocalCert := OptStr(c.localCert), LocalPk := OptStr(c.localPk),
        Passphrase := OptStr(c.passphrase), Ciphers := OptStr(c.ciphers),
        PeerFingerprint := OptStr(c.peerFingerprint), CapturePeerCertChain := Bool(c.capturePeerCertChain),
        CryptoMethod := OptInt(c.cryptoMethod)]
  }

  /** The certificate-chain flag is never null: it is always the bool the context holds. */
  lemma CaptureFlagIsBool(c: SslContext)
    ensures ToArray(c)[CapturePeerCertChain] == Bool(c.capturePeerCertChain)
  {
  }

  /** `SSLContext::insecure($insecure)`: both verifications set to `!$insecure`. */
  function Insecure(insecure: bool): (r: SslContext)
    ensures r.verifyPeer == Some(!insecure) && r.verifyHost == Some(!insecure)
  {
    SslContext(Some(!insecure), Some(!insecure), None, None, None, None, None, None, None, false, None)
  }

  /**
   * The array of `insecure($b)` is the default array with only the two
   * verification flags changed, both to `!$b`.
   */
  lemma InsecureOnlyTouchesVerification(b: bool)
    ensures ToArray(Insecure(b)) == ToArray(Default())[VerifyPeer := Bool(!b)][VerifyHost := Bool(!b)]
  {
  }

  /** `SSLContext::insecure()` with its default argument disables both verifications. */
  lemma InsecureDisablesVerification()
    ensures ToArray(Insecure(true))[VerifyPeer] == Bool(false)
    ensures ToArray(Insecure(true))[VerifyHost] == Bool(false)
  {
  }

  /** A default context has every key null except the certificate-chain flag, which is false. */
  lemma DefaultIsAllNull()
    ensures forall k :: k in SslKeys && k != CapturePeerCertChain ==> ToArray(Default())[k] == Null
    ensures ToArray(Default())[CapturePeerCertChain] == Bool(false)
  {
  }
}

module AdvancedOptions {
  import opened Wrappers
  import opened Php
  import opened Keys
  import SslContext

  /** `HttpAdvancedOptions`: transport settings followed by the SSL settings. */
  datatype AdvancedOptions = AdvancedOptions(
    httpVersion: Option<string>,
    buffer: Value,
    resolve: Option<seq<Entry>>,
    proxy: Option<string>,
    noProxy: Option<string>,
    bindTo: Option<string>,
    ssl: SslContext.SslContext)

  /** `new HttpAdvancedOptions()`: all null, except the certificate-chain flag (false). */
  function Default(): AdvancedOptions {
    AdvancedOptions(None, Null, None, None, None, None, SslContext.Default())
  }

  /** The six transport entries of `HttpAdvancedOptions::toArray`. */
  function TransportArray(a: AdvancedOptions): (r: Options)
    ensures r.Keys == TransportKeys
  {
    map[HttpVersion := SslContext.OptStr(a.httpVersion), Buffer := a.buffer,
        Resolve := SslContext.OptArr(a.resolve), Proxy := SslContext.OptStr(a.proxy),
        NoProxy := SslContext.OptStr(a.noProxy), BindTo := SslContext.OptStr(a.bindTo)]
  }

  /**
   * `HttpAdvancedOptions::toArray`: the six transport keys followed by the eleven
   * SSL keys, each holding its constructor argument unchanged, null included.
   */
  function ToArray(a: AdvancedOptions): (r: Options)
    ensures r.Keys == TransportKeys + SslKeys
  {
    TransportArray(a) + SslContext.ToArray(a.ssl)
  }

  /** The advanced array has seventeen keys: SSLContext's eleven and the six transport keys. */
  lemma AdvancedKeyCount(a: AdvancedOptions)
    ensures |ToArray(a)| == 17
    ensures ToArray(a).Keys - SslKeys == TransportKeys
  {
    KeyGroups();
    KeyCounts();
    assert ToArray(a).Keys == TransportKeys + SslKeys;
  }

  /** On the SSL keys the advanced array agrees with `SSLContext::toArray` of the same settings. */
  lemma AdvancedExtendsSsl(a: AdvancedOptions)
    ensures forall k :: k in SslKeys ==> ToArray(a)[k] == SslContext.ToArray(a.ssl)[k]
  {
  }

  /** Each transport key holds its constructor argument unchanged, null included. */
  lemma TransportUnfiltered(a: AdvancedOptions)
    ensures ToArray(a)[HttpVersion] == SslContext.OptStr(a.httpVersion)
    ensures ToArray(a)[Buffer] == a.buffer
    ensures ToArray(a)[Resolve] == SslContext.OptArr(a.resolve)
    ensures ToArray(a)[Proxy] == SslContext.OptStr(a.proxy)
    ensures ToArray(a)[NoProxy] == SslContext.OptStr(a.noProxy)
    ensures ToArray(a)[BindTo] == SslContext.OptStr(a.bindTo)
  {
    KeyGroups();
  }

  /** With no arguments every key is null except `capture_peer_cert_chain`, which is false. */
  lemma DefaultIsAllNull()
    ensures forall k :: k in ToArray(Default()) && k != CapturePeerCertChain ==> ToArray(Default())[k] == Null
    ensures ToArray(Default())[CapturePeerCertChain] == Bool(false)
  {
    SslContext.DefaultIsAllNull();
    var t := TransportArray(Default());
    assert forall k :: k in t ==> t[k] == Null;
  }
}
