/**
 * The fluent setters of `HttpOptions`. Each one writes a single property and
 * returns the same instance; the model returns the updated options instead.
 */
module HttpOptionsSetters {
  import opened Wrappers
  import opened Php
  import opened Keys
  import opened HttpOptions

  /** The argument of `setPeerFingerprint`, after its `array|string` parameter converted it. */
  datatype Fingerprint = FingerprintArray(entries: seq<Entry>) | FingerprintString(text: string)

  /**
   * One setter call with its arguments, each already converted by its
   * parameter: `setHeaders` takes any value and checks it is `iterable`, and
   * `setOnProgress` takes whatever its `callable` parameter accepted.
   */
  datatype Setter =
    | SetAuthBasic(user: string, password: string)
    | SetAuthBearer(token: string)
    | SetQuery(query: seq<Entry>)
    | SetHeaders(headers: Value)
    | SetBody(body: Value)
    | SetJson(json: Value)
    | SetUserData(data: Value)
    | SetMaxRedirects(max: int)
    | SetHttpVersion(version: string)
    | SetBaseUri(uri: string)
    | SetVars(vars: seq<Entry>)
    | SetBuffer(buffer: bool)
    | SetOnProgress(callback: Value)
    | SetResolve(hostIps: seq<Entry>)
    | SetProxy(proxy: string)
    | SetNoProxy(noProxy: string)
    | SetTimeout(timeout: real)
    | SetMaxDuration(maxDuration: real)
    | SetBindTo(bindto: string)
    | SetVerifyPeer(verifyPeer: bool)
    | SetVerifyHost(verifyHost: bool)
    | SetCaFile(cafile: string)
    | SetCaPath(capath: string)
    | SetLocalCert(cert: string)
    | SetLocalPk(pk: string)
    | SetPassphrase(passphrase: string)
    | SetCiphers(ciphers: string)
    // Declared `array|string`, but the property it writes is `?string`.
    | SetPeerFingerprint(fingerprint: Fingerprint)
    | SetCapturePeerCertChain(capture: bool)
    | SetExtra(name: string, value: Value)

  /** The property a setter writes. */
  function Target(s: Setter): (k: Opt)
    ensures k in RequestKeys
  {
    match s
    case SetAuthBasic(_, _) => AuthBasic
    case SetAuthBearer(_) => AuthBearer
    case SetQuery(_) => Query
    case SetHeaders(_) => Headers
    case SetBody(_) => Body
    case SetJson(_) => Json
    case SetUserData(_) => UserData
    case SetMaxRedirects(_) => MaxRedirects
    case SetHttpVersion(_) => HttpVersion
    case SetBaseUri(_) => BaseUri
    case SetVars(_) => Extra
    case SetBuffer(_) => Buffer
    case SetOnProgress(_) => OnProgress
    case SetResolve(_) => Resolve
    case SetProxy(_) => Proxy
    case SetNoProxy(_) => NoProxy
    case SetTimeout(_) => Timeout
    case SetMaxDuration(_) => MaxDuration
    case SetBindTo(_) => BindTo
    case SetVerifyPeer(_) => VerifyPeer
    case SetVerifyHost(_) => VerifyHost
    case SetCaFile(_) => Cafile
    case SetCaPath(_) => Capath
    case SetLocalCert(_) => LocalCert
    case SetLocalPk(_) => LocalPk
    case SetPassphrase(_) => Passphrase
    case SetCiphers(_) => Ciphers
    case SetPeerFingerprint(_) => PeerFingerprint
    case SetCapturePeerCertChain(_) => CapturePeerCertChain
    case SetExtra(_, _) => Extra
  }

  /** The entries of an array value (empty for anything else). */
  function EntriesOf(v: Value): seq<Entry> {
    if v.Arr? then v.entries else []
  }

  /**
   * The value a setter assigns to its property, given the property's current
   * value: `setAuthBasic` stores `[$user, $password]`, `setJson` ignores anything
   * but an array or null, and `setExtra` writes one entry of the `extra` array,
   * under the key PHP makes of the name.
   */
  function Written(current: Value, s: Setter): Value {
    match s
    case SetAuthBasic(u, p) => Arr(List([Str(u), Str(p)]))
    case SetAuthBearer(t) => Str(t)
    case SetQuery(q) => Arr(q)
    case SetHeaders(h) => h
    case SetBody(b) => b
    case SetJson(j) => if j.Arr? || j.Null? then j else current
    case SetUserData(d) => d
    case SetMaxRedirects(n) => Int(n)
    case SetHttpVersion(v) => Str(v)
    case SetBaseUri(u) => Str(u)
    case SetVars(vs) => Arr(vs)
    case SetBuffer(b) => Bool(b)
    case SetOnProgress(c) => c
    case SetResolve(r) => Arr(r)
    case SetProxy(p) => Str(p)
    case SetNoProxy(p) => Str(p)
    case SetTimeout(t) => Float(t)
    case SetMaxDuration(t) => Float(t)
    case SetBindTo(b) => Str(b)
    case SetVerifyPeer(b) => Bool(b)
    case SetVerifyHost(b) => Bool(b)
    case SetCaFile(f) => Str(f)
    case SetCaPath(p) => Str(p)
    case SetLocalCert(c) => Str(c)
    case SetLocalPk(k) => Str(k)
    case SetPassphrase(p) => Str(p)
    case SetCiphers(c) => Str(c)
    case SetPeerFingerprint(f) => if f.FingerprintArray? then Arr(f.entries) else Str(f.text)
    case SetCapturePeerCertChain(b) => Bool(b)
    case SetExtra(n, v) => Arr(ArraySet(EntriesOf(current), ArrayKey(n), v))
  }

  /**
   * The argument fits the parameter's declared type. Only two parameters can
   * refuse one here: `setHeaders`'s `iterable`, and `setOnProgress`'s
   * `callable`, which never takes null, a bool or a number. Which strings,
   * arrays and objects are callable depends on the functions and classes
   * loaded; all are taken here, and all but a `Closure` then fail on the
   * `Closure|null` property anyway.
   */
  predicate ParamAccepts(s: Setter) {
    (s.SetHeaders? ==> IsIterable(s.headers)) &&
    (s.SetOnProgress? ==> s.callback.Str? || s.callback.Arr? || s.callback.Obj?)
  }

  /** The `TypeError` of a refused argument. */
  function ParamError(s: Setter): Error {
    TypeError(if s.SetHeaders? then "HttpOptions::setHeaders" else "HttpOptions::setOnProgress")
  }

  /**
   * An accepted call keeps its property typed, except `setPeerFingerprint` with
   * an array (the property is `?string`) and `setOnProgress` with a callable
   * that is not a `Closure` (the property is `Closure|null`).
   */
  lemma WrittenTyped(current: Value, s: Setter)
    requires Typed(Target(s), current) && ParamAccepts(s)
    ensures Typed(Target(s), Written(current, s)) <==>
      (s.SetPeerFingerprint? ==> s.fingerprint.FingerprintString?) && (s.SetOnProgress? ==> IsClosure(s.callback))
  {
    if s.SetPeerFingerprint? || s.SetOnProgress? || s.SetHeaders? {
    } else {
      OtherWrittenTyped(current, s);
    }
  }

  /** Every other setter writes a value of its property's type. */
  lemma OtherWrittenTyped(current: Value, s: Setter)
    requires Typed(Target(s), current)
    requires !s.SetPeerFingerprint? && !s.SetOnProgress? && !s.SetHeaders?
    ensures Typed(Target(s), Written(current, s))
  {
    if StringSetter(s) {
      StringWrittenTyped(current, s);
    } else if ScalarSetter(s) {
      ScalarWrittenTyped(current, s);
    } else {
      ArrayWrittenTyped(current, s);
    }
  }

  /** The setters of a `string` or `?string` property, which take a `string`. */
  predicate StringSetter(s: Setter) {
    s.SetAuthBearer? || s.SetHttpVersion? || s.SetBaseUri? || s.SetProxy? || s.SetNoProxy? ||
    s.SetBindTo? || s.SetCaFile? || s.SetCaPath? || s.SetLocalCert? || s.SetLocalPk? ||
    s.SetPassphrase? || s.SetCiphers?
  }

  /** The setters of an `int`, `bool`, `float` or `mixed` property. */
  predicate ScalarSetter(s: Setter) {
    s.SetMaxRedirects? || s.SetBuffer? || s.SetTimeout? || s.SetMaxDuration? ||
    s.SetVerifyPeer? || s.SetVerifyHost? || s.SetCapturePeerCertChain? || s.SetBody? || s.SetUserData?
  }

  /** A string setter writes a string. */
  lemma StringWrittenTyped(current: Value, s: Setter)
    requires StringSetter(s)
    ensures Written(current, s).Str? && Typed(Target(s), Written(current, s))
  {
    if s.SetAuthBearer? || s.SetHttpVersion? || s.SetBaseUri? || s.SetProxy? || s.SetNoProxy? || s.SetBindTo? {
      RequestStringWrittenTyped(current, s);
    } else {
      match s
      case SetCaFile(_) =>
      case SetCaPath(_) =>
      case SetLocalCert(_) =>
      case SetLocalPk(_) =>
      case SetPassphrase(_) =>
      case SetCiphers(_) =>
    }
  }

  /** The string setters of the request options proper (not the TLS ones). */
  lemma RequestStringWrittenTyped(current: Value, s: Setter)
    requires s.SetAuthBearer? || s.SetHttpVersion? || s.SetBaseUri? || s.SetProxy? || s.SetNoProxy? || s.SetBindTo?
    ensures Written(current, s).Str? && Typed(Target(s), Written(current, s))
  {
    match s
    case SetAuthBearer(_) =>
    case SetHttpVersion(_) =>
    case SetBaseUri(_) =>
    case SetProxy(_) =>
    case SetNoProxy(_) =>
    case SetBindTo(_) =>
  }

  /** A scalar setter writes a value of its property's scalar type. */
  lemma ScalarWrittenTyped(current: Value, s: Setter)
    requires ScalarSetter(s)
    ensures Typed(Target(s), Written(current, s))
  {
    match s
    case SetMaxRedirects(_) =>
    case SetBuffer(_) =>
    case SetTimeout(_) =>
    case SetMaxDuration(_) =>
    case SetVerifyPeer(_) =>
    case SetVerifyHost(_) =>
    case SetCapturePeerCertChain(_) =>
    case SetBody(_) =>
    case SetUserData(_) =>
  }

  /** The remaining setters write an array, or leave a `?array` as it was. */
  lemma ArrayWrittenTyped(current: Value, s: Setter)
    requires Typed(Target(s), current)
    requires !StringSetter(s) && !ScalarSetter(s)
    requires !s.SetPeerFingerprint? && !s.SetOnProgress? && !s.SetHeaders?
    ensures Typed(Target(s), Written(current, s))
  {
    match s
    case SetAuthBasic(_, _) =>
    case SetQuery(_) =>
    case SetJson(_) =>
    case SetVars(_) =>
    case SetResolve(_) =>
    case SetExtra(_, _) =>
  }

  /** `$this->prop = $v` for the property behind `k`: a value of the wrong type throws. */
  function Assign(o: HttpOptions, k: Opt, v: Value): (r: Result<HttpOptions, Error>)
    requires Valid(o) && k in RequestKeys
    ensures r.Success? <==> Typed(k, v)
    ensures r.Success? ==> Valid(r.value)
  {
    if Typed(k, v) then Success(HttpOptions(o.props[k := v])) else Failure(TypeError("HttpOptions::$" + Name(k)))
  }

  /** A second assignment to the same property undoes the first. */
  lemma AssignTwice(o: HttpOptions, k: Opt, v: Value, w: Value)
    requires Valid(o) && k in RequestKeys && Typed(k, v)
    ensures Assign(Assign(o, k, v).value, k, w) == Assign(o, k, w)
  {
    if Typed(k, w) {
      AssignTwiceTyped(o, k, v, w);
    } else {
      AssignTwiceUntyped(o, k, v, w);
    }
  }

  lemma AssignTwiceTyped(o: HttpOptions, k: Opt, v: Value, w: Value)
    requires Valid(o) && k in RequestKeys && Typed(k, v) && Typed(k, w)
    ensures Assign(Assign(o, k, v).value, k, w) == Assign(o, k, w)
  {
    UpdateTwice(o.props, k, v, w);
  }

  lemma AssignTwiceUntyped(o: HttpOptions, k: Opt, v: Value, w: Value)
    requires Valid(o) && k in RequestKeys && Typed(k, v) && !Typed(k, w)
    ensures Assign(Assign(o, k, v).value, k, w) == Assign(o, k, w)
  {
  }

  lemma UpdateTwice<K, V>(m: map<K, V>, k: K, v: V, w: V)
    ensures m[k := v][k := w] == m[k := w]
  {
  }

  /** Assigning a property the value it holds changes nothing. */
  lemma AssignSame(o: HttpOptions, k: Opt)
    requires Valid(o) && k in RequestKeys
    ensures Assign(o, k, o.props[k]) == Success(o)
  {
    assert o.props[k := o.props[k]] == o.props;
  }

  /**
   * Calling a setter: the property is assigned, or PHP throws a `TypeError`
   * when the argument does not fit the parameter, or the value the property.
   */
  function Apply(o: HttpOptions, s: Setter): (r: Result<HttpOptions, Error>)
    requires Valid(o)
    ensures r.Success? <==>
      (s.SetHeaders? ==> IsIterable(s.headers)) &&
      (s.SetPeerFingerprint? ==> s.fingerprint.FingerprintString?) &&
      (s.SetOnProgress? ==> IsClosure(s.callback))
    ensures r.Success? ==> Valid(r.value)
  {
    if !ParamAccepts(s) then Failure(ParamError(s))
    else
      WrittenTyped(o.props[Target(s)], s);
      Assign(o, Target(s), Written(o.props[Target(s)], s))
  }

  /** A setter assigns its own property and leaves every other property as it was. */
  lemma ApplyOnlyTouchesTarget(o: HttpOptions, s: Setter, k: Opt)
    requires Valid(o) && Apply(o, s).Success? && k in RequestKeys
    ensures k != Target(s) ==> Apply(o, s).value.props[k] == o.props[k]
    ensures k == Target(s) ==> Apply(o, s).value.props[k] == Written(o.props[k], s)
  {
  }

  /** Whether a setter's value does not depend on what the property held before. */
  predicate Overwrites(s: Setter) {
    !s.SetJson? && !s.SetExtra?
  }

  lemma OverwritesIgnoresCurrent(s: Setter, c1: Value, c2: Value)
    requires Overwrites(s)
    ensures Written(c1, s) == Written(c2, s)
  {
  }

  /** Of two calls that overwrite the same property, only the last one counts. */
  lemma LastWriteWins(o: HttpOptions, s1: Setter, s2: Setter)
    requires Valid(o) && Apply(o, s1).Success?
    requires Target(s1) == Target(s2) && Overwrites(s2)
    ensures Apply(Apply(o, s1).value, s2) == Apply(o, s2)
  {
    var k := Target(s1);
    var v := Written(o.props[k], s1);
    ApplyCases(o, s1);
    var o1 := Apply(o, s1).value;
    ApplyCases(o1, s2);
    ApplyCases(o, s2);
    if ParamAccepts(s2) {
      var w := Written(o.props[k], s2);
      OverwritesIgnoresCurrent(s2, o1.props[k], o.props[k]);
      AssignTwice(o, k, v, w);
    }
  }

  lemma ApplyCases(o: HttpOptions, s: Setter)
    requires Valid(o)
    ensures ParamAccepts(s) ==> Apply(o, s) == Assign(o, Target(s), Written(o.props[Target(s)], s))
    ensures !ParamAccepts(s) ==> Apply(o, s) == Failure(ParamError(s))
  {
  }

  /** A setter gives the same value when applied to what it wrote. */
  lemma WrittenTwice(c: Value, s: Setter)
    ensures Written(Written(c, s), s) == Written(c, s)
  {
    if s.SetExtra? {
      ArraySetTwice(EntriesOf(c), ArrayKey(s.name), s.value, s.value);
    }
  }

  /** Calling the same setter twice is the same as calling it once. */
  lemma ApplyIdempotent(o: HttpOptions, s: Setter)
    requires Valid(o) && Apply(o, s).Success?
    ensures Apply(Apply(o, s).value, s) == Apply(o, s)
  {
    var k := Target(s);
    var v := Written(o.props[k], s);
    WrittenTwice(o.props[k], s);
    AssignTwice(o, k, v, v);
  }

  /** `setJson` with anything but an array or null changes nothing. */
  lemma SetJsonIgnoresScalars(o: HttpOptions, json: Value)
    requires Valid(o) && !json.Arr? && !json.Null?
    ensures Apply(o, SetJson(json)) == Success(o)
  {
    AssignSame(o, Json);
  }

  /**
   * `setExtra($name, $value)` makes `extra[$name]` read `$value` and leaves every
   * other entry of `extra` readable as before; the entry is under the key PHP
   * makes of the name, an integer for a decimal name such as `'5'`.
   */
  lemma SetExtraReadsBack(o: HttpOptions, name: string, value: Value, key: Key)
    requires Valid(o)
    ensures Apply(o, SetExtra(name, value)).Success?
    ensures ArrayGet(EntriesOf(Apply(o, SetExtra(name, value)).value.props[Extra]), key)
      == if key == ArrayKey(name) then Some(value) else ArrayGet(EntriesOf(o.props[Extra]), key)
  {
    ArraySetGet(EntriesOf(o.props[Extra]), ArrayKey(name), value, key);
  }

  /** `setExtra('5', $v)` writes the integer key 5, the same entry `extra[5]` reads. */
  lemma SetExtraDecimalName(o: HttpOptions, value: Value)
    requires Valid(o)
    ensures Apply(o, SetExtra("5", value)).Success?
    ensures ArrayGet(EntriesOf(Apply(o, SetExtra("5", value)).value.props[Extra]), IntKey(5)) == Some(value)
  {
    IntTextKey(5);
    assert IntText(5) == "5";
    SetExtraReadsBack(o, "5", value, IntKey(5));
  }

  /** `setAuthBasic($user, $password)` stores the list `[$user, $password]`. */
  lemma SetAuthBasicStoresPair(o: HttpOptions, user: string, password: string)
    requires Valid(o)
    ensures Apply(o, SetAuthBasic(user, password)).Success?
    ensures Values(EntriesOf(Apply(o, SetAuthBasic(user, password)).value.props[AuthBasic])) == [Str(user), Str(password)]
  {
  }

  /** `setPeerFingerprint` with an array, which its parameter allows, always throws. */
  lemma PeerFingerprintArrayThrows(o: HttpOptions, fingerprint: seq<Entry>)
    requires Valid(o)
    ensures Apply(o, SetPeerFingerprint(FingerprintArray(fingerprint))).Failure?
  {
  }

  /**
   * `setOnProgress` with a callable that is not a `Closure`, such as the name of
   * a function, passes the parameter and throws on the assignment; a `Closure`
   * is stored.
   */
  lemma OnProgressNeedsClosure(o: HttpOptions, callback: Value)
    requires Valid(o)
    ensures Apply(o, SetOnProgress(callback)).Success? <==> IsClosure(callback)
    ensures IsClosure(callback) ==> Apply(o, SetOnProgress(callback)).value.props[OnProgress] == callback
  {
  }

  /** `setHeaders` takes a `Traversable` as well as an array, and refuses anything else. */
  lemma HeadersTakeIterables(o: HttpOptions, headers: Value)
    requires Valid(o)
    ensures Apply(o, SetHeaders(headers)).Success? <==> headers.Arr? || (headers.Obj? && headers.cls.TraversableClass?)
    ensures IsIterable(headers) ==> Apply(o, SetHeaders(headers)).value.props[Headers] == headers
  {
  }
}
