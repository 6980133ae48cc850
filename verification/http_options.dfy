/**
 * `HttpOptions`: the typed option record, its projection `toArray`, the inverse
 * `fromArray`, and the fluent setters.
 *
 * The thirty constructor properties are kept as a property map from option name
 * to PHP value; `Valid` says the map holds exactly the thirty properties, each
 * with a value of its declared PHP type.
 */
module HttpOptions {
  import opened Wrappers
  import opened Php
  import opened Keys

  /** `STREAM_CRYPTO_METHOD_TLSv1_2_CLIENT`, the default minimum TLS version. */
  const TlsV12Client: int := 33

  /** The declared type of a constructor property. */
  datatype PropType =
    | ArrayProp
    /** `?array` */
    | NullableArrayProp
    /** `iterable`: an array or a `Traversable`. */
    | IterableProp
    | MixedProp
    /** `Closure|null` */
    | NullableClosureProp
    | FloatProp(nullable: bool)
    | IntProp
    | BoolProp
    | StringProp(nullable: bool)
    /** `array|string|null` */
    | ArrayStringProp

  /** The declared type of the property behind option `k`. */
  function TypeOf(k: Opt): PropType {
    match k
    case Query | Resolve | Extra => ArrayProp
    case Json => NullableArrayProp
    case Headers => IterableProp
    case Body | UserData | Buffer => MixedProp
    case OnProgress => NullableClosureProp
    case Timeout => FloatProp(true)
    case MaxDuration => FloatProp(false)
    case MaxRedirects | CryptoMethod => IntProp
    case VerifyPeer | VerifyHost | CapturePeerCertChain => BoolProp
    case BindTo => StringProp(false)
    case AuthBasic => ArrayStringProp
    case _ => StringProp(true)
  }

  /** Whether `v` is a value of type `t`, with no conversion. */
  predicate Fits(t: PropType, v: Value) {
    match t
    case ArrayProp => v.Arr?
    case NullableArrayProp => v.Null? || v.Arr?
    case IterableProp => IsIterable(v)
    case MixedProp => true
    case NullableClosureProp => v.Null? || IsClosure(v)
    case FloatProp(nullable) => (nullable && v.Null?) || v.Float?
    case IntProp => v.Int?
    case BoolProp => v.Bool?
    case StringProp(nullable) => (nullable && v.Null?) || v.Str?
    case ArrayStringProp => v.Null? || v.Str? || v.Arr?
  }

  /** Whether `v` is a value of the declared type of the property behind option `k`. */
  predicate Typed(k: Opt, v: Value) {
    Fits(TypeOf(k), v)
  }

  /** The constructor default of the property behind option `k`. */
  function DefaultValue(k: Opt): (r: Value)
    ensures Typed(k, r)
  {
    match k
    case Query | Headers | Resolve | Extra => Arr([])
    case MaxDuration => Float(0.0)
    case MaxRedirects => Int(20)
    case Buffer => Bool(true)
    case BindTo => Str("0")
    case VerifyPeer | VerifyHost => Bool(true)
    case CapturePeerCertChain => Bool(false)
    case CryptoMethod => Int(TlsV12Client)
    case _ => Null
  }

  /** An `HttpOptions` instance: its properties, keyed by the option each one feeds. */
  datatype HttpOptions = HttpOptions(props: map<Opt, Value>)

  /** Exactly the thirty properties are set, each with a value of its declared type. */
  predicate Valid(o: HttpOptions) {
    o.props.Keys == RequestKeys && forall k {:trigger Typed(k, o.props[k])} :: k in o.props ==> Typed(k, o.props[k])
  }

  /** `new HttpOptions()`. */
  function Default(): (r: HttpOptions)
    ensures Valid(r)
  {
    HttpOptions(map k | k in RequestKeys :: DefaultValue(k))
  }

  /**
   * `HttpOptions::toArray`: the properties under their option names, with the
   * null ones dropped (a `false` or `0` stays).
   */
  function ToArray(o: HttpOptions): (r: Options)
    requires Valid(o)
    ensures forall k :: k in r <==> k in RequestKeys && o.props[k] != Null
    ensures forall k :: k in r ==> r[k] == o.props[k]
  {
    FilterNull(o.props)
  }

  /** The twelve properties whose constructor default is not null. */
  const NonNullDefaults: set<Opt> := {
    Query, Headers, Resolve, Extra, MaxDuration, MaxRedirects, Buffer, BindTo, VerifyPeer, VerifyHost,
    CapturePeerCertChain, CryptoMethod}

  lemma NonNullDefaultsExact(k: Opt)
    ensures k in RequestKeys && DefaultValue(k) != Null <==> k in NonNullDefaults
  {
  }

  lemma DefaultProps(k: Opt)
    ensures k in Default().props <==> k in RequestKeys
    ensures k in RequestKeys ==> Default().props[k] == DefaultValue(k)
  {
  }

  lemma DefaultToArrayKey(k: Opt)
    ensures k in ToArray(Default()) <==> k in NonNullDefaults
  {
    NonNullDefaultsExact(k);
    DefaultProps(k);
  }

  /**
   * The default options produce exactly the twelve options whose defaults are not
   * null; `capture_peer_cert_chain => false` among them, since only nulls are dropped.
   */
  lemma DefaultToArray()
    ensures ToArray(Default()).Keys == NonNullDefaults
  {
    forall k
      ensures k in ToArray(Default()) <==> k in NonNullDefaults
    {
      DefaultToArrayKey(k);
    }
  }
}

module HttpOptionsFromArray {
  import opened Wrappers
  import opened Php
  import opened Keys
  import opened HttpOptions
  import Coercion

  /**
   * What a parameter of type `t` makes of an argument `v`, or nothing when it
   * refuses it: a value of the type is taken as it is; otherwise, since the
   * file does not declare `strict_types`, a scalar parameter converts a scalar
   * of another type (see `Coercion`), and a union with `string` converts to
   * string. `floatText` prints a float for a `string` parameter.
   */
  function CoerceTo(t: PropType, v: Value, floatText: real -> string): (r: Option<Value>)
    ensures r.Some? ==> Fits(t, r.value)
    ensures Fits(t, v) ==> r == Some(v)
    ensures v.Null? || v.Arr? ==> (r.Some? <==> Fits(t, v))
    ensures t == IntProp ==> (r.Some? <==> Coercion.ToInt(v).Some?) && (r.Some? ==> r.value == Int(Coercion.ToInt(v).value))
    ensures t == BoolProp ==> (r.Some? <==> !v.Null? && !v.Arr? && !v.Obj?) && (r.Some? ==> r.value == Bool(Truthy(v)))
  {
    if Fits(t, v) then Some(v)
    else match t
      case FloatProp(_) => var x := Coercion.ToFloat(v); if x.Some? then Some(Float(x.value)) else None
      case IntProp => var n := Coercion.ToInt(v); if n.Some? then Some(Int(n.value)) else None
      case BoolProp => var b := Coercion.ToBool(v); if b.Some? then Some(Bool(b.value)) else None
      case StringProp(_) => var s := Coercion.ToStr(v, floatText); if s.Some? then Some(Str(s.value)) else None
      case ArrayStringProp => var s := Coercion.ToStr(v, floatText); if s.Some? then Some(Str(s.value)) else None
      case _ => None
  }

  /** The value PHP stores for an argument `v` of the constructor parameter behind option `k`, if accepted. */
  function Coerce(k: Opt, v: Value, floatText: real -> string): (r: Option<Value>)
    ensures r.Some? ==> Typed(k, r.value)
    ensures Typed(k, v) ==> r == Some(v)
  {
    CoerceTo(TypeOf(k), v, floatText)
  }

  /** Whether PHP accepts `v` for the constructor parameter behind option `k`. */
  predicate Accepts(k: Opt, v: Value, floatText: real -> string) {
    Coerce(k, v, floatText).Some?
  }

  /** `$options[k] ?? <default>`: the argument `fromArray` passes for option `k`. */
  function Arg(m: Options, k: Opt): Value {
    Coalesce(m, k, DefaultValue(k))
  }

  /** Every argument `fromArray` passes is accepted by its parameter. */
  predicate AllAccepted(m: Options, floatText: real -> string) {
    forall k :: k in RequestKeys ==> Accepts(k, Arg(m, k), floatText)
  }

  /** `new self(...)` on the arguments `fromArray` reads, when every one is accepted. */
  function Build(m: Options, floatText: real -> string): (r: HttpOptions)
    ensures r.props.Keys == RequestKeys
  {
    HttpOptions(map k | k in RequestKeys :: Coerce(k, Arg(m, k), floatText).GetOr(Null))
  }

  /**
   * `HttpOptions::fromArray`: every property is read with `??` and its constructor
   * default; an argument its parameter refuses makes the constructor throw.
   */
  function FromArray(m: Options, floatText: real -> string): (r: Result<HttpOptions, Error>)
    ensures r.Success? <==> AllAccepted(m, floatText)
    ensures r.Success? ==> Valid(r.value)
  {
    if AllAccepted(m, floatText) then Success(Build(m, floatText))
    else Failure(TypeError("HttpOptions::__construct"))
  }

  /** An option that is missing, or null, gets its constructor default. */
  lemma FromArrayMissing(m: Options, k: Opt, floatText: real -> string)
    requires FromArray(m, floatText).Success? && k in RequestKeys
    requires k !in m || m[k] == Null
    ensures FromArray(m, floatText).value.props[k] == DefaultValue(k)
  {
  }

  /** An option given with a value of its property's type is stored as it is. */
  lemma FromArrayTyped(m: Options, k: Opt, floatText: real -> string)
    requires FromArray(m, floatText).Success? && k in RequestKeys
    requires k in m && m[k] != Null && Typed(k, m[k])
    ensures FromArray(m, floatText).value.props[k] == m[k]
  {
  }

  /** Every constructor default is accepted as it is. */
  lemma DefaultAccepted(k: Opt, floatText: real -> string)
    ensures Coerce(k, DefaultValue(k), floatText) == Some(DefaultValue(k))
  {
  }

  lemma EmptyAccepted(floatText: real -> string)
    ensures AllAccepted(map[], floatText)
  {
    forall k | k in RequestKeys
      ensures Accepts(k, Arg(map[], k), floatText)
    {
      DefaultAccepted(k, floatText);
    }
  }

  /** From an empty array, every parameter receives its default and keeps it. */
  lemma EmptyArgsAreDefaults(floatText: real -> string)
    ensures forall k :: Coerce(k, Arg(map[], k), floatText).GetOr(Null) == DefaultValue(k)
  {
    forall k
      ensures Coerce(k, Arg(map[], k), floatText).GetOr(Null) == DefaultValue(k)
    {
      DefaultAccepted(k, floatText);
    }
  }

  lemma EmptyBuildsDefault(floatText: real -> string)
    ensures Build(map[], floatText) == Default()
  {
    EmptyArgsAreDefaults(floatText);
    var built := Build(map[], floatText).props;
    var defaults := Default().props;
    assert forall k :: k in built ==> built[k] == defaults[k];
    MapExt(built, defaults);
  }

  /** `fromArray([])` is `new HttpOptions()`. */
  lemma FromEmptyIsDefault(floatText: real -> string)
    ensures FromArray(map[], floatText) == Success(Default())
  {
    EmptyAccepted(floatText);
    EmptyBuildsDefault(floatText);
  }

  /** What `fromArray` reads back from `toArray` for one property. */
  lemma ArgOfToArray(o: HttpOptions, k: Opt)
    requires Valid(o) && k in RequestKeys
    ensures Arg(ToArray(o), k) == if o.props[k] == Null then DefaultValue(k) else o.props[k]
  {
  }

  lemma ToArrayAccepted(o: HttpOptions, floatText: real -> string)
    requires Valid(o)
    ensures AllAccepted(ToArray(o), floatText)
  {
    forall k | k in RequestKeys
      ensures Accepts(k, Arg(ToArray(o), k), floatText)
    {
      ArgOfToArray(o, k);
      assert Typed(k, Arg(ToArray(o), k));
    }
  }

  /** The options `toArray` yields, with a null `buffer` replaced by its default. */
  function Restored(o: HttpOptions): (r: HttpOptions)
    requires Valid(o)
    ensures r.props.Keys == RequestKeys
    ensures forall k :: k in r.props ==> r.props[k] == if k == Buffer && o.props[k] == Null then Bool(true) else o.props[k]
  {
    if o.props[Buffer] == Null then HttpOptions(o.props[Buffer := Bool(true)]) else o
  }

  /** `buffer` is the only property that may be null while its default is not. */
  lemma OnlyBufferNullableWithDefault(k: Opt)
    ensures Typed(k, Null) && k != Buffer ==> DefaultValue(k) == Null
  {
  }

  /**
   * Reading a property back from `toArray` gives the property unchanged,
   * except that a null `buffer` comes back as `true`.
   */
  lemma ReadBack(o: HttpOptions, k: Opt, floatText: real -> string)
    requires Valid(o) && k in RequestKeys
    ensures Coerce(k, Arg(ToArray(o), k), floatText) == Some(if k == Buffer && o.props[k] == Null then Bool(true) else o.props[k])
  {
    ArgOfToArray(o, k);
    OnlyBufferNullableWithDefault(k);
    assert Typed(k, Arg(ToArray(o), k));
  }

  lemma ToArrayBuildsRestoredAt(o: HttpOptions, floatText: real -> string)
    requires Valid(o)
    ensures forall k :: k in RequestKeys ==> Build(ToArray(o), floatText).props[k] == Restored(o).props[k]
  {
    forall k | k in RequestKeys
      ensures Build(ToArray(o), floatText).props[k] == Restored(o).props[k]
    {
      ToArrayBuildsRestoredKey(o, k, floatText);
    }
  }

  lemma ToArrayBuildsRestoredKey(o: HttpOptions, k: Opt, floatText: real -> string)
    requires Valid(o) && k in RequestKeys
    ensures Build(ToArray(o), floatText).props[k] == Restored(o).props[k]
  {
    ReadBack(o, k, floatText);
    BuildAt(ToArray(o), k, floatText);
  }

  /** The property `new self(...)` stores for option `k`. */
  lemma BuildAt(m: Options, k: Opt, floatText: real -> string)
    requires k in RequestKeys
    ensures Build(m, floatText).props[k] == Coerce(k, Arg(m, k), floatText).GetOr(Null)
  {
  }

  lemma ToArrayBuildsRestored(o: HttpOptions, floatText: real -> string)
    requires Valid(o)
    ensures Build(ToArray(o), floatText) == Restored(o)
  {
    ToArrayBuildsRestoredAt(o, floatText);
    MapExt(Build(ToArray(o), floatText).props, Restored(o).props);
  }

  /**
   * `fromArray(toArray($o))` rebuilds `$o`, except that a null `buffer`, dropped
   * by `toArray`, comes back as its default `true`.
   */
  lemma RoundTrip(o: HttpOptions, floatText: real -> string)
    requires Valid(o)
    ensures FromArray(ToArray(o), floatText) == Success(
      if o.props[Buffer] == Null then HttpOptions(o.props[Buffer := Bool(true)]) else o)
  {
    ToArrayAccepted(o, floatText);
    ToArrayBuildsRestored(o, floatText);
  }

  // ---------------------------------------------------------------------------
  // Coercion at work

  /** `'max_redirects' => '5'` gives 5 redirects. */
  lemma MaxRedirectsFromString(floatText: real -> string)
    ensures FromArray(map[MaxRedirects := Str("5")], floatText).Success?
    ensures FromArray(map[MaxRedirects := Str("5")], floatText).value.props[MaxRedirects] == Int(5)
  {
    Coercion.IntegerStrings();
    assert Coerce(MaxRedirects, Str("5"), floatText) == Some(Int(5));
    SingleOption(map[MaxRedirects := Str("5")], MaxRedirects, floatText);
  }

  /** `'verify_peer' => 1` turns peer verification on. */
  lemma VerifyPeerFromInt(floatText: real -> string)
    ensures FromArray(map[VerifyPeer := Int(1)], floatText).Success?
    ensures FromArray(map[VerifyPeer := Int(1)], floatText).value.props[VerifyPeer] == Bool(true)
  {
    var c := Coerce(VerifyPeer, Int(1), floatText);
    assert c == Some(Bool(true));
    SingleOption(map[VerifyPeer := Int(1)], VerifyPeer, floatText);
  }

  /** `'verify_peer' => '0'` turns peer verification off. */
  lemma VerifyPeerFromString(floatText: real -> string)
    ensures FromArray(map[VerifyPeer := Str("0")], floatText).Success?
    ensures FromArray(map[VerifyPeer := Str("0")], floatText).value.props[VerifyPeer] == Bool(false)
  {
    var c := Coerce(VerifyPeer, Str("0"), floatText);
    assert c == Some(Bool(false));
    SingleOption(map[VerifyPeer := Str("0")], VerifyPeer, floatText);
  }

  /** `'bindto' => 0` binds to `'0'`. */
  lemma BindToFromInt(floatText: real -> string)
    ensures FromArray(map[BindTo := Int(0)], floatText).Success?
    ensures FromArray(map[BindTo := Int(0)], floatText).value.props[BindTo] == Str("0")
  {
    assert IntText(0) == "0";
    var c := Coerce(BindTo, Int(0), floatText);
    assert c == Some(Str("0"));
    SingleOption(map[BindTo := Int(0)], BindTo, floatText);
  }

  /** `'timeout' => '1.5'` waits 1.5 seconds. */
  lemma TimeoutFromString(floatText: real -> string)
    ensures FromArray(map[Timeout := Str("1.5")], floatText).Success?
    ensures FromArray(map[Timeout := Str("1.5")], floatText).value.props[Timeout] == Float(1.5)
  {
    Coercion.FractionString();
    var c := Coerce(Timeout, Str("1.5"), floatText);
    assert c == Some(Float(1.5));
    SingleOption(map[Timeout := Str("1.5")], Timeout, floatText);
  }

  /** A non-numeric string for an `int` property, or an array for a `string` one, still throws. */
  lemma UncoercibleThrows(floatText: real -> string)
    ensures FromArray(map[MaxRedirects := Str("abc")], floatText).Failure?
    ensures FromArray(map[Proxy := Arr([])], floatText).Failure?
  {
    Coercion.NonNumericStrings();
    assert !Accepts(MaxRedirects, Arg(map[MaxRedirects := Str("abc")], MaxRedirects), floatText);
    assert !Accepts(Proxy, Arg(map[Proxy := Arr([])], Proxy), floatText);
  }

  /** With a single option given and accepted, every parameter accepts its argument. */
  lemma SingleOptionAccepted(m: Options, given: Opt, floatText: real -> string)
    requires m.Keys == {given} && m[given] != Null && Accepts(given, m[given], floatText)
    ensures AllAccepted(m, floatText)
  {
    forall k | k in RequestKeys
      ensures Accepts(k, Arg(m, k), floatText)
    {
      if k != given {
        DefaultAccepted(k, floatText);
      }
    }
  }

  /** With a single option given, every other property gets its default. */
  lemma SingleOptionDefaults(m: Options, given: Opt, floatText: real -> string)
    requires m.Keys == {given}
    ensures forall k :: k in RequestKeys && k != given ==> Build(m, floatText).props[k] == DefaultValue(k)
  {
    forall k | k in RequestKeys && k != given
      ensures Build(m, floatText).props[k] == DefaultValue(k)
    {
      BuildsDefaultAt(m, k, floatText);
    }
  }

  /** An option missing from `m` is built as its default. */
  lemma BuildsDefaultAt(m: Options, k: Opt, floatText: real -> string)
    requires k in RequestKeys && k !in m
    ensures Build(m, floatText).props[k] == DefaultValue(k)
  {
    assert Arg(m, k) == DefaultValue(k);
    DefaultAccepted(k, floatText);
    assert Build(m, floatText).props[k] == Coerce(k, DefaultValue(k), floatText).GetOr(Null);
  }

  /**
   * With a single option given and accepted, `fromArray` succeeds, stores that
   * option as its parameter converted it, and gives every other property its default.
   */
  lemma SingleOption(m: Options, given: Opt, floatText: real -> string)
    requires m.Keys == {given} && given in RequestKeys && m[given] != Null && Accepts(given, m[given], floatText)
    ensures FromArray(m, floatText).Success?
    ensures FromArray(m, floatText).value.props[given] == Coerce(given, m[given], floatText).value
    ensures forall k :: k in RequestKeys && k != given ==> FromArray(m, floatText).value.props[k] == DefaultValue(k)
  {
    var b := Build(m, floatText);
    assert FromArray(m, floatText) == Success(b) by {
      SingleOptionAccepted(m, given, floatText);
    }
    assert b.props[given] == Coerce(given, m[given], floatText).GetOr(Null) by {
      assert Arg(m, given) == m[given];
    }
    SingleOptionDefaults(m, given, floatText);
  }
}
