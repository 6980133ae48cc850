/**
 * `OptionScope`: which options a client keeps for its base URI only. The enum's
 * integer values are bit masks; `filter` tests the headers bit and the tokens bit.
 */
module OptionScope {
  import opened Php
  import opened Keys

  datatype OptionScope = ScopeAll | ScopeHeaders | ScopeHeadersOnly | ScopeTokens | ScopeNone

  /** The backing value of each case. */
  function Mask(s: OptionScope): (v: int)
    ensures 0 <= v <= 0xFF_FFFF
  {
    match s
    case ScopeAll => 0xFF_FFFF
    case ScopeHeaders => 0x3
    case ScopeHeadersOnly => 0x2
    case ScopeTokens => 0x1
    case ScopeNone => 0x0
  }

  /** `$value & $bit` is non-zero, for a non-negative value and a power of two. */
  predicate HasBit(value: nat, bit: nat)
    requires bit > 0
  {
    (value / bit) % 2 == 1
  }

  /**
   * `OptionScope::filter` with the token read from, and written to, `tokenKey`.
   * The scope that keeps everything returns the options unchanged; otherwise the
   * headers bit keeps `headers` (default `[]`) and the tokens bit keeps the token
   * and `auth_basic` (default null).
   */
  function FilterUsing(s: OptionScope, m: Options, tokenKey: Opt): (r: Options)
    requires tokenKey != Headers && tokenKey != AuthBasic
    ensures s == ScopeAll ==> r == m
    ensures s != ScopeAll ==> r.Keys <= {Headers, tokenKey, AuthBasic}
  {
    if Mask(s) == Mask(ScopeAll) then m
    else
      var headers := if HasBit(Mask(s), Mask(ScopeHeadersOnly)) then map[Headers := Coalesce(m, Headers, Arr([]))] else map[];
      var tokens := if HasBit(Mask(s), Mask(ScopeTokens))
        then map[tokenKey := Coalesce(m, tokenKey, Null), AuthBasic := Coalesce(m, AuthBasic, Null)]
        else map[];
      headers + tokens
  }

  /** `OptionScope::filter` as written: the token is read from and written to `bearer_token`. */
  function Filter(s: OptionScope, m: Options): (r: Options)
    ensures s == ScopeAll ==> r == m
    ensures s != ScopeAll ==> r.Keys <= {Headers, BearerToken, AuthBasic}
  {
    FilterUsing(s, m, BearerToken)
  }

  /** `filter` as evidently intended: the token is the `auth_bearer` option. */
  function FilterIntended(s: OptionScope, m: Options): (r: Options)
    ensures s == ScopeAll ==> r == m
    ensures s != ScopeAll ==> r.Keys <= {Headers, AuthBearer, AuthBasic}
  {
    FilterUsing(s, m, AuthBearer)
  }

  /** The scope that keeps nothing returns an empty array. */
  lemma NoneIsEmpty(m: Options, tokenKey: Opt)
    requires tokenKey != Headers && tokenKey != AuthBasic
    ensures FilterUsing(ScopeNone, m, tokenKey) == map[]
  {
  }

  /** The headers bit keeps `headers`, defaulting to an empty array; without it there is no `headers`. */
  lemma HeadersBit(s: OptionScope, m: Options, tokenKey: Opt)
    requires tokenKey != Headers && tokenKey != AuthBasic && s != ScopeAll
    ensures Headers in FilterUsing(s, m, tokenKey) <==> s == ScopeHeaders || s == ScopeHeadersOnly
    ensures Headers in FilterUsing(s, m, tokenKey) ==> FilterUsing(s, m, tokenKey)[Headers] == Coalesce(m, Headers, Arr([]))
  {
  }

  /** The tokens bit keeps the token and `auth_basic`, null when absent; without it neither is kept. */
  lemma TokensBit(s: OptionScope, m: Options, tokenKey: Opt)
    requires tokenKey != Headers && tokenKey != AuthBasic && s != ScopeAll
    ensures tokenKey in FilterUsing(s, m, tokenKey) <==> s == ScopeHeaders || s == ScopeTokens
    ensures AuthBasic in FilterUsing(s, m, tokenKey) <==> s == ScopeHeaders || s == ScopeTokens
    ensures tokenKey in FilterUsing(s, m, tokenKey) ==>
      FilterUsing(s, m, tokenKey)[tokenKey] == Coalesce(m, tokenKey, Null) &&
      FilterUsing(s, m, tokenKey)[AuthBasic] == Coalesce(m, AuthBasic, Null)
  {
  }

  /** Filtering twice is filtering once. */
  lemma FilterIdempotent(s: OptionScope, m: Options, tokenKey: Opt)
    requires tokenKey != Headers && tokenKey != AuthBasic
    ensures FilterUsing(s, FilterUsing(s, m, tokenKey), tokenKey) == FilterUsing(s, m, tokenKey)
  {
  }

  /** As written, a non-total scope never carries the `auth_bearer` option over. */
  lemma AuthBearerNeverKept(s: OptionScope, m: Options)
    requires s != ScopeAll
    ensures AuthBearer !in Filter(s, m)
  {
  }

  /** As written, scoping the tokens of `['auth_bearer' => 't']` loses the token. */
  lemma TokenLost()
    ensures var r := Filter(ScopeTokens, map[AuthBearer := Str("t")]);
      AuthBearer !in r && r[BearerToken] == Null
  {
  }

  /** As intended, the tokens scope keeps the `auth_bearer` token it is given. */
  lemma TokenKept(m: Options)
    requires AuthBearer in m && m[AuthBearer] != Null
    ensures AuthBearer in FilterIntended(ScopeTokens, m)
    ensures FilterIntended(ScopeTokens, m)[AuthBearer] == m[AuthBearer]
  {
  }
}
