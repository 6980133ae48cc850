/**
 * The slice of PHP's value semantics the library relies on: loosely typed values,
 * ordered arrays, truthiness (`empty`, `?:`), the null-coalescing `??`,
 * `array_filter` on null, the array union `+`, and the byte-string helpers
 * `strtolower`, `ltrim`, `rtrim` and `trim`.
 */
module Php {
  import opened Wrappers

  /** An array key; PHP keys are integers or strings. */
  datatype Key = IntKey(i: int) | StrKey(s: string)

  /**
   * The class of an object, as far as the library's type declarations tell
   * objects apart.
   */
  datatype ObjClass =
    | ClosureClass
    /** A `Traversable`, such as an `ArrayIterator`. */
    | TraversableClass
    /** A class with `__toString`, and the text it returns. */
    | StringableClass(text: string)
    | OtherClass

  /**
   * A PHP value as far as this library inspects it. Objects, closures, streams and
   * other resources are opaque handles with a class: the library only passes
   * them along or checks their type.
   */
  datatype Value =
    | Null
    | Bool(b: bool)
    | Int(i: int)
    | Float(r: real)
    | Str(s: string)
    | Arr(entries: seq<Entry>)
    | Obj(handle: nat, cls: ObjClass)

  /** One key => value pair of an ordered PHP array. */
  datatype Entry = Entry(key: Key, val: Value)

  /** The exceptions the modelled code throws or lets through. */
  datatype Error =
    | TypeError(context: string)
    /** An engine `Error` other than a `TypeError`, such as writing an offset of a scalar. */
    | EngineError(message: string)
    | LogicException(message: string)
    | JsonException(message: string)
    | TransportException(handle: nat)

  /** PHP's conversion to bool; `empty($x)` on a set variable is its negation. */
  predicate Truthy(v: Value) {
    match v
    case Null => false
    case Bool(b) => b
    case Int(i) => i != 0
    case Float(r) => r != 0.0
    case Str(s) => s != "" && s != "0"
    case Arr(es) => |es| > 0
    case Obj(_, _) => true
  }

  /** An instance of `Closure`. */
  predicate IsClosure(v: Value) {
    v.Obj? && v.cls.ClosureClass?
  }

  /** `is_iterable($v)`: an array or a `Traversable` object. */
  predicate IsIterable(v: Value) {
    v.Arr? || (v.Obj? && v.cls.TraversableClass?)
  }

  /** A value an `iterable` parameter accepted: an array, or the handle of a `Traversable`. */
  datatype Iterable = IterArray(entries: seq<Entry>) | IterTraversable(handle: nat)

  /** The value an `iterable` parameter holds. */
  function IterableValue(i: Iterable): (v: Value)
    ensures IsIterable(v)
    ensures v.Arr? <==> i.IterArray?
  {
    match i
    case IterArray(es) => Arr(es)
    case IterTraversable(h) => Obj(h, TraversableClass)
  }

  /** `empty($m[$k])`: a missing key is empty too. */
  predicate EmptyAt<K>(m: map<K, Value>, k: K) {
    k !in m || !Truthy(m[k])
  }

  /** `$m[$k] ?? $d`: the default replaces both a missing key and a null value. */
  function Coalesce<K>(m: map<K, Value>, k: K, d: Value): (r: Value)
    ensures k in m && m[k] != Null ==> r == m[k]
    ensures k !in m || m[k] == Null ==> r == d
  {
    if k in m && m[k] != Null then m[k] else d
  }

  /** `array_filter($m, fn($v) => $v !== null)`. */
  function FilterNull<K(!new)>(m: map<K, Value>): (r: map<K, Value>)
    ensures forall k :: k in r <==> k in m && m[k] != Null
    ensures forall k :: k in r ==> r[k] == m[k]
  {
    map k | k in m && m[k] != Null :: m[k]
  }

  /** `array_map(fn($v) => $v === false ? null : $v, $m)`. */
  function FalseToNull<K(!new)>(m: map<K, Value>): (r: map<K, Value>)
    ensures r.Keys == m.Keys
    ensures forall k :: k in r ==> r[k] == (if m[k] == Bool(false) then Null else m[k])
  {
    map k | k in m :: if m[k] == Bool(false) then Null else m[k]
  }

  /** PHP's `$a + $b` on arrays: keys of `$a` win, keys only in `$b` are added. */
  function Union<K>(a: map<K, Value>, b: map<K, Value>): (r: map<K, Value>)
    ensures r.Keys == a.Keys + b.Keys
    ensures forall k :: k in a ==> r[k] == a[k]
    ensures forall k :: k in b && k !in a ==> r[k] == b[k]
  {
    b + a
  }

  /** Reading through `array_filter` with `??` sees the same value as reading the unfiltered map. */
  lemma CoalesceFilterNull<K(!new)>(m: map<K, Value>)
    ensures forall k, d :: Coalesce(FilterNull(m), k, d) == Coalesce(m, k, d)
  {
  }

  /** Two maps with the same keys and the same value at each key are equal. */
  lemma MapExt<K, V>(a: map<K, V>, b: map<K, V>)
    requires a.Keys == b.Keys
    requires forall k :: k in a ==> a[k] == b[k]
    ensures a == b
  {
  }

  // ---------------------------------------------------------------------------
  // Ordered arrays

  /** `$a[$k]` when set: the value of the first entry with key `k`. */
  function ArrayGet(a: seq<Entry>, k: Key): Option<Value> {
    if |a| == 0 then None
    else if a[0].key == k then Some(a[0].val)
    else ArrayGet(a[1..], k)
  }

  /** `$a[$k] = $v`: overwrite in place, or append when the key is new. */
  function ArraySet(a: seq<Entry>, k: Key, v: Value): seq<Entry> {
    if |a| == 0 then [Entry(k, v)]
    else if a[0].key == k then [Entry(k, v)] + a[1..]
    else [a[0]] + ArraySet(a[1..], k, v)
  }

  lemma {:induction false} ArraySetGet(a: seq<Entry>, k: Key, v: Value, k': Key)
    ensures ArrayGet(ArraySet(a, k, v), k') == if k' == k then Some(v) else ArrayGet(a, k')
    decreases |a|
  {
    if |a| > 0 && a[0].key != k {
      ArraySetGet(a[1..], k, v, k');
    }
  }

  /** A second `$a[$k] = $w` overwrites the first and leaves the array as if only it had run. */
  lemma {:induction false} ArraySetTwice(a: seq<Entry>, k: Key, v: Value, w: Value)
    ensures ArraySet(ArraySet(a, k, v), k, w) == ArraySet(a, k, w)
    decreases |a|
  {
    if |a| == 0 {
    } else if a[0].key == k {
      assert ([Entry(k, v)] + a[1..])[1..] == a[1..];
    } else {
      ArraySetTwice(a[1..], k, v, w);
      assert ([a[0]] + ArraySet(a[1..], k, v))[1..] == ArraySet(a[1..], k, v);
    }
  }

  /** Setting a key to the value it already has changes nothing. */
  lemma {:induction false} ArraySetSame(a: seq<Entry>, k: Key, v: Value)
    requires ArrayGet(a, k) == Some(v)
    ensures ArraySet(a, k, v) == a
    decreases |a|
  {
    if a[0].key != k {
      ArraySetSame(a[1..], k, v);
    }
  }

  /** The integer key `$a[] = $v` uses: one past the largest integer key, and at least 0. */
  function NextIndex(a: seq<Entry>): int
    decreases |a|
  {
    if |a| == 0 then 0
    else
      var n := NextIndex(a[..|a| - 1]);
      match a[|a| - 1].key
      case IntKey(i) => if i + 1 > n then i + 1 else n
      case StrKey(_) => n
  }

  /** `$a[] = $v`. */
  function ArrayPush(a: seq<Entry>, v: Value): seq<Entry> {
    a + [Entry(IntKey(NextIndex(a)), v)]
  }

  /** `array_values($a)`. */
  function Values(a: seq<Entry>): (r: seq<Value>)
    ensures |r| == |a|
    ensures forall i :: 0 <= i < |a| ==> r[i] == a[i].val
  {
    seq(|a|, i requires 0 <= i < |a| => a[i].val)
  }

  /** A list array `[0 => xs[0], 1 => xs[1], ...]`. */
  function List(xs: seq<Value>): (r: seq<Entry>)
    ensures Values(r) == xs
  {
    seq(|xs|, i requires 0 <= i < |xs| => Entry(IntKey(i), xs[i]))
  }

  /** `current($a)` on an array whose internal cursor was never moved. */
  function First(a: seq<Entry>): Option<Value> {
    if |a| == 0 then None else Some(a[0].val)
  }

  // ---------------------------------------------------------------------------
  // Byte strings

  function LowerChar(c: char): char {
    if 'A' <= c <= 'Z' then (c as int + 32) as char else c
  }

  /** `strtolower`: ASCII letters only, as in PHP 8.2 and later. */
  function ToLower(s: string): (r: string)
    ensures |r| == |s|
    ensures forall i :: 0 <= i < |s| ==> r[i] == LowerChar(s[i])
  {
    seq(|s|, i requires 0 <= i < |s| => LowerChar(s[i]))
  }

  /** The characters `trim`, `ltrim` and `rtrim` strip by default: " \t\n\r\0\x0B". */
  predicate IsTrimSpace(c: char) {
    c == ' ' || c == '\t' || c == '\n' || c == '\r' || c == '\0' || c == '\U{000B}'
  }

  /** `ltrim($s)`. */
  function LTrim(s: string): string {
    if |s| > 0 && IsTrimSpace(s[0]) then LTrim(s[1..]) else s
  }

  /** `rtrim($s)`. */
  function RTrim(s: string): string {
    if |s| > 0 && IsTrimSpace(s[|s| - 1]) then RTrim(s[..|s| - 1]) else s
  }

  /** `trim($s)`. */
  function Trim(s: string): string {
    RTrim(LTrim(s))
  }

  /** `ltrim($s, $c)` for a single character. */
  function LTrimChar(s: string, c: char): string {
    if |s| > 0 && s[0] == c then LTrimChar(s[1..], c) else s
  }

  /** `rtrim($s, $c)` for a single character. */
  function RTrimChar(s: string, c: char): string {
    if |s| > 0 && s[|s| - 1] == c then RTrimChar(s[..|s| - 1], c) else s
  }

  // ---------------------------------------------------------------------------
  // Decimal integers

  /** PHP's integers are 64-bit: `PHP_INT_MIN` and `PHP_INT_MAX`. */
  const IntMin: int := -0x8000_0000_0000_0000
  const IntMax: int := 0x7FFF_FFFF_FFFF_FFFF

  predicate IsDigit(c: char) {
    '0' <= c <= '9'
  }

  function DigitValue(c: char): (n: nat)
    requires IsDigit(c)
    ensures n <= 9
  {
    c as int - '0' as int
  }

  function DigitChar(n: nat): (c: char)
    requires n <= 9
    ensures IsDigit(c) && DigitValue(c) == n
  {
    ('0' as int + n) as char
  }

  predicate AllDigits(s: string) {
    forall i :: 0 <= i < |s| ==> IsDigit(s[i])
  }

  /** The end of the run of digits that starts at `i`. */
  function DigitsEnd(s: string, i: nat): (j: nat)
    requires i <= |s|
    ensures i <= j <= |s| && (j == |s| || !IsDigit(s[j]))
    ensures forall k :: i <= k < j ==> IsDigit(s[k])
    decreases |s| - i
  {
    if i < |s| && IsDigit(s[i]) then DigitsEnd(s, i + 1) else i
  }

  /** The run of digits that starts at `i`, taken out of `s`, is all digits. */
  lemma DigitRun(s: string, i: nat, j: nat)
    requires i <= j <= |s| && j <= DigitsEnd(s, i)
    ensures AllDigits(s[i..j])
  {
    assert forall k :: 0 <= k < j - i ==> s[i..j][k] == s[i + k];
  }

  /** A digit run ends where the first non-digit is. */
  lemma {:induction false} DigitsEndAt(s: string, i: nat, j: nat)
    requires i <= j <= |s| && (j == |s| || !IsDigit(s[j]))
    requires forall k :: i <= k < j ==> IsDigit(s[k])
    ensures DigitsEnd(s, i) == j
    decreases j - i
  {
    if i < j {
      DigitsEndAt(s, i + 1, j);
    }
  }

  /** The number a string of decimal digits denotes. */
  function Decimal(d: string): nat
    requires AllDigits(d)
    decreases |d|
  {
    if |d| == 0 then 0 else Decimal(d[..|d| - 1]) * 10 + DigitValue(d[|d| - 1])
  }

  /** The decimal digits of `n`, without leading zeros. */
  function NatText(n: nat): (s: string)
    ensures |s| > 0 && AllDigits(s)
    decreases n
  {
    if n < 10 then [DigitChar(n)] else NatText(n / 10) + [DigitChar(n % 10)]
  }

  /** `(string)$n` for an integer: the digits, after a minus sign when negative. */
  function IntText(n: int): string {
    if n < 0 then "-" + NatText(-n) else NatText(n)
  }

  /** The digits of `n` denote `n`, and only `0` starts with a zero. */
  lemma {:induction false} NatTextDecimal(n: nat)
    ensures Decimal(NatText(n)) == n
    ensures NatText(n)[0] == '0' <==> n == 0
    decreases n
  {
    if n >= 10 {
      var s := NatText(n);
      NatTextDecimal(n / 10);
      assert s[..|s| - 1] == NatText(n / 10);
      assert s[0] == NatText(n / 10)[0];
    }
  }

  /** A digit string that starts with a non-zero digit denotes at least one. */
  lemma {:induction false} DecimalPositive(d: string)
    requires |d| > 0 && AllDigits(d) && d[0] != '0'
    ensures Decimal(d) >= 1
    decreases |d|
  {
    if |d| > 1 {
      DecimalPositive(d[..|d| - 1]);
    }
  }

  /** A digit string without a leading zero (or `0` itself) is the text of the number it denotes. */
  lemma {:induction false} DecimalNatText(d: string)
    requires |d| > 0 && AllDigits(d) && (d[0] == '0' ==> d == "0")
    ensures NatText(Decimal(d)) == d
    decreases |d|
  {
    if |d| > 1 {
      var init := d[..|d| - 1];
      DecimalNatText(init);
      DecimalPositive(init);
      var n := Decimal(d);
      assert n / 10 == Decimal(init) && n % 10 == DigitValue(d[|d| - 1]);
      assert d == init + [d[|d| - 1]];
    }
  }

  /**
   * The key `$a[$s]` uses for a string `$s`: a canonical decimal integer within
   * the 64-bit range (`0`, or an optional minus and digits not starting with
   * zero, but not `-0`) becomes an integer key; anything else stays a string.
   */
  function ArrayKey(s: string): (k: Key)
    ensures k.StrKey? ==> k.s == s
  {
    var start := if |s| > 0 && s[0] == '-' then 1 else 0;
    var digits := s[start..];
    if |digits| > 0 && AllDigits(digits) && (digits[0] == '0' ==> s == "0") then
      var value: int := Decimal(digits);
      var n := if start == 1 then -value else value;
      if IntMin <= n <= IntMax then IntKey(n) else StrKey(s)
    else StrKey(s)
  }

  /** The text of an integer in range is read back as that integer key. */
  lemma IntTextKey(n: int)
    requires IntMin <= n <= IntMax
    ensures ArrayKey(IntText(n)) == IntKey(n)
  {
    var m := if n < 0 then -n else n;
    NatTextDecimal(m);
    var s := IntText(n);
    if n < 0 {
      assert s[1..] == NatText(m);
    } else {
      assert s[0..] == NatText(m);
    }
  }

  /** Only the canonical text of an integer becomes an integer key. */
  lemma IntKeyIsText(s: string)
    requires ArrayKey(s).IntKey?
    ensures s == IntText(ArrayKey(s).i)
  {
    var start := if |s| > 0 && s[0] == '-' then 1 else 0;
    var digits := s[start..];
    DecimalNatText(digits);
    if start == 1 {
      assert s == "-" + digits;
      DecimalPositive(digits);
    } else {
      assert s == digits;
    }
  }
}
