/**
 * `HttpResponse`: a wrapper around a Symfony response that memoises the decoded
 * body, exposes it as a read-only array, reads typed fields of the info, and
 * serialises to its content and info.
 */
module HttpResponses {
  import opened Wrappers
  import opened Php
  import S = SerializedResponses
  import Coercion

  /** The wrapped response: one from the transport, by handle, or one rebuilt from storage. */
  datatype Inner = Live(handle: nat, canceled: bool) | Stored(response: S.SerializedResponse)

  /**
   * What the transport's responses answer, by handle: their content, info and
   * decoded body; and `json_decode`, which stored responses use.
   */
  datatype Transport = Transport(
    content: nat -> Result<string, Error>,
    info: nat -> seq<Entry>,
    toArray: nat -> Result<seq<Entry>, Error>,
    decode: string -> Result<Value, string>)

  datatype HttpResponse = HttpResponse(inner: Inner, jsonData: Option<seq<Entry>>)

  /** `new HttpResponse($response)`. */
  function NewResponse(inner: Inner): (h: HttpResponse)
    ensures h.inner == inner && h.jsonData.None?
  {
    HttpResponse(inner, None)
  }

  /** The inner response's `toArray`; a stored response memoises on its own. */
  function InnerToArray(inner: Inner, t: Transport): (r: (Inner, Result<seq<Entry>, Error>))
    ensures inner.Live? ==> r.0 == inner && r.1 == t.toArray(inner.handle)
    ensures inner.Stored? ==> r == (Stored(S.ToArray(inner.response, t.decode).0), S.ToArray(inner.response, t.decode).1)
  {
    match inner
    case Live(handle, _) => (inner, t.toArray(handle))
    case Stored(response) =>
      var (response', result) := S.ToArray(response, t.decode);
      (Stored(response'), result)
  }

  /** `toArray`: `$this->jsonData ??= $this->response->toArray()`. */
  function ToArray(h: HttpResponse, t: Transport): (r: (HttpResponse, Result<seq<Entry>, Error>))
    ensures h.jsonData.Some? ==> r == (h, Success(h.jsonData.value))
    ensures h.jsonData.None? && r.1.Success? ==> r.0.jsonData == Some(r.1.value)
    ensures h.jsonData.None? && r.1.Failure? ==> r.0.jsonData.None?
    ensures h.jsonData.None? ==> r.1 == InnerToArray(h.inner, t).1 && r.0.inner == InnerToArray(h.inner, t).0
  {
    if h.jsonData.Some? then (h, Success(h.jsonData.value))
    else
      var (inner', result) := InnerToArray(h.inner, t);
      match result
      case Success(a) => (HttpResponse(inner', Some(a)), Success(a))
      case Failure(e) => (HttpResponse(inner', None), Failure(e))
  }

  /** Once decoded, every later `toArray` gives the same array whatever the transport would now answer. */
  lemma ToArrayMemoised(h: HttpResponse, t: Transport, t': Transport)
    requires ToArray(h, t).1.Success?
    ensures ToArray(ToArray(h, t).0, t') == (ToArray(h, t).0, ToArray(h, t).1)
  {
  }

  /**
   * `offsetGet($offset)`: the decoded array's entry under the key PHP makes of
   * `$offset`, or null when there is none. The array is decoded first, so a
   * decoding error wins over an illegal offset.
   */
  function OffsetGet(h: HttpResponse, offset: Value, t: Transport): (r: (HttpResponse, Result<Value, Error>))
    ensures r.0 == ToArray(h, t).0
    ensures r.1.Success? <==> ToArray(h, t).1.Success? && Coercion.OffsetKey(offset).Success?
    ensures ToArray(h, t).1.Failure? ==> r.1 == Failure(ToArray(h, t).1.error)
    ensures ToArray(h, t).1.Success? && Coercion.OffsetKey(offset).Success? ==>
      r.1.value == ArrayGet(ToArray(h, t).1.value, Coercion.OffsetKey(offset).value).GetOr(Null)
  {
    var (h', a) := ToArray(h, t);
    match a
    case Failure(e) => (h', Failure(e))
    case Success(es) =>
      match Coercion.OffsetKey(offset)
      case Success(k) => (h', Success(ArrayGet(es, k).GetOr(Null)))
      case Failure(e) => (h', Failure(e))
  }

  /** `offsetExists($offset)`: `isset` on the decoded array, so a null entry does not exist. */
  function OffsetExists(h: HttpResponse, offset: Value, t: Transport): (r: (HttpResponse, Result<bool, Error>))
    ensures r.0 == ToArray(h, t).0
    ensures r.1.Success? <==> ToArray(h, t).1.Success? && Coercion.OffsetKey(offset).Success?
    ensures ToArray(h, t).1.Failure? ==> r.1 == Failure(ToArray(h, t).1.error)
  {
    var (h', a) := ToArray(h, t);
    match a
    case Failure(e) => (h', Failure(e))
    case Success(es) =>
      match Coercion.OffsetKey(offset)
      case Success(k) => (h', Success(ArrayGet(es, k).Some? && ArrayGet(es, k).value != Null))
      case Failure(e) => (h', Failure(e))
  }

  /** An offset exists exactly when reading it gives something other than null. */
  lemma ExistsIffNonNull(h: HttpResponse, offset: Value, t: Transport)
    requires ToArray(h, t).1.Success? && Coercion.OffsetKey(offset).Success?
    ensures OffsetExists(h, offset, t).1.value <==> OffsetGet(h, offset, t).1.value != Null
  {
  }

  /**
   * Offsets that PHP turns into the same key read the same entry: the text of a
   * 64-bit integer and the integer, `true` and 1, `false` and 0, null and `''`.
   */
  lemma EquivalentOffsets(h: HttpResponse, t: Transport, n: int)
    requires IntMin <= n <= IntMax
    ensures OffsetGet(h, Str(IntText(n)), t) == OffsetGet(h, Int(n), t)
    ensures OffsetExists(h, Str(IntText(n)), t) == OffsetExists(h, Int(n), t)
    ensures OffsetGet(h, Bool(true), t) == OffsetGet(h, Int(1), t)
    ensures OffsetGet(h, Bool(false), t) == OffsetGet(h, Int(0), t)
    ensures OffsetGet(h, Null, t) == OffsetGet(h, Str(""), t)
  {
    Coercion.DecimalStringOffset(n);
    assert ArrayKey("") == StrKey("");
  }

  /** An array or object offset throws a `TypeError` once the array is decoded. */
  lemma IllegalOffsets(h: HttpResponse, t: Transport, offset: Value)
    requires ToArray(h, t).1.Success?
    requires offset.Arr? || offset.Obj?
    ensures OffsetGet(h, offset, t).1.Failure? && OffsetGet(h, offset, t).1.error.TypeError?
    ensures OffsetExists(h, offset, t).1.Failure? && OffsetExists(h, offset, t).1.error.TypeError?
  {
  }

  const Immutable: Error := LogicException("Response array is immutable.")

  /** `offsetSet`: always refused, whatever the offset, and nothing changes. */
  function OffsetSet(h: HttpResponse, offset: Value, v: Value): (r: (HttpResponse, Result<(), Error>))
    ensures r.0 == h && r.1 == Failure(Immutable)
  {
    (h, Failure(Immutable))
  }

  /** `offsetUnset`: always refused, whatever the offset, and nothing changes. */
  function OffsetUnset(h: HttpResponse, offset: Value): (r: (HttpResponse, Result<(), Error>))
    ensures r.0 == h && r.1 == Failure(Immutable)
  {
    (h, Failure(Immutable))
  }

  /** Attempts to write leave what the array reads as it was. */
  lemma WritesChangeNothing(h: HttpResponse, offset: Value, v: Value, t: Transport)
    ensures ToArray(OffsetSet(h, offset, v).0, t) == ToArray(h, t)
    ensures ToArray(OffsetUnset(h, offset).0, t) == ToArray(h, t)
  {
  }

  /** The inner response's info. */
  function InfoOf(inner: Inner, t: Transport): seq<Entry> {
    match inner
    case Live(handle, _) => t.info(handle)
    case Stored(response) => response.info
  }

  /** `getInfo($type)`, forwarded: the whole info for null, otherwise `$info[$type] ?? null`. */
  function GetInfo(h: HttpResponse, infoType: Option<string>, t: Transport): (v: Value)
    ensures h.inner.Stored? ==> v == S.GetInfo(h.inner.response, infoType)
    ensures h.inner.Live? && infoType.None? ==> v == Arr(t.info(h.inner.handle))
    ensures h.inner.Live? && infoType.Some? ==> v == ArrayGet(t.info(h.inner.handle), ArrayKey(infoType.value)).GetOr(Null)
  {
    match infoType
    case None => Arr(InfoOf(h.inner, t))
    case Some(k) => ArrayGet(InfoOf(h.inner, t), ArrayKey(k)).GetOr(Null)
  }

  /** `getHttpCode`: a positive `http_code`, and null when it is zero, negative or unknown. */
  function GetHttpCode(h: HttpResponse, t: Transport): (r: Result<Option<int>, Error>)
    ensures r.Success? && r.value.Some? ==> r.value.value > 0 && GetInfo(h, Some("http_code"), t) == Int(r.value.value)
    ensures GetInfo(h, Some("http_code"), t).Int? ==> r.Success?
    ensures GetInfo(h, Some("http_code"), t) == Null ==> r == Success(None)
    ensures var code := GetInfo(h, Some("http_code"), t);
      code.Int? ==> r == Success(if code.i > 0 then Some(code.i) else None)
  {
    match GetInfo(h, Some("http_code"), t)
    case Null => Success(None)
    case Int(n) => if n > 0 then Success(Some(n)) else Success(None)
    case _ => Failure(TypeError("HttpResponse::getHttpCode"))
  }

  /** `getRedirectCount`: `redirect_count`, and 0 when the info has none. */
  function GetRedirectCount(h: HttpResponse, t: Transport): (r: Result<int, Error>)
    ensures GetInfo(h, Some("redirect_count"), t) == Null ==> r == Success(0)
    ensures GetInfo(h, Some("redirect_count"), t).Int? ==> r == Success(GetInfo(h, Some("redirect_count"), t).i)
  {
    match GetInfo(h, Some("redirect_count"), t)
    case Null => Success(0)
    case Int(n) => Success(n)
    case _ => Failure(TypeError("HttpResponse::getRedirectCount"))
  }

  /** `cancel`, forwarded: a transport response is cancelled, a stored one is left as it is. */
  function Cancel(h: HttpResponse): (r: HttpResponse)
    ensures r.jsonData == h.jsonData
    ensures h.inner.Stored? ==> r == h
    ensures h.inner.Live? ==> r.inner == Live(h.inner.handle, true)
  {
    match h.inner
    case Live(handle, _) => HttpResponse(Live(handle, true), h.jsonData)
    case Stored(_) => h
  }

  /** The inner response's content. */
  function ContentOf(inner: Inner, t: Transport): Result<string, Error> {
    match inner
    case Live(handle, _) => t.content(handle)
    case Stored(response) => Success(response.content)
  }

  /** `__serialize`'s array: the content and the whole info. */
  datatype Serialized = Serialized(content: string, info: seq<Entry>)

  /** `__serialize`: reading the content may fail, and then nothing is produced. */
  function Serialize(h: HttpResponse, t: Transport): (r: Result<Serialized, Error>)
    ensures r.Success? <==> ContentOf(h.inner, t).Success?
    ensures r.Success? ==> r.value.content == ContentOf(h.inner, t).value && Arr(r.value.info) == GetInfo(h, None, t)
  {
    var content :- ContentOf(h.inner, t);
    Success(Serialized(content, InfoOf(h.inner, t)))
  }

  /**
   * `__unserialize`: a stored response rebuilt by the constructor from the
   * content and info.
   */
  function Unserialize(d: Serialized): (r: Result<HttpResponse, Error>)
    ensures r.Success? <==> S.HeaderLines(d.info).Some?
    ensures r.Success? ==> r.value.inner.Stored? && r.value.jsonData.None?
    ensures r.Success? ==> r.value.inner.response.content == d.content
  {
    var response :- S.NewSerialized(d.content, d.info);
    Success(HttpResponse(Stored(response), None))
  }

  /**
   * As written, unserialising a serialised response keeps its content, and its
   * header lines come back listed twice.
   */
  lemma RoundTrip(h: HttpResponse, t: Transport)
    requires Serialize(h, t).Success? && S.HeaderLines(InfoOf(h.inner, t)).Some?
    ensures var d := Serialize(h, t).value;
      var u := Unserialize(d).value;
      var lines := S.HeaderLines(InfoOf(h.inner, t)).value;
      ContentOf(u.inner, t) == ContentOf(h.inner, t) &&
      S.HeaderLines(InfoOf(u.inner, t)) == Some(lines + lines)
  {
    var d := Serialize(h, t).value;
    S.RebuiltLinesDoubled(d.content, d.info);
  }

  /** As written, each further round trip doubles the header lines again, so a response with headers never comes back the same. */
  lemma RoundTripGrows(h: HttpResponse, t: Transport)
    requires Serialize(h, t).Success? && S.HeaderLines(InfoOf(h.inner, t)).Some?
    requires |S.HeaderLines(InfoOf(h.inner, t)).value| > 0
    ensures var u := Unserialize(Serialize(h, t).value).value;
      Serialize(u, t).Success? && Unserialize(Serialize(u, t).value) != Success(u)
  {
    var lines := S.HeaderLines(InfoOf(h.inner, t)).value;
    RoundTrip(h, t);
    var u := Unserialize(Serialize(h, t).value).value;
    RoundTrip(u, t);
    var w := Unserialize(Serialize(u, t).value).value;
    assert |S.HeaderLines(InfoOf(w.inner, t)).value| == 4 * |lines|;
    assert |S.HeaderLines(InfoOf(u.inner, t)).value| == 2 * |lines|;
  }

  /** `__unserialize` with the corrected constructor, which lists each header line once. */
  function UnserializeIntended(d: Serialized): (r: Result<HttpResponse, Error>)
    ensures r.Success? <==> S.HeaderLines(d.info).Some?
    ensures r.Success? ==> r.value.inner.Stored? && r.value.jsonData.None?
    ensures r.Success? ==> r.value.inner.response.content == d.content
  {
    var response :- S.NewSerializedIntended(d.content, d.info);
    Success(HttpResponse(Stored(response), None))
  }

  /**
   * With the corrected constructor, unserialising a serialised response keeps
   * its content and header lines, and serialising and unserialising again gives
   * back the same response.
   */
  lemma RoundTripIntended(h: HttpResponse, t: Transport)
    requires Serialize(h, t).Success? && S.HeaderLines(InfoOf(h.inner, t)).Some?
    ensures var d := Serialize(h, t).value;
      var u := UnserializeIntended(d).value;
      ContentOf(u.inner, t) == ContentOf(h.inner, t) &&
      S.HeaderLines(InfoOf(u.inner, t)) == S.HeaderLines(InfoOf(h.inner, t)) &&
      UnserializeIntended(Serialize(u, t).value) == Success(u)
  {
    var d := Serialize(h, t).value;
    S.IntendedListsLinesOnce(d.content, d.info);
    S.IntendedRebuildStable(d.content, d.info);
  }
}
