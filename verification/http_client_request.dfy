/**
 * `HttpClientRequest`: a request DTO holding the method, the URL, an optional
 * form payload and the same thirty typed properties as `HttpOptions`.
 */
module HttpClientRequest {
  import opened Wrappers
  import opened Php
  import opened Keys
  import SslContext
  import HttpOptions

  datatype HttpClientRequest = HttpClientRequest(
    httpMethod: string,
    url: string,
    formBody: Option<seq<Entry>>,
    opts: HttpOptions.HttpOptions)

  predicate Valid(r: HttpClientRequest) {
    HttpOptions.Valid(r.opts)
  }

  /** `new HttpClientRequest()`. */
  function Default(): (r: HttpClientRequest)
    ensures Valid(r)
  {
    HttpClientRequest("GET", "", None, HttpOptions.Default())
  }

  /** `$this->body ?? $this->formBody`. */
  function BodyOption(r: HttpClientRequest): (v: Value)
    requires Valid(r)
    ensures r.opts.props[Body] != Null ==> v == r.opts.props[Body]
    ensures r.opts.props[Body] == Null ==> v == SslContext.OptArr(r.formBody)
  {
    Coalesce(r.opts.props, Body, SslContext.OptArr(r.formBody))
  }

  /**
   * `HttpClientRequest::toOptionsArray`: the non-null properties under their option
   * names, with `body` falling back to the form payload.
   */
  function ToOptionsArray(r: HttpClientRequest): (m: Options)
    requires Valid(r)
    ensures forall k :: k in m <==> k in RequestKeys && r.opts.props[Body := BodyOption(r)][k] != Null
    ensures forall k :: k in m ==> m[k] == r.opts.props[Body := BodyOption(r)][k]
  {
    FilterNull(r.opts.props[Body := BodyOption(r)])
  }

  /** Away from `body`, the options array is `HttpOptions::toArray` of the same properties. */
  lemma AgreesWithHttpOptions(r: HttpClientRequest, k: Opt)
    requires Valid(r) && k != Body
    ensures k in ToOptionsArray(r) <==> k in HttpOptions.ToArray(r.opts)
    ensures k in ToOptionsArray(r) ==> ToOptionsArray(r)[k] == HttpOptions.ToArray(r.opts)[k]
  {
  }

  /**
   * `body` is present when the body or the form payload is set; the body wins
   * when both are, and the form payload is sent as an array otherwise.
   */
  lemma BodyOrForm(r: HttpClientRequest)
    requires Valid(r)
    ensures Body in ToOptionsArray(r) <==> r.opts.props[Body] != Null || r.formBody.Some?
    ensures r.opts.props[Body] != Null ==> ToOptionsArray(r)[Body] == r.opts.props[Body]
    ensures r.opts.props[Body] == Null && r.formBody.Some? ==> ToOptionsArray(r)[Body] == Arr(r.formBody.value)
  {
  }

  /** `json` is present exactly when the JSON body is set. */
  lemma JsonIffSet(r: HttpClientRequest)
    requires Valid(r)
    ensures Json in ToOptionsArray(r) <==> r.opts.props[Json] != Null
  {
  }

  /** Neither the method nor the URL is an option: every key is one of the thirty request options. */
  lemma MethodAndUrlStayOut(r: HttpClientRequest, k: Opt)
    requires Valid(r) && k in ToOptionsArray(r)
    ensures k in RequestKeys && Name(k) != "method" && Name(k) != "url"
  {
    RequestNamesExcludeMethodAndUrl(k);
  }

  /** A default request is a GET of the empty URL whose options are those of `new HttpOptions()`. */
  lemma DefaultRequest()
    ensures Default().httpMethod == "GET" && Default().url == ""
    ensures ToOptionsArray(Default()) == HttpOptions.ToArray(HttpOptions.Default())
  {
    var r := Default();
    HttpOptions.DefaultProps(Body);
    assert BodyOption(r) == Null;
    assert r.opts.props[Body := BodyOption(r)] == r.opts.props;
    forall k
      ensures (k in ToOptionsArray(r) <==> k in HttpOptions.ToArray(r.opts))
    {
    }
    MapExt(ToOptionsArray(r), HttpOptions.ToArray(r.opts));
  }
}
