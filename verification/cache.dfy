/**
 * `Cache\CachedHttpClient` and `Cache\CachedHttpResponse`: requests without a
 * body are answered from a cache when a snapshot is stored, and otherwise
 * snapshot the live response the first time it is read.
 *
 * The cache storage is a map from slots (a namespace path and a key) to stored
 * snapshots. The md5 of a request's description is modelled as injective: the
 * namespace part holds the description itself.
 */
module Cache {
  import opened Wrappers
  import opened Php
  import opened Keys

  /** What `md5("$method $url " . serialize($options))` hashes: the text and the options. */
  datatype Fingerprint = Fingerprint(text: string, options: Options)

  /** One level of a namespace: a `derive`d name, or a request's hash. */
  datatype NsPart = Name(name: string) | Hash(fingerprint: Fingerprint)

  datatype Slot = Slot(namespace: seq<NsPart>, key: string)

  /** A `MockResponse` made from a live response's content and info. */
  datatype Snapshot = Snapshot(content: string, info: seq<Entry>)

  type Store = map<Slot, Snapshot>

  /** `CachedHttpResponse::CACHE_KEY`. */
  const CacheKey: string := "response"

  /** The sub-namespace every entry lives under. */
  const ClientNamespace: string := "http-client"

  datatype CachedClient = CachedClient(namespace: seq<NsPart>, client: nat)

  /** `new CachedHttpClient($cache, $client)`: the cache is derived into the `http-client` namespace. */
  function NewCachedClient(base: seq<NsPart>, client: nat): (c: CachedClient)
    ensures c.namespace == base + [Name(ClientNamespace)] && c.client == client
  {
    CachedClient(base + [Name(ClientNamespace)], client)
  }

  function FingerprintOf(httpMethod: string, url: string, o: Options): Fingerprint {
    Fingerprint(httpMethod + " " + url + " ", o)
  }

  /** The namespace a request's snapshot is stored in. */
  function RequestNamespace(c: CachedClient, httpMethod: string, url: string, o: Options): (ns: seq<NsPart>)
    ensures |ns| == |c.namespace| + 1 && ns[..|c.namespace|] == c.namespace
  {
    c.namespace + [Hash(FingerprintOf(httpMethod, url, o))]
  }

  /** What a `CachedHttpResponse` currently wraps: the live response, or the snapshot taken from it. */
  datatype Current = LiveResponse(handle: nat) | Mock(snapshot: Snapshot)

  /** A `CachedHttpResponse`; it has saved exactly when it holds a snapshot. */
  datatype CachedResponse = CachedResponse(namespace: seq<NsPart>, current: Current)

  predicate Saved(r: CachedResponse) {
    r.current.Mock?
  }

  /** What `request` returns: the inner client's response, a stored snapshot, or a new caching wrapper. */
  datatype Reply = Direct(handle: nat) | Hit(snapshot: Snapshot) | Miss(response: CachedResponse)

  /**
   * `CachedHttpClient::request`, where `sent` is the response the inner client
   * gives if asked. A request whose body is not `empty()` bypasses the cache;
   * otherwise a stored snapshot is returned, and on a miss the inner response
   * is wrapped. The storage is only read.
   */
  function Request(c: CachedClient, store: Store, httpMethod: string, url: string, o: Options, sent: nat): (r: Reply)
    ensures r.Direct? <==> !EmptyAt(o, Body)
    ensures r.Direct? ==> r == Direct(sent)
    ensures r.Miss? ==> r.response.current == LiveResponse(sent)
  {
    if !EmptyAt(o, Body) then Direct(sent)
    else
      var ns := RequestNamespace(c, httpMethod, url, o);
      var slot := Slot(ns, CacheKey);
      if slot in store then Hit(store[slot])
      else Miss(CachedResponse(ns, LiveResponse(sent)))
  }

  /** Without a body to bypass on, a request hits exactly when its slot holds a snapshot, and gets that snapshot. */
  lemma HitIffStored(c: CachedClient, store: Store, httpMethod: string, url: string, o: Options, sent: nat)
    requires EmptyAt(o, Body)
    ensures var slot := Slot(RequestNamespace(c, httpMethod, url, o), CacheKey);
      (Request(c, store, httpMethod, url, o, sent).Hit? <==> slot in store) &&
      (slot in store ==> Request(c, store, httpMethod, url, o, sent) == Hit(store[slot]))
  {
  }

  /** A miss wraps the inner response, unsaved, under the request's own namespace. */
  lemma MissWraps(c: CachedClient, store: Store, httpMethod: string, url: string, o: Options, sent: nat)
    requires EmptyAt(o, Body) && Slot(RequestNamespace(c, httpMethod, url, o), CacheKey) !in store
    ensures Request(c, store, httpMethod, url, o, sent) == Miss(CachedResponse(RequestNamespace(c, httpMethod, url, o), LiveResponse(sent)))
    ensures !Saved(Request(c, store, httpMethod, url, o, sent).response)
  {
  }

  /** By `empty()`, a body of `"0"` counts as no body, so such a request is cached. */
  lemma ZeroBodyIsCached(c: CachedClient, store: Store, httpMethod: string, url: string, o: Options, sent: nat)
    requires Body in o && o[Body] == Str("0")
    ensures !Request(c, store, httpMethod, url, o, sent).Direct?
  {
  }

  /**
   * Two requests of one client share a namespace exactly when their options are
   * the same and their texts `"$method $url "` are: the method and URL count
   * only through that text.
   */
  lemma SharedNamespaceIffSameText(c: CachedClient, m1: string, u1: string, o1: Options, m2: string, u2: string, o2: Options)
    ensures RequestNamespace(c, m1, u1, o1) == RequestNamespace(c, m2, u2, o2) <==>
      m1 + " " + u1 + " " == m2 + " " + u2 + " " && o1 == o2
  {
    var n1 := RequestNamespace(c, m1, u1, o1);
    var n2 := RequestNamespace(c, m2, u2, o2);
    if n1 == n2 {
      assert n1[|c.namespace|] == n2[|c.namespace|];
    }
  }

  /** A space can move between the method and the URL without changing the slot. */
  lemma SpaceShiftsShareSlot(c: CachedClient, m1: string, u1: string, m2: string, u2: string, o: Options)
    requires m1 + " " + u1 + " " == m2 + " " + u2 + " "
    ensures RequestNamespace(c, m1, u1, o) == RequestNamespace(c, m2, u2, o)
  {
    SharedNamespaceIffSameText(c, m1, u1, o, m2, u2, o);
  }

  /** Example: `GET` of `a b` and `GET a` of `b` describe the same text, so they share a slot. */
  lemma SpaceShiftExample(c: CachedClient, o: Options)
    ensures RequestNamespace(c, "GET", "a b", o) == RequestNamespace(c, "GET a", "b", o)
  {
    assert "GET" + " " + "a b" + " " == "GET a" + " " + "b" + " ";
  }

  // ---------------------------------------------------------------------------
  // CachedHttpResponse

  /** What the transport's responses answer, by handle. */
  datatype Live = Live(content: nat -> Result<string, Error>, info: nat -> seq<Entry>)

  /**
   * `getResponse`: the first time, the live content and info become a
   * snapshot, saved under `response` in the response's namespace; after that
   * the snapshot is returned. Reading the live content may fail, and then
   * nothing changes.
   */
  function GetResponse(r: CachedResponse, store: Store, live: Live): (out: (CachedResponse, Store, Result<Snapshot, Error>))
    ensures Saved(r) ==> out == (r, store, Success(r.current.snapshot))
    ensures out.2.Failure? ==> out.0 == r && out.1 == store && !Saved(r)
    ensures out.2.Success? ==> Saved(out.0) && out.0.current.snapshot == out.2.value && out.0.namespace == r.namespace
  {
    match r.current
    case Mock(snapshot) => (r, store, Success(snapshot))
    case LiveResponse(handle) =>
      match live.content(handle)
      case Failure(e) => (r, store, Failure(e))
      case Success(content) =>
        var snapshot := Snapshot(content, live.info(handle));
        (CachedResponse(r.namespace, Mock(snapshot)), store[Slot(r.namespace, CacheKey) := snapshot], Success(snapshot))
  }

  /** The first successful read saves the live content and info, once, under the response's slot. */
  lemma FirstReadSaves(r: CachedResponse, store: Store, live: Live)
    requires r.current.LiveResponse? && live.content(r.current.handle).Success?
    ensures var (r', store', snapshot) := GetResponse(r, store, live);
      snapshot.Success? &&
      snapshot.value == Snapshot(live.content(r.current.handle).value, live.info(r.current.handle)) &&
      store' == store[Slot(r.namespace, CacheKey) := snapshot.value]
  {
  }

  /** The readers of a `CachedHttpResponse`. */
  datatype Reader = StatusCode | Headers | Content | ToArray | Info(infoType: Option<string>)

  /**
   * A reader: the content and info come from the snapshot; the status, headers
   * and decoded array are the mock response's, given by `mock`.
   */
  function Read(r: CachedResponse, store: Store, reader: Reader, live: Live, mock: (Snapshot, Reader) -> Result<Value, Error>): (out: (CachedResponse, Store, Result<Value, Error>))
    ensures var (r', store', _) := GetResponse(r, store, live); out.0 == r' && out.1 == store'
    ensures var snapshot := GetResponse(r, store, live).2;
      snapshot.Failure? ==> out.2 == Failure(snapshot.error)
    ensures var snapshot := GetResponse(r, store, live).2;
      snapshot.Success? && reader == Content ==> out.2 == Success(Str(snapshot.value.content))
    ensures var snapshot := GetResponse(r, store, live).2;
      snapshot.Success? && reader == Info(None) ==> out.2 == Success(Arr(snapshot.value.info))
    ensures var snapshot := GetResponse(r, store, live).2;
      snapshot.Success? && reader.Info? && reader.infoType.Some? ==>
        out.2 == Success(ArrayGet(snapshot.value.info, ArrayKey(reader.infoType.value)).GetOr(Null))
    ensures var snapshot := GetResponse(r, store, live).2;
      snapshot.Success? && !reader.Content? && !reader.Info? ==> out.2 == mock(snapshot.value, reader)
  {
    var (r', store', snapshot) := GetResponse(r, store, live);
    match snapshot
    case Failure(e) => (r', store', Failure(e))
    case Success(s) =>
      match reader
      case Content => (r', store', Success(Str(s.content)))
      case Info(None) => (r', store', Success(Arr(s.info)))
      case Info(Some(k)) => (r', store', Success(ArrayGet(s.info, ArrayKey(k)).GetOr(Null)))
      case _ => (r', store', mock(s, reader))
  }

  /** The content a cached response reads is the live response's content. */
  lemma ContentIsLive(r: CachedResponse, store: Store, live: Live, mock: (Snapshot, Reader) -> Result<Value, Error>)
    requires r.current.LiveResponse? && live.content(r.current.handle).Success?
    ensures Read(r, store, Content, live, mock).2 == Success(Str(live.content(r.current.handle).value))
  {
  }

  /** The info a cached response reads on its first read is the live response's info. */
  lemma InfoIsLive(r: CachedResponse, store: Store, live: Live, mock: (Snapshot, Reader) -> Result<Value, Error>)
    requires r.current.LiveResponse? && live.content(r.current.handle).Success?
    ensures Read(r, store, Info(None), live, mock).2 == Success(Arr(live.info(r.current.handle)))
  {
  }

  /** Once saved, readers answer from the snapshot: what the live response would say no longer matters. */
  lemma SavedIgnoresLive(r: CachedResponse, store: Store, reader: Reader, live: Live, live': Live, mock: (Snapshot, Reader) -> Result<Value, Error>)
    requires Saved(r)
    ensures Read(r, store, reader, live, mock) == Read(r, store, reader, live', mock)
    ensures Read(r, store, reader, live, mock).0 == r && Read(r, store, reader, live, mock).1 == store
  {
  }

  /**
   * The only entry a response from a cached client ever writes is its own
   * `response` slot, and that slot lies under the client's `http-client`
   * namespace.
   */
  lemma WritesUnderClientNamespace(base: seq<NsPart>, client: nat, store: Store, httpMethod: string, url: string, o: Options, sent: nat, live: Live)
    requires Request(NewCachedClient(base, client), store, httpMethod, url, o, sent).Miss?
    ensures var r := Request(NewCachedClient(base, client), store, httpMethod, url, o, sent).response;
      var ns := r.namespace;
      |ns| == |base| + 2 && ns[..|base| + 1] == base + [Name(ClientNamespace)] &&
      GetResponse(r, store, live).1.Keys <= store.Keys + {Slot(ns, CacheKey)}
  {
  }

  /** A run of readers; the count is how many of them saved a snapshot. */
  function ReadAll(r: CachedResponse, store: Store, readers: seq<Reader>, live: Live, mock: (Snapshot, Reader) -> Result<Value, Error>): (out: (CachedResponse, Store, nat))
    decreases |readers|
  {
    if |readers| == 0 then (r, store, 0)
    else
      var (r', store', _) := Read(r, store, readers[0], live, mock);
      var (r'', store'', saves) := ReadAll(r', store', readers[1..], live, mock);
      (r'', store'', saves + if Saved(r') && !Saved(r) then 1 else 0)
  }

  /** However many readers run, a cached response saves at most once, and never again once saved. */
  lemma {:induction false} AtMostOneSave(r: CachedResponse, store: Store, readers: seq<Reader>, live: Live, mock: (Snapshot, Reader) -> Result<Value, Error>)
    ensures ReadAll(r, store, readers, live, mock).2 <= 1
    ensures Saved(r) ==> ReadAll(r, store, readers, live, mock) == (r, store, 0)
    decreases |readers|
  {
    if |readers| > 0 {
      var (r', store', _) := Read(r, store, readers[0], live, mock);
      AtMostOneSave(r', store', readers[1..], live, mock);
    }
  }

  /** `cancel` forwards to whatever is wrapped now, without taking a snapshot or saving. */
  function Cancel(r: CachedResponse): (out: (CachedResponse, Current))
    ensures out.0 == r && out.1 == r.current
  {
    (r, r.current)
  }
}
