/**
 * `Tracy\SharedTraceableHttpClient`: a decorator that gives each traced request
 * its own stopwatch and Symfony `TraceableHttpClient`, kept in two process-wide
 * registries. The registries are an explicit `Registry` value here.
 */
module Tracing {
  import opened Wrappers
  import opened Php
  import opened Keys
  import opened Clients

  /** A `StopwatchEvent`, by handle. */
  type Event = nat

  /** A stopwatch section and the events it holds, in order. */
  datatype Section = Section(events: seq<Event>)

  /** A `Stopwatch` and its sections, in order. */
  datatype Stopwatch = Stopwatch(sections: seq<Section>)

  /** A `TraceableHttpClient` around `inner`, timing into the stopwatch at index `stopwatch` of the registry. */
  datatype Traceable = Traceable(inner: Client, stopwatch: nat)

  /** The two static arrays `$stopwatches` and `$clients`. */
  datatype Registry = Registry(stopwatches: seq<Stopwatch>, clients: seq<Traceable>)

  /** Every traceable client times into the stopwatch created with it. */
  predicate Aligned(reg: Registry) {
    |reg.stopwatches| == |reg.clients| &&
    forall i :: 0 <= i < |reg.clients| ==> reg.clients[i].stopwatch == i
  }

  /** The registries when the process starts. */
  function EmptyRegistry(): (reg: Registry)
    ensures Aligned(reg) && |reg.clients| == 0
  {
    Registry([], [])
  }

  /** Whether `$options['extra']['trace'] ?? true` is exactly `false`. */
  predicate TraceOff(o: Options) {
    Extra in o && o[Extra].Arr? && ArrayGet(o[Extra].entries, StrKey("trace")) == Some(Bool(false))
  }

  /**
   * `$options['extra']['__ref'] = $ref`: null or false become an array, an
   * array gets the entry set, and any other value cannot take an offset.
   */
  function WithRef(o: Options, ref: nat): (r: Result<Options, Error>)
    ensures r.Success? <==> Extra !in o || o[Extra].Null? || o[Extra] == Bool(false) || o[Extra].Arr?
    ensures r.Success? ==> r.value.Keys == o.Keys + {Extra} && r.value[Extra].Arr?
    ensures r.Success? ==> forall k :: k in o && k != Extra ==> r.value[k] == o[k]
  {
    var extra := if Extra in o then o[Extra] else Null;
    match extra
    case Null => Success(o[Extra := Arr([Entry(StrKey("__ref"), Obj(ref, OtherClass))])])
    case Bool(false) => Success(o[Extra := Arr([Entry(StrKey("__ref"), Obj(ref, OtherClass))])])
    case Arr(es) => Success(o[Extra := Arr(ArraySet(es, StrKey("__ref"), Obj(ref, OtherClass)))])
    case _ => Failure(EngineError("Cannot use a scalar value as an array"))
  }

  /** The `extra` entries a request carried before `__ref` was added. */
  function ExtraEntries(o: Options): seq<Entry> {
    if Extra in o && o[Extra].Arr? then o[Extra].entries else []
  }

  /** `__ref` holds the reference object, and every other `extra` entry is kept. */
  lemma WithRefKeepsExtra(o: Options, ref: nat, k: Key)
    requires WithRef(o, ref).Success?
    ensures ArrayGet(WithRef(o, ref).value[Extra].entries, k) ==
      if k == StrKey("__ref") then Some(Obj(ref, OtherClass)) else ArrayGet(ExtraEntries(o), k)
  {
    if Extra in o && o[Extra].Arr? {
      ArraySetGet(o[Extra].entries, StrKey("__ref"), Obj(ref, OtherClass), k);
    } else {
      assert [Entry(StrKey("__ref"), Obj(ref, OtherClass))][1..] == [];
    }
  }

  /** Where a request goes: the client, the registry index of the traceable client if traced, and what is sent. */
  datatype Dispatch = Dispatch(client: Client, traced: Option<nat>, httpMethod: string, url: string, opts: Options)

  /**
   * `request` on a `SharedTraceableHttpClient` `c`. With tracing switched off
   * the inner client gets the request as it is; otherwise a stopwatch and a
   * traceable client are registered first, and the request goes through that
   * client with a reference object `ref` under `extra.__ref`.
   */
  function Request(c: Client, reg: Registry, httpMethod: string, url: string, o: Options, ref: nat): (r: (Registry, Result<Dispatch, Error>))
    requires c.SharedTraced?
    ensures TraceOff(o) ==> r.0 == reg && r.1 == Success(Dispatch(c.inner, None, httpMethod, url, o))
    ensures r.1.Success? && !TraceOff(o) ==> r.1.value.traced == Some(|reg.clients|)
  {
    if TraceOff(o) then (reg, Success(Dispatch(c.inner, None, httpMethod, url, o)))
    else
      var reg' := Registry(reg.stopwatches + [Stopwatch([])], reg.clients + [Traceable(c.inner, |reg.stopwatches|)]);
      var sent := WithRef(o, ref);
      if sent.Failure? then (reg', Failure(sent.error))
      else (reg', Success(Dispatch(c.inner, Some(|reg.clients|), httpMethod, url, sent.value)))
  }

  /**
   * A traced request adds exactly one stopwatch and one traceable client, keeps
   * every earlier entry, and the new client wraps the decorated client and times
   * into the new stopwatch.
   */
  lemma RequestRegisters(c: Client, reg: Registry, httpMethod: string, url: string, o: Options, ref: nat)
    requires c.SharedTraced? && Aligned(reg) && !TraceOff(o)
    ensures var reg' := Request(c, reg, httpMethod, url, o, ref).0;
      Aligned(reg') &&
      |reg'.clients| == |reg.clients| + 1 &&
      reg'.stopwatches[..|reg.stopwatches|] == reg.stopwatches &&
      reg'.clients[..|reg.clients|] == reg.clients &&
      reg'.clients[|reg.clients|].inner == c.inner
  {
  }

  /**
   * A traced request that goes out is sent by the newly registered client to
   * the decorated one, with the same method, URL and options apart from
   * `extra.__ref`.
   */
  lemma TracedDispatch(c: Client, reg: Registry, httpMethod: string, url: string, o: Options, ref: nat)
    requires c.SharedTraced? && Aligned(reg) && !TraceOff(o)
    requires Request(c, reg, httpMethod, url, o, ref).1.Success?
    ensures var (reg', d) := Request(c, reg, httpMethod, url, o, ref);
      d.value.traced == Some(|reg.clients|) && |reg.clients| < |reg'.clients| &&
      reg'.clients[|reg.clients|].inner == d.value.client && d.value.client == c.inner &&
      d.value.httpMethod == httpMethod && d.value.url == url &&
      d.value.opts == WithRef(o, ref).value
  {
  }

  /** Registration happens before the reference is set, so a failing request still leaves its registry entries. */
  lemma FailureStillRegisters(c: Client, reg: Registry, httpMethod: string, url: string, o: Options, ref: nat)
    requires c.SharedTraced? && !TraceOff(o) && Extra in o && o[Extra].Int?
    ensures Request(c, reg, httpMethod, url, o, ref).1.Failure?
    ensures |Request(c, reg, httpMethod, url, o, ref).0.clients| == |reg.clients| + 1
  {
  }

  // ---------------------------------------------------------------------------
  // stream

  /** `stream`: the stream client is created on first use only; the flag says whether this call created it. */
  function Stream(c: Client): (r: (Client, bool))
    requires c.SharedTraced?
    ensures r.0.SharedTraced? && r.0.inner == c.inner && r.0.streamOpen
    ensures r.1 <==> !c.streamOpen
  {
    (SharedTraced(c.inner, true), !c.streamOpen)
  }

  /** `stream` called `n` times in a row; the count is how many stream clients were created. */
  function StreamTimes(c: Client, n: nat): (r: (Client, nat))
    requires c.SharedTraced?
    ensures r.0.SharedTraced? && r.0.inner == c.inner
    decreases n
  {
    if n == 0 then (c, 0)
    else
      var (c', made) := Stream(c);
      var (c'', more) := StreamTimes(c', n - 1);
      (c'', more + if made then 1 else 0)
  }

  /** However often `stream` is called, an instance creates at most one stream client. */
  lemma {:induction false} AtMostOneStreamClient(c: Client, n: nat)
    requires c.SharedTraced?
    ensures StreamTimes(c, n).1 <= 1
    ensures c.streamOpen ==> StreamTimes(c, n).1 == 0
    decreases n
  {
    if n > 0 {
      AtMostOneStreamClient(Stream(c).0, n - 1);
    }
  }

  /** `withOptions` drops the stream client, so the copy's first `stream` creates its own. */
  lemma WithOptionsThenStream(c: Client, o: Options)
    requires c.SharedTraced? && WithOptions(c, o).Success?
    ensures WithOptions(c, o).value.SharedTraced?
    ensures Stream(WithOptions(c, o).value).1
  {
  }

  /** `withOptions` reconfigures the decorated client and nothing else. */
  lemma TracedWithOptions(c: Client, o: Options)
    requires c.SharedTraced?
    ensures WithOptions(c, o).Success? <==> WithOptions(c.inner, o).Success?
    ensures WithOptions(c, o).Success? ==> WithOptions(c, o).value == SharedTraced(WithOptions(c.inner, o).value, false)
  {
  }

  // ---------------------------------------------------------------------------
  // getEvents

  /** The events of some sections, section by section. */
  function SectionEvents(sections: seq<Section>): seq<Event>
    decreases |sections|
  {
    if |sections| == 0 then [] else SectionEvents(sections[..|sections| - 1]) + sections[|sections| - 1].events
  }

  /** The events of some stopwatches, stopwatch by stopwatch. */
  function StopwatchEvents(sws: seq<Stopwatch>): seq<Event>
    decreases |sws|
  {
    if |sws| == 0 then [] else StopwatchEvents(sws[..|sws| - 1]) + SectionEvents(sws[|sws| - 1].sections)
  }

  /** Registering more stopwatches appends their events after the earlier ones. */
  lemma {:induction false} StopwatchEventsAppend(a: seq<Stopwatch>, b: seq<Stopwatch>)
    ensures StopwatchEvents(a + b) == StopwatchEvents(a) + StopwatchEvents(b)
    decreases |b|
  {
    if |b| == 0 {
      assert a + b == a;
    } else {
      var b' := b[..|b| - 1];
      assert (a + b)[..|a + b| - 1] == a + b';
      StopwatchEventsAppend(a, b');
    }
  }

  /** A request registers an empty stopwatch, so the events recorded so far stay as they are. */
  lemma RequestKeepsEvents(c: Client, reg: Registry, httpMethod: string, url: string, o: Options, ref: nat)
    requires c.SharedTraced?
    ensures StopwatchEvents(Request(c, reg, httpMethod, url, o, ref).0.stopwatches) == StopwatchEvents(reg.stopwatches)
  {
    if !TraceOff(o) {
      StopwatchEventsAppend(reg.stopwatches, [Stopwatch([])]);
      assert [Stopwatch([])][..0] == [];
    }
  }

  /** Appends the events of one section, one by one. */
  method AppendEvents(acc: seq<Event>, evs: seq<Event>) returns (events: seq<Event>)
    ensures events == acc + evs
  {
    events := acc;
    var k := 0;
    while k < |evs|
      invariant 0 <= k <= |evs|
      invariant events == acc + evs[..k]
    {
      events := events + [evs[k]];
      assert evs[..k + 1] == evs[..k] + [evs[k]];
      k := k + 1;
    }
    assert evs[..k] == evs;
  }

  /** Appends the events of one stopwatch, section by section. */
  method AppendSections(acc: seq<Event>, sections: seq<Section>) returns (events: seq<Event>)
    ensures events == acc + SectionEvents(sections)
  {
    events := acc;
    var j := 0;
    while j < |sections|
      invariant 0 <= j <= |sections|
      invariant events == acc + SectionEvents(sections[..j])
    {
      events := AppendEvents(events, sections[j].events);
      assert sections[..j + 1][..j] == sections[..j];
      j := j + 1;
    }
    assert sections[..j] == sections;
  }

  /** `getEvents`: every event of every section of every registered stopwatch, in that order. */
  method GetEvents(reg: Registry) returns (events: seq<Event>)
    ensures events == StopwatchEvents(reg.stopwatches)
  {
    var sws := reg.stopwatches;
    events := [];
    var i := 0;
    while i < |sws|
      invariant 0 <= i <= |sws|
      invariant events == StopwatchEvents(sws[..i])
    {
      events := AppendSections(events, sws[i].sections);
      assert sws[..i + 1][..i] == sws[..i];
      i := i + 1;
    }
    assert sws[..i] == sws;
  }
}
