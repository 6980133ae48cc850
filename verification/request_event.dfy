/**
 * `RequestEvent` and `HttpClientMiddleware`: a request passed down a list of
 * middlewares before it reaches the client. The event's cursor is the array's
 * internal cursor; it advances before a middleware runs, so a middleware that
 * calls `handle` again reaches the next one, and the client once all are used.
 */
module RequestEvents {
  import opened Keys
  import Req = HttpClientRequest

  /**
   * What a middleware's `handle` does with the event. `Default` is
   * `HttpClientMiddleware::handle`; the others stand for overriding subclasses
   * that answer on their own or pass the event on `1 + again` times.
   */
  datatype Middleware = Default | Respond(response: nat) | Repeat(again: nat)

  /** A response: the client's answer to a request, or one a middleware made up. */
  datatype Response =
    | ClientResponse(client: nat, httpMethod: string, url: string, opts: Options)
    | OwnResponse(response: nat)

  /** What happened during a `handle`: a middleware ran, or the client was called. */
  datatype Step = Invoked(index: nat) | Sent

  datatype Event = Event(client: nat, middlewares: seq<Middleware>, cursor: nat, request: Req.HttpClientRequest)

  predicate Valid(e: Event) {
    e.cursor <= |e.middlewares| && Req.Valid(e.request)
  }

  /** `new RequestEvent($client, $middlewares, $request)`: the cursor starts at the first middleware. */
  function NewEvent(client: nat, middlewares: seq<Middleware>, request: Req.HttpClientRequest): (e: Event)
    requires Req.Valid(request)
    ensures Valid(e) && e.cursor == 0 && GetRequest(e) == request
  {
    Event(client, middlewares, 0, request)
  }

  /** `getRequest`. */
  function GetRequest(e: Event): Req.HttpClientRequest {
    e.request
  }

  /** `$this->client->request($req->method, $req->url, $req->toOptionsArray())`. */
  function Send(e: Event): (r: Response)
    requires Valid(e)
    ensures r.ClientResponse? && r.client == e.client && r.opts == Req.ToOptionsArray(e.request)
    ensures r.httpMethod == e.request.httpMethod && r.url == e.request.url
  {
    ClientResponse(e.client, e.request.httpMethod, e.request.url, Req.ToOptionsArray(e.request))
  }

  /** The event after a call, the response, and the steps taken. */
  datatype Outcome = Outcome(event: Event, response: Response, steps: seq<Step>)

  /** Everything but the cursor is as it was. */
  predicate SameEvent(a: Event, b: Event) {
    a.client == b.client && a.middlewares == b.middlewares && a.request == b.request
  }

  /** The middlewares run are listed in ascending order, each from `lo` up to but excluding `hi`. */
  predicate InvokedWithin(steps: seq<Step>, lo: nat, hi: nat) {
    (forall i :: 0 <= i < |steps| && steps[i].Invoked? ==> lo <= steps[i].index < hi) &&
    (forall i, j :: 0 <= i < j < |steps| && steps[i].Invoked? && steps[j].Invoked? ==> steps[i].index < steps[j].index)
  }

  /**
   * `RequestEvent::handle`: the middleware under the cursor runs after the
   * cursor moves on; with none left, the client is called. However the
   * middlewares re-enter, each one runs at most once, in array order.
   */
  function Handle(e: Event): (r: Outcome)
    requires Valid(e)
    ensures Valid(r.event) && SameEvent(r.event, e) && e.cursor <= r.event.cursor
    ensures InvokedWithin(r.steps, e.cursor, r.event.cursor)
    decreases |e.middlewares| - e.cursor, 2, 0
  {
    if e.cursor < |e.middlewares| then
      var i := e.cursor;
      var r := MiddlewareHandle(e.middlewares[i], e.(cursor := i + 1));
      Outcome(r.event, r.response, [Invoked(i)] + r.steps)
    else
      Outcome(e, Send(e), [Sent])
  }

  /** A middleware's `handle($event)`, run with the cursor already past it. */
  function MiddlewareHandle(m: Middleware, e: Event): (r: Outcome)
    requires Valid(e) && e.cursor > 0
    ensures Valid(r.event) && SameEvent(r.event, e) && e.cursor <= r.event.cursor
    ensures InvokedWithin(r.steps, e.cursor, r.event.cursor)
    decreases |e.middlewares| - e.cursor + 1, 1, 0
  {
    match m
    case Default => Handle(e)
    case Respond(response) => Outcome(e, OwnResponse(response), [])
    case Repeat(again) => HandleTimes(e, again + 1)
  }

  /** `$event->handle()` called `n` times in a row; the last response is returned. */
  function HandleTimes(e: Event, n: nat): (r: Outcome)
    requires Valid(e) && n > 0
    ensures Valid(r.event) && SameEvent(r.event, e) && e.cursor <= r.event.cursor
    ensures InvokedWithin(r.steps, e.cursor, r.event.cursor)
    decreases |e.middlewares| - e.cursor + 1, 0, n
  {
    var first := Handle(e);
    if n == 1 then first
    else
      var rest := HandleTimes(first.event, n - 1);
      Outcome(rest.event, rest.response, first.steps + rest.steps)
  }

  /** With no middlewares, `handle` sends the request to the client once. */
  lemma NoMiddlewares(client: nat, request: Req.HttpClientRequest)
    requires Req.Valid(request)
    ensures var r := Handle(NewEvent(client, [], request));
      r.response == ClientResponse(client, request.httpMethod, request.url, Req.ToOptionsArray(request)) &&
      r.steps == [Sent]
  {
  }

  /** Once the cursor is past the last middleware, every `handle` goes to the client and changes nothing. */
  lemma ExhaustedGoesToClient(e: Event)
    requires Valid(e) && e.cursor == |e.middlewares|
    ensures Handle(e) == Outcome(e, Send(e), [Sent])
    ensures Handle(Handle(e).event) == Handle(e)
  {
  }

  /** The steps of a chain of default middlewares from index `lo`: each runs in turn, then the client. */
  function PassThrough(lo: nat, hi: nat): (steps: seq<Step>)
    requires lo <= hi
    ensures |steps| == hi - lo + 1 && steps[hi - lo] == Sent
    ensures forall i :: 0 <= i < hi - lo ==> steps[i] == Invoked(lo + i)
    decreases hi - lo
  {
    if lo == hi then [Sent] else [Invoked(lo)] + PassThrough(lo + 1, hi)
  }

  /**
   * From any position in a chain of default middlewares, `handle` runs each of
   * the remaining ones once, in order, and ends in one client call with the
   * event's method, URL and options.
   */
  lemma {:induction false} DefaultsPassThrough(e: Event)
    requires Valid(e)
    requires forall i :: e.cursor <= i < |e.middlewares| ==> e.middlewares[i] == Default
    ensures Handle(e) == Outcome(e.(cursor := |e.middlewares|), Send(e), PassThrough(e.cursor, |e.middlewares|))
    decreases |e.middlewares| - e.cursor
  {
    if e.cursor < |e.middlewares| {
      var e1 := e.(cursor := e.cursor + 1);
      DefaultsPassThrough(e1);
      assert MiddlewareHandle(Default, e1) == Handle(e1);
      assert Send(e1) == Send(e);
      assert e1.(cursor := |e.middlewares|) == e.(cursor := |e.middlewares|);
      assert PassThrough(e.cursor, |e.middlewares|) == [Invoked(e.cursor)] + PassThrough(e1.cursor, |e.middlewares|);
    }
  }

  /** A chain of default middlewares answers exactly as an empty chain does. */
  lemma DefaultsAsEmpty(client: nat, n: nat, request: Req.HttpClientRequest)
    requires Req.Valid(request)
    ensures Handle(NewEvent(client, seq(n, _ => Default), request)).response == Handle(NewEvent(client, [], request)).response
  {
    DefaultsPassThrough(NewEvent(client, seq(n, _ => Default), request));
  }

  /** A middleware that answers on its own stops the chain: the client is not called and no later middleware runs. */
  lemma RespondStops(e: Event, response: nat)
    requires Valid(e) && e.cursor < |e.middlewares| && e.middlewares[e.cursor] == Respond(response)
    ensures Handle(e) == Outcome(e.(cursor := e.cursor + 1), OwnResponse(response), [Invoked(e.cursor)])
  {
  }
}
