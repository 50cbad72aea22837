/**
 `FetchODataClient`: the retained default configuration, the two hook
 registries, and the verb operations that send a layered request and map what
 comes back. The network call is the `reply` argument each operation is given.
 */
module Client {
  import opened Wrappers
  import opened HeaderNames
  import opened RequestConfig
  import opened ResponseMapping

  /** An opaque reference to a caller's hook function. */
  type HandlerId = nat

  /** An opaque reference to an object a hook is bound to. */
  type ContextId = nat

  /** A stored before-request hook: the caller's function, bound to a context object when one was given. */
  datatype BeforeRequestHandler = BeforeRequestHandler(handler: HandlerId, boundTo: Option<ContextId>)

  /** A stored after-response hook. */
  datatype AfterResponseHandler = AfterResponseHandler(handler: HandlerId)

  /**
   One mapped call: the URL and request the network call received (`None` when
   building the request threw, so that no call was made), the hooks run before
   it (each given the URL and that request) and after it (each given a copy of
   the response), and what the call returns or throws.
   */
  datatype Exchange<D> = Exchange(
    url: string,
    sent: Option<RequestInit>,
    beforeHooks: seq<BeforeRequestHandler>,
    afterHooks: seq<AfterResponseHandler>,
    outcome: Result<Envelope<D>, ClientError>)

  /** One raw `fetch` call: as `Exchange`, with the unmapped reply and no after-response hooks. */
  datatype RawExchange = RawExchange(
    url: string,
    sent: RequestInit,
    beforeHooks: seq<BeforeRequestHandler>,
    reply: NetworkReply)

  class FetchODataClient<P, D> {
    var fetchRequestConfig: RequestInit
    var beforeRequestHandlers: seq<BeforeRequestHandler>
    var afterResponseHandlers: seq<AfterResponseHandler>
    /** How payloads of type `P` are serialized and bodies parsed into `D` (`JSON.stringify`, `response.json()`). */
    const codec: Codec<P, D>

    /**
     `x` is the call that sends `sent` to `url`: every before-request hook runs,
     in registration order, then the reply is mapped.
     */
    ghost predicate Performed(x: Exchange<D>, url: string, sent: RequestInit, reply: NetworkReply)
      reads this
    {
      && x.url == url
      && x.sent == Some(sent)
      && x.beforeHooks == beforeRequestHandlers
      && x.afterHooks == AfterHooksRun(afterResponseHandlers, reply)
      && x.outcome == ResponseOutcome(codec.parse, reply)
    }

    /**
     `x` is a writing verb's call: when the payload cannot be serialized the error
     is thrown before any hook runs or any request is sent; otherwise the call
     sends the verb's request with the serialized body.
     */
    ghost predicate PerformedWrite(x: Exchange<D>, url: string, verb: string, data: P,
                                   requestConfig: Option<RequestInit>, reply: NetworkReply)
      reads this
    {
      match codec.stringify(data)
      case Failure(e) => x == Exchange(url, None, [], [], Failure(SerializeError(e)))
      case Success(body) => Performed(x, url, WriteRequest(fetchRequestConfig, requestConfig, verb, body), reply)
    }

    /** Retains `DEFAULT_CONFIG` overlaid by the caller's configuration; both registries start empty. */
    constructor (fetchRequestConfig: Option<RequestInit>, codec: Codec<P, D>)
      ensures this.fetchRequestConfig == InitialConfig(fetchRequestConfig)
      ensures beforeRequestHandlers == [] && afterResponseHandlers == []
      ensures this.codec == codec
    {
      this.fetchRequestConfig := Layer(DefaultConfig, Given(fetchRequestConfig));
      this.codec := codec;
      beforeRequestHandlers := [];
      afterResponseHandlers := [];
    }

    /** Appends one before-request hook, bound to `contextObject` when that is given (truthy). */
    method AddBeforeRequestHandler(handler: HandlerId, contextObject: Option<ContextId>)
      modifies this`beforeRequestHandlers
      ensures beforeRequestHandlers == old(beforeRequestHandlers) + [BeforeRequestHandler(handler, contextObject)]
      ensures afterResponseHandlers == old(afterResponseHandlers)
      ensures fetchRequestConfig == old(fetchRequestConfig)
    {
      var stored := BeforeRequestHandler(handler, None);
      if contextObject.Some? {
        stored := stored.(boundTo := contextObject);
      }
      beforeRequestHandlers := beforeRequestHandlers + [stored];
    }

    /** Appends one after-response hook. */
    method AddAfterResponseHandler(handler: HandlerId)
      modifies this`afterResponseHandlers
      ensures afterResponseHandlers == old(afterResponseHandlers) + [AfterResponseHandler(handler)]
      ensures beforeRequestHandlers == old(beforeRequestHandlers)
      ensures fetchRequestConfig == old(fetchRequestConfig)
    {
      afterResponseHandlers := afterResponseHandlers + [AfterResponseHandler(handler)];
    }

    /**
     `mapResponse`: a rejection or a non-ok status is thrown with no hook run;
     otherwise every after-response hook runs, the header names are lower-cased
     into a dictionary, and the body is parsed unless `content-length` is `"0"`.
     */
    method MapResponse(reply: NetworkReply) returns (ran: seq<AfterResponseHandler>, outcome: Result<Envelope<D>, ClientError>)
      ensures ran == AfterHooksRun(afterResponseHandlers, reply)
      ensures outcome == ResponseOutcome(codec.parse, reply)
    {
      if reply.Rejected? {
        return [], Failure(TransportFailure(reply.reason));
      }
      var response := reply.response;
      if !IsOk(response.status) {
        return [], Failure(HttpError(ErrorMessage(response)));
      }
      ran := afterResponseHandlers;

      var headers: map<string, string> := map[];
      var i := 0;
      while i < |response.headerPairs|
        invariant 0 <= i <= |response.headerPairs|
        invariant headers == LowerCaseHeaders(response.headerPairs[..i])
      {
        var (key, value) := response.headerPairs[i];
        assert response.headerPairs[..i + 1][..i] == response.headerPairs[..i];
        // assigning `__proto__` on a plain object stores no entry
        if Lower(key) != ProtoKey {
          headers := headers[Lower(key) := value];
        }
        i := i + 1;
      }
      assert response.headerPairs[..i] == response.headerPairs;

      if "content-length" in headers && headers["content-length"] == "0" {
        outcome := Success(Envelope(None, headers, response.status, response.statusText));
      } else {
        var parsed := codec.parse(response.bodyText);
        match parsed
        case Success(data) =>
          outcome := Success(Envelope(Some(data), headers, response.status, response.statusText));
        case Failure(e) =>
          outcome := Failure(ParseError(e));
      }
    }

    /** The raw escape hatch: no method or body injected, the reply returned unmapped, no after-response hook. */
    method Fetch(url: string, requestConfig: Option<RequestInit>, reply: NetworkReply) returns (x: RawExchange)
      ensures x.url == url && x.reply == reply
      ensures x.sent == EffectiveConfig(fetchRequestConfig, requestConfig)
      ensures x.beforeHooks == beforeRequestHandlers
    {
      var config := EffectiveConfig(fetchRequestConfig, requestConfig);
      x := RawExchange(url, config, beforeRequestHandlers, reply);
    }

    method Post(url: string, data: P, requestConfig: Option<RequestInit>, reply: NetworkReply) returns (x: Exchange<D>)
      ensures PerformedWrite(x, url, "POST", data, requestConfig, reply)
    {
      var serialized := codec.stringify(data);
      if serialized.Failure? {
        return Exchange(url, None, [], [], Failure(SerializeError(serialized.error)));
      }
      var config := WriteRequest(fetchRequestConfig, requestConfig, "POST", serialized.value);
      var ran, outcome := MapResponse(reply);
      x := Exchange(url, Some(config), beforeRequestHandlers, ran, outcome);
    }

    method Get(url: string, requestConfig: Option<RequestInit>, reply: NetworkReply) returns (x: Exchange<D>)
      ensures Performed(x, url, ReadRequest(fetchRequestConfig, requestConfig, "GET"), reply)
    {
      var config := ReadRequest(fetchRequestConfig, requestConfig, "GET");
      var ran, outcome := MapResponse(reply);
      x := Exchange(url, Some(config), beforeRequestHandlers, ran, outcome);
    }

    method Put(url: string, data: P, requestConfig: Option<RequestInit>, reply: NetworkReply) returns (x: Exchange<D>)
      ensures PerformedWrite(x, url, "PUT", data, requestConfig, reply)
    {
      var serialized := codec.stringify(data);
      if serialized.Failure? {
        return Exchange(url, None, [], [], Failure(SerializeError(serialized.error)));
      }
      var config := WriteRequest(fetchRequestConfig, requestConfig, "PUT", serialized.value);
      var ran, outcome := MapResponse(reply);
      x := Exchange(url, Some(config), beforeRequestHandlers, ran, outcome);
    }

    method Patch(url: string, data: P, requestConfig: Option<RequestInit>, reply: NetworkReply) returns (x: Exchange<D>)
      ensures PerformedWrite(x, url, "PATCH", data, requestConfig, reply)
    {
      var serialized := codec.stringify(data);
      if serialized.Failure? {
        return Exchange(url, None, [], [], Failure(SerializeError(serialized.error)));
      }
      var config := WriteRequest(fetchRequestConfig, requestConfig, "PATCH", serialized.value);
      var ran, outcome := MapResponse(reply);
      x := Exchange(url, Some(config), beforeRequestHandlers, ran, outcome);
    }

    /** `merge` forwards to `patch` with the same arguments. */
    method Merge(url: string, data: P, requestConfig: Option<RequestInit>, reply: NetworkReply) returns (x: Exchange<D>)
      ensures PerformedWrite(x, url, "PATCH", data, requestConfig, reply)
    {
      x := Patch(url, data, requestConfig, reply);
    }

    method Delete(url: string, requestConfig: Option<RequestInit>, reply: NetworkReply) returns (x: Exchange<D>)
      ensures Performed(x, url, ReadRequest(fetchRequestConfig, requestConfig, "DELETE"), reply)
    {
      var config := ReadRequest(fetchRequestConfig, requestConfig, "DELETE");
      var ran, outcome := MapResponse(reply);
      x := Exchange(url, Some(config), beforeRequestHandlers, ran, outcome);
    }
  }
}
