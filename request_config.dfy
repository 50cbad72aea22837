/**
 Request configuration and its layering: the default retained by the client
 (`DEFAULT_CONFIG` overlaid by the constructor's argument) and the request each
 call sends (that default overlaid by the per-call argument, with the method,
 and for writing verbs the body, written last).
 */
module RequestConfig {
  import opened Wrappers

  /** Header name to value; names are compared exactly, case included. */
  type HeaderMap = map<string, string>

  /**
   A `RequestInit`: the options the client reads or writes by name, and every
   other option (`mode`, `cache`, `redirect`, `signal`, ...) by key with an opaque value.
   A field that is `None` is a key the object does not have.
   */
  datatype RequestInit = RequestInit(
    credentials: Option<string>,
    headers: HeaderMap,
    httpMethod: Option<string>,
    body: Option<string>,
    others: map<string, string>)

  /** The option names the record has fields for; `others` holds every other name. */
  const NamedOptions: set<string> := {"credentials", "headers", "method", "body"}

  /** The record stands for a JavaScript object: no named option is also among `others`. */
  ghost predicate WellFormed(c: RequestInit) {
    c.others.Keys !! NamedOptions
  }

  /** A configuration with no keys: what an omitted argument contributes to a spread. */
  const NoConfig := RequestInit(None, map[], None, None, map[])

  /** `DEFAULT_CONFIG`: credentials included, JSON accepted and sent. */
  const DefaultConfig := RequestInit(
    Some("include"),
    map["Accept" := "application/json", "Content-Type" := "application/json"],
    None, None, map[])

  /** An optional argument as a spread sees it: `...undefined` adds nothing. */
  function Given(c: Option<RequestInit>): RequestInit {
    c.GetOr(NoConfig)
  }

  /** `r` is `{ ...base, ...over }` for dictionaries: every key of either, `over` winning. */
  ghost predicate Overlaid(base: map<string, string>, over: map<string, string>, r: map<string, string>) {
    && r.Keys == base.Keys + over.Keys
    && (forall k :: k in over ==> r[k] == over[k])
    && (forall k :: k in base && k !in over ==> r[k] == base[k])
  }

  /** A single option after a spread: the overriding object's key if it has one. */
  ghost predicate Replaced(base: Option<string>, over: Option<string>, r: Option<string>) {
    r == if over.Some? then over else base
  }

  /**
   `r` is `{ ...base, ...over, headers: { ...base.headers, ...over.headers } }`:
   options replaced wholesale when `over` has them, headers merged name by name.
   */
  ghost predicate Layered(base: RequestInit, over: RequestInit, r: RequestInit) {
    && Replaced(base.credentials, over.credentials, r.credentials)
    && Replaced(base.httpMethod, over.httpMethod, r.httpMethod)
    && Replaced(base.body, over.body, r.body)
    && Overlaid(base.others, over.others, r.others)
    && Overlaid(base.headers, over.headers, r.headers)
  }

  function Prefer(base: Option<string>, over: Option<string>): Option<string> {
    if over.Some? then over else base
  }

  /** The spread shared by the constructor and every call. */
  function Layer(base: RequestInit, over: RequestInit): (r: RequestInit)
    ensures Layered(base, over, r)
    ensures WellFormed(base) && WellFormed(over) ==> WellFormed(r)
  {
    RequestInit(
      Prefer(base.credentials, over.credentials),
      base.headers + over.headers,
      Prefer(base.httpMethod, over.httpMethod),
      Prefer(base.body, over.body),
      base.others + over.others)
  }

  /** The configuration the constructor retains for the client's lifetime. */
  function InitialConfig(caller: Option<RequestInit>): (r: RequestInit)
    ensures Layered(DefaultConfig, Given(caller), r)
    ensures WellFormed(Given(caller)) ==> WellFormed(r)
    ensures "Accept" in r.headers && "Content-Type" in r.headers
    ensures r.headers.Keys == {"Accept", "Content-Type"} + Given(caller).headers.Keys
    ensures r.credentials == Some("include") <==>
              Given(caller).credentials == None || Given(caller).credentials == Some("include")
    ensures r.httpMethod == Given(caller).httpMethod && r.body == Given(caller).body
    ensures r.others == Given(caller).others
  {
    Layer(DefaultConfig, Given(caller))
  }

  /** What the raw `fetch` sends: the retained configuration overlaid by the per-call one. */
  function EffectiveConfig(retained: RequestInit, perCall: Option<RequestInit>): (r: RequestInit)
    ensures Layered(retained, Given(perCall), r)
  {
    Layer(retained, Given(perCall))
  }

  /**
   What `get` and `delete` send: the effective configuration with the verb's
   method written over whatever method the caller or the client held.
   */
  function ReadRequest(retained: RequestInit, perCall: Option<RequestInit>, verb: string): (r: RequestInit)
    ensures r.httpMethod == Some(verb)
    ensures var e := EffectiveConfig(retained, perCall); r.(httpMethod := e.httpMethod) == e
  {
    EffectiveConfig(retained, perCall).(httpMethod := Some(verb))
  }

  /**
   What `post`, `put` and `patch` send: as for reading verbs, and the body is the
   serialized payload whatever body the caller or the client held (`None` when
   the serializer yields `undefined`).
   */
  function WriteRequest(retained: RequestInit, perCall: Option<RequestInit>, verb: string, body: Option<string>): (r: RequestInit)
    ensures r.httpMethod == Some(verb) && r.body == body
    ensures var e := EffectiveConfig(retained, perCall); r.(httpMethod := e.httpMethod, body := e.body) == e
  {
    EffectiveConfig(retained, perCall).(httpMethod := Some(verb), body := body)
  }

  /** The header value a layer supplies for `name`, if any. */
  function HeaderOf(c: RequestInit, name: string): Option<string> {
    if name in c.headers then Some(c.headers[name]) else None
  }

  /**
   Three tiers for any verb: the per-call value of a header wins, then the
   constructor argument's, then the built-in default's; a header none of them
   names is not sent.
   */
  lemma SentHeaderPrecedence(caller: Option<RequestInit>, perCall: Option<RequestInit>, verb: string,
                             body: Option<string>, name: string)
    ensures var sent := WriteRequest(InitialConfig(caller), perCall, verb, body);
            HeaderOf(sent, name) ==
              if HeaderOf(Given(perCall), name).Some? then HeaderOf(Given(perCall), name)
              else if HeaderOf(Given(caller), name).Some? then HeaderOf(Given(caller), name)
              else HeaderOf(DefaultConfig, name)
    ensures var sent := ReadRequest(InitialConfig(caller), perCall, verb);
            HeaderOf(sent, name) ==
              if HeaderOf(Given(perCall), name).Some? then HeaderOf(Given(perCall), name)
              else if HeaderOf(Given(caller), name).Some? then HeaderOf(Given(caller), name)
              else HeaderOf(DefaultConfig, name)
  {
  }

  /**
   Header names are matched exactly: a per-call `accept` is sent beside the
   default `Accept`, not instead of it.
   */
  lemma HeaderNamesAreCaseSensitive()
    ensures var perCall := NoConfig.(headers := map["accept" := "text/plain"]);
            var sent := ReadRequest(InitialConfig(None), Some(perCall), "GET");
            sent.headers == map["Accept" := "application/json", "Content-Type" := "application/json",
                                "accept" := "text/plain"]
  {
  }
}
