/**
 The responses the client receives and what it makes of them: a non-ok status
 is thrown as an error carrying status line and body; an ok one becomes the
 envelope `{ data, headers, status, statusText }`.
 */
module ResponseMapping {
  import opened Wrappers
  import opened HeaderNames
  import opened Decimal

  /** A response as the client reads it: status line, header pairs in iteration order, body text. */
  datatype Response = Response(status: nat, statusText: string, headerPairs: seq<(string, string)>, bodyText: string)

  /** What the network primitive settles with: a response, or a rejection (DNS, reset, abort). */
  datatype NetworkReply = Delivered(response: Response) | Rejected(reason: string)

  /** `response.ok`: a status in the range 200 to 299 (the Fetch Standard's ok status). */
  predicate IsOk(status: nat) {
    200 <= status <= 299
  }

  /** The uniform result of a successful call; `data == None` is the `null` the client writes. */
  datatype Envelope<D> = Envelope(data: Option<D>, headers: map<string, string>, status: nat, statusText: string)

  /** What a call throws. */
  datatype ClientError =
    | TransportFailure(reason: string)  // the network primitive's rejection, unchanged
    | HttpError(message: string)        // the `Error` thrown for a non-ok status
    | ParseError(reason: string)        // the body parser's failure, unwrapped
    | SerializeError(reason: string)    // the serializer's failure on a payload, unwrapped

  /**
   The JSON serializer of payloads of type `P` (`JSON.stringify`: it yields text,
   `undefined` for some inputs, or throws, e.g. on a circular structure) and the
   parser of bodies into values of type `D` (`response.json()`).
   */
  datatype Codec<!P, D> = Codec(stringify: P -> Result<Option<string>, string>, parse: string -> Result<D, string>)

  /** The message of the error thrown for a non-ok response: status, status text, blank line, body. */
  function ErrorMessage(r: Response): string {
    DecimalString(r.status) + " " + r.statusText + "\n\n" + r.bodyText
  }

  /** The response declares an empty body: its `content-length` (any case) is exactly `"0"`. */
  predicate DeclaresEmpty(headers: map<string, string>) {
    "content-length" in headers && headers["content-length"] == "0"
  }

  /**
   Specification of `mapResponse` awaited on the network call's settlement. An
   envelope is produced exactly for an ok response whose body is declared empty
   or parses; it copies the status line and carries the headers under
   lower-cased names.
   */
  function ResponseOutcome<D>(parse: string -> Result<D, string>, reply: NetworkReply): (out: Result<Envelope<D>, ClientError>)
    ensures out.Success? <==>
              && reply.Delivered? && IsOk(reply.response.status)
              && (DeclaresEmpty(LowerCaseHeaders(reply.response.headerPairs)) || parse(reply.response.bodyText).Success?)
    ensures out.Success? ==>
              && out.value.status == reply.response.status
              && out.value.statusText == reply.response.statusText
              && out.value.headers == LowerCaseHeaders(reply.response.headerPairs)
              && (forall k :: k in out.value.headers ==> IsLowerCase(k))
    ensures reply.Rejected? ==> out == Failure(TransportFailure(reply.reason))
  {
    match reply
    case Rejected(reason) => Failure(TransportFailure(reason))
    case Delivered(r) =>
      if !IsOk(r.status) then Failure(HttpError(ErrorMessage(r)))
      else
        var headers := LowerCaseHeaders(r.headerPairs);
        if DeclaresEmpty(headers) then Success(Envelope(None, headers, r.status, r.statusText))
        else
          match parse(r.bodyText)
          case Success(d) => Success(Envelope(Some(d), headers, r.status, r.statusText))
          case Failure(e) => Failure(ParseError(e))
  }

  /** The after-response hooks that run: all of them for an ok response, none otherwise. */
  function AfterHooksRun<H>(hooks: seq<H>, reply: NetworkReply): seq<H> {
    if reply.Delivered? && IsOk(reply.response.status) then hooks else []
  }

  /**
   A non-ok response is thrown, never enveloped, and no after-response hook runs;
   the message is the status code, a space, the status text, a blank line and the
   whole body text, and its leading digits read back as the status code.
   */
  lemma NonOkStatusIsThrown<D, H>(parse: string -> Result<D, string>, hooks: seq<H>, r: Response)
    requires !IsOk(r.status)
    ensures ResponseOutcome(parse, Delivered(r)).Failure?
    ensures ResponseOutcome(parse, Delivered(r)).error.HttpError?
    ensures AfterHooksRun(hooks, Delivered(r)) == []
    ensures var m := ResponseOutcome(parse, Delivered(r)).error.message;
            var n := |DecimalString(r.status)|;
            && 0 < n < |m| && m[n] == ' '
            && AllDigits(m[..n]) && DigitsValue(m[..n]) == r.status
            && |r.bodyText| <= |m| && m[|m| - |r.bodyText|..] == r.bodyText
    ensures ResponseOutcome(parse, Delivered(r)) ==
              Failure(HttpError(DecimalString(r.status) + " " + r.statusText + "\n\n" + r.bodyText))
  {
    var m := ErrorMessage(r);
    var digits := DecimalString(r.status);
    var rest := " " + r.statusText + "\n\n";
    assert m == digits + (rest + r.bodyText);
    assert m[..|digits|] == digits;
    assert m == (digits + rest) + r.bodyText;
    assert m[|m| - |r.bodyText|..] == r.bodyText;
    DecimalRoundTrip(r.status);
  }

  /** A 404 with body "not found" is thrown with the message "404 Not Found", a blank line, "not found". */
  lemma NotFoundExample<D>(parse: string -> Result<D, string>)
    ensures ResponseOutcome(parse, Delivered(Response(404, "Not Found", [], "not found")))
            == Failure(HttpError("404 Not Found\n\nnot found"))
  {
    assert DecimalString(4) == "4";
    assert DecimalString(40) == "40";
    assert DecimalString(404) == "404";
    var r := Response(404, "Not Found", [], "not found");
    assert ErrorMessage(r) == "404" + " " + "Not Found" + "\n\n" + "not found";
    assert "404" + " " + "Not Found" + "\n\n" + "not found" == "404 Not Found\n\nnot found";
    assert ResponseOutcome(parse, Delivered(r)) == Failure(HttpError(ErrorMessage(r)));
  }

  /** On an ok response `data` is null exactly when the lower-cased `content-length` is `"0"`. */
  lemma NullDataExactlyWhenDeclaredEmpty<D>(parse: string -> Result<D, string>, r: Response)
    requires IsOk(r.status)
    ensures var out := ResponseOutcome(parse, Delivered(r));
            out.Success? && out.value.data == None <==> DeclaresEmpty(LowerCaseHeaders(r.headerPairs))
  {
  }

  /** Otherwise the body is parsed: its value becomes `data`, its failure is thrown unwrapped. */
  lemma ParsedUnlessDeclaredEmpty<D>(parse: string -> Result<D, string>, r: Response)
    requires IsOk(r.status) && !DeclaresEmpty(LowerCaseHeaders(r.headerPairs))
    ensures parse(r.bodyText).Success? ==>
              ResponseOutcome(parse, Delivered(r)).Success? &&
              ResponseOutcome(parse, Delivered(r)).value.data == Some(parse(r.bodyText).value)
    ensures parse(r.bodyText).Failure? ==>
              ResponseOutcome(parse, Delivered(r)) == Failure(ParseError(parse(r.bodyText).error))
  {
  }

  /**
   A response declared empty is never parsed: any body and any parser give the
   same envelope, so a body that would fail to parse throws nothing.
   */
  lemma DeclaredEmptyIgnoresBody<D>(parse: string -> Result<D, string>, other: string -> Result<D, string>,
                                    r: Response, body: string)
    requires IsOk(r.status) && DeclaresEmpty(LowerCaseHeaders(r.headerPairs))
    ensures ResponseOutcome(parse, Delivered(r)) == ResponseOutcome(other, Delivered(r.(bodyText := body)))
    ensures ResponseOutcome(parse, Delivered(r)).Success?
  {
  }

  /**
   `Content-Length: 0` in any letter case gives null data, provided no later
   header pair of that name (up to case) says otherwise.
   */
  lemma ZeroContentLengthInAnyCase<D>(parse: string -> Result<D, string>, r: Response, i: nat)
    requires IsOk(r.status)
    requires i < |r.headerPairs| && Lower(r.headerPairs[i].0) == "content-length" && r.headerPairs[i].1 == "0"
    requires forall j :: i < j < |r.headerPairs| ==> Lower(r.headerPairs[j].0) != "content-length"
    ensures ResponseOutcome(parse, Delivered(r)).Success?
    ensures ResponseOutcome(parse, Delivered(r)).value.data == None
  {
    LowerCaseHeadersLastWins(r.headerPairs, i);
  }

  /** A response with no `content-length` header at all is parsed, whatever its body. */
  lemma AbsentContentLengthIsParsed<D>(parse: string -> Result<D, string>, r: Response)
    requires IsOk(r.status)
    requires forall j :: 0 <= j < |r.headerPairs| ==> Lower(r.headerPairs[j].0) != "content-length"
    ensures ResponseOutcome(parse, Delivered(r)) ==
              match parse(r.bodyText)
              case Success(d) => Success(Envelope(Some(d), LowerCaseHeaders(r.headerPairs), r.status, r.statusText))
              case Failure(e) => Failure(ParseError(e))
  {
    LowerCaseHeadersKeys(r.headerPairs, "content-length");
  }
}
