/** Sending a prepared request and classifying the response (`_reqsend`), and parsing a JSON body (`_parse`).
    The network and the JSON parser are not modelled: the transport is a function from request to response and
    the parser is an oracle telling whether a body is valid JSON. */
module Transport {
  import opened Wrappers
  import opened Errors
  import opened PyValues

  type Byte = bv8

  /** A prepared GET request: method, full URL and headers. */
  datatype Request = Request(verb: string, url: string, headers: map<string, string>)

  /** What the transport hands back: status code, text body and raw body. */
  datatype Response = Response(status: int, text: string, content: seq<Byte>)

  /** What an endpoint returns: the value `json.loads` produces from a text body, or the raw body. */
  datatype Reply = JsonOf(text: string) | Content(bytes: seq<Byte>)

  /** The result of one public call: a returned value, or the exception it raised. */
  datatype Outcome = Returned(reply: Reply) | Raised(exc: Exc)

  /** Which kind of body an endpoint returns. */
  datatype BodyKind = JsonBody | BinaryBody

  /** The exception `_reqsend` raises for a status code, or None when it returns the response.
      `host` is `str()` of the session's host. */
  function Classify(status: int, host: string): (r: Option<Exc>)
    ensures r.None? <==> status == 200
    ensures r.Some? ==> Catches(TriageError, r.value)
    ensures r.Some? ==> (Catches(TriageClientError, r.value) <==> 400 <= status < 500)
    ensures r.Some? ==> (Catches(TriageAuthError, r.value) <==> status == 401)
    ensures r.Some? ==> (Catches(TriageServerError, r.value) <==> 500 <= status < 600)
    ensures r.Some? ==> r.value.cls !in {TriageStateError, TriageFailureError}
  {
    if status == 401 then
      Some(Raise(TriageAuthError, ModuleName + ": Could not authenticate to Triage box " + host + "."))
    else if status != 200 then
      var desc := ModuleName + ": Triage box " + host + " returned HTTP error " + IntToStr(status) + ".";
      if 400 <= status < 500 then Some(Raise(TriageClientError, desc))
      else if 500 <= status < 600 then Some(Raise(TriageServerError, desc))
      else Some(Raise(TriageError, desc))
    else None
  }

  /** `_parse`: the parsed value, or a TriageError naming the host when the body is not JSON. */
  function ParseBody(text: string, host: string, isJson: string -> bool): (r: Result<Reply, Exc>)
    ensures r.Success? <==> isJson(text)
    ensures r.Success? ==> r.value == JsonOf(text)
    ensures r.Failure? ==> r.error.cls == TriageError && Catches(TriageError, r.error)
  {
    if isJson(text) then Success(JsonOf(text))
    else Failure(Raise(TriageError, ModuleName + ": Triage box " + host + " did not return a valid json output."))
  }

  /** A whole call once its request is built (or its pre-flight raised): send once, classify, then return the
      raw body or its parsed JSON. */
  function Perform(pre: Result<Request, Exc>, send: Request -> Response, isJson: string -> bool,
                   host: string, kind: BodyKind): (o: Outcome)
  {
    match pre
    case Failure(e) => Raised(e)
    case Success(req) =>
      var resp := send(req);
      match Classify(resp.status, host)
      case Some(e) => Raised(e)
      case None =>
        if kind == BinaryBody then Returned(Content(resp.content))
        else match ParseBody(resp.text, host, isJson)
             case Success(v) => Returned(v)
             case Failure(e) => Raised(e)
  }

  /** A pre-flight error is the call's outcome whatever the transport would have answered: nothing is sent. */
  lemma PreflightSendsNothing(e: Exc, send: Request -> Response, send': Request -> Response,
                              isJson: string -> bool, host: string, kind: BodyKind)
    ensures Perform(Failure(e), send, isJson, host, kind) == Raised(e)
    ensures Perform(Failure(e), send, isJson, host, kind) == Perform(Failure(e), send', isJson, host, kind)
  {
  }

  /** A built request returns a value exactly when the server answers 200 (and, for JSON, sends valid JSON).
      A binary endpoint returns the raw body untouched, a JSON endpoint the value parsed from the text body;
      a malformed JSON body raises `_parse`'s error and any other status `_reqsend`'s. */
  lemma PerformReturns(req: Request, send: Request -> Response, isJson: string -> bool, host: string, kind: BodyKind)
    ensures var resp := send(req);
            Perform(Success(req), send, isJson, host, kind).Returned? <==>
              resp.status == 200 && (kind == JsonBody ==> isJson(resp.text))
    ensures var resp := send(req);
            resp.status == 200 && kind == BinaryBody ==>
              Perform(Success(req), send, isJson, host, kind) == Returned(Content(resp.content))
    ensures var resp := send(req);
            resp.status != 200 ==>
              Perform(Success(req), send, isJson, host, kind) == Raised(Classify(resp.status, host).value)
    ensures var resp := send(req);
            resp.status == 200 && kind == JsonBody && isJson(resp.text) ==>
              Perform(Success(req), send, isJson, host, kind) == Returned(JsonOf(resp.text))
    ensures var resp := send(req);
            resp.status == 200 && kind == JsonBody && !isJson(resp.text) ==>
              Perform(Success(req), send, isJson, host, kind) == Raised(ParseBody(resp.text, host, isJson).error)
  {
  }
}
