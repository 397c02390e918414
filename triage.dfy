/** `TriageSession`: a client for the Cofense Triage REST API. A session stores its credentials and a base header
    map once, at construction; every endpoint validates its arguments, builds a URL with a query string, copies
    the base headers with `Content-Type` set, sends one GET request and classifies the answer. */
module Triage {
  import opened Wrappers
  import opened Errors
  import opened PyValues
  import opened Validation
  import opened Query
  import opened Transport

  /** `TriageSession.apiver`: the API version the client implements. */
  const ApiVersion: string := "1.0.0"
  const AcceptType: string := "application/vnd.ve.v1.0+json"
  /** The default of the constructor's `uag` argument. */
  const DefaultUserAgent: string := "Python CoFense Triage Client"
  const JsonType: string := "application/json"
  const ContentType: string := "Content-Type"

  /** What a session holds: host, transport flag, user agent, user e-mail and API key. The constructor checks
      the types of `ssl` and `uag` only; e-mail and API key are checked by every endpoint. */
  datatype Credentials = Credentials(host: Value, ssl: bool, uag: string, email: Value, apikey: Value)

  /** The constructor's checks on `ssl` and `uag`, in order. */
  function InitChecks(ssl: Value, uag: Value): (cs: seq<Check>)
  {
    [Check(ssl, BoolKind, false, "ssl"),
     Check(uag, StrKind, false, "uag")]
  }

  /** The value of the `Authorization` header. */
  function AuthToken(c: Credentials): (s: string)
  {
    "Token token=" + ToStr(c.email) + ":" + ToStr(c.apikey)
  }

  /** The base header map built once by the constructor. It holds no `Content-Type`. */
  function BaseHeaders(c: Credentials): (h: map<string, string>)
    ensures h.Keys == {"Accept", "VE-API-Version", "user-agent", "Authorization"}
    ensures ContentType !in h
  {
    map["Accept" := AcceptType, "VE-API-Version" := ApiVersion, "user-agent" := c.uag, "Authorization" := AuthToken(c)]
  }

  /** `http[s]://{host}/api/public/v1/`, the prefix of every endpoint's URL. */
  function Root(c: Credentials): (s: string)
  {
    "http" + (if c.ssl then "s" else "") + "://" + ToStr(c.host) + "/api/public/v1/"
  }

  /** A list endpoint's URL: the bare path, or the path, `?` and the `&`-joined pieces when there are any. */
  function ListUrl(c: Credentials, path: string, params: seq<string>): (s: string)
  {
    Root(c) + path + (if params == [] then "" else "?" + JoinWith("&", params))
  }

  /** Every endpoint first tests the stored e-mail and API key. */
  function EmailCheck(c: Credentials): (ch: Check)
  {
    Check(c.email, StrKind, false, "email")
  }

  function ApiKeyCheck(c: Credentials): (ch: Check)
  {
    Check(c.apikey, StrKind, false, "apikey")
  }

  // ----- reports -----

  datatype ReportsArgs = ReportsArgs(matchPriority: Value, categoryId: Value, startDate: Value, tags: Value,
                                     endDate: Value, page: Value, perPage: Value, reportId: Value)

  function ReportsChecks(c: Credentials, a: ReportsArgs): (cs: seq<Check>)
  {
    [EmailCheck(c), ApiKeyCheck(c),
     Check(a.tags, ListKind, true, "tags"),
     Check(a.page, IntKind, true, "page"),
     Check(a.perPage, IntKind, true, "per_page"),
     Check(a.startDate, StrKind, true, "start_date"),
     Check(a.endDate, StrKind, true, "end_date"),
     Check(a.reportId, IntKind, true, "report_id"),
     Check(a.categoryId, IntKind, true, "caterory_id"),
     Check(a.matchPriority, IntKind, true, "match_priority")]
  }

  function ReportsParams(a: ReportsArgs): (ps: seq<Param>)
  {
    [Param("tags", a.tags, CommaList), Param("page", a.page, Decimal), Param("per_page", a.perPage, Decimal),
     Param("start_date", a.startDate, Verbatim), Param("end_date", a.endDate, Verbatim),
     Param("match_priority", a.matchPriority, Decimal), Param("category_id", a.categoryId, Decimal)]
  }

  /** The request `reports` sends, or the exception it raises first. A truthy `report_id` selects one report
      by path; the filters are still validated and built, but left out of the URL. */
  function ReportsRequest(c: Credentials, base: map<string, string>, a: ReportsArgs): (r: Result<Request, Exc>)
  {
    match FirstFailure(ReportsChecks(c, a))
    case Some(e) => Failure(e)
    case None =>
      match Params(ReportsParams(a))
      case Failure(e) => Failure(e)
      case Success(ps) =>
        var url := if Truthy(a.reportId) then Root(c) + "reports/" + ToStr(a.reportId) else ListUrl(c, "reports", ps);
        Success(Request("GET", url, base[ContentType := JsonType]))
  }

  // ----- processed_reports -----

  datatype ProcessedArgs = ProcessedArgs(matchPriority: Value, categoryId: Value, startDate: Value, tags: Value,
                                         endDate: Value, page: Value, perPage: Value)

  function ProcessedChecks(c: Credentials, a: ProcessedArgs): (cs: seq<Check>)
  {
    [EmailCheck(c), ApiKeyCheck(c),
     Check(a.tags, ListKind, true, "tags"),
     Check(a.page, IntKind, true, "page"),
     Check(a.perPage, IntKind, true, "per_page"),
     Check(a.startDate, StrKind, true, "start_date"),
     Check(a.endDate, StrKind, true, "end_date"),
     Check(a.categoryId, IntKind, true, "caterory_id"),
     Check(a.matchPriority, IntKind, true, "match_priority")]
  }

  /** As for `reports`, except that `category_id` comes before `match_priority`. */
  function ProcessedParams(a: ProcessedArgs): (ps: seq<Param>)
  {
    [Param("tags", a.tags, CommaList), Param("page", a.page, Decimal), Param("per_page", a.perPage, Decimal),
     Param("start_date", a.startDate, Verbatim), Param("end_date", a.endDate, Verbatim),
     Param("category_id", a.categoryId, Decimal), Param("match_priority", a.matchPriority, Decimal)]
  }

  function ProcessedRequest(c: Credentials, base: map<string, string>, a: ProcessedArgs): (r: Result<Request, Exc>)
  {
    match FirstFailure(ProcessedChecks(c, a))
    case Some(e) => Failure(e)
    case None =>
      match Params(ProcessedParams(a))
      case Failure(e) => Failure(e)
      case Success(ps) => Success(Request("GET", ListUrl(c, "processed_reports", ps), base[ContentType := JsonType]))
  }

  // ----- inbox_reports -----

  datatype InboxArgs = InboxArgs(matchPriority: Value, startDate: Value, endDate: Value, page: Value, perPage: Value)

  function InboxChecks(c: Credentials, a: InboxArgs): (cs: seq<Check>)
  {
    [EmailCheck(c), ApiKeyCheck(c),
     Check(a.page, IntKind, true, "page"),
     Check(a.perPage, IntKind, true, "per_page"),
     Check(a.startDate, StrKind, true, "start_date"),
     Check(a.endDate, StrKind, true, "end_date"),
     Check(a.matchPriority, IntKind, true, "match_priority")]
  }

  function InboxParams(a: InboxArgs): (ps: seq<Param>)
  {
    [Param("page", a.page, Decimal), Param("per_page", a.perPage, Decimal),
     Param("start_date", a.startDate, Verbatim), Param("end_date", a.endDate, Verbatim),
     Param("match_priority", a.matchPriority, Decimal)]
  }

  function InboxRequest(c: Credentials, base: map<string, string>, a: InboxArgs): (r: Result<Request, Exc>)
  {
    match FirstFailure(InboxChecks(c, a))
    case Some(e) => Failure(e)
    case None =>
      match Params(InboxParams(a))
      case Failure(e) => Failure(e)
      case Success(ps) => Success(Request("GET", ListUrl(c, "inbox_reports", ps), base[ContentType := JsonType]))
  }

  // ----- attachment -----

  /** Both arguments are required and always tested, `mime_type` first. */
  function AttachmentChecks(c: Credentials, attachmentId: Value, mimeType: Value): (cs: seq<Check>)
  {
    [EmailCheck(c), ApiKeyCheck(c),
     Check(mimeType, StrKind, false, "mime_type"),
     Check(attachmentId, IntKind, false, "attachment_id")]
  }

  /** The attachment is fetched by path, and the caller's MIME type is sent as `Content-Type`. */
  function AttachmentRequest(c: Credentials, base: map<string, string>, attachmentId: Value, mimeType: Value)
    : (r: Result<Request, Exc>)
  {
    var cs := AttachmentChecks(c, attachmentId, mimeType);
    match FirstFailure(cs)
    case Some(e) => Failure(e)
    case None =>
      assert !Fails(cs[2]);
      Success(Request("GET", Root(c) + "attachment/" + ToStr(attachmentId), base[ContentType := mimeType.s]))
  }

  // ----- integration_search -----

  datatype SearchArgs = SearchArgs(sha256: Value, md5: Value, searchurl: Value)

  /** The pieces are appended before any check runs, in the order searchurl, md5, sha256. */
  function SearchParams(a: SearchArgs): (ps: seq<Param>)
  {
    [Param("searchurl", a.searchurl, Verbatim), Param("md5", a.md5, Verbatim), Param("sha256", a.sha256, Verbatim)]
  }

  /** The checks as written: the last one, whose message names sha256, tests md5 again. */
  function SearchChecks(c: Credentials, a: SearchArgs): (cs: seq<Check>)
  {
    [EmailCheck(c), ApiKeyCheck(c),
     Check(a.md5, StrKind, true, "md5"),
     Check(a.searchurl, StrKind, true, "searchurl"),
     Check(a.md5, StrKind, true, "sha256")]
  }

  /** `[sha256, md5, searchurl].count(None) == 3`. */
  predicate NoSearchArgument(a: SearchArgs)
  {
    a.sha256 == PyNone && a.md5 == PyNone && a.searchurl == PyNone
  }

  const NoSearchArgumentError: Exc :=
    Raise(ValueError, ModuleName + "Triage.integration_search takes exactly 1 argument. You gave none.")

  /** The URL always carries `?`, even when no piece is present. */
  function SearchRequest(c: Credentials, base: map<string, string>, a: SearchArgs): (r: Result<Request, Exc>)
  {
    match Params(SearchParams(a))
    case Failure(e) => Failure(e)
    case Success(ps) =>
      match FirstFailure(SearchChecks(c, a))
      case Some(e) => Failure(e)
      case None =>
        if NoSearchArgument(a) then Failure(NoSearchArgumentError)
        else Success(Request("GET", Root(c) + "integration_search?" + JoinWith("&", ps), base[ContentType := JsonType]))
  }

  // ----- clusters -----

  datatype ClustersArgs = ClustersArgs(matchPriority: Value, startDate: Value, endDate: Value, page: Value,
                                       perPage: Value, tags: Value)

  /** Here `tags` is a single str, inserted as it is. */
  function ClustersChecks(c: Credentials, a: ClustersArgs): (cs: seq<Check>)
  {
    [EmailCheck(c), ApiKeyCheck(c),
     Check(a.tags, StrKind, true, "tags"),
     Check(a.page, IntKind, true, "page"),
     Check(a.perPage, IntKind, true, "per_page"),
     Check(a.startDate, StrKind, true, "start_date"),
     Check(a.endDate, StrKind, true, "end_date"),
     Check(a.matchPriority, IntKind, true, "match_priority")]
  }

  function ClustersParams(a: ClustersArgs): (ps: seq<Param>)
  {
    [Param("tags", a.tags, Verbatim), Param("page", a.page, Decimal), Param("per_page", a.perPage, Decimal),
     Param("start_date", a.startDate, Verbatim), Param("end_date", a.endDate, Verbatim),
     Param("match_priority", a.matchPriority, Decimal)]
  }

  function ClustersRequest(c: Credentials, base: map<string, string>, a: ClustersArgs): (r: Result<Request, Exc>)
  {
    match FirstFailure(ClustersChecks(c, a))
    case Some(e) => Failure(e)
    case None =>
      match Params(ClustersParams(a))
      case Failure(e) => Failure(e)
      case Success(ps) => Success(Request("GET", ListUrl(c, "clusters", ps), base[ContentType := JsonType]))
  }

  // ----- the session -----

  class TriageSession {
    /** Host, transport flag, user agent, e-mail and API key, as given to the constructor. */
    const creds: Credentials
    /** The base header map; each request copies it. */
    const headers: map<string, string>

    constructor (host: Value, email: Value, apikey: Value, ssl: bool, uag: string)
      ensures creds == Credentials(host, ssl, uag, email, apikey)
      ensures headers == BaseHeaders(creds)
    {
      var c := Credentials(host, ssl, uag, email, apikey);
      creds := c;
      headers := BaseHeaders(c);
    }

    /** `TriageSession(host, email, apikey, ssl, uag)`: raises TypeError unless `ssl` is a bool and `uag` a str. */
    static method Create(host: Value, email: Value, apikey: Value, ssl: Value, uag: Value)
      returns (r: Result<TriageSession, Exc>)
      ensures r.Failure? <==> !(ssl.Bool? && uag.Str?)
      ensures r.Failure? ==> Some(r.error) == FirstFailure(InitChecks(ssl, uag)) && r.error.cls == TypeError
      ensures r.Success? ==> fresh(r.value) && r.value.creds == Credentials(host, ssl.b, uag.s, email, apikey)
                             && r.value.headers == BaseHeaders(r.value.creds)
    {
      var failure := FirstFailure(InitChecks(ssl, uag));
      if failure.Some? {
        return Failure(failure.value);
      }
      assert !Fails(InitChecks(ssl, uag)[0]) && !Fails(InitChecks(ssl, uag)[1]);
      var s := new TriageSession(host, email, apikey, ssl.b, uag.s);
      return Success(s);
    }

    /** `TriageSession(host, email, apikey)` with the default `ssl=True` and user agent, which pass the checks. */
    static method CreateDefault(host: Value, email: Value, apikey: Value) returns (r: Result<TriageSession, Exc>)
      ensures r.Success?
      ensures fresh(r.value) && r.value.creds == Credentials(host, true, DefaultUserAgent, email, apikey)
      ensures r.value.headers == BaseHeaders(r.value.creds) && r.value.headers["user-agent"] == DefaultUserAgent
    {
      r := Create(host, email, apikey, Bool(true), Str(DefaultUserAgent));
    }

    /** `_reqsend`: sends the request once and raises for every status but 200. */
    method ReqSend(prep: Request, send: Request -> Response) returns (r: Result<Response, Exc>)
      ensures r.Success? <==> send(prep).status == 200
      ensures r.Success? ==> r.value == send(prep)
      ensures r.Failure? ==> Some(r.error) == Classify(send(prep).status, ToStr(creds.host))
    {
      var resp := send(prep);
      var failure := Classify(resp.status, ToStr(creds.host));
      if failure.Some? {
        return Failure(failure.value);
      }
      return Success(resp);
    }

    /** Sends a built request and returns its parsed or raw body. */
    method Finish(req: Request, send: Request -> Response, isJson: string -> bool, kind: BodyKind)
      returns (r: Outcome)
      ensures r == Perform(Success(req), send, isJson, ToStr(creds.host), kind)
    {
      var resp := ReqSend(req, send);
      if resp.Failure? {
        return Raised(resp.error);
      }
      if kind == BinaryBody {
        return Returned(Content(resp.value.content));
      }
      var parsed := ParseBody(resp.value.text, ToStr(creds.host), isJson);
      if parsed.Failure? {
        return Raised(parsed.error);
      }
      return Returned(parsed.value);
    }

    /** The `params.append` sequence of `reports` (run after its checks passed). */
    static method ReportsQuery(a: ReportsArgs) returns (r: Result<seq<string>, Exc>)
      requires Truthy(a.startDate) ==> a.startDate.Str?
      requires Truthy(a.endDate) ==> a.endDate.Str?
      ensures r == Params(ReportsParams(a))
    {
      ghost var ps := ReportsParams(a);
      ghost var target := Params(ps);
      var params: seq<string> := [];
      BuiltStart(ps);
      ListStep(ps, 0, params, target);
      if Truthy(a.tags) {
        var joined := JoinValue(",", a.tags);
        if joined.Failure? {
          return Failure(joined.error);
        }
        params := params + [Piece("tags", joined.value)];
      }
      DecimalStep(ps, 1, params, target);
      if Truthy(a.page) { params := params + [Piece("page", ToStr(a.page))]; }
      DecimalStep(ps, 2, params, target);
      if Truthy(a.perPage) { params := params + [Piece("per_page", ToStr(a.perPage))]; }
      VerbatimStep(ps, 3, params, target);
      if Truthy(a.startDate) { params := params + [Piece("start_date", a.startDate.s)]; }
      VerbatimStep(ps, 4, params, target);
      if Truthy(a.endDate) { params := params + [Piece("end_date", a.endDate.s)]; }
      DecimalStep(ps, 5, params, target);
      if Truthy(a.matchPriority) { params := params + [Piece("match_priority", ToStr(a.matchPriority))]; }
      DecimalStep(ps, 6, params, target);
      if Truthy(a.categoryId) { params := params + [Piece("category_id", ToStr(a.categoryId))]; }
      BuiltDone(ps, params, target);
      return Success(params);
    }

    method Reports(a: ReportsArgs, send: Request -> Response, isJson: string -> bool)
      returns (r: Outcome, sent: Option<Request>)
      ensures sent == ReportsRequest(creds, headers, a).ToOption()
      ensures r == Perform(ReportsRequest(creds, headers, a), send, isJson, ToStr(creds.host), JsonBody)
    {
      sent := None;
      var checks := ReportsChecks(creds, a);
      var failure := FirstFailure(checks);
      if failure.Some? {
        return Raised(failure.value), sent;
      }
      assert !Fails(checks[5]) && !Fails(checks[6]);

      var built := ReportsQuery(a);
      if built.Failure? {
        return Raised(built.error), sent;
      }
      var params := built.value;

      var url;
      if Truthy(a.reportId) {
        url := Root(creds) + "reports/" + ToStr(a.reportId);
      } else if params != [] {
        url := Root(creds) + "reports?" + JoinWith("&", params);
        assert "reports?" == "reports" + "?";
      } else {
        url := Root(creds) + "reports";
      }

      var hdrs := headers;
      hdrs := hdrs[ContentType := JsonType];
      var req := Request("GET", url, hdrs);
      assert FirstFailure(ReportsChecks(creds, a)).None? && Params(ReportsParams(a)) == Success(params);
      assert url == if Truthy(a.reportId) then Root(creds) + "reports/" + ToStr(a.reportId)
                    else ListUrl(creds, "reports", params);
      assert ReportsRequest(creds, headers, a) == Success(req);
      sent := Some(req);
      r := Finish(req, send, isJson, JsonBody);
    }

    /** The `params.append` sequence of `processed_reports`: `category_id` before `match_priority`. */
    static method ProcessedQuery(a: ProcessedArgs) returns (r: Result<seq<string>, Exc>)
      requires Truthy(a.startDate) ==> a.startDate.Str?
      requires Truthy(a.endDate) ==> a.endDate.Str?
      ensures r == Params(ProcessedParams(a))
    {
      ghost var ps := ProcessedParams(a);
      ghost var target := Params(ps);
      var params: seq<string> := [];
      BuiltStart(ps);
      ListStep(ps, 0, params, target);
      if Truthy(a.tags) {
        var joined := JoinValue(",", a.tags);
        if joined.Failure? {
          return Failure(joined.error);
        }
        params := params + [Piece("tags", joined.value)];
      }
      DecimalStep(ps, 1, params, target);
      if Truthy(a.page) { params := params + [Piece("page", ToStr(a.page))]; }
      DecimalStep(ps, 2, params, target);
      if Truthy(a.perPage) { params := params + [Piece("per_page", ToStr(a.perPage))]; }
      VerbatimStep(ps, 3, params, target);
      if Truthy(a.startDate) { params := params + [Piece("start_date", a.startDate.s)]; }
      VerbatimStep(ps, 4, params, target);
      if Truthy(a.endDate) { params := params + [Piece("end_date", a.endDate.s)]; }
      DecimalStep(ps, 5, params, target);
      if Truthy(a.categoryId) { params := params + [Piece("category_id", ToStr(a.categoryId))]; }
      DecimalStep(ps, 6, params, target);
      if Truthy(a.matchPriority) { params := params + [Piece("match_priority", ToStr(a.matchPriority))]; }
      BuiltDone(ps, params, target);
      return Success(params);
    }

    method ProcessedReports(a: ProcessedArgs, send: Request -> Response, isJson: string -> bool)
      returns (r: Outcome, sent: Option<Request>)
      ensures sent == ProcessedRequest(creds, headers, a).ToOption()
      ensures r == Perform(ProcessedRequest(creds, headers, a), send, isJson, ToStr(creds.host), JsonBody)
    {
      sent := None;
      var checks := ProcessedChecks(creds, a);
      var failure := FirstFailure(checks);
      if failure.Some? {
        return Raised(failure.value), sent;
      }
      assert !Fails(checks[5]) && !Fails(checks[6]);

      var built := ProcessedQuery(a);
      if built.Failure? {
        return Raised(built.error), sent;
      }
      var params := built.value;

      var url;
      if params != [] {
        url := Root(creds) + "processed_reports?" + JoinWith("&", params);
        assert "processed_reports?" == "processed_reports" + "?";
      } else {
        url := Root(creds) + "processed_reports";
      }

      var hdrs := headers;
      hdrs := hdrs[ContentType := JsonType];
      var req := Request("GET", url, hdrs);
      assert FirstFailure(ProcessedChecks(creds, a)).None? && Params(ProcessedParams(a)) == Success(params);
      assert url == ListUrl(creds, "processed_reports", params);
      assert ProcessedRequest(creds, headers, a) == Success(req);
      sent := Some(req);
      r := Finish(req, send, isJson, JsonBody);
    }

    /** The `params.append` sequence of `inbox_reports`. */
    static method InboxQuery(a: InboxArgs) returns (r: Result<seq<string>, Exc>)
      requires Truthy(a.startDate) ==> a.startDate.Str?
      requires Truthy(a.endDate) ==> a.endDate.Str?
      ensures r == Params(InboxParams(a))
    {
      ghost var ps := InboxParams(a);
      ghost var target := Params(ps);
      var params: seq<string> := [];
      BuiltStart(ps);
      DecimalStep(ps, 0, params, target);
      if Truthy(a.page) { params := params + [Piece("page", ToStr(a.page))]; }
      DecimalStep(ps, 1, params, target);
      if Truthy(a.perPage) { params := params + [Piece("per_page", ToStr(a.perPage))]; }
      VerbatimStep(ps, 2, params, target);
      if Truthy(a.startDate) { params := params + [Piece("start_date", a.startDate.s)]; }
      VerbatimStep(ps, 3, params, target);
      if Truthy(a.endDate) { params := params + [Piece("end_date", a.endDate.s)]; }
      DecimalStep(ps, 4, params, target);
      if Truthy(a.matchPriority) { params := params + [Piece("match_priority", ToStr(a.matchPriority))]; }
      BuiltDone(ps, params, target);
      return Success(params);
    }

    method InboxReports(a: InboxArgs, send: Request -> Response, isJson: string -> bool)
      returns (r: Outcome, sent: Option<Request>)
      ensures sent == InboxRequest(creds, headers, a).ToOption()
      ensures r == Perform(InboxRequest(creds, headers, a), send, isJson, ToStr(creds.host), JsonBody)
    {
      sent := None;
      var checks := InboxChecks(creds, a);
      var failure := FirstFailure(checks);
      if failure.Some? {
        return Raised(failure.value), sent;
      }
      assert !Fails(checks[4]) && !Fails(checks[5]);

      var built := InboxQuery(a);
      if built.Failure? {
        return Raised(built.error), sent;
      }
      var params := built.value;

      var url;
      if params != [] {
        url := Root(creds) + "inbox_reports?" + JoinWith("&", params);
        assert "inbox_reports?" == "inbox_reports" + "?";
      } else {
        url := Root(creds) + "inbox_reports";
      }

      var hdrs := headers;
      hdrs := hdrs[ContentType := JsonType];
      var req := Request("GET", url, hdrs);
      assert FirstFailure(InboxChecks(creds, a)).None? && Params(InboxParams(a)) == Success(params);
      assert url == ListUrl(creds, "inbox_reports", params);
      assert InboxRequest(creds, headers, a) == Success(req);
      sent := Some(req);
      r := Finish(req, send, isJson, JsonBody);
    }

    /** `attachment`: the raw bytes of one attachment, requested with the caller's MIME type. */
    method Attachment(attachmentId: Value, mimeType: Value, send: Request -> Response, isJson: string -> bool)
      returns (r: Outcome, sent: Option<Request>)
      ensures sent == AttachmentRequest(creds, headers, attachmentId, mimeType).ToOption()
      ensures r == Perform(AttachmentRequest(creds, headers, attachmentId, mimeType), send, isJson,
                           ToStr(creds.host), BinaryBody)
    {
      sent := None;
      var checks := AttachmentChecks(creds, attachmentId, mimeType);
      var failure := FirstFailure(checks);
      if failure.Some? {
        return Raised(failure.value), sent;
      }
      assert !Fails(checks[2]);

      var url := Root(creds) + "attachment/" + ToStr(attachmentId);
      var hdrs := headers;
      hdrs := hdrs[ContentType := mimeType.s];
      var req := Request("GET", url, hdrs);
      sent := Some(req);
      r := Finish(req, send, isJson, BinaryBody);
    }

    /** The `params.append` sequence of `integration_search`. It runs before any check, so a truthy argument
        that is not a str raises the concatenation TypeError here. */
    static method SearchQuery(a: SearchArgs) returns (r: Result<seq<string>, Exc>)
      ensures r == Params(SearchParams(a))
    {
      ghost var ps := SearchParams(a);
      ghost var target := Params(ps);
      var params: seq<string> := [];
      BuiltStart(ps);
      VerbatimStep(ps, 0, params, target);
      if Truthy(a.searchurl) {
        var piece := Concat("searchurl=", a.searchurl);
        if piece.Failure? {
          return Failure(piece.error);
        }
        params := params + [Piece("searchurl", a.searchurl.s)];
      }
      VerbatimStep(ps, 1, params, target);
      if Truthy(a.md5) {
        var piece := Concat("md5=", a.md5);
        if piece.Failure? {
          return Failure(piece.error);
        }
        params := params + [Piece("md5", a.md5.s)];
      }
      VerbatimStep(ps, 2, params, target);
      if Truthy(a.sha256) {
        var piece := Concat("sha256=", a.sha256);
        if piece.Failure? {
          return Failure(piece.error);
        }
        params := params + [Piece("sha256", a.sha256.s)];
      }
      BuiltDone(ps, params, target);
      return Success(params);
    }

    method IntegrationSearch(a: SearchArgs, send: Request -> Response, isJson: string -> bool)
      returns (r: Outcome, sent: Option<Request>)
      ensures sent == SearchRequest(creds, headers, a).ToOption()
      ensures r == Perform(SearchRequest(creds, headers, a), send, isJson, ToStr(creds.host), JsonBody)
    {
      sent := None;
      var built := SearchQuery(a);
      if built.Failure? {
        return Raised(built.error), sent;
      }
      var params := built.value;

      var failure := FirstFailure(SearchChecks(creds, a));
      if failure.Some? {
        return Raised(failure.value), sent;
      }
      if NoSearchArgument(a) {
        return Raised(NoSearchArgumentError), sent;
      }

      var url := Root(creds) + "integration_search?" + JoinWith("&", params);
      var hdrs := headers;
      hdrs := hdrs[ContentType := JsonType];
      var req := Request("GET", url, hdrs);
      sent := Some(req);
      r := Finish(req, send, isJson, JsonBody);
    }

    /** The `params.append` sequence of `clusters`: `tags` is a str inserted as it is. */
    static method ClustersQuery(a: ClustersArgs) returns (r: Result<seq<string>, Exc>)
      requires Truthy(a.tags) ==> a.tags.Str?
      requires Truthy(a.startDate) ==> a.startDate.Str?
      requires Truthy(a.endDate) ==> a.endDate.Str?
      ensures r == Params(ClustersParams(a))
    {
      ghost var ps := ClustersParams(a);
      ghost var target := Params(ps);
      var params: seq<string> := [];
      BuiltStart(ps);
      VerbatimStep(ps, 0, params, target);
      if Truthy(a.tags) { params := params + [Piece("tags", a.tags.s)]; }
      DecimalStep(ps, 1, params, target);
      if Truthy(a.page) { params := params + [Piece("page", ToStr(a.page))]; }
      DecimalStep(ps, 2, params, target);
      if Truthy(a.perPage) { params := params + [Piece("per_page", ToStr(a.perPage))]; }
      VerbatimStep(ps, 3, params, target);
      if Truthy(a.startDate) { params := params + [Piece("start_date", a.startDate.s)]; }
      VerbatimStep(ps, 4, params, target);
      if Truthy(a.endDate) { params := params + [Piece("end_date", a.endDate.s)]; }
      DecimalStep(ps, 5, params, target);
      if Truthy(a.matchPriority) { params := params + [Piece("match_priority", ToStr(a.matchPriority))]; }
      BuiltDone(ps, params, target);
      return Success(params);
    }

    method Clusters(a: ClustersArgs, send: Request -> Response, isJson: string -> bool)
      returns (r: Outcome, sent: Option<Request>)
      ensures sent == ClustersRequest(creds, headers, a).ToOption()
      ensures r == Perform(ClustersRequest(creds, headers, a), send, isJson, ToStr(creds.host), JsonBody)
    {
      sent := None;
      var checks := ClustersChecks(creds, a);
      var failure := FirstFailure(checks);
      if failure.Some? {
        return Raised(failure.value), sent;
      }
      assert !Fails(checks[2]) && !Fails(checks[5]) && !Fails(checks[6]);

      var built := ClustersQuery(a);
      if built.Failure? {
        return Raised(built.error), sent;
      }
      var params := built.value;

      var url;
      if params != [] {
        url := Root(creds) + "clusters?" + JoinWith("&", params);
        assert "clusters?" == "clusters" + "?";
      } else {
        url := Root(creds) + "clusters";
      }

      var hdrs := headers;
      hdrs := hdrs[ContentType := JsonType];
      var req := Request("GET", url, hdrs);
      assert FirstFailure(ClustersChecks(creds, a)).None? && Params(ClustersParams(a)) == Success(params);
      assert url == ListUrl(creds, "clusters", params);
      assert ClustersRequest(creds, headers, a) == Success(req);
      sent := Some(req);
      r := Finish(req, send, isJson, JsonBody);
    }
  }
}
