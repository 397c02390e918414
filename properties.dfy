/** What the six endpoints of a session have in common, and what each promises about the request it builds:
    the scheme follows `ssl`, the headers are the base map plus `Content-Type`, the checks run before anything
    is sent, and the query holds one `key=value` piece per truthy argument, in the endpoint's order. */
module TriageProperties {
  import opened Wrappers
  import opened Errors
  import opened PyValues
  import opened Validation
  import opened Query
  import opened Transport
  import opened Triage

  /** One call of a public endpoint, with its arguments. */
  datatype Call =
    | ReportsCall(reports: ReportsArgs)
    | ProcessedCall(processed: ProcessedArgs)
    | InboxCall(inbox: InboxArgs)
    | AttachmentCall(attachmentId: Value, mimeType: Value)
    | SearchCall(search: SearchArgs)
    | ClustersCall(clusters: ClustersArgs)

  /** The request a call sends, or the exception it raises before sending. */
  function RequestFor(c: Credentials, base: map<string, string>, call: Call): (r: Result<Request, Exc>)
  {
    match call
    case ReportsCall(a) => ReportsRequest(c, base, a)
    case ProcessedCall(a) => ProcessedRequest(c, base, a)
    case InboxCall(a) => InboxRequest(c, base, a)
    case AttachmentCall(id, mime) => AttachmentRequest(c, base, id, mime)
    case SearchCall(a) => SearchRequest(c, base, a)
    case ClustersCall(a) => ClustersRequest(c, base, a)
  }

  /** The `isinstance` checks of a call, in order. */
  function ChecksFor(c: Credentials, call: Call): (cs: seq<Check>)
  {
    match call
    case ReportsCall(a) => ReportsChecks(c, a)
    case ProcessedCall(a) => ProcessedChecks(c, a)
    case InboxCall(a) => InboxChecks(c, a)
    case AttachmentCall(id, mime) => AttachmentChecks(c, id, mime)
    case SearchCall(a) => SearchChecks(c, a)
    case ClustersCall(a) => ClustersChecks(c, a)
  }

  /** The optional arguments a call appends to its query, in order (`attachment` has none). */
  function ParamsFor(call: Call): (ps: seq<Param>)
  {
    match call
    case ReportsCall(a) => ReportsParams(a)
    case ProcessedCall(a) => ProcessedParams(a)
    case InboxCall(a) => InboxParams(a)
    case AttachmentCall(_, _) => []
    case SearchCall(a) => SearchParams(a)
    case ClustersCall(a) => ClustersParams(a)
  }

  /** The calls whose URL is a path with an optional query: all but `attachment`, `integration_search` and
      `reports` with a truthy `report_id`. */
  predicate IsListCall(call: Call)
  {
    call.ProcessedCall? || call.InboxCall? || call.ClustersCall? || (call.ReportsCall? && !Truthy(call.reports.reportId))
  }

  function PathFor(call: Call): (s: string)
    requires IsListCall(call)
  {
    match call
    case ReportsCall(_) => "reports"
    case ProcessedCall(_) => "processed_reports"
    case InboxCall(_) => "inbox_reports"
    case ClustersCall(_) => "clusters"
  }

  /** The `Content-Type` a call sends: the caller's MIME type for `attachment`, JSON for the rest. */
  function ContentTypeFor(call: Call): (s: string)
  {
    if call.AttachmentCall? && call.mimeType.Str? then call.mimeType.s else JsonType
  }

  // ----- scheme -----

  lemma RootScheme(c: Credentials)
    ensures |Root(c)| >= 8
    ensures c.ssl ==> Root(c)[..8] == "https://"
    ensures !c.ssl ==> Root(c)[..7] == "http://"
  {
  }

  /** The text of a call's URL after the common prefix. */
  function UrlTail(c: Credentials, call: Call, out: seq<string>): (s: string)
  {
    match call
    case ReportsCall(a) =>
      if Truthy(a.reportId) then "reports/" + ToStr(a.reportId)
      else "reports" + (if out == [] then "" else "?" + JoinWith("&", out))
    case ProcessedCall(_) => "processed_reports" + (if out == [] then "" else "?" + JoinWith("&", out))
    case InboxCall(_) => "inbox_reports" + (if out == [] then "" else "?" + JoinWith("&", out))
    case AttachmentCall(id, _) => "attachment/" + ToStr(id)
    case SearchCall(_) => "integration_search?" + JoinWith("&", out)
    case ClustersCall(_) => "clusters" + (if out == [] then "" else "?" + JoinWith("&", out))
  }

  /** Every URL a session requests is `http[s]://{host}/api/public/v1/` followed by the endpoint's part. */
  lemma UrlUnderRoot(c: Credentials, base: map<string, string>, call: Call)
    requires RequestFor(c, base, call).Success?
    ensures Params(ParamsFor(call)).Success?
    ensures RequestFor(c, base, call).value.url == Root(c) + UrlTail(c, call, Params(ParamsFor(call)).value)
  {
    match call
    case ReportsCall(a) => ReportsUrl(c, base, a);
    case ProcessedCall(a) => ProcessedUrl(c, base, a);
    case InboxCall(a) => InboxUrl(c, base, a);
    case AttachmentCall(id, mime) =>
    case SearchCall(a) => SearchUrl(c, base, a);
    case ClustersCall(a) => ClustersUrl(c, base, a);
  }

  lemma ReportsUrl(c: Credentials, base: map<string, string>, a: ReportsArgs)
    requires ReportsRequest(c, base, a).Success?
    ensures Params(ReportsParams(a)).Success?
    ensures ReportsRequest(c, base, a).value.url
              == Root(c) + UrlTail(c, ReportsCall(a), Params(ReportsParams(a)).value)
  {
  }

  lemma ProcessedUrl(c: Credentials, base: map<string, string>, a: ProcessedArgs)
    requires ProcessedRequest(c, base, a).Success?
    ensures Params(ProcessedParams(a)).Success?
    ensures ProcessedRequest(c, base, a).value.url
              == Root(c) + UrlTail(c, ProcessedCall(a), Params(ProcessedParams(a)).value)
  {
  }

  lemma InboxUrl(c: Credentials, base: map<string, string>, a: InboxArgs)
    requires InboxRequest(c, base, a).Success?
    ensures Params(InboxParams(a)).Success?
    ensures InboxRequest(c, base, a).value.url == Root(c) + UrlTail(c, InboxCall(a), Params(InboxParams(a)).value)
  {
  }

  lemma SearchUrl(c: Credentials, base: map<string, string>, a: SearchArgs)
    requires SearchRequest(c, base, a).Success?
    ensures Params(SearchParams(a)).Success?
    ensures SearchRequest(c, base, a).value.url
              == Root(c) + UrlTail(c, SearchCall(a), Params(SearchParams(a)).value)
  {
  }

  lemma ClustersUrl(c: Credentials, base: map<string, string>, a: ClustersArgs)
    requires ClustersRequest(c, base, a).Success?
    ensures Params(ClustersParams(a)).Success?
    ensures ClustersRequest(c, base, a).value.url
              == Root(c) + UrlTail(c, ClustersCall(a), Params(ClustersParams(a)).value)
  {
  }

  /** The scheme is `https` exactly when the session was created with `ssl=True`, on every endpoint. */
  lemma SchemeFollowsSsl(c: Credentials, base: map<string, string>, call: Call)
    requires RequestFor(c, base, call).Success?
    ensures var url := RequestFor(c, base, call).value.url;
            |url| >= 8 && (url[..8] == "https://" <==> c.ssl) && (!c.ssl ==> url[..7] == "http://")
  {
    UrlUnderRoot(c, base, call);
    RootScheme(c);
    var url := RequestFor(c, base, call).value.url;
    assert url[..8] == Root(c)[..8];
    assert url[..7] == Root(c)[..7];
    if !c.ssl {
      assert url[4] == ':';
      assert "https://"[4] == 's';
    }
  }

  // ----- headers -----

  /** Every request carries a copy of the base headers with `Content-Type` set; all other entries are the base's.
      The base map itself is a constant of the session, so no call can change it. */
  lemma HeadersOfEveryCall(c: Credentials, base: map<string, string>, call: Call)
    requires RequestFor(c, base, call).Success?
    ensures call.AttachmentCall? ==> call.mimeType.Str?
    ensures RequestFor(c, base, call).value.verb == "GET"
    ensures RequestFor(c, base, call).value.headers == base[ContentType := ContentTypeFor(call)]
    ensures RequestFor(c, base, call).value.headers.Keys == base.Keys + {ContentType}
    ensures forall k :: k in base && k != ContentType ==> RequestFor(c, base, call).value.headers[k] == base[k]
  {
    if call.AttachmentCall? {
      var cs := AttachmentChecks(c, call.attachmentId, call.mimeType);
      assert !Fails(cs[2]);
    }
  }

  /** With the session's own base map, a request carries exactly the five headers, and `Authorization` holds the
      validated e-mail and API key. */
  lemma SessionHeaders(c: Credentials, call: Call)
    requires RequestFor(c, BaseHeaders(c), call).Success?
    ensures var h := RequestFor(c, BaseHeaders(c), call).value.headers;
            && h.Keys == {"Accept", "VE-API-Version", "user-agent", "Authorization", ContentType}
            && h["Accept"] == AcceptType
            && h["VE-API-Version"] == ApiVersion
            && h["user-agent"] == c.uag
            && c.email.Str? && c.apikey.Str?
            && h["Authorization"] == "Token token=" + c.email.s + ":" + c.apikey.s
            && h[ContentType] == ContentTypeFor(call)
  {
    HeadersOfEveryCall(c, BaseHeaders(c), call);
    if call.SearchCall? {
      var ps := Params(SearchParams(call.search));
      var cs := SearchChecks(c, call.search);
      assert !Fails(cs[0]) && !Fails(cs[1]);
    } else {
      ChecksComeFirst(c, BaseHeaders(c), call);
      var cs := ChecksFor(c, call);
      assert !Fails(cs[0]) && !Fails(cs[1]);
    }
  }

  // ----- validation before sending -----

  /** Outside `integration_search`, the checks run first: the first check that fails is the call's exception;
      otherwise the call raises only if building a query piece raises. */
  lemma ChecksComeFirst(c: Credentials, base: map<string, string>, call: Call)
    requires !call.SearchCall?
    ensures FirstFailure(ChecksFor(c, call)).Some? ==>
              RequestFor(c, base, call) == Failure(FirstFailure(ChecksFor(c, call)).value)
    ensures FirstFailure(ChecksFor(c, call)).None? ==>
              (RequestFor(c, base, call).Success? <==> Params(ParamsFor(call)).Success?)
    ensures FirstFailure(ChecksFor(c, call)).None? && Params(ParamsFor(call)).Failure? ==>
              RequestFor(c, base, call) == Failure(Params(ParamsFor(call)).error)
  {
  }

  /** `integration_search` builds its pieces first, then runs the checks, then rejects a call with no argument. */
  lemma SearchBuildsFirst(c: Credentials, base: map<string, string>, a: SearchArgs)
    ensures Params(SearchParams(a)).Failure? ==> SearchRequest(c, base, a) == Failure(Params(SearchParams(a)).error)
    ensures Params(SearchParams(a)).Success? && FirstFailure(SearchChecks(c, a)).Some? ==>
              SearchRequest(c, base, a) == Failure(FirstFailure(SearchChecks(c, a)).value)
    ensures SearchRequest(c, base, a).Success? ==> !NoSearchArgument(a)
  {
  }

  /** Any failing check, anywhere in the list, makes the call raise a TypeError; so nothing is sent. */
  lemma WrongTypeRaises(c: Credentials, base: map<string, string>, call: Call, k: nat)
    requires k < |ChecksFor(c, call)| && Fails(ChecksFor(c, call)[k])
    ensures RequestFor(c, base, call).Failure?
    ensures RequestFor(c, base, call).error.cls == TypeError
  {
    if call.SearchCall? {
      ParamsFailure(SearchParams(call.search));
    } else {
      ChecksComeFirst(c, base, call);
    }
  }

  /** Any error a call raises before sending is a TypeError or, for `integration_search` without argument,
      the ValueError; never a triagelib class. */
  lemma PreflightErrors(c: Credentials, base: map<string, string>, call: Call)
    requires RequestFor(c, base, call).Failure?
    ensures RequestFor(c, base, call).error.cls == TypeError
            || (call.SearchCall? && RequestFor(c, base, call).error == NoSearchArgumentError)
    ensures !Catches(TriageError, RequestFor(c, base, call).error)
  {
    ParamsFailure(ParamsFor(call));
  }

  /** Whatever the server answers, no call raises TriageStateError or TriageFailureError: pre-flight errors are
      Python's, `_reqsend` raises the status classes and `_parse` the base TriageError. */
  lemma NoStateOrFailureError(c: Credentials, base: map<string, string>, call: Call,
                              send: Request -> Response, isJson: string -> bool, kind: BodyKind)
    ensures var o := Perform(RequestFor(c, base, call), send, isJson, ToStr(c.host), kind);
            o.Raised? ==> o.exc.cls !in {TriageStateError, TriageFailureError}
  {
    if RequestFor(c, base, call).Failure? {
      PreflightErrors(c, base, call);
    }
  }

  /** `attachment` tests both its arguments whatever their truthiness: with valid credentials it succeeds exactly
      when the MIME type is a str and the id an int (a bool counts as an int). */
  lemma AttachmentAlwaysChecked(c: Credentials, base: map<string, string>, id: Value, mime: Value)
    requires c.email.Str? && c.apikey.Str?
    ensures AttachmentRequest(c, base, id, mime).Success? <==> mime.Str? && (id.Int? || id.Bool?)
    ensures !mime.Str? ==>
              AttachmentRequest(c, base, id, mime)
                == Failure(Raise(TypeError, ModuleName + ": " + ("mime_type" + " parameter must be " + "a string")))
    ensures mime.Str? && !(id.Int? || id.Bool?) ==>
              AttachmentRequest(c, base, id, mime)
                == Failure(Raise(TypeError, ModuleName + ": " + ("attachment_id" + " parameter must be " + "an integer")))
    ensures AttachmentRequest(c, base, id, mime).Success? ==>
              AttachmentRequest(c, base, id, mime).value.url == Root(c) + "attachment/" + ToStr(id)
  {
    var cs := AttachmentChecks(c, id, mime);
    assert !Fails(cs[0]) && !Fails(cs[1]);
    if !mime.Str? {
      assert Fails(cs[2]);
    } else if !(id.Int? || id.Bool?) {
      assert Fails(cs[3]);
    }
  }

  // ----- integration_search -----

  /** With valid credentials and str-or-falsy arguments, the search raises exactly when all three arguments are
      None, and then raises the ValueError. Several arguments at once are accepted; a falsy argument that is not
      None (an empty str, say) counts as given. */
  lemma SearchNeedsAnArgument(c: Credentials, base: map<string, string>, a: SearchArgs)
    requires c.email.Str? && c.apikey.Str?
    requires Truthy(a.sha256) ==> a.sha256.Str?
    requires Truthy(a.md5) ==> a.md5.Str?
    requires Truthy(a.searchurl) ==> a.searchurl.Str?
    ensures SearchRequest(c, base, a).Failure? <==> NoSearchArgument(a)
    ensures NoSearchArgument(a) ==> SearchRequest(c, base, a) == Failure(NoSearchArgumentError)
    ensures NoSearchArgumentError.cls == ValueError
  {
    ParamsFailure(SearchParams(a));
    var cs := SearchChecks(c, a);
    assert forall k :: 0 <= k < |cs| ==> !Fails(cs[k]);
  }

  /** With valid credentials the isinstance checks of `integration_search` never raise: a truthy argument that is
      not a str has already raised the concatenation TypeError while its piece was built. */
  lemma SearchChecksNeverFire(c: Credentials, base: map<string, string>, a: SearchArgs)
    requires c.email.Str? && c.apikey.Str?
    requires Params(SearchParams(a)).Success?
    ensures FirstFailure(SearchChecks(c, a)).None?
    ensures SearchRequest(c, base, a).Failure? ==> SearchRequest(c, base, a) == Failure(NoSearchArgumentError)
  {
    var ps := SearchParams(a);
    ParamsFailure(ps);
    assert Truthy(a.searchurl) ==> Encode(ps[0]).Success?;
    assert Truthy(a.md5) ==> Encode(ps[1]).Success?;
    var cs := SearchChecks(c, a);
    assert forall k :: 0 <= k < |cs| ==> !Fails(cs[k]);
  }

  /** A truthy `sha256` that is not a str (the guard meant for it tests `md5`) raises Python's concatenation
      TypeError, not the library's message. */
  lemma SearchSha256TypeError(c: Credentials, base: map<string, string>, a: SearchArgs)
    requires Truthy(a.sha256) && !a.sha256.Str?
    requires Truthy(a.searchurl) ==> a.searchurl.Str?
    requires Truthy(a.md5) ==> a.md5.Str?
    ensures SearchRequest(c, base, a)
              == Failure(Raise(TypeError, "can only concatenate str (not \"" + TypeName(a.sha256) + "\") to str"))
  {
    var ps := SearchParams(a);
    ParamsAt(ps, 0);
    ParamsAt(ps, 1);
    ParamsAt(ps, 2);
    assert ps[0..] == ps;
  }

  /** The search URL always carries `?`, even when every piece is absent. */
  lemma SearchAlwaysAsks(c: Credentials, base: map<string, string>, a: SearchArgs)
    requires SearchRequest(c, base, a).Success?
    ensures Params(SearchParams(a)).Success?
    ensures SearchRequest(c, base, a).value.url
              == Root(c) + "integration_search?" + JoinWith("&", Params(SearchParams(a)).value)
    ensures (forall i :: 0 <= i < 3 ==> !Truthy(SearchParams(a)[i].value)) ==>
              SearchRequest(c, base, a).value.url == Root(c) + "integration_search?"
  {
    ParamsEmpty(SearchParams(a), Params(SearchParams(a)).value);
  }

  // ----- the query string -----

  /** Every endpoint's argument keys are distinct and contain no `=`. */
  lemma KeysAreGood(call: Call)
    ensures GoodKeys(ParamsFor(call))
  {
    match call
    case ReportsCall(a) => ReportsKeysGood(a);
    case ProcessedCall(a) => ProcessedKeysGood(a);
    case InboxCall(a) => InboxKeysGood(a);
    case AttachmentCall(id, mime) =>
    case SearchCall(a) => SearchKeysGood(a);
    case ClustersCall(a) => ClustersKeysGood(a);
  }

  lemma ReportsKeysGood(a: ReportsArgs)
    ensures GoodKeys(ReportsParams(a))
  {
    GoodKeysBySignature(ReportsParams(a));
  }

  lemma ProcessedKeysGood(a: ProcessedArgs)
    ensures GoodKeys(ProcessedParams(a))
  {
    GoodKeysBySignature(ProcessedParams(a));
  }

  lemma InboxKeysGood(a: InboxArgs)
    ensures GoodKeys(InboxParams(a))
  {
    GoodKeysBySignature(InboxParams(a));
  }

  lemma SearchKeysGood(a: SearchArgs)
    ensures GoodKeys(SearchParams(a))
  {
    GoodKeysBySignature(SearchParams(a));
  }

  lemma ClustersKeysGood(a: ClustersArgs)
    ensures GoodKeys(ClustersParams(a))
  {
    GoodKeysBySignature(ClustersParams(a));
  }


  /** For every endpoint: a key is in the built piece list iff its argument is truthy, it sits at its argument's position,
      each truthy argument's piece is its encoding, and truthy arguments keep the endpoint's order. */
  lemma QueryKeys(call: Call, out: seq<string>)
    requires Params(ParamsFor(call)) == Success(out)
    ensures var ps := ParamsFor(call);
            forall i :: 0 <= i < |ps| ==>
              (Truthy(ps[i].value) <==> exists j :: 0 <= j < |out| && KeyOf(out[j]) == ps[i].key)
    ensures var ps := ParamsFor(call);
            forall i, j :: 0 <= i < |ps| && 0 <= j < |out| && KeyOf(out[j]) == ps[i].key ==> j == Position(ps, i)
    ensures var ps := ParamsFor(call);
            forall i :: 0 <= i < |ps| && Truthy(ps[i].value) ==>
              Position(ps, i) < |out| && Encode(ps[i]) == Success(out[Position(ps, i)])
    ensures var ps := ParamsFor(call);
            forall i, i' :: 0 <= i < i' < |ps| && Truthy(ps[i].value) && Truthy(ps[i'].value) ==>
              Position(ps, i) < Position(ps, i')
  {
    var ps := ParamsFor(call);
    KeysAreGood(call);
    ParamsKeyPresent(ps, out);
    ParamsKeyPlace(ps, out);
    ParamsForward(ps, out);
    ParamsOrder(ps);
  }

  /** A list endpoint's URL is the bare path exactly when every argument is falsy, and otherwise the path, `?`
      and the pieces joined by `&` (which `SplitJoin` reads back when no value holds an `&`). */
  lemma ListQuery(c: Credentials, base: map<string, string>, call: Call, out: seq<string>)
    requires IsListCall(call)
    requires RequestFor(c, base, call).Success?
    requires Params(ParamsFor(call)) == Success(out)
    ensures RequestFor(c, base, call).value.url
              == Root(c) + PathFor(call) + (if out == [] then "" else "?" + JoinWith("&", out))
    ensures out == [] <==> forall i :: 0 <= i < |ParamsFor(call)| ==> !Truthy(ParamsFor(call)[i].value)
  {
    ParamsEmpty(ParamsFor(call), out);
    UrlUnderRoot(c, base, call);
    ListTail(c, call, out);
  }

  lemma ListTail(c: Credentials, call: Call, out: seq<string>)
    requires IsListCall(call)
    ensures UrlTail(c, call, out) == PathFor(call) + (if out == [] then "" else "?" + JoinWith("&", out))
  {
  }

  /** A truthy `report_id` selects one report by path; the filters are still checked and built, but left out. */
  lemma ReportsById(c: Credentials, base: map<string, string>, a: ReportsArgs)
    requires Truthy(a.reportId)
    requires FirstFailure(ReportsChecks(c, a)).None? && Params(ReportsParams(a)).Success?
    ensures ReportsRequest(c, base, a).Success?
    ensures a.reportId.Int? || a.reportId.Bool?
    ensures ReportsRequest(c, base, a).value.url == Root(c) + "reports/" + ToStr(a.reportId)
  {
    assert !Fails(ReportsChecks(c, a)[7]);
  }

  /** `reports` appends `match_priority` before `category_id`; `processed_reports` the other way round. */
  lemma CategoryAndPriorityOrder(r: ReportsArgs, p: ProcessedArgs)
    requires Truthy(r.matchPriority) && Truthy(r.categoryId)
    requires Truthy(p.matchPriority) && Truthy(p.categoryId)
    ensures Position(ReportsParams(r), 5) < Position(ReportsParams(r), 6)
    ensures ReportsParams(r)[5].key == "match_priority" && ReportsParams(r)[6].key == "category_id"
    ensures Position(ProcessedParams(p), 5) < Position(ProcessedParams(p), 6)
    ensures ProcessedParams(p)[5].key == "category_id" && ProcessedParams(p)[6].key == "match_priority"
  {
    PositionOrder(ReportsParams(r), 5, 6);
    PositionOrder(ProcessedParams(p), 5, 6);
  }

  /** `reports` joins its list of tags with commas; each tag goes in as it is. */
  lemma ReportsTagsCommaJoined(a: ReportsArgs, out: seq<string>)
    requires Params(ReportsParams(a)) == Success(out)
    requires a.tags.List? && a.tags.items != []
    ensures forall k :: 0 <= k < |a.tags.items| ==> a.tags.items[k].Str?
    ensures out != []
    ensures out[0] == "tags=" + JoinWith(",", Strs(a.tags.items))
  {
    var ps := ReportsParams(a);
    ParamsForward(ps, out);
    assert ps[..0] == [];
    ParamsFailure(ps);
    assert Encode(ps[0]) == Success(Piece("tags", JoinList(",", a.tags.items).value));
    assert "tags" + "=" == "tags=";
  }

  /** `clusters` takes `tags` as one str and inserts it as it is. */
  lemma ClustersTagsVerbatim(a: ClustersArgs, out: seq<string>)
    requires Params(ClustersParams(a)) == Success(out)
    requires Truthy(a.tags)
    ensures a.tags.Str? && out != [] && out[0] == "tags=" + a.tags.s
  {
    var ps := ClustersParams(a);
    ParamsForward(ps, out);
    assert ps[..0] == [];
    ParamsFailure(ps);
    assert Encode(ps[0]).Success?;
    assert "tags" + "=" == "tags=";
  }

  // ----- a falsy argument is the same as no argument -----

  /** None in place of a falsy value. */
  function Absent(v: Value): (r: Value)
    ensures Truthy(v) ==> r == v
    ensures !Truthy(v) ==> r == PyNone
  {
    if Truthy(v) then v else PyNone
  }

  /** An optional check or argument behaves the same on a value and on `Absent` of it. */
  lemma OptionalAlike(v: Value, kind: Kind, name: string, key: string, enc: Enc)
    ensures Alike(Check(v, kind, true, name), Check(Absent(v), kind, true, name))
    ensures ParamAlike(Param(key, v, enc), Param(key, Absent(v), enc))
  {
  }

  function ReportsAbsent(a: ReportsArgs): (b: ReportsArgs)
  {
    ReportsArgs(Absent(a.matchPriority), Absent(a.categoryId), Absent(a.startDate), Absent(a.tags), Absent(a.endDate),
                Absent(a.page), Absent(a.perPage), Absent(a.reportId))
  }

  /** Check and argument lists that agree up to falsy values raise alike and build the same pieces. */
  lemma ListsAlike(cs: seq<Check>, ds: seq<Check>, ps: seq<Param>, qs: seq<Param>)
    requires |cs| == |ds| && |ps| == |qs|
    requires forall k :: 0 <= k < |cs| ==>
               ds[k] == cs[k] || (cs[k].optional && ds[k] == cs[k].(value := Absent(cs[k].value)))
    requires forall k :: 0 <= k < |ps| ==> qs[k] == ps[k].(value := Absent(ps[k].value))
    ensures FirstFailure(cs) == FirstFailure(ds)
    ensures Params(ps) == Params(qs)
  {
    forall k | 0 <= k < |cs| ensures Alike(cs[k], ds[k]) {
      OptionalAlike(cs[k].value, cs[k].kind, cs[k].name, "", Verbatim);
    }
    FirstFailureAlike(cs, ds);
    forall k | 0 <= k < |ps| ensures ParamAlike(ps[k], qs[k]) {
      OptionalAlike(ps[k].value, IntKind, "", ps[k].key, ps[k].enc);
    }
    ParamsAlike(ps, qs);
  }

  /** Passing 0, False, "" or [] for an optional argument of `reports` is the same as passing None. */
  lemma ReportsFalsyIsNone(c: Credentials, base: map<string, string>, a: ReportsArgs)
    ensures ReportsRequest(c, base, a) == ReportsRequest(c, base, ReportsAbsent(a))
  {
    ReportsListsAlike(c, a);
    assert Truthy(a.reportId) ==> ReportsAbsent(a).reportId == a.reportId;
  }

  lemma ReportsListsAlike(c: Credentials, a: ReportsArgs)
    ensures FirstFailure(ReportsChecks(c, a)) == FirstFailure(ReportsChecks(c, ReportsAbsent(a)))
    ensures Params(ReportsParams(a)) == Params(ReportsParams(ReportsAbsent(a)))
  {
    ListsAlike(ReportsChecks(c, a), ReportsChecks(c, ReportsAbsent(a)), ReportsParams(a), ReportsParams(ReportsAbsent(a)));
  }

  function ProcessedAbsent(a: ProcessedArgs): (b: ProcessedArgs)
  {
    ProcessedArgs(Absent(a.matchPriority), Absent(a.categoryId), Absent(a.startDate), Absent(a.tags),
                  Absent(a.endDate), Absent(a.page), Absent(a.perPage))
  }

  lemma ProcessedFalsyIsNone(c: Credentials, base: map<string, string>, a: ProcessedArgs)
    ensures ProcessedRequest(c, base, a) == ProcessedRequest(c, base, ProcessedAbsent(a))
  {
    ListsAlike(ProcessedChecks(c, a), ProcessedChecks(c, ProcessedAbsent(a)),
               ProcessedParams(a), ProcessedParams(ProcessedAbsent(a)));
  }

  function InboxAbsent(a: InboxArgs): (b: InboxArgs)
  {
    InboxArgs(Absent(a.matchPriority), Absent(a.startDate), Absent(a.endDate), Absent(a.page), Absent(a.perPage))
  }

  lemma InboxFalsyIsNone(c: Credentials, base: map<string, string>, a: InboxArgs)
    ensures InboxRequest(c, base, a) == InboxRequest(c, base, InboxAbsent(a))
  {
    ListsAlike(InboxChecks(c, a), InboxChecks(c, InboxAbsent(a)), InboxParams(a), InboxParams(InboxAbsent(a)));
  }

  function ClustersAbsent(a: ClustersArgs): (b: ClustersArgs)
  {
    ClustersArgs(Absent(a.matchPriority), Absent(a.startDate), Absent(a.endDate), Absent(a.page), Absent(a.perPage),
                 Absent(a.tags))
  }

  lemma ClustersFalsyIsNone(c: Credentials, base: map<string, string>, a: ClustersArgs)
    ensures ClustersRequest(c, base, a) == ClustersRequest(c, base, ClustersAbsent(a))
  {
    ListsAlike(ClustersChecks(c, a), ClustersChecks(c, ClustersAbsent(a)),
               ClustersParams(a), ClustersParams(ClustersAbsent(a)));
  }

  /** `integration_search` is the exception: its argument test is `is None`, so an empty str is not the same
      as None. */
  lemma SearchEmptyIsNotNone(c: Credentials, base: map<string, string>)
    requires c.email.Str? && c.apikey.Str?
    ensures SearchRequest(c, base, SearchArgs(PyNone, PyNone, PyNone)) == Failure(NoSearchArgumentError)
    ensures SearchRequest(c, base, SearchArgs(PyNone, Str(""), PyNone)).Success?
    ensures SearchRequest(c, base, SearchArgs(PyNone, Str(""), PyNone)).value.url == Root(c) + "integration_search?"
  {
    SearchNeedsAnArgument(c, base, SearchArgs(PyNone, PyNone, PyNone));
    SearchNeedsAnArgument(c, base, SearchArgs(PyNone, Str(""), PyNone));
    SearchAlwaysAsks(c, base, SearchArgs(PyNone, Str(""), PyNone));
  }

  // ----- worked examples -----

  function TagsAndPage(x: string, y: string, n: int): (b: ReportsArgs)
  {
    ReportsArgs(PyNone, PyNone, PyNone, List([Str(x), Str(y)]), PyNone, Int(n), PyNone, PyNone)
  }

  /** `reports(tags=[x, y], page=n)` asks for `.../reports?tags=x,y&page=n`: the tags joined by a comma, the
      values inserted as they are. */
  lemma ReportsTagsAndPage(c: Credentials, base: map<string, string>, x: string, y: string, n: int)
    requires c.email.Str? && c.apikey.Str? && n != 0
    ensures var r := ReportsRequest(c, base, TagsAndPage(x, y, n));
            r.Success? && r.value.url == Root(c) + ("reports?tags=" + x + "," + y + "&page=" + IntToStr(n))
  {
    TagsAndPageChecksPass(c, x, y, n);
    TagsAndPagePieces(x, y, n);
    var out := [Piece("tags", x + "," + y), Piece("page", IntToStr(n))];
    var tail := "?" + JoinWith("&", out);
    assert ReportsRequest(c, base, TagsAndPage(x, y, n)).value.url == Root(c) + "reports" + tail;
    TagsAndPageText(x, y, n);
    AppendAssoc(Root(c), "reports", tail);
  }

  /** Regrouping a concatenation, kept apart so that the literal-heavy proof above stays small. */
  lemma AppendAssoc(a: string, b: string, c: string)
    ensures a + b + c == a + (b + c)
  {
  }

  lemma TagsAndPageText(x: string, y: string, n: int)
    ensures var out := [Piece("tags", x + "," + y), Piece("page", IntToStr(n))];
            "reports" + ("?" + JoinWith("&", out)) == "reports?tags=" + x + "," + y + "&page=" + IntToStr(n)
  {
    var p0, p1 := Piece("tags", x + "," + y), Piece("page", IntToStr(n));
    assert JoinWith("&", [p0, p1]) == p0 + "&" + p1 by {
      assert [p0, p1][..1] == [p0];
    }
  }

  lemma TagsAndPageChecksPass(c: Credentials, x: string, y: string, n: int)
    requires c.email.Str? && c.apikey.Str?
    ensures FirstFailure(ReportsChecks(c, TagsAndPage(x, y, n))).None?
  {
    var cs := ReportsChecks(c, TagsAndPage(x, y, n));
    assert forall k :: 0 <= k < |cs| ==> !Fails(cs[k]);
  }

  lemma TagsAndPagePieces(x: string, y: string, n: int)
    requires n != 0
    ensures Params(ReportsParams(TagsAndPage(x, y, n)))
              == Success([Piece("tags", x + "," + y), Piece("page", IntToStr(n))])
  {
    var ps := ReportsParams(TagsAndPage(x, y, n));
    var target := Params(ps);
    var p0, p1 := Piece("tags", x + "," + y), Piece("page", IntToStr(n));
    TagsPieceFirst(x, y, n);
    DecimalStep(ps, 1, [p0], target);
    assert [p0] + [p1] == [p0, p1];
    DecimalStep(ps, 2, [p0, p1], target);
    VerbatimStep(ps, 3, [p0, p1], target);
    VerbatimStep(ps, 4, [p0, p1], target);
    DecimalStep(ps, 5, [p0, p1], target);
    DecimalStep(ps, 6, [p0, p1], target);
    BuiltDone(ps, [p0, p1], target);
  }

  lemma TagsPieceFirst(x: string, y: string, n: int)
    ensures var ps := ReportsParams(TagsAndPage(x, y, n));
            Built(ps, 1, [Piece("tags", x + "," + y)], Params(ps))
  {
    var ps := ReportsParams(TagsAndPage(x, y, n));
    assert JoinList(",", [Str(x), Str(y)]) == Success(x + "," + y) by {
      assert [Str(x), Str(y)][..1] == [Str(x)];
      assert [Str(x)][..0] == [];
    }
    assert ps[0] == Param("tags", List([Str(x), Str(y)]), CommaList);
    BuiltStart(ps);
    ListStep(ps, 0, [], Params(ps));
    assert [] + [Piece("tags", x + "," + y)] == [Piece("tags", x + "," + y)];
  }

  /** `inbox_reports(page=True)`: a bool passes the int check and is rendered by `str()` as `True`. */
  lemma InboxPageTrue(c: Credentials, base: map<string, string>)
    requires c.email.Str? && c.apikey.Str?
    ensures var r := InboxRequest(c, base, InboxArgs(PyNone, PyNone, PyNone, Bool(true), PyNone));
            r.Success? && r.value.url == Root(c) + "inbox_reports?page=True"
  {
    var a := InboxArgs(PyNone, PyNone, PyNone, Bool(true), PyNone);
    PageTrueChecksPass(c);
    PageTruePieces();
    PageTrueText();
    assert InboxRequest(c, base, a).value.url == ListUrl(c, "inbox_reports", [Piece("page", "True")]);
  }

  lemma PageTrueText()
    ensures "inbox_reports" + "?" + JoinWith("&", [Piece("page", "True")]) == "inbox_reports?page=True"
  {
  }

  lemma PageTrueChecksPass(c: Credentials)
    requires c.email.Str? && c.apikey.Str?
    ensures FirstFailure(InboxChecks(c, InboxArgs(PyNone, PyNone, PyNone, Bool(true), PyNone))).None?
  {
    var cs := InboxChecks(c, InboxArgs(PyNone, PyNone, PyNone, Bool(true), PyNone));
    assert forall k :: 0 <= k < |cs| ==> !Fails(cs[k]);
  }

  lemma PageTruePieces()
    ensures Params(InboxParams(InboxArgs(PyNone, PyNone, PyNone, Bool(true), PyNone))) == Success([Piece("page", "True")])
  {
    var ps := InboxParams(InboxArgs(PyNone, PyNone, PyNone, Bool(true), PyNone));
    var p0 := Piece("page", "True");
    var target := Params(ps);
    BuiltStart(ps);
    DecimalStep(ps, 0, [], target);
    assert [] + [p0] == [p0];
    DecimalStep(ps, 1, [p0], target);
    VerbatimStep(ps, 2, [p0], target);
    VerbatimStep(ps, 3, [p0], target);
    DecimalStep(ps, 4, [p0], target);
    BuiltDone(ps, [p0], target);
  }
}
