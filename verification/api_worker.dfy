// The in-memory API worker: two process-wide maps, `urlStore` (record id ->
// record) and `codeStore` (short code -> original URL), the handlers that read
// and write them, and the router that picks a handler for a request.
module ApiWorker {
  import opened Web
  import opened ShortCode

  /** A record id, as `crypto.randomUUID()` returns it. */
  type Id = string

  /** How many drawn codes handleShorten checks against `codeStore`. */
  const MaxAttempts := 10

  // Messages of the error and fallback replies.
  const UrlRequired := "URL is required"
  const InvalidProtocol := "Invalid URL protocol"
  const InvalidFormat := "Invalid URL format"
  const NoUniqueCode := "Failed to generate unique short code"
  const InternalError := "Internal server error"
  const UrlNotFound := "URL not found"
  const EndpointNotFound := "API endpoint not found"
  const FallbackText := "URL Shortener API - Use /api/shorten to create short URLs"

  const ApiPrefix := "/api/"
  const ResolvePrefix := "/api/resolve/"

  /** One shortened link, as `urlStore` holds it and `/api/urls` lists it. */
  datatype UrlData = UrlData(
    id: Id,
    originalUrl: string,
    shortCode: string,
    shortUrl: string,
    clicks: nat,
    createdAt: string)

  /** What a reply carries: nothing (the CORS preflight), plain text, one of
      the JSON objects, or a redirect to a location. */
  datatype ApiBody =
    | Empty
    | PlainText(text: string)
    | JsonError(error: string)
    | JsonShortened(id: Id, shortCode: string, shortUrl: string, originalUrl: string)
    | JsonResolved(originalUrl: string, shortCode: string)
    | JsonUrls(urls: seq<UrlData>)
    | Redirect(location: string)

  type Reply = Response<ApiBody>

  /** The body of POST /api/shorten as `request.json()` reads it: not JSON
      at all, or an object whose `url` member may be missing. */
  datatype ShortenBody = Unparseable | JsonObject(url: Option<string>)

  /** The parts of a request the worker looks at. */
  datatype ApiRequest = ApiRequest(verb: string, pathname: string, host: Option<string>, body: ShortenBody)

  /** The reply handleShorten gives before drawing any code, if the url is
      missing, empty, unparseable or not http(s). */
  function Rejection(parse: UrlParser, url: Option<string>): (r: Option<Reply>)
    ensures r.None? <==> url.Some? && url.value != "" && IsValidUrl(parse, url.value)
    ensures r.Some? ==> r.value.status == BadRequest && r.value.body.JsonError?
  {
    if !Truthy(url) then Some(Response(BadRequest, JsonError(UrlRequired)))
    else if parse(url.value).None? then Some(Response(BadRequest, JsonError(InvalidFormat)))
    else if parse(url.value).value.protocol !in ["http:", "https:"] then
      Some(Response(BadRequest, JsonError(InvalidProtocol)))
    else None
  }

  /** The API worker's validation (a truthy `url` that parses with an http(s)
      protocol) accepts exactly the non-empty strings the bot's isValidUrl
      accepts. */
  lemma SameValidation(parse: UrlParser, s: string)
    ensures Rejection(parse, Some(s)).None? <==> s != "" && IsValidUrl(parse, s)
    ensures s != "" && !IsValidUrl(parse, s) ==> Rejection(parse, Some(s)).value.status == BadRequest
  {
  }

  /** `https://${host}/${shortCode}`, where a missing Host header reads "null". */
  function ShortUrl(host: Option<string>, code: string): (u: string)
    ensures StartsWith(u, "https://")
    ensures |u| > |code| && u[|u| - |code| - 1..] == "/" + code
  {
    var h := match host case Some(name) => name case None => "null";
    "https://" + h + "/" + code
  }

  /** How handleShorten ends: with a reply that changes nothing, or by
      creating a link from `code` to `url`. */
  datatype Outcome = Refused(reply: Reply) | Created(code: string, url: string)

  /** handleShorten's decision, given the codes in use and the draws its loop
      would make. */
  function ShortenOutcome(parse: UrlParser, codes: set<string>, body: ShortenBody, draws: seq<seq<Random>>): (r: Outcome)
    requires MaxAttempts <= |draws|
    requires forall k :: 0 <= k < |draws| ==> |draws[k]| == ApiCodeLength
    ensures r.Created? <==>
      && body.JsonObject? && body.url.Some? && body.url.value != "" && IsValidUrl(parse, body.url.value)
      && exists k :: 0 <= k < MaxAttempts && CodeOf(draws[k]) !in codes
    ensures r.Created? ==> body.url == Some(r.url) && r.code !in codes
    ensures r.Created? ==> |r.code| == ApiCodeLength && IsCode(r.code)
    ensures r.Created? ==> exists k :: 0 <= k < MaxAttempts && r.code == CodeOf(draws[k])
    ensures r.Created? ==> r.code == CodeOf(draws[FirstFree(codes, draws, 0, MaxAttempts).value])
    ensures r.Refused? ==> r.reply.status in {BadRequest, InternalServerError}
    ensures body.Unparseable? ==> r == Refused(Response(InternalServerError, JsonError(InternalError)))
    ensures body.JsonObject? && Rejection(parse, body.url).Some? ==> r == Refused(Rejection(parse, body.url).value)
    ensures body.JsonObject? && Rejection(parse, body.url).None? && FirstFree(codes, draws, 0, MaxAttempts).None? ==>
      r == Refused(Response(InternalServerError, JsonError(NoUniqueCode)))
  {
    match body
    case Unparseable => Refused(Response(InternalServerError, JsonError(InternalError)))
    case JsonObject(url) =>
      match Rejection(parse, url)
      case Some(reply) => Refused(reply)
      case None =>
        match FirstFree(codes, draws, 0, MaxAttempts)
        case None => Refused(Response(InternalServerError, JsonError(NoUniqueCode)))
        case Some(k) => Created(CodeOf(draws[k]), url.value)
  }

  /** The collision-retry loop of handleShorten: draw a code, count the
      attempt, give up once more than MaxAttempts codes were drawn, and stop
      at the first code `codeStore` does not have. `drawn` is the number of
      codes generated, the last of which is never checked when all collide. */
  method DrawFreshCode(codeStore: map<string, string>, draws: seq<seq<Random>>) returns (code: Option<string>, drawn: nat)
    requires MaxAttempts < |draws|
    requires forall k :: 0 <= k < |draws| ==> |draws[k]| == ApiCodeLength
    ensures code.Some? <==> FirstFree(codeStore.Keys, draws, 0, MaxAttempts).Some?
    ensures code.Some? ==>
      var k := FirstFree(codeStore.Keys, draws, 0, MaxAttempts).value;
      code.value == CodeOf(draws[k]) && drawn == k + 1
    ensures code.None? ==> drawn == MaxAttempts + 1
  {
    ghost var taken := codeStore.Keys;
    var attempts := 0;
    while true
      invariant 0 <= attempts <= MaxAttempts
      invariant forall j :: 0 <= j < attempts ==> CodeOf(draws[j]) in taken
      decreases MaxAttempts - attempts
    {
      var shortCode := GenerateShortCode(ApiCodeLength, draws[attempts]);
      attempts := attempts + 1;
      if attempts > MaxAttempts {
        NoneFree(taken, draws, MaxAttempts);
        return None, attempts;
      }
      if shortCode !in codeStore {
        assert shortCode !in taken;
        FirstFreeIs(taken, draws, MaxAttempts, attempts - 1);
        return Some(shortCode), attempts;
      }
      assert shortCode in taken;
    }
  }

  /** `handleListUrls`: the records in the order they were created. */
  function Listing(order: seq<Id>, urlStore: map<Id, UrlData>): (urls: seq<UrlData>)
    requires forall k :: 0 <= k < |order| ==> order[k] in urlStore
    ensures |urls| == |order|
    ensures forall k :: 0 <= k < |order| ==> urls[k] == urlStore[order[k]]
  {
    if order == [] then []
    else Listing(order[..|order| - 1], urlStore) + [urlStore[order[|order| - 1]]]
  }

  /** One click on `code`: the record with that code counts it. */
  function Click(data: UrlData, code: string): UrlData
  {
    if data.shortCode == code then data.(clicks := data.clicks + 1) else data
  }

  function Clicked(urlStore: map<Id, UrlData>, code: string): map<Id, UrlData>
  {
    map id | id in urlStore :: Click(urlStore[id], code)
  }

  /** The invariant of the two maps. `order` is the iteration order of
      `urlStore`; `owner` names, for each code, the record it belongs to. */
  ghost predicate Consistent(
    parse: UrlParser, urlStore: map<Id, UrlData>, codeStore: map<string, string>,
    order: seq<Id>, owner: map<string, Id>)
  {
    // each record appears once in the iteration order, under its own id
    && (forall i, j :: 0 <= i < j < |order| ==> order[i] != order[j])
    && (forall id :: id in urlStore <==> id in order)
    && (forall id :: id in urlStore ==> urlStore[id].id == id)
    // every code has exactly one record, with the same code and URL
    && owner.Keys == codeStore.Keys
    && (forall c :: c in codeStore ==>
          owner[c] in urlStore && urlStore[owner[c]].shortCode == c
          && urlStore[owner[c]].originalUrl == codeStore[c])
    && (forall id :: id in urlStore ==>
          urlStore[id].shortCode in owner && owner[urlStore[id].shortCode] == id)
    // every stored URL passed validation
    && (forall c :: c in codeStore ==> codeStore[c] != "" && IsValidUrl(parse, codeStore[c]))
  }

  /** Adding a fresh record under a fresh code with a valid URL keeps the
      invariant. */
  lemma InsertKeepsConsistent(
    parse: UrlParser, urlStore: map<Id, UrlData>, codeStore: map<string, string>,
    order: seq<Id>, owner: map<string, Id>, data: UrlData)
    requires Consistent(parse, urlStore, codeStore, order, owner)
    requires data.id !in urlStore && data.shortCode !in codeStore
    requires data.originalUrl != "" && IsValidUrl(parse, data.originalUrl)
    ensures Consistent(parse, urlStore[data.id := data], codeStore[data.shortCode := data.originalUrl],
      order + [data.id], owner[data.shortCode := data.id])
  {
    var order' := order + [data.id];
    assert forall i :: 0 <= i < |order| ==> order'[i] == order[i];
    assert forall id :: id in order' <==> id in order || id == data.id;
  }

  /** Code uniqueness: a code names one record, and only codes in `codeStore`
      name any. */
  lemma OneRecordPerCode(
    parse: UrlParser, urlStore: map<Id, UrlData>, codeStore: map<string, string>,
    order: seq<Id>, owner: map<string, Id>, code: string)
    requires Consistent(parse, urlStore, codeStore, order, owner)
    ensures forall id :: id in urlStore && urlStore[id].shortCode == code ==>
      code in codeStore && id == owner[code]
  {
  }

  /** A click adds exactly 1 to the clicks of the one record that has the
      code, and changes nothing when no record has it. */
  lemma ClickCountsOnce(
    parse: UrlParser, urlStore: map<Id, UrlData>, codeStore: map<string, string>,
    order: seq<Id>, owner: map<string, Id>, code: string)
    requires Consistent(parse, urlStore, codeStore, order, owner)
    ensures code in codeStore ==>
      var id := owner[code];
      Clicked(urlStore, code) == urlStore[id := urlStore[id].(clicks := urlStore[id].clicks + 1)]
    ensures code !in codeStore ==> Clicked(urlStore, code) == urlStore
  {
    OneRecordPerCode(parse, urlStore, codeStore, order, owner, code);
    if code in codeStore {
      var id := owner[code];
      var bumped := urlStore[id := urlStore[id].(clicks := urlStore[id].clicks + 1)];
      assert forall x :: x in urlStore ==> Clicked(urlStore, code)[x] == bumped[x];
    } else {
      assert forall x :: x in urlStore ==> Clicked(urlStore, code)[x] == urlStore[x];
    }
  }

  /** Counting a click keeps the invariant, never lowers a count and never
      touches a record's id, URL, code or creation time. */
  lemma ClickKeepsConsistent(
    parse: UrlParser, urlStore: map<Id, UrlData>, codeStore: map<string, string>,
    order: seq<Id>, owner: map<string, Id>, code: string)
    requires Consistent(parse, urlStore, codeStore, order, owner)
    ensures Consistent(parse, Clicked(urlStore, code), codeStore, order, owner)
    ensures forall id :: id in urlStore ==>
      var d := Clicked(urlStore, code)[id];
      && d.clicks >= urlStore[id].clicks
      && d == urlStore[id].(clicks := d.clicks)
  {
  }

  /** The listing shows each code of `codeStore` exactly once, with its URL,
      and nothing else. */
  lemma ListingMatchesCodeStore(
    parse: UrlParser, urlStore: map<Id, UrlData>, codeStore: map<string, string>,
    order: seq<Id>, owner: map<string, Id>)
    requires Consistent(parse, urlStore, codeStore, order, owner)
    ensures forall k :: 0 <= k < |order| ==> order[k] in urlStore
    ensures var urls := Listing(order, urlStore);
      && (forall k :: 0 <= k < |urls| ==>
            urls[k].shortCode in codeStore && codeStore[urls[k].shortCode] == urls[k].originalUrl)
      && (forall k, m :: 0 <= k < m < |urls| ==> urls[k].shortCode != urls[m].shortCode)
      && (forall c :: c in codeStore ==> exists k :: 0 <= k < |urls| && urls[k].shortCode == c)
  {
    var urls := Listing(order, urlStore);
    forall c | c in codeStore
      ensures exists k :: 0 <= k < |urls| && urls[k].shortCode == c
    {
      assert owner[c] in order;
      var k :| 0 <= k < |order| && order[k] == owner[c];
      assert urls[k].shortCode == c;
    }
  }

  /** Where the router sends a request. */
  datatype ApiRoute =
    | Preflight
    | ShortenRoute
    | ListRoute
    | QrRoute
    | ResolveRoute(code: string)
    | UnknownApi
    | RedirectRoute(code: string)
    | Fallback

  /** `handleRequest`'s dispatch on method and path; `codes` are the keys of
      `codeStore`. */
  function RouteRequest(verb: string, path: string, codes: set<string>): (r: ApiRoute)
    ensures r.Preflight? <==> verb == "OPTIONS"
    ensures (r.RedirectRoute? || r.Fallback?) <==> verb != "OPTIONS" && !StartsWith(path, ApiPrefix)
    ensures r.RedirectRoute? ==> r.code in codes && |path| > 1 && r.code == path[1..] && '.' !in path
    ensures verb != "OPTIONS" && !StartsWith(path, ApiPrefix) && |path| > 1 && '.' !in path && path[1..] in codes ==>
      r == RedirectRoute(path[1..])
    ensures r.ShortenRoute? <==> verb == "POST" && path == "/api/shorten"
    ensures r.ListRoute? <==> verb == "GET" && path == "/api/urls"
    ensures r.QrRoute? <==> verb == "POST" && path == "/api/qr"
    ensures r.ResolveRoute? <==> verb == "GET" && StartsWith(path, ResolvePrefix)
    ensures r.ResolveRoute? ==> StartsWith(path, ResolvePrefix + r.code)
    ensures r.UnknownApi? <==>
      && verb != "OPTIONS" && StartsWith(path, ApiPrefix)
      && !(verb == "POST" && path in {"/api/shorten", "/api/qr"})
      && !(verb == "GET" && (path == "/api/urls" || StartsWith(path, ResolvePrefix)))
  {
    if verb == "OPTIONS" then Preflight
    else if StartsWith(path, ApiPrefix) then
      if path == "/api/shorten" && verb == "POST" then ShortenRoute
      else if path == "/api/urls" && verb == "GET" then ListRoute
      else if path == "/api/qr" && verb == "POST" then QrRoute
      else if StartsWith(path, ResolvePrefix) && verb == "GET" then
        ResolveRoute(Before(path[|ResolvePrefix|..], ResolvePrefix))
      else UnknownApi
    else if |path| > 1 && '.' !in path && path[1..] in codes then RedirectRoute(path[1..])
    else Fallback
  }

  /** A code the worker issued is redirected from `/<code>`, whatever the request
      method, unless it is OPTIONS. */
  lemma IssuedCodeRedirects(verb: string, code: string, codes: set<string>)
    requires IsCode(code) && code != "" && code in codes
    requires verb != "OPTIONS"
    ensures RouteRequest(verb, "/" + code, codes) == RedirectRoute(code)
  {
    CodeHasNoSeparators(code);
    var path := "/" + code;
    if |code| >= 4 {
      assert path[4] == code[3];
    }
    assert !StartsWith(path, ApiPrefix);
    assert path[1..] == code;
  }

  /** `GET /api/resolve/<code>` resolves exactly that code. */
  lemma ResolvePathResolves(code: string, codes: set<string>)
    requires IsCode(code)
    ensures RouteRequest("GET", ResolvePrefix + code, codes) == ResolveRoute(code)
  {
    CodeHasNoSeparators(code);
    var path := ResolvePrefix + code;
    assert StartsWith(path, ApiPrefix) by {
      assert path[..|ApiPrefix|] == ApiPrefix;
    }
    assert path[|ResolvePrefix|..] == code;
    BeforeMissing(code, ResolvePrefix);
  }

  /** The two process-wide maps of the worker and its handlers. */
  class Worker {
    /** The runtime's URL parser. */
    const parse: UrlParser
    var urlStore: map<Id, UrlData>
    var codeStore: map<string, string>
    /** The ids of `urlStore` in insertion order, which is the order its
        `entries()` and `values()` iterate in. */
    var order: seq<Id>
    ghost var owner: map<string, Id>

    ghost predicate Valid()
      reads this
    {
      Consistent(parse, urlStore, codeStore, order, owner)
    }

    constructor (parse: UrlParser)
      ensures Valid() && this.parse == parse
      ensures urlStore == map[] && codeStore == map[] && order == []
    {
      this.parse := parse;
      urlStore, codeStore, order := map[], map[], [];
      owner := map[];
    }

    /** handleShorten's effect: the reply, and the maps changed as its
        outcome says. */
    twostate predicate ShortenedAs(
      body: ShortenBody, host: Option<string>, draws: seq<seq<Random>>, freshId: Id, now: string, new resp: Reply)
      requires MaxAttempts <= |draws|
      requires forall k :: 0 <= k < |draws| ==> |draws[k]| == ApiCodeLength
      reads this
    {
      match ShortenOutcome(parse, old(codeStore).Keys, body, draws)
      case Refused(reply) =>
        && resp == reply
        && urlStore == old(urlStore) && codeStore == old(codeStore) && order == old(order)
      case Created(code, url) =>
        && resp == Response(Ok, JsonShortened(freshId, code, ShortUrl(host, code), url))
        && codeStore == old(codeStore)[code := url]
        && urlStore == old(urlStore)[freshId := UrlData(freshId, url, code, ShortUrl(host, code), 0, now)]
        && order == old(order) + [freshId]
    }

    /** The effect of one click on `code`. */
    twostate predicate ClickedAs(code: string)
      reads this
    {
      urlStore == Clicked(old(urlStore), code) && codeStore == old(codeStore) && order == old(order)
    }

    /** The reply of handleResolve. */
    function ResolveReply(code: string): Reply
      reads this
    {
      if code in codeStore then Response(Ok, JsonResolved(codeStore[code], code))
      else Response(NotFound, JsonError(UrlNotFound))
    }

    /** The reply of handleRedirect: `Response.redirect` sends the parsed
        URL's serialisation as the location. */
    function RedirectReply(code: string): Reply
      requires Valid()
      reads this
    {
      if code in codeStore then Response(Found, Redirect(parse(codeStore[code]).value.href))
      else Response(NotFound, PlainText(UrlNotFound))
    }

    /** `handleShorten`. `draws` are the `Math.random()` values of the
        successive generateShortCode calls, `freshId` is the value of
        `crypto.randomUUID()` and `now` the creation time. */
    method HandleShorten(body: ShortenBody, host: Option<string>, draws: seq<seq<Random>>, freshId: Id, now: string)
      returns (resp: Reply)
      requires Valid()
      requires MaxAttempts < |draws|
      requires forall k :: 0 <= k < |draws| ==> |draws[k]| == ApiCodeLength
      requires freshId !in urlStore
      modifies this
      ensures Valid()
      ensures ShortenedAs(body, host, draws, freshId, now, resp)
    {
      if body.Unparseable? {
        return Response(InternalServerError, JsonError(InternalError));
      }
      var rejection := Rejection(parse, body.url);
      if rejection.Some? {
        return rejection.value;
      }
      var url := body.url.value;
      var code, _ := DrawFreshCode(codeStore, draws);
      if code.None? {
        return Response(InternalServerError, JsonError(NoUniqueCode));
      }
      var shortCode := code.value;
      var shortUrl := ShortUrl(host, shortCode);
      InsertKeepsConsistent(parse, urlStore, codeStore, order, owner,
        UrlData(freshId, url, shortCode, shortUrl, 0, now));
      urlStore := urlStore[freshId := UrlData(freshId, url, shortCode, shortUrl, 0, now)];
      order := order + [freshId];
      codeStore := codeStore[shortCode := url];
      owner := owner[shortCode := freshId];
      resp := Response(Ok, JsonShortened(freshId, shortCode, shortUrl, url));
    }

    /** The click-counting loop of handleResolve and handleRedirect: the
        first record in insertion order whose code is `code` gets one more
        click. */
    method RecordClick(code: string)
      requires Valid()
      modifies this
      ensures Valid()
      ensures ClickedAs(code)
    {
      ClickCountsOnce(parse, urlStore, codeStore, order, owner, code);
      ClickKeepsConsistent(parse, urlStore, codeStore, order, owner, code);
      var i := 0;
      while i < |order| && urlStore[order[i]].shortCode != code
        invariant 0 <= i <= |order|
        invariant forall j :: 0 <= j < i ==> urlStore[order[j]].shortCode != code
      {
        i := i + 1;
      }
      if i < |order| {
        var data := urlStore[order[i]];
        urlStore := urlStore[order[i] := data.(clicks := data.clicks + 1)];
      }
    }

    /** `handleResolve`. */
    method HandleResolve(code: string) returns (resp: Reply)
      requires Valid()
      modifies this
      ensures Valid()
      ensures resp == old(ResolveReply(code))
      ensures ClickedAs(code)
    {
      var originalUrl := Lookup(codeStore, code);
      if !Truthy(originalUrl) {
        return Response(NotFound, JsonError(UrlNotFound));
      }
      RecordClick(code);
      resp := Response(Ok, JsonResolved(originalUrl.value, code));
    }

    /** `handleRedirect`. */
    method HandleRedirect(code: string) returns (resp: Reply)
      requires Valid()
      modifies this
      ensures Valid()
      ensures resp == old(RedirectReply(code))
      ensures ClickedAs(code)
    {
      var originalUrl := Lookup(codeStore, code);
      if !Truthy(originalUrl) {
        return Response(NotFound, PlainText(UrlNotFound));
      }
      assert IsValidUrl(parse, originalUrl.value);
      var location := parse(originalUrl.value).value.href;
      RecordClick(code);
      resp := Response(Found, Redirect(location));
    }

    /** `handleRequest`. `qr` stands for the reply of handleGenerateQR, which
        is not modelled. */
    method HandleRequest(req: ApiRequest, draws: seq<seq<Random>>, freshId: Id, now: string, qr: Reply)
      returns (resp: Reply)
      requires Valid()
      requires RouteRequest(req.verb, req.pathname, codeStore.Keys).ShortenRoute? ==>
        && MaxAttempts < |draws|
        && (forall k :: 0 <= k < |draws| ==> |draws[k]| == ApiCodeLength)
        && freshId !in urlStore
      modifies this
      ensures Valid()
      ensures match RouteRequest(req.verb, req.pathname, old(codeStore).Keys)
        case Preflight => resp == Response(Ok, Empty) && unchanged(this)
        case ShortenRoute => ShortenedAs(req.body, req.host, draws, freshId, now, resp)
        case ListRoute => resp == Response(Ok, JsonUrls(Listing(order, urlStore))) && unchanged(this)
        case QrRoute => resp == qr && unchanged(this)
        case ResolveRoute(code) => resp == old(ResolveReply(code)) && ClickedAs(code)
        case UnknownApi => resp == Response(NotFound, JsonError(EndpointNotFound)) && unchanged(this)
        case RedirectRoute(code) => resp == old(RedirectReply(code)) && ClickedAs(code)
        case Fallback => resp == Response(Ok, PlainText(FallbackText)) && unchanged(this)
    {
      ListingMatchesCodeStore(parse, urlStore, codeStore, order, owner);
      match RouteRequest(req.verb, req.pathname, codeStore.Keys)
      case Preflight =>
        resp := Response(Ok, Empty);
      case ShortenRoute =>
        resp := HandleShorten(req.body, req.host, draws, freshId, now);
      case ListRoute =>
        resp := Response(Ok, JsonUrls(Listing(order, urlStore)));
      case QrRoute =>
        resp := qr;
      case ResolveRoute(code) =>
        resp := HandleResolve(code);
      case UnknownApi =>
        resp := Response(NotFound, JsonError(EndpointNotFound));
      case RedirectRoute(code) =>
        resp := HandleRedirect(code);
      case Fallback =>
        resp := Response(Ok, PlainText(FallbackText));
    }
  }

  /** A client's round trip: POST a URL to /api/shorten, then GET the short
      link's path. When the link was created, the visit is a 302 to the URL
      and the new record has counted exactly one click. */
  method ShortenThenFollow(
    w: Worker, url: string, host: Option<string>, draws: seq<seq<Random>>, freshId: Id, now: string)
    returns (created: Reply, followed: Reply)
    requires w.Valid()
    requires MaxAttempts < |draws|
    requires forall k :: 0 <= k < |draws| ==> |draws[k]| == ApiCodeLength
    requires freshId !in w.urlStore
    modifies w
    ensures w.Valid()
    ensures created.body.JsonShortened? <==>
      url != "" && IsValidUrl(w.parse, url) && exists k :: 0 <= k < MaxAttempts && CodeOf(draws[k]) !in old(w.codeStore)
    ensures created.body.JsonShortened? ==>
      && followed == Response(Found, Redirect(w.parse(url).value.href))
      && freshId in w.urlStore && w.urlStore[freshId].clicks == 1
      && w.codeStore == old(w.codeStore)[created.body.shortCode := url]
  {
    var noQr := Response(NotFound, Empty);
    var post := ApiRequest("POST", "/api/shorten", host, JsonObject(Some(url)));
    assert StartsWith(post.pathname, ApiPrefix);
    created := w.HandleRequest(post, draws, freshId, now, noQr);
    followed := created;
    if created.body.JsonShortened? {
      var code := created.body.shortCode;
      IssuedCodeRedirects("GET", code, w.codeStore.Keys);
      ClickCountsOnce(w.parse, w.urlStore, w.codeStore, w.order, w.owner, code);
      followed := w.HandleRequest(ApiRequest("GET", "/" + code, host, Unparseable), draws, freshId, now, noQr);
    }
  }
}
