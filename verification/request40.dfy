/** gist_40_request.py: the packaged plugin's API request. It always uses
    urllib, can send `If-Modified-Since`, stores each ETag-tagged response in
    a cache file named after the ETag, answers a 304 from that file or by
    fetching again with an old date, and re-raises every other HTTP error.
    Any other failure leaves as an AttributeError, because the handler
    re-raises it inside `contextlib.closing`, whose exit calls a `close`
    method only an HTTPError has. The network and the file system are outside the model: the
    response, the cached file's content and the result of the second fetch
    are parameters. */
module Request40 {
  import opened Common
  import opened Text
  import opened Utf8
  import Request

  // ---------------------------------------------------------------------
  // The request object

  /** The headers of a request: the three standard ones, then
      `If-Modified-Since` only when a date is given. */
  function RequestHeaders(token: string, sinceDate: string): (r: seq<(string, string)>)
    ensures |r| == 3 || |r| == 4
    ensures r[..3] == Request.StandardHeaders(token)
    ensures |r| == 4 <==> sinceDate != ""
    ensures |r| == 4 ==> r[3] == ("If-Modified-Since", sinceDate)
  {
    Request.StandardHeaders(token) + (if sinceDate != "" then [("If-Modified-Since", sinceDate)] else [])
  }

  /** The request api_request builds and the proxy it installs an opener for.
      `sinceDate` is "" where the source passes False. */
  method BuildRequest(url: string, data: Option<string>, token: Value, httpsProxy: Value, verb: Option<string>,
                      sinceDate: string, s: Settings)
    returns (r: Result<Request.UrlRequest>, openerProxy: Option<Value>)
    ensures r.Err? <==> Request.TokenText(token, s).Err?
    ensures r.Err? ==> r.error == Request.TokenText(token, s).error && openerProxy.None?
    ensures r.Ok? ==> fresh(r.value) && r.value.url == url
    ensures r.Ok? ==> r.value.verb == (if verb.Some? && verb.value != "" then verb else None)
    ensures r.Ok? ==> r.value.headers == RequestHeaders(Request.TokenText(token, s).value, sinceDate)
    ensures r.Ok? ==> r.value.data == (if data.Some? then Some(Encode(data.value)) else None)
    ensures r.Ok? ==>
              openerProxy == (if Truthy(Request.ResolveProxy(httpsProxy, s)) then Some(Request.ResolveProxy(httpsProxy, s)) else None)
  {
    var request := new Request.UrlRequest(url);
    if verb.Some? && verb.value != "" {
      request.SetMethod(verb.value);
    }
    var t := Request.TokenText(token, s);
    if t.Err? {
      return Err(t.error), None;
    }
    request.AddHeader("Authorization", "token " + t.value);
    request.AddHeader("Accept", "application/json");
    request.AddHeader("Content-Type", "application/json");
    assert request.headers == Request.StandardHeaders(t.value);
    if sinceDate != "" {
      request.AddHeader("If-Modified-Since", sinceDate);
    }
    assert request.headers == RequestHeaders(t.value, sinceDate);
    if data.Some? {
      request.AddData(Encode(data.value));
    }
    var proxy := Request.ResolveProxy(httpsProxy, s);
    openerProxy := if Truthy(proxy) then Some(proxy) else None;
    return Ok(request), openerProxy;
  }

  // ---------------------------------------------------------------------
  // The cache file

  /** `os.path.join(tmp, "{}.json".format(etag.strip('"')))`, used both when a
      response is stored and when a 304 is answered. */
  function CacheFileName(tmp: string, etag: string): (r: string)
    ensures var name := Strip(etag, '"') + ".json";
            r == name || r == tmp + name || r == tmp + "/" + name
  {
    Join(tmp, Strip(etag, '"') + ".json")
  }

  /** Stripping quotes cannot introduce a slash. */
  lemma StripKeepsNoSlash(etag: string)
    requires '/' !in etag
    ensures '/' !in Strip(etag, '"')
  {
    var stripped := Strip(etag, '"');
    var i, j :| 0 <= i <= j <= |etag| && stripped == etag[i..j];
    assert forall k :: 0 <= k < |stripped| ==> stripped[k] == etag[i + k];
  }

  /** `X.json` has a slash only if X has one. */
  lemma JsonNameHasNoSlash(stem: string)
    requires '/' !in stem
    ensures '/' !in stem + ".json"
  {
    var name := stem + ".json";
    assert forall k :: 0 <= k < |stem| ==> name[k] == stem[k];
    assert name[|stem|..] == ".json";
    assert forall k :: |stem| <= k < |name| ==> name[k] == ".json"[k - |stem|];
  }

  /** Joining a directory and a name without slashes ends in that name. */
  lemma JoinBasename(tmp: string, name: string)
    requires name != [] && '/' !in name
    ensures Basename(Join(tmp, name)) == name
  {
    if tmp != [] && tmp[|tmp| - 1] != '/' {
      BasenameAfterSlash(tmp, name);
    } else if tmp == [] {
      BasenameOfPlainName(name);
    } else {
      var head := tmp[..|tmp| - 1];
      assert tmp == head + "/";
      assert tmp + name == head + "/" + name;
      BasenameAfterSlash(head, name);
    }
  }

  /** The last path component of the cache file is the ETag without its
      quotes, followed by `.json`. */
  lemma CacheFileBasename(tmp: string, etag: string)
    requires '/' !in etag
    ensures Basename(CacheFileName(tmp, etag)) == Strip(etag, '"') + ".json"
  {
    StripKeepsNoSlash(etag);
    JsonNameHasNoSlash(Strip(etag, '"'));
    JoinBasename(tmp, Strip(etag, '"') + ".json");
  }

  /** A name without a slash is its own last component. */
  lemma BasenameOfPlainName(p: string)
    requires '/' !in p
    ensures Basename(p) == p
  {
    assert forall i :: 0 <= i < |p| ==> p[i] != '/';
  }

  /** Two ETags (without slashes) share a cache file in the same directory
      only when they agree once their quotes are stripped. */
  lemma CacheFileNameInjective(tmp: string, etag1: string, etag2: string)
    requires '/' !in etag1 && '/' !in etag2
    requires CacheFileName(tmp, etag1) == CacheFileName(tmp, etag2)
    ensures Strip(etag1, '"') == Strip(etag2, '"')
  {
    CacheFileBasename(tmp, etag1);
    CacheFileBasename(tmp, etag2);
    var n1 := Strip(etag1, '"') + ".json";
    var n2 := Strip(etag2, '"') + ".json";
    assert n1 == n2;
    assert Strip(etag1, '"') == n1[..|n1| - 5];
    assert Strip(etag2, '"') == n2[..|n2| - 5];
  }

  // ---------------------------------------------------------------------
  // The response and the exception handler

  /** What urlopen raises: an HTTPError (its code and whether it carries an
      ETag header) or any other error. */
  datatype Failure = HttpFailure(code: int, etag: Option<string>) | Raised(error: Error)

  /** What urlopen gives: a response (its code, its ETag header if any and
      its decoded body) or a failure. */
  datatype Outcome = Response(code: int, etag: Option<string>, content: Body) | Failed(failure: Failure)

  /** Where api_request ends up: a value returned, a second request with an
      `If-Modified-Since` date and a body, the original failure re-raised, or
      a different exception escaping in its place. */
  datatype Reaction =
    | Returned(value: Option<Json>)
    | Refetch(sinceDate: string, body: Option<string>)
    | Reraised(failure: Failure)
    | Escaped(error: Error)

  const RefetchDate: string := "Thu, 05 Jul 2010 15:31:30 GMT"

  /** The cache file a response is written to: only a response other than
      204 whose ETag is non-empty is stored. */
  function CacheWrite(o: Outcome, tmp: string): (r: Option<string>)
    ensures r.Some? <==> o.Response? && o.code != 204 && o.etag.Some? && o.etag.value != ""
    ensures r.Some? ==> r.value == CacheFileName(tmp, o.etag.value)
  {
    if o.Response? && o.code != 204 && o.etag.Some? && o.etag.value != "" then Some(CacheFileName(tmp, o.etag.value))
    else None
  }

  /** The cache file a 304 is answered from: an HTTPError with code 304 and
      an ETag header. */
  function CacheLookup(f: Failure, tmp: string): (r: Option<string>)
    ensures r.Some? <==> f.HttpFailure? && f.code == 304 && f.etag.Some?
    ensures r.Some? ==> r.value == CacheFileName(tmp, f.etag.value)
  {
    if f.HttpFailure? && f.code == 304 && f.etag.Some? then Some(CacheFileName(tmp, f.etag.value)) else None
  }

  /** A response stored under an ETag is looked up under the same file when
      the server later answers 304 with that ETag. */
  lemma StoredResponseIsFound(code: int, etag: string, content: Body, tmp: string)
    requires code != 204 && etag != ""
    ensures CacheWrite(Response(code, Some(etag), content), tmp) == CacheLookup(HttpFailure(304, Some(etag)), tmp)
    ensures CacheWrite(Response(code, Some(etag), content), tmp).Some?
  {
  }

  /** The exception handler for a failure, as written. `data` is the body of
      the request; `cache` is the content of the cache file when it opens and
      decodes. A 304 with an ETag is answered from a cached object, marked
      `cached`. Any other cached value has already been bound to `data` when
      marking it fails, so the second request sends it: a cached string
      becomes the body, a cached null sends no body, and any other value
      makes `data.encode` fail inside the handler, which re-raises the 304.
      With no cache the second request sends the original data. Any other
      HTTP error is re-raised. A failure that is not an HTTPError cannot be
      iterated, so it reaches `with contextlib.closing(e): raise e`, whose
      exit calls `e.close()`, which such an exception does not have: an
      AttributeError escapes instead. */
  function HandleFailure(f: Failure, data: Option<string>, cache: Option<Json>): (r: Reaction)
    ensures f.Raised? ==> r == Escaped(AttributeError)
    ensures f.HttpFailure? && CacheLookup(f, "").None? ==> r == Reraised(f)
    ensures CacheLookup(f, "").Some? && cache.Some? && cache.value.JObject? ==>
              r == Returned(Some(JObject(cache.value.fields["cached" := JBool(true)])))
    ensures CacheLookup(f, "").Some? && cache.None? ==> r == Refetch(RefetchDate, data)
    ensures r.Refetch? ==> r.sinceDate == RefetchDate
    ensures r.Reraised? ==> r.failure == f && f.HttpFailure?
  {
    if f.Raised? then Escaped(AttributeError)
    else if !(f.code == 304 && f.etag.Some?) then Reraised(f)
    else match cache
      case None => Refetch(RefetchDate, data)
      case Some(JObject(fields)) => Returned(Some(JObject(fields["cached" := JBool(true)])))
      case Some(JNull) => Refetch(RefetchDate, None)
      case Some(JStr(text)) => Refetch(RefetchDate, Some(text))
      case Some(_) => Reraised(f)
  }

  /** A cached JSON array, which is what the gist listing endpoints return,
      never reaches the second request: the 304 itself is re-raised. */
  lemma CachedListReraises304(etag: string, data: Option<string>, items: seq<Json>)
    ensures HandleFailure(HttpFailure(304, Some(etag)), data, Some(JArray(items))) == Reraised(HttpFailure(304, Some(etag)))
  {
  }

  /** A cached string is sent as the body of the second request, whatever
      the original data was. */
  lemma CachedStringBecomesBody(etag: string, data: Option<string>, text: string)
    ensures HandleFailure(HttpFailure(304, Some(etag)), data, Some(JStr(text))) == Refetch(RefetchDate, Some(text))
  {
  }

  /** The exception handler as its comments describe it: a 304 with an ETag
      is answered from a cached object, or fetched again with the original
      body, and every other failure is re-raised as it was. */
  function HandleFailureIntended(f: Failure, data: Option<string>, cache: Option<Json>): (r: Reaction)
    ensures CacheLookup(f, "").None? ==> r == Reraised(f)
    ensures CacheLookup(f, "").Some? && cache.Some? && cache.value.JObject? ==>
              r == Returned(Some(JObject(cache.value.fields["cached" := JBool(true)])))
  {
    if !(f.HttpFailure? && f.code == 304 && f.etag.Some?) then Reraised(f)
    else match cache
      case Some(JObject(fields)) => Returned(Some(JObject(fields["cached" := JBool(true)])))
      case _ => Refetch(RefetchDate, data)
  }

  /** Intended behaviour: a 304 with an ETag is never re-raised, and a second
      request always carries the original body and the old date. */
  lemma IntendedAnswers304(f: Failure, data: Option<string>, cache: Option<Json>)
    ensures var r := HandleFailureIntended(f, data, cache);
            !r.Escaped?
            && (CacheLookup(f, "").Some? <==> !r.Reraised?)
            && (r.Refetch? ==> r == Refetch(RefetchDate, data))
            && (r.Reraised? ==> r.failure == f)
  {
  }

  /** Where the two handlers differ: on a failure that is not an HTTPError,
      and on a 304 with an ETag whose cache holds something other than an
      object. */
  lemma WhereHandlersDiffer(f: Failure, data: Option<string>, cache: Option<Json>)
    requires HandleFailure(f, data, cache) != HandleFailureIntended(f, data, cache)
    ensures f.Raised? || (CacheLookup(f, "").Some? && cache.Some? && !cache.value.JObject?)
  {
  }

  /** The second request, if there is one, is handled by a recursive call
      whose exceptions are swallowed by the outer handler: its value is
      returned, and any failure of it re-raises the original 304. */
  function AfterRefetch(f: Failure, second: Result<Option<Json>>): (r: Reaction)
    ensures second.Ok? ==> r == Returned(second.value)
    ensures second.Err? ==> r == Reraised(f)
  {
    match second
    case Ok(v) => Returned(v)
    case Err(_) => Reraised(f)
  }

  /** api_request after urlopen: a 204 returns None before the body is read;
      any other response returns its decoded body; failures go to the
      handler. A body that does not decode raises a ValueError, which the
      handler cannot iterate, so it ends as the AttributeError of closing
      it. */
  function Respond(o: Outcome, data: Option<string>, cache: Option<Json>): (r: Reaction)
    ensures o.Response? && o.code == 204 ==> r == Returned(None)
    ensures o.Response? && o.code != 204 ==>
              r == (if o.content.Parsed? then Returned(Some(o.content.json)) else Escaped(AttributeError))
    ensures o.Failed? ==> r == HandleFailure(o.failure, data, cache)
  {
    match o
    case Response(code, _, content) =>
      if code == 204 then Returned(None)
      else if content.Parsed? then Returned(Some(content.json))
      else HandleFailure(Raised(ValueError), data, cache)
    case Failed(f) => HandleFailure(f, data, cache)
  }

  /** An HTTP error is not translated: one that is not a 304 with an ETag
      comes back out as the HTTPError itself (closing it succeeds), never as
      a SimpleHTTPError. */
  lemma FailuresReraisedUnchanged(f: Failure, data: Option<string>, cache: Option<Json>)
    requires f.HttpFailure? && !(f.code == 304 && f.etag.Some?)
    ensures Respond(Failed(f), data, cache) == Reraised(f)
  {
  }

  /** As written, no failure other than an HTTPError leaves api_request as
      itself: an error from urlopen and an undecodable body both end as the
      AttributeError raised when the handler closes them. */
  lemma OtherFailuresBecomeAttributeError(e: Error, code: int, etag: Option<string>, data: Option<string>, cache: Option<Json>)
    requires code != 204
    ensures Respond(Failed(Raised(e)), data, cache) == Escaped(AttributeError)
    ensures Respond(Response(code, etag, Unparsable), data, cache) == Escaped(AttributeError)
  {
  }

  /** api_request with the intended handler: an undecodable body re-raises
      its ValueError. */
  function RespondIntended(o: Outcome, data: Option<string>, cache: Option<Json>): (r: Reaction)
    ensures o.Response? && o.code == 204 ==> r == Returned(None)
    ensures o.Response? && o.code != 204 ==>
              r == (if o.content.Parsed? then Returned(Some(o.content.json)) else Reraised(Raised(ValueError)))
    ensures o.Failed? ==> r == HandleFailureIntended(o.failure, data, cache)
  {
    match o
    case Response(code, _, content) =>
      if code == 204 then Returned(None)
      else if content.Parsed? then Returned(Some(content.json))
      else HandleFailureIntended(Raised(ValueError), data, cache)
    case Failed(f) => HandleFailureIntended(f, data, cache)
  }

  /** Intended behaviour: every failure other than a 304 with an ETag,
      HTTPError or not, leaves api_request as itself, and nothing escapes in
      its place. */
  lemma IntendedReraisesUnchanged(f: Failure, code: int, etag: Option<string>, data: Option<string>, cache: Option<Json>)
    requires !(f.HttpFailure? && f.code == 304 && f.etag.Some?)
    requires code != 204
    ensures RespondIntended(Failed(f), data, cache) == Reraised(f)
    ensures RespondIntended(Response(code, etag, Unparsable), data, cache) == Reraised(Raised(ValueError))
  {
  }
}
