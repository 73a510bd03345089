/** request.py: how an API request is put together (token, proxy, the cURL
    configuration or the urllib request object), how the cURL status line is
    read, how a response is classified, and what api_request reports instead
    of raising. The network, the cURL process and the temporary files are
    outside the model: their results are parameters. */
module Request {
  import opened Common
  import opened Text
  import opened Decimal
  import opened Utf8
  import GistLegacy

  // ---------------------------------------------------------------------
  // Token and proxy

  /** `token if token != None else token_auth_string()`, as the text that
      follows `token ` in the Authorization header; a value that is not text
      cannot be concatenated (TypeError). */
  function TokenText(token: Value, s: Settings): (r: Result<string>)
    ensures token != Null ==> (r.Ok? <==> token.Str?) && (r.Ok? ==> r.value == token.s)
    ensures token == Null && !Truthy(Get(s, "token")) ==> r == Err(MissingCredentials)
    ensures token == Null && Truthy(Get(s, "token")) ==>
              (r.Ok? <==> Get(s, "token").Str?) && (r.Ok? ==> r.value == Get(s, "token").s)
    ensures r.Err? ==> r.error == MissingCredentials || r.error == TypeError
  {
    match (if token != Null then Ok(token) else TokenAuthString(s))
    case Err(e) => Err(e)
    case Ok(v) => if v.Str? then Ok(v.s) else Err(TypeError)
  }

  /** An explicit token bypasses the settings entirely. */
  lemma ExplicitTokenIgnoresSettings(token: Value, s1: Settings, s2: Settings)
    requires token != Null
    ensures TokenText(token, s1) == TokenText(token, s2)
  {
  }

  /** `https_proxy if https_proxy != None else settings.get('https_proxy')`. */
  function ResolveProxy(httpsProxy: Value, s: Settings): (r: Value)
    ensures httpsProxy != Null ==> r == httpsProxy
    ensures httpsProxy == Null ==> r == Get(s, "https_proxy")
  {
    if httpsProxy != Null then httpsProxy else Get(s, "https_proxy")
  }

  // ---------------------------------------------------------------------
  // api_request_curl: the configuration fed to `curl -K -`

  function ConfigHeaders(token: string): seq<string>
  {
    ["--header \"Authorization: token " + token + "\"",
     "--header \"Accept: application/json\"",
     "--header \"Content-Type: application/json\"",
     "--silent"]
  }

  function DataLine(dataFile: string): string
  {
    "--data-binary \"@" + dataFile + "\""
  }

  function DumpLine(headerFile: string): string
  {
    "--dump-header \"" + headerFile + "\""
  }

  /** The configuration lines, built by successive appends: the three headers
      and `--silent`, the request method when one is given, the proxy line
      verbatim when the proxy is truthy, the header dump file, and the data
      file only when there is data. Fails like the source when the token is
      missing or not text, or when a truthy proxy is not text (the join). */
  method CurlConfig(data: Option<string>, token: Value, httpsProxy: Value, verb: Option<string>, s: Settings,
                    headerFile: string, dataFile: string)
    returns (r: Result<seq<string>>)
    ensures TokenText(token, s).Err? ==> r == Err(TokenText(token, s).error)
    ensures TokenText(token, s).Ok? ==>
              (r.Err? <==> Truthy(ResolveProxy(httpsProxy, s)) && !ResolveProxy(httpsProxy, s).Str?)
    ensures r.Err? && TokenText(token, s).Ok? ==> r.error == TypeError
    ensures r.Ok? ==>
              r.value == ConfigHeaders(TokenText(token, s).value)
                         + (if verb.Some? && verb.value != "" then ["--request \"" + verb.value + "\""] else [])
                         + (if Truthy(ResolveProxy(httpsProxy, s)) then [ResolveProxy(httpsProxy, s).s] else [])
                         + [DumpLine(headerFile)]
                         + (if data.Some? then [DataLine(dataFile)] else [])
  {
    var t := TokenText(token, s);
    if t.Err? {
      return Err(t.error);
    }
    var config := ConfigHeaders(t.value);
    if verb.Some? && verb.value != "" {
      config := config + ["--request \"" + verb.value + "\""];
    }
    var proxy := ResolveProxy(httpsProxy, s);
    var proxyIsText := true;
    if Truthy(proxy) {
      if proxy.Str? {
        config := config + [proxy.s];
      } else {
        proxyIsText := false;
      }
    }
    config := config + [DumpLine(headerFile)];
    if data.Some? {
      config := config + [DataLine(dataFile)];
    }
    if !proxyIsText {
      return Err(TypeError);
    }
    return Ok(config);
  }

  /** The configuration always opens with the three headers and `--silent`
      and carries the Authorization token; its last line names the data file
      exactly when there is data. */
  lemma CurlConfigLayout(lines: seq<string>, data: Option<string>, token: string, verb: Option<string>, proxy: seq<string>,
                         headerFile: string, dataFile: string)
    requires lines == ConfigHeaders(token)
                      + (if verb.Some? && verb.value != "" then ["--request \"" + verb.value + "\""] else [])
                      + proxy + [DumpLine(headerFile)]
                      + (if data.Some? then [DataLine(dataFile)] else [])
    ensures |lines| >= 5 && lines[..4] == ConfigHeaders(token)
    ensures data.Some? <==> StartsWith(lines[|lines| - 1], "--data-binary")
    ensures data.Some? ==> lines[|lines| - 1] == DataLine(dataFile) && lines[|lines| - 2] == DumpLine(headerFile)
  {
    var last := lines[|lines| - 1];
    if data.None? {
      assert last == DumpLine(headerFile);
      assert last[3] == 'u';
    } else {
      assert last == DataLine(dataFile);
      assert last[..13] == "--data-binary";
    }
  }

  // ---------------------------------------------------------------------
  // The status line and the classification of a response

  /** `_, responsecode, message = line.split(None, 2)` then
      `int(responsecode)`: the line needs at least three fields and an
      integer second field, otherwise ValueError. */
  function StatusCode(statusLine: string): (r: Result<int>)
    ensures r.Ok? <==> |Words(statusLine)| >= 3 && ParseInt(Words(statusLine)[1]).Some?
    ensures r.Ok? ==> Some(r.value) == ParseInt(Words(statusLine)[1])
    ensures r.Err? ==> r.error == ValueError
  {
    var fields := Words(statusLine);
    if |fields| < 3 then Err(ValueError)
    else match ParseInt(fields[1])
      case None => Err(ValueError)
      case Some(code) => Ok(code)
  }

  /** `%d` text has no whitespace in it. */
  lemma IntTextHasNoSpace(code: int)
    ensures var c := IntText(code); c != [] && forall i :: 0 <= i < |c| ==> !IsSpace(c[i])
  {
    var c := IntText(code);
    forall i | 0 <= i < |c| ensures !IsSpace(c[i]) {
      if code >= 0 {
        assert IsDigit(c[i]);
      } else if i > 0 {
        assert c[1..][i - 1] == c[i];
      }
    }
  }

  /** Splitting `w + " " + rest` into fields. */
  lemma WordsThenSpace(w: string, rest: string)
    requires w != [] && forall i :: 0 <= i < |w| ==> !IsSpace(w[i])
    ensures Words(w + " " + rest) == [w] + Words(rest)
  {
    assert " " + rest == [' '] + rest;
    WordsSkipSpace(' ', rest);
    WordsCons(w, " " + rest);
    assert w + " " + rest == w + (" " + rest);
  }

  /** The code of a status line `VERSION CODE REASON...` is read back. */
  lemma StatusCodeOfLine(version: string, code: int, reason: string, rest: string)
    requires version != [] && forall i :: 0 <= i < |version| ==> !IsSpace(version[i])
    requires reason != [] && forall i :: 0 <= i < |reason| ==> !IsSpace(reason[i])
    requires rest == [] || IsSpace(rest[0])
    ensures StatusCode(version + " " + IntText(code) + " " + reason + rest) == Ok(code)
  {
    IntTextHasNoSpace(code);
    ThreeWords(version, IntText(code), reason, rest);
    SpacedAssoc(version, IntText(code), reason, rest);
    ParseIntText(code);
  }

  /** Three words separated by single spaces, then whitespace or nothing. */
  lemma ThreeWords(a: string, b: string, c: string, rest: string)
    requires a != [] && forall i :: 0 <= i < |a| ==> !IsSpace(a[i])
    requires b != [] && forall i :: 0 <= i < |b| ==> !IsSpace(b[i])
    requires c != [] && forall i :: 0 <= i < |c| ==> !IsSpace(c[i])
    requires rest == [] || IsSpace(rest[0])
    ensures Words(a + " " + (b + " " + (c + rest))) == [a, b, c] + Words(rest)
  {
    var t := b + " " + (c + rest);
    var w := Words(rest);
    calc {
      Words(a + " " + t);
      { WordsThenSpace(a, t); }
      [a] + Words(t);
      { TwoWords(b, c, rest); }
      [a] + ([b, c] + w);
      [a, b, c] + w;
    }
  }

  lemma TwoWords(b: string, c: string, rest: string)
    requires b != [] && forall i :: 0 <= i < |b| ==> !IsSpace(b[i])
    requires c != [] && forall i :: 0 <= i < |c| ==> !IsSpace(c[i])
    requires rest == [] || IsSpace(rest[0])
    ensures Words(b + " " + (c + rest)) == [b, c] + Words(rest)
  {
    WordsCons(c, rest);
    WordsThenSpace(b, c + rest);
    assert [b] + ([c] + Words(rest)) == [b, c] + Words(rest);
  }

  lemma SpacedAssoc(a: string, b: string, c: string, rest: string)
    ensures a + " " + b + " " + c + rest == a + " " + (b + " " + (c + rest))
  {
  }

  /** A status line without a reason phrase has only two fields and does not
      unpack. */
  lemma StatusLineWithoutReason(version: string, code: int)
    requires version != [] && forall i :: 0 <= i < |version| ==> !IsSpace(version[i])
    ensures StatusCode(version + " " + IntText(code) + "\r\n") == Err(ValueError)
  {
    var c := IntText(code);
    IntTextHasNoSpace(code);
    assert Words("\r\n") == [] by {
      WordsSkipSpace('\n', "");
      assert "\r\n" == ['\r'] + "\n";
      WordsSkipSpace('\r', "\n");
    }
    WordsCons(c, "\r\n");
    WordsThenSpace(version, c + "\r\n");
    assert version + " " + c + "\r\n" == version + " " + (c + "\r\n");
  }

  /** How api_request_curl treats a response code and body: 204 gives
      nothing; 100 and every other 2xx code give the decoded body (a body
      that does not decode is a ValueError); anything else raises
      SimpleHTTPError with the body. */
  function Classify(code: int, response: Body): (r: Result<Option<Json>>)
    ensures code == 204 ==> r == Ok(None)
    ensures code != 204 && (200 <= code < 300 || code == 100) ==>
              r == (if response.Parsed? then Ok(Some(response.json)) else Err(ValueError))
    ensures !(200 <= code < 300 || code == 100) ==> r == Err(SimpleHttpError(code, response))
  {
    if code == 204 then Ok(None)
    else if 200 <= code < 300 || code == 100 then
      match response
      case Parsed(j) => Ok(Some(j))
      case Unparsable => Err(ValueError)
    else Err(SimpleHttpError(code, response))
  }

  /** api_request_curl once the configuration is built: a non-zero exit
      status raises CalledProcessError before the header file is read;
      otherwise the status line is parsed and the response classified. */
  function CurlResult(config: Result<seq<string>>, returncode: int, statusLine: string, response: Body): (r: Result<Option<Json>>)
    ensures config.Err? ==> r == Err(config.error)
    ensures config.Ok? && returncode != 0 ==> r == Err(CalledProcessError(returncode))
    ensures config.Ok? && returncode == 0 ==>
              r == (match StatusCode(statusLine) case Err(e) => Err(e) case Ok(code) => Classify(code, response))
  {
    if config.Err? then Err(config.error)
    else if returncode != 0 then Err(CalledProcessError(returncode))
    else match StatusCode(statusLine)
      case Err(e) => Err(e)
      case Ok(code) => Classify(code, response)
  }

  /** What urlopen gives api_request_native: a response, or an HTTPError
      carrying the code and the body. */
  datatype NativeOutcome = Response(code: int, body: Body) | HttpError(errCode: int, errBody: Body)

  /** The outcome urllib produces for a final status code it does not
      redirect: codes outside 2xx raise HTTPError. Redirects followed by the
      default opener and interim `100 Continue` responses, which urllib never
      reports, are not part of this outcome. */
  function UrllibOutcome(code: int, body: Body): NativeOutcome
  {
    if 200 <= code < 300 then Response(code, body) else HttpError(code, body)
  }

  /** api_request_native's handling: 204 gives nothing, any other response
      the decoded body, an HTTPError becomes SimpleHTTPError. */
  function ClassifyNative(outcome: NativeOutcome): (r: Result<Option<Json>>)
    ensures outcome.Response? && outcome.code == 204 ==> r == Ok(None)
    ensures outcome.Response? && outcome.code != 204 ==>
              r == (if outcome.body.Parsed? then Ok(Some(outcome.body.json)) else Err(ValueError))
    ensures outcome.HttpError? ==> r == Err(SimpleHttpError(outcome.errCode, outcome.errBody))
  {
    match outcome
    case Response(code, body) =>
      if code == 204 then Ok(None)
      else if body.Parsed? then Ok(Some(body.json)) else Err(ValueError)
    case HttpError(code, body) => Err(SimpleHttpError(code, body))
  }

  /** For a final status code without a redirect, the two paths classify
      the response alike, except 100, which cURL accepts and which
      `UrllibOutcome` turns into an error. */
  lemma NativeAgreesWithCurl(code: int, body: Body)
    ensures code != 100 ==> ClassifyNative(UrllibOutcome(code, body)) == Classify(code, body)
    ensures ClassifyNative(UrllibOutcome(100, body)) == Err(SimpleHttpError(100, body))
    ensures Classify(100, body).Ok? <==> body.Parsed?
  {
  }

  // ---------------------------------------------------------------------
  // api_request_native: the urllib request object

  /** A urllib Request: its URL, method override, headers in the order they
      were added, and body bytes. */
  class UrlRequest {
    const url: string
    var verb: Option<string>
    var headers: seq<(string, string)>
    var data: Option<seq<byte>>

    constructor (url: string)
      ensures this.url == url && verb.None? && headers == [] && data.None?
    {
      this.url := url;
      verb, headers, data := None, [], None;
    }

    method SetMethod(m: string)
      modifies this
      ensures verb == Some(m) && headers == old(headers) && data == old(data)
    {
      verb := Some(m);
    }

    method AddHeader(key: string, value: string)
      modifies this
      ensures headers == old(headers) + [(key, value)] && verb == old(verb) && data == old(data)
    {
      headers := headers + [(key, value)];
    }

    method AddData(bytes: seq<byte>)
      modifies this
      ensures data == Some(bytes) && verb == old(verb) && headers == old(headers)
    {
      data := Some(bytes);
    }
  }

  /** The three headers every request carries, in order. */
  function StandardHeaders(token: string): seq<(string, string)>
  {
    [("Authorization", "token " + token), ("Accept", "application/json"), ("Content-Type", "application/json")]
  }

  /** The request api_request_native sends and the proxy it installs an
      opener for (only a truthy one). The body is the UTF-8 encoding of the
      data, attached only when there is data. */
  method NativeRequest(url: string, data: Option<string>, token: Value, httpsProxy: Value, verb: Option<string>, s: Settings)
    returns (r: Result<UrlRequest>, openerProxy: Option<Value>)
    ensures r.Err? <==> TokenText(token, s).Err?
    ensures r.Err? ==> r.error == TokenText(token, s).error && openerProxy.None?
    ensures r.Ok? ==> fresh(r.value) && r.value.url == url
    ensures r.Ok? ==> r.value.verb == (if verb.Some? && verb.value != "" then verb else None)
    ensures r.Ok? ==> r.value.headers == StandardHeaders(TokenText(token, s).value)
    ensures r.Ok? ==> r.value.data == (if data.Some? then Some(Encode(data.value)) else None)
    ensures r.Ok? ==> openerProxy == (if Truthy(ResolveProxy(httpsProxy, s)) then Some(ResolveProxy(httpsProxy, s)) else None)
  {
    var request := new UrlRequest(url);
    if verb.Some? && verb.value != "" {
      request.SetMethod(verb.value);
    }
    var t := TokenText(token, s);
    if t.Err? {
      return Err(t.error), None;
    }
    request.AddHeader("Authorization", "token " + t.value);
    request.AddHeader("Accept", "application/json");
    request.AddHeader("Content-Type", "application/json");
    if data.Some? {
      request.AddData(Encode(data.value));
    }
    var proxy := ResolveProxy(httpsProxy, s);
    openerProxy := if Truthy(proxy) then Some(proxy) else None;
    return Ok(request), openerProxy;
  }

  /** The body of a request decodes back to the data it was built from. */
  lemma RequestBodyRoundTrip(data: string)
    ensures Decode(Encode(data)) == Some(data)
  {
    DecodeEncode(data);
  }

  // ---------------------------------------------------------------------
  // api_request: errors reported instead of raised

  /** The value api_request returns and the error message it shows. */
  datatype Reported = Reported(value: Option<Json>, message: Option<string>)

  const UnableToFind: string := "Gist: Unable to find Python SSL module or cURL"
  const ContactError: string := "Gist: Error while contacting GitHub"

  /** A contact-error message is never the missing-transport message. */
  lemma ContactMessage(tail: string)
    ensures ContactError + tail != UnableToFind
  {
    assert (ContactError + tail)[6] == ContactError[6] == 'E';
    assert UnableToFind[6] == 'U';
  }

  /** Nor is an HTTP error message. */
  lemma HttpMessage(code: int, response: Body)
    requires GistLegacy.HttpErrorMessage(code, response).Ok?
    ensures GistLegacy.HttpErrorMessage(code, response).value != UnableToFind
  {
    GistLegacy.HttpErrorMessageOpening(code, response);
    var opening := "Gist: GitHub returned error " + IntText(code);
    assert opening[6] == 'G';
    assert GistLegacy.HttpErrorMessage(code, response).value[6] == opening[6];
    assert UnableToFind[6] == 'U';
  }

  /** api_request: cURL failures, environment errors and HTTP errors are shown
      as a message and give None; any other error propagates. The message for
      an HTTP error is the one catch_errors shows, and its own failures
      propagate. */
  function ApiRequest(outcome: Result<Option<Json>>): (r: Result<Reported>)
    ensures outcome.Ok? ==> r == Ok(Reported(outcome.value, None))
    ensures outcome.Err? && outcome.error.CalledProcessError? ==>
              r == Ok(Reported(None, Some(ContactError + ": cURL returned " + IntText(outcome.error.returncode))))
    ensures outcome.Err? && outcome.error.EnvironmentError? ==>
              r == Ok(Reported(None, Some(ContactError + outcome.error.strerror)))
    ensures outcome.Err? && outcome.error.SimpleHttpError? ==>
              var m := GistLegacy.HttpErrorMessage(outcome.error.code, outcome.error.response);
              r == (if m.Ok? then Ok(Reported(None, Some(m.value))) else Err(m.error))
    ensures outcome.Err? && !(outcome.error.CalledProcessError? || outcome.error.EnvironmentError? || outcome.error.SimpleHttpError?) ==>
              r == Err(outcome.error)
    ensures r.Err? ==> !(r.error.CalledProcessError? || r.error.EnvironmentError? || r.error.SimpleHttpError?)
    ensures r.Ok? && r.value.message.Some? ==> r.value.value.None? && r.value.message.value != UnableToFind
  {
    match outcome
    case Ok(v) => Ok(Reported(v, None))
    case Err(e) =>
      match e
      case CalledProcessError(rc) =>
        var msg := ContactError + ": cURL returned " + IntText(rc);
        ContactMessage(": cURL returned " + IntText(rc));
        Ok(Reported(None, Some(msg)))
      case EnvironmentError(strerror) =>
        var msg := ContactError + strerror;
        ContactMessage(strerror);
        Ok(Reported(None, Some(msg)))
      case SimpleHttpError(code, response) =>
        (match GistLegacy.HttpErrorMessage(code, response)
         case Ok(msg) =>
           HttpMessage(code, response);
           Ok(Reported(None, Some(msg)))
         case Err(e2) =>
           assert !(e2.CalledProcessError? || e2.EnvironmentError? || e2.SimpleHttpError?);
           Err(e2))
      case _ => Err(e)
  }
}
