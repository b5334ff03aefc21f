/** A geolocation client: a factory that picks a provider dialect from the
    endpoint, and the standard-dialect lookup, which normalises the request,
    sends it and maps the HTTP status to a result or a sentinel error.
    Network transport, JSON encoding/decoding, URL escaping and URL parsing
    are library code; they enter as function parameters. */
module Locator {
  import opened Wrappers

  // ---------------------------------------------------------------------
  // Data model
  // ---------------------------------------------------------------------

  /** An observed cell tower; passed through to the service untouched. */
  datatype CellTower = CellTower(
    mobileCountryCode: int,
    mobileNetworkCode: int,
    locationAreaCode: int,
    cellId: int,
    signalStrength: int)

  /** An observed Wi-Fi access point; passed through untouched. */
  datatype WifiAccessPoint = WifiAccessPoint(macAddress: string, signalStrength: int)

  /** Which coarse fallbacks the service may use when the signals do not suffice. */
  datatype Fallbacks = Fallbacks(lac: bool, ip: bool)

  /** A lookup request. `fallbacks` is a Go pointer, hence optional. */
  datatype Request = Request(
    radioType: string,
    cellTowers: seq<CellTower>,
    wifiAccessPoints: seq<WifiAccessPoint>,
    ipAddress: string,
    considerIp: bool,
    fallbacks: Option<Fallbacks>)

  /** A resolved position; `float64` fields are carried as reals, never computed on. */
  datatype Response = Response(latitude: real, longitude: real, accuracy: real)

  /** Errors a caller can see. The first three are the package's sentinels;
      `StatusError(code)` is the fresh error built from the reason phrase of
      an unexpected status; `ParseError(url, message)` is the URL parser's
      rejection of `url`, with the parser's own error text; `Foreign(message)` is an error returned unchanged from a library
      (JSON encoding or decoding, the transport). */
  datatype Error =
    | ErrBadRequest
    | ErrForbidden
    | ErrNotFound
    | StatusError(code: int)
    | ParseError(url: string, message: string)
    | Foreign(message: string)
  {
    predicate IsSentinel() {
      ErrBadRequest? || ErrForbidden? || ErrNotFound?
    }
  }

  /** Process-wide tunables, passed explicitly (the request timeout is left out). */
  datatype Config = Config(ignoreIPMethod: bool, userAgent: string)

  /** Known service endpoints. */
  const MozillaUrl := "https://location.services.mozilla.com/v1/geolocate"
  const GoogleUrl := "https://www.googleapis.com/geolocation/v1/geolocate"
  const YandexUrl := "http://api.lbs.yandex.net/geolocation"

  /** The radio type sent when the caller leaves it empty. */
  const DefaultRadioType := "gsm"

  /** The standard-dialect client: the endpoint it was bound to. */
  datatype Base = Base(serviceUrl: string)

  /** What the factory can build: the Yandex dialect keeps the key for later
      use, the standard dialect has it baked into its URL. */
  datatype Locator = YandexLocator(apiKey: string) | Standard(base: Base)

  type Bytes = seq<bv8>

  /** The outgoing POST: target URL, User-Agent, optional X-Forwarded-For
      and the encoded body. */
  datatype HttpRequest = HttpRequest(
    url: string, userAgent: string, forwardedFor: Option<string>, body: Bytes)

  datatype HttpResponse = HttpResponse(statusCode: int, body: Bytes)

  // ---------------------------------------------------------------------
  // Sentinel errors
  // ---------------------------------------------------------------------

  /** The text of an error. The sentinels carry the reason phrases of
      400, 403 and 404 (sections 6.5.1, 6.5.3 and 6.5.4 of RFC 7231); an
      unexpected status carries what `statusText` (net/http's table) gives;
      a parser or library error keeps the text its producer gave it. */
  function Message(e: Error, statusText: int -> string): string {
    match e
    case ErrBadRequest => "Bad Request"
    case ErrForbidden => "Forbidden"
    case ErrNotFound => "Not Found"
    case StatusError(code) => statusText(code)
    case ParseError(_, message) => message
    case Foreign(message) => message
  }

  /** The three sentinels differ from one another, by identity and by text. */
  lemma SentinelsDistinct(e1: Error, e2: Error, statusText: int -> string)
    requires e1.IsSentinel() && e2.IsSentinel()
    ensures e1 == e2 <==> Message(e1, statusText) == Message(e2, statusText)
  {
  }

  // ---------------------------------------------------------------------
  // Status mapping
  // ---------------------------------------------------------------------

  /** What the client does with a reply: decode its body, or fail. */
  datatype Outcome = Decode | Fail(err: Error)

  /** The closed switch over the reply's status code. */
  function StatusOutcome(code: int): (o: Outcome)
    ensures o == Decode <==> code == 200
    ensures o == Fail(ErrBadRequest) <==> code == 400
    ensures o == Fail(ErrForbidden) <==> code == 403
    ensures o == Fail(ErrNotFound) <==> code == 404
    ensures code != 200 && code != 400 && code != 403 && code != 404 ==>
              o == Fail(StatusError(code)) && !o.err.IsSentinel()
    ensures o.Fail? ==> o.err.IsSentinel() || o.err.StatusError?
  {
    match code
    case 200 => Decode
    case 400 => Fail(ErrBadRequest)
    case 403 => Fail(ErrForbidden)
    case 404 => Fail(ErrNotFound)
    case _ => Fail(StatusError(code))
  }

  /** An unexpected status fails with exactly its reason phrase as text. */
  lemma UnexpectedStatusText(code: int, statusText: int -> string)
    requires code != 200 && code != 400 && code != 403 && code != 404
    ensures StatusOutcome(code).Fail?
    ensures Message(StatusOutcome(code).err, statusText) == statusText(code)
  {
  }

  // ---------------------------------------------------------------------
  // Request normalisation
  // ---------------------------------------------------------------------

  /** The body to encode, and the header value that carries the IP instead. */
  datatype Prepared = Prepared(body: Request, forwardedFor: Option<string>)

  /** The rewrite applied to the caller's request before it is encoded. */
  function Prepare(req: Request, ignoreIP: bool): (p: Prepared)
    ensures p.body.considerIp == !ignoreIP
    ensures ignoreIP ==> p.body.fallbacks == Some(Fallbacks(false, false))
    ensures !ignoreIP ==> p.body.fallbacks == req.fallbacks
    ensures p.body.radioType != ""
    ensures req.radioType != "" ==> p.body.radioType == req.radioType
    ensures req.radioType == "" ==> p.body.radioType == DefaultRadioType
    ensures p.body.ipAddress == ""
    ensures p.forwardedFor.Some? <==> req.ipAddress != ""
    ensures p.forwardedFor.GetOr("") == req.ipAddress
    ensures p.body.cellTowers == req.cellTowers
    ensures p.body.wifiAccessPoints == req.wifiAccessPoints
  {
    var withFlag := req.(considerIp := !ignoreIP);
    var withFallbacks :=
      if ignoreIP then withFlag.(fallbacks := Some(Fallbacks(false, false))) else withFlag;
    var withRadio :=
      if withFallbacks.radioType == "" then withFallbacks.(radioType := DefaultRadioType)
      else withFallbacks;
    var ipAddress := withRadio.ipAddress;
    Prepared(withRadio.(ipAddress := ""),
             if ipAddress != "" then Some(ipAddress) else None)
  }

  /** Preparing an already prepared body changes nothing and yields no header. */
  lemma PrepareIdempotent(req: Request, ignoreIP: bool)
    ensures var body := Prepare(req, ignoreIP).body;
            Prepare(body, ignoreIP) == Prepared(body, None)
  {
  }

  /** The header carries exactly what was stripped: putting it back into the
      body gives a record that differs from the caller's only in the three
      rewritten fields, and preparing that record again reproduces the same
      body and header. */
  lemma ForwardedForRestoresAddress(req: Request, ignoreIP: bool)
    ensures var p := Prepare(req, ignoreIP);
            var restored := p.body.(ipAddress := p.forwardedFor.GetOr(""));
            restored == req.(considerIp := p.body.considerIp,
                             fallbacks := p.body.fallbacks,
                             radioType := p.body.radioType)
            && Prepare(restored, ignoreIP) == p
  {
  }

  /** The caller's `considerIp` never matters, and under global IP suppression
      neither do its fallbacks. */
  lemma PrepareOverridesCaller(req: Request, considerIp: bool, fallbacks: Option<Fallbacks>, ignoreIP: bool)
    ensures Prepare(req.(considerIp := considerIp), ignoreIP) == Prepare(req, ignoreIP)
    ensures ignoreIP ==>
              Prepare(req.(considerIp := considerIp, fallbacks := fallbacks), ignoreIP)
              == Prepare(req, ignoreIP)
  {
  }

  // ---------------------------------------------------------------------
  // The standard-dialect lookup
  // ---------------------------------------------------------------------

  /** The request that goes on the wire for an encoded body. */
  function Outgoing(l: Base, cfg: Config, p: Prepared, data: Bytes): HttpRequest {
    HttpRequest(l.serviceUrl, cfg.userAgent, p.forwardedFor, data)
  }

  /** Send `req` to the bound endpoint and relay the answer. `marshal` is the
      JSON encoder, `transport` the HTTP exchange, `decode` the JSON decoder;
      each reports failure with a message. */
  method Get(l: Base, req: Request, cfg: Config,
             marshal: Request -> Result<Bytes, string>,
             transport: HttpRequest -> Result<HttpResponse, string>,
             decode: Bytes -> Result<Response, string>)
    returns (result: Result<Response, Error>)
    ensures var p := Prepare(req, cfg.ignoreIPMethod);
            marshal(p.body).Failure? ==> result == Failure(Foreign(marshal(p.body).error))
    ensures var p := Prepare(req, cfg.ignoreIPMethod);
            marshal(p.body).Success? ==>
              var reply := transport(Outgoing(l, cfg, p, marshal(p.body).value));
              (reply.Failure? ==> result == Failure(Foreign(reply.error)))
              && (reply.Success? && StatusOutcome(reply.value.statusCode).Fail? ==>
                    result == Failure(StatusOutcome(reply.value.statusCode).err))
              && (reply.Success? && reply.value.statusCode == 200 ==>
                    result == match decode(reply.value.body)
                              case Success(r) => Success(r)
                              case Failure(m) => Failure(Foreign(m)))
    ensures result.Failure? && result.error.IsSentinel() ==>
              var p := Prepare(req, cfg.ignoreIPMethod);
              marshal(p.body).Success? &&
              var reply := transport(Outgoing(l, cfg, p, marshal(p.body).value));
              reply.Success? && StatusOutcome(reply.value.statusCode) == Fail(result.error)
    ensures result.Success? ==>
              var p := Prepare(req, cfg.ignoreIPMethod);
              marshal(p.body).Success? &&
              var reply := transport(Outgoing(l, cfg, p, marshal(p.body).value));
              reply.Success? && reply.value.statusCode == 200
              && decode(reply.value.body) == Success(result.value)
  {
    var r := req;
    r := r.(considerIp := !cfg.ignoreIPMethod);
    if cfg.ignoreIPMethod {
      r := r.(fallbacks := Some(Fallbacks(false, false)));
    }
    if r.radioType == "" {
      r := r.(radioType := DefaultRadioType);
    }
    var ipAddress := r.ipAddress;
    r := r.(ipAddress := "");
    var data := marshal(r);
    if data.Failure? {
      return Failure(Foreign(data.error));
    }
    var forwardedFor := None;
    if ipAddress != "" {
      forwardedFor := Some(ipAddress);
    }
    var httpReq := HttpRequest(l.serviceUrl, cfg.userAgent, forwardedFor, data.value);
    var resp := transport(httpReq);
    if resp.Failure? {
      return Failure(Foreign(resp.error));
    }
    match StatusOutcome(resp.value.statusCode)
    case Fail(e) =>
      return Failure(e);
    case Decode =>
      var response := decode(resp.value.body);
      if response.Failure? {
        return Failure(Foreign(response.error));
      }
      return Success(response.value);
  }

  // ---------------------------------------------------------------------
  // The factory
  // ---------------------------------------------------------------------

  /** The position of the first `c` in `s`, or `|s|` when there is none. */
  function IndexOf(s: string, c: char): (i: nat)
    ensures i <= |s|
    ensures i < |s| ==> s[i] == c
    ensures forall j :: 0 <= j < i ==> s[j] != c
    ensures i == |s| <==> c !in s
  {
    if s == [] then 0
    else if s[0] == c then 0
    else 1 + IndexOf(s[1..], c)
  }

  /** The raw query of a request URI: what follows its first '?', if any. */
  function Query(url: string): (q: Option<string>)
    ensures q.None? <==> '?' !in url
    ensures q.Some? ==> |q.value| < |url|
  {
    var i := IndexOf(url, '?');
    if i == |url| then None else Some(url[i + 1..])
  }

  /** `a` holds no `c`, so the first `c` of `a + b` is the first of `b`. */
  lemma {:induction false} IndexOfAfter(a: string, b: string, c: char)
    requires c !in a
    ensures IndexOf(a + b, c) == |a| + IndexOf(b, c)
  {
    if a != [] {
      assert (a + b)[1..] == a[1..] + b;
      IndexOfAfter(a[1..], b, c);
    } else {
      assert a + b == b;
    }
  }

  /** The URL a standard-dialect client is bound to: the key, escaped, is
      appended as the `key` query parameter when there is one. */
  function EndpointUrl(serviceUrl: string, apiKey: string, escape: string -> string): (u: string)
    ensures serviceUrl <= u
    ensures u == serviceUrl <==> apiKey == ""
    ensures apiKey != "" ==> u[|serviceUrl|..] == "?key=" + escape(apiKey)
  {
    if apiKey != "" then serviceUrl + "?key=" + escape(apiKey) else serviceUrl
  }

  /** A '?'-free prefix leaves the query of what follows it intact. */
  lemma QueryAfterPrefix(prefix: string, rest: string)
    requires '?' !in prefix
    requires rest != [] && rest[0] == '?'
    ensures Query(prefix + rest) == Some(rest[1..])
  {
    IndexOfAfter(prefix, rest, '?');
    assert (prefix + rest)[|prefix| + 1..] == rest[1..];
  }

  /** For an endpoint without a query of its own, the bound URL's query is
      exactly `key=<escaped key>` when a key was given, and absent otherwise. */
  lemma EndpointQuery(serviceUrl: string, apiKey: string, escape: string -> string)
    requires '?' !in serviceUrl
    ensures Query(EndpointUrl(serviceUrl, apiKey, escape))
            == if apiKey == "" then None else Some("key=" + escape(apiKey))
  {
    var rest := "?key=" + escape(apiKey);
    if apiKey == "" {
      assert EndpointUrl(serviceUrl, apiKey, escape) == serviceUrl;
    } else {
      assert EndpointUrl(serviceUrl, apiKey, escape) == serviceUrl + rest;
      assert rest[1..] == "key=" + escape(apiKey);
      QueryAfterPrefix(serviceUrl, rest);
    }
  }

  /** `s` is '?'-free when its two parts are; cuts a literal into cheap halves. */
  lemma NoQueryMarkIn(s: string, a: string, b: string)
    requires s == a + b && '?' !in a && '?' !in b
    ensures '?' !in s && Query(s) == None
  {
  }

  lemma MozillaUrlHalves()
    ensures MozillaUrl == "https://location.services.mozilla.com" + "/v1/geolocate"
    ensures '?' !in "https://location.services.mozilla.com"
  {
  }

  lemma GoogleUrlHalves()
    ensures GoogleUrl == "https://www.googleapis.com" + "/geolocation/v1/geolocate"
  {
  }

  lemma GoogleUrlHost()
    ensures '?' !in "https://www.googleapis.com"
  {
  }

  lemma GoogleUrlPath()
    ensures '?' !in "/geolocation/v1/geolocate"
  {
  }

  /** The built-in Mozilla endpoint carries no query of its own. */
  lemma MozillaUrlHasNoQuery()
    ensures '?' !in MozillaUrl && Query(MozillaUrl) == None
  {
    MozillaUrlHalves();
    assert '?' !in "/v1/geolocate";
    NoQueryMarkIn(MozillaUrl, "https://location.services.mozilla.com", "/v1/geolocate");
  }

  /** The built-in Google endpoint carries no query of its own. */
  lemma GoogleUrlHasNoQuery()
    ensures '?' !in GoogleUrl && Query(GoogleUrl) == None
  {
    GoogleUrlHalves();
    GoogleUrlHost();
    GoogleUrlPath();
    NoQueryMarkIn(GoogleUrl, "https://www.googleapis.com", "/geolocation/v1/geolocate");
  }

  /** A client for Mozilla or Google with a key sends exactly
      `key=<escaped key>` as the query of its bound URL. */
  lemma KnownEndpointQuery(serviceUrl: string, apiKey: string, escape: string -> string)
    requires serviceUrl == MozillaUrl || serviceUrl == GoogleUrl
    requires apiKey != ""
    ensures Query(EndpointUrl(serviceUrl, apiKey, escape)) == Some("key=" + escape(apiKey))
  {
    if serviceUrl == MozillaUrl {
      MozillaUrlHasNoQuery();
    } else {
      GoogleUrlHasNoQuery();
    }
    EndpointQuery(serviceUrl, apiKey, escape);
  }

  /** Build the client for `serviceUrl`. `escape` is the URL query escaper;
      `parseRequestUri` is the URL parser: `None` when it accepts a request
      URI, `Some(message)` with its error text when it rejects it. */
  method New(serviceUrl: string, apiKey: string,
             escape: string -> string, parseRequestUri: string -> Option<string>)
    returns (result: Result<Locator, Error>)
    ensures serviceUrl == YandexUrl ==> result == Success(YandexLocator(apiKey))
    ensures serviceUrl != YandexUrl ==>
              var u := EndpointUrl(serviceUrl, apiKey, escape);
              (result.Success? <==> parseRequestUri(u).None?)
              && (result.Success? ==> result.value == Standard(Base(u)))
              && (result.Failure? ==> result.error == ParseError(u, parseRequestUri(u).value))
  {
    if serviceUrl == YandexUrl {
      return Success(YandexLocator(apiKey));
    }
    var url := serviceUrl;
    if apiKey != "" {
      url := url + "?key=" + escape(apiKey);
    }
    var rejection := parseRequestUri(url);
    if rejection.Some? {
      return Failure(ParseError(url, rejection.value));
    }
    return Success(Standard(Base(url)));
  }
}
