/**
 * The request pipeline every client shares: the standard headers, the
 * one-shot token, and the translation of a response into a value or an
 * exception.
 */
module Client {

  import opened Wrappers
  import opened Strings
  import opened Rest
  import opened RequestExtensions
  import opened Exceptions

  const OK := 200
  const BadRequest := 400
  const Unauthorized := 401
  const Forbidden := 403
  const NotFound := 404
  const UnprocessableEntity := 422
  const TooManyRequests := 429
  const InternalServerError := 500
  const BadGateway := 502
  const ServiceUnavailable := 503
  const GatewayTimeout := 504

  const GenericError := "Generic Error"

  // ----- Error translation -----------------------------------------------

  /** What the error path reads from a parsed JSON object: its `message` (as text) and its `errors`. */
  datatype ErrorBody = ErrorBody(message: Option<string>, errors: Option<JsonToken>)

  /** The object `{}`. */
  const EmptyObject := ErrorBody(None, None)

  /** A response: its status code, its raw body (null when absent) and the decoded data. */
  datatype Response<T> = Response(status: int, content: Option<string>, data: T)

  /** The message used when the body carries none. */
  function DefaultMessage(status: int): (m: string)
    ensures m != ""
    ensures status in StatusMessages <==> m != GenericError
  {
    if status == NotFound then "Not found"
    else if status == Unauthorized then "Unauthorized"
    else if status == Forbidden then "Not enough privileges to access the requested resource"
    else if status == UnprocessableEntity then "Validation errors"
    else if status == BadRequest then "Bad request"
    else if status == TooManyRequests then "Too many requests"
    else if status == InternalServerError then "Internal server error"
    else if status == BadGateway then "Bad gateway"
    else if status == ServiceUnavailable then "Service unavailable"
    else if status == GatewayTimeout then "Gateway timeout"
    else GenericError
  }

  /** The status-code table as data: the reference DefaultMessage is checked against. */
  const StatusMessages: map<int, string> := map[
    404 := "Not found",
    401 := "Unauthorized",
    403 := "Not enough privileges to access the requested resource",
    422 := "Validation errors",
    400 := "Bad request",
    429 := "Too many requests",
    500 := "Internal server error",
    502 := "Bad gateway",
    503 := "Service unavailable",
    504 := "Gateway timeout"]

  /** The table's statuses get its messages; every other status, 200 and 201 included, gets the generic one. */
  lemma DefaultMessageTable(status: int)
    ensures status in StatusMessages ==> DefaultMessage(status) == StatusMessages[status]
    ensures status !in StatusMessages ==> DefaultMessage(status) == GenericError
  {
  }

  /** The body as the error path sees it: a null or empty body is `{}`; anything else goes to the JSON parser, which may reject it. */
  function ParsedBody(content: Option<string>, parse: string -> Option<ErrorBody>): (b: Option<ErrorBody>)
    ensures IsNullOrEmpty(content) ==> b == Some(EmptyObject)
    ensures !IsNullOrEmpty(content) ==> b == parse(content.value)
  {
    if IsNullOrEmpty(content) then Some(EmptyObject) else parse(content.value)
  }

  /**
   * The exception for a failed response: an AtlasException with the status,
   * the body's message or else the table's, and the body's errors; or the
   * parser's own exception when the body is not a JSON object.
   */
  function ComposeException(status: int, content: Option<string>, parse: string -> Option<ErrorBody>): (e: Exception)
    ensures e.Atlas? || e == JsonReader
    ensures e.Atlas? <==> ParsedBody(content, parse).Some?
    ensures e.Atlas? ==> e.httpStatusCode == status
    ensures e.Atlas? ==> e.errors == ParsedBody(content, parse).value.errors
    ensures e.Atlas? && ParsedBody(content, parse).value.message.Some? ==>
      e.message == ParsedBody(content, parse).value.message.value
    ensures e.Atlas? && ParsedBody(content, parse).value.message.None? ==> e.message == DefaultMessage(status)
  {
    match ParsedBody(content, parse)
    case None => JsonReader
    case Some(body) => Atlas(status, body.message.GetOr(DefaultMessage(status)), body.errors)
  }

  /** A null or empty body yields the table's message and no errors, whatever the parser. */
  lemma EmptyBodyUsesTable(status: int, content: Option<string>, parse: string -> Option<ErrorBody>)
    requires IsNullOrEmpty(content)
    ensures ComposeException(status, content, parse) == Atlas(status, DefaultMessage(status), None)
  {
  }

  /** A 404 with an empty body is the AtlasException "Not found". */
  lemma NotFoundWithEmptyBody(parse: string -> Option<ErrorBody>)
    ensures ComposeException(NotFound, Some(""), parse) == Atlas(404, "Not found", None)
  {
  }

  /**
   * Classification: a response succeeds exactly when its status is 200, and
   * then yields its data; a null response is an ArgumentNullException; any
   * other status, 201 and 204 included, fails with the composed exception.
   */
  function ElaborateResponse<T>(response: Option<Response<T>>, parse: string -> Option<ErrorBody>): (r: Outcome<T>)
    ensures r.Success? <==> response.Some? && response.value.status == OK
    ensures r.Success? ==> r.value == response.value.data
    ensures response.None? ==> r == Failure(ArgumentNull("response"))
    ensures response.Some? && response.value.status != OK ==>
      r == Failure(ComposeException(response.value.status, response.value.content, parse))
    ensures r.Failure? && r.error.Atlas? ==> response.Some? && r.error.httpStatusCode == response.value.status != OK
  {
    if response.None? then Failure(ArgumentNull("response"))
    else if response.value.status != OK then
      Failure(ComposeException(response.value.status, response.value.content, parse))
    else Success(response.value.data)
  }

  /** A null response is never an AtlasException, and a 200 response never fails. */
  lemma ElaborateNullAndOK<T>(response: Option<Response<T>>, parse: string -> Option<ErrorBody>)
    ensures response.None? ==> !ElaborateResponse(response, parse).error.Atlas?
    ensures response.Some? && response.value.status == OK ==> ElaborateResponse(response, parse) == Success(response.value.data)
  {
  }

  // ----- Platform and headers ----------------------------------------------

  /** One platform probe: its answer, or the platform-not-supported exception it raised. */
  datatype Probe = Detected(isPlatform: bool) | NotSupported

  /** A probe that raised counts as "not this platform". */
  function ProbeHolds(p: Probe): (b: bool)
    ensures b <==> p == Detected(true)
  {
    match p
    case Detected(v) => v
    case NotSupported => false
  }

  /** The operating system named in the SDK header: Windows first, then macOS, Linux otherwise. */
  function Os(windows: Probe, macOS: Probe): (os: string)
    ensures os == "Windows" || os == "macOS" || os == "Linux"
    ensures os == "Windows" <==> ProbeHolds(windows)
    ensures os == "macOS" <==> !ProbeHolds(windows) && ProbeHolds(macOS)
    ensures os == "Linux" <==> !ProbeHolds(windows) && !ProbeHolds(macOS)
  {
    if ProbeHolds(windows) then "Windows" else if ProbeHolds(macOS) then "macOS" else "Linux"
  }

  const AppId := "atlas-dotnet"
  const UserAgent := "Atlas CMS .NET Client SDK"

  function SdkHeaderValue(version: string, os: string): string
  {
    AppId + "/" + version + "; OS " + os + ";"
  }

  function Header(name: string, value: string): Parameter
  {
    Parameter(HttpHeader, name, Text(value))
  }

  /** The three headers added after the Authorization header, in order. */
  function StandardHeaders(sdk: string): seq<Parameter>
  {
    [Header("Content-Type", "application/json"), Header("X-Atlas-SDK", sdk), Header("User-Agent", UserAgent)]
  }

  /** The parameters of a request once the pipeline has added its headers. */
  function Enriched(ps: seq<Parameter>, credential: string, sdk: string): seq<Parameter>
  {
    BearerApplied(ps, credential) + StandardHeaders(sdk)
  }

  /**
   * An enriched request has exactly one Authorization header, `Bearer <credential>`,
   * or none for an empty credential.
   */
  lemma EnrichedAuthorization(ps: seq<Parameter>, credential: string, sdk: string)
    ensures Named(Enriched(ps, credential, sdk), AuthParameter) ==
      (if credential != "" then [BearerHeader(credential)] else [])
  {
    BearerAppliedAuthorization(ps, credential);
    NamedAppend(BearerApplied(ps, credential), StandardHeaders(sdk), AuthParameter);
    StandardHeadersAreNotAuthorization(sdk);
  }

  /** An enriched request is the bearer-applied parameters followed by the three standard headers. */
  lemma EnrichedLayout(ps: seq<Parameter>, credential: string, sdk: string)
    ensures var e := Enriched(ps, credential, sdk);
      |e| >= 3 && e[|e| - 3..] == StandardHeaders(sdk)
      && e[..|e| - 3] == BearerApplied(ps, credential)
  {
    var applied := BearerApplied(ps, credential);
    var e := applied + StandardHeaders(sdk);
    assert e[|e| - 3..] == StandardHeaders(sdk);
    assert e[..|e| - 3] == applied;
  }

  /** Enriching keeps every parameter other than Authorization, in order, before the standard headers. */
  lemma EnrichedKeepsOthers(ps: seq<Parameter>, credential: string, sdk: string)
    ensures Without(Enriched(ps, credential, sdk), AuthParameter) == Without(ps, AuthParameter) + StandardHeaders(sdk)
  {
    BearerAppliedAuthorization(ps, credential);
    WithoutAppend(BearerApplied(ps, credential), StandardHeaders(sdk), AuthParameter);
    StandardHeadersAreNotAuthorization(sdk);
  }

  lemma StandardHeadersAreNotAuthorization(sdk: string)
    ensures Named(StandardHeaders(sdk), AuthParameter) == []
    ensures Without(StandardHeaders(sdk), AuthParameter) == StandardHeaders(sdk)
  {
    var headers := StandardHeaders(sdk);
    assert forall k :: 0 <= k < |headers| ==> headers[k].name != AuthParameter;
    WithoutAbsent(headers, AuthParameter);
    NamedWithoutPartition(headers, AuthParameter);
  }

  /** The three AddHeader calls that follow the bearer token. */
  method AddStandardHeaders(request: Request, sdk: string)
    modifies request`parameters
    ensures request.parameters == old(request.parameters) + StandardHeaders(sdk)
  {
    request.AddHeader("Content-Type", "application/json");
    request.AddHeader("X-Atlas-SDK", sdk);
    request.AddHeader("User-Agent", UserAgent);
  }

  // ----- The client --------------------------------------------------------

  /** What the HTTP library hands back: a response (possibly null), or an exception it threw. */
  datatype TransportResult<T> = Returned(response: Option<Response<T>>) | Faulted(error: Exception)

  /**
   * The shared client state: the configured API key, the SDK version and the
   * platform probes (inputs read once), and the pending one-shot token.
   */
  class ClientBase {
    const apiKey: string
    const version: string
    const windows: Probe
    const macOS: Probe
    var token: string

    constructor (apiKey: string, version: string, windows: Probe, macOS: Probe)
      ensures this.apiKey == apiKey && this.version == version
      ensures this.windows == windows && this.macOS == macOS
      ensures token == ""
    {
      this.apiKey := apiKey;
      this.version := version;
      this.windows := windows;
      this.macOS := macOS;
      token := "";
    }

    /** The credential the next request carries: the pending token, or the API key when there is none. */
    function Credential(): (c: string)
      reads this
      ensures token != "" ==> c == token
      ensures token == "" ==> c == apiKey
    {
      if token == "" then apiKey else token
    }

    function SdkHeader(): string
    {
      SdkHeaderValue(version, Os(windows, macOS))
    }

    method SetToken(token: string)
      modifies this`token
      ensures this.token == token
    {
      this.token := token;
    }

    /** Adds the Authorization header for the current credential and the three standard headers. */
    method EnrichRequestHeaders(request: Request)
      modifies request`parameters
      ensures request.parameters == Enriched(old(request.parameters), Credential(), SdkHeader())
    {
      var credential := if token == "" then apiKey else token;
      assert credential == Credential();
      var _ := AddBearerToken(request, credential);
      AddStandardHeaders(request, AppId + "/" + version + "; OS " + Os(windows, macOS) + ";");
    }

    /**
     * Sends a request: adds the headers, hands it to the transport, clears the
     * pending token once the transport has returned, and classifies the
     * response. When the transport throws, its exception propagates and the
     * token is left as it was.
     */
    method Send<T>(request: Request, verb: Verb,
                   transport: (Verb, string, seq<Parameter>) -> TransportResult<T>,
                   parse: string -> Option<ErrorBody>)
      returns (outcome: Outcome<T>)
      modifies this`token, request`parameters
      ensures request.parameters == Enriched(old(request.parameters), old(Credential()), SdkHeader())
      ensures transport(verb, request.resource, request.parameters).Faulted? ==>
        token == old(token) && outcome == Failure(transport(verb, request.resource, request.parameters).error)
      ensures transport(verb, request.resource, request.parameters).Returned? ==>
        token == "" && Credential() == apiKey
        && outcome == ElaborateResponse(transport(verb, request.resource, request.parameters).response, parse)
    {
      EnrichRequestHeaders(request);
      var result := transport(verb, request.resource, request.parameters);
      if result.Faulted? {
        return Failure(result.error);
      }
      SetToken("");
      outcome := ElaborateResponse(result.response, parse);
    }
  }
}
