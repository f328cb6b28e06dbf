/**
 * What an endpoint method builds before it hands the request to the
 * pipeline: the verb, the resource path template with its `{name}`
 * placeholders, the URL segments bound to them, the JSON body and the list
 * query; and the two ways a method reshapes the pipeline's outcome.
 */
module Endpoints {

  import opened Wrappers
  import opened Strings
  import opened Rest
  import opened Exceptions
  import opened Queries
  import opened Models
  import opened RequestExtensions
  import opened Client

  /** A piece of a resource path template: literal text or a `{name}` placeholder. */
  datatype PathPart = Lit(text: string) | Hole(name: string)

  /** The list query a GET of a collection carries, if any. */
  datatype ListParameters = NoQuery | Users(users: Option<UserQuery>) | Accounts(accounts: Option<AccountsQuery>)

  /** One endpoint call: verb, path template, bound URL segments, body, query. */
  datatype Endpoint<B> = Endpoint(
    verb: Verb,
    template: seq<PathPart>,
    segments: seq<(string, string)>,
    body: Option<B>,
    query: ListParameters)

  /**
   * AddUrlSegment: the HTTP library refuses a null or empty value with
   * ArgumentNullException("value"), so no request exists; any other value is bound.
   */
  function UrlSegment(name: string, value: Option<string>): (r: Outcome<(string, string)>)
    ensures r.Failure? <==> IsNullOrEmpty(value)
    ensures r.Failure? ==> r.error == ArgumentNull("value")
    ensures r.Success? ==> r.value.0 == name && r.value.1 == value.value && r.value.1 != ""
  {
    if IsNullOrEmpty(value) then Failure(ArgumentNull("value")) else Success((name, value.value))
  }

  /** An endpoint whose request binds one URL segment: refused as AddUrlSegment refuses, or built. */
  function WithSegment<B>(verb: Verb, template: seq<PathPart>, name: string, value: Option<string>,
                          body: Option<B>, query: ListParameters): (r: Outcome<Endpoint<B>>)
    ensures r.Failure? <==> IsNullOrEmpty(value)
    ensures r.Failure? ==> r.error == ArgumentNull("value")
    ensures r.Success? ==> r.value == Endpoint(verb, template, [(name, value.value)], body, query)
  {
    match UrlSegment(name, value)
    case Failure(e) => Failure(e)
    case Success(segment) => Success(Endpoint(verb, template, [segment], body, query))
  }

  /** The value bound to a segment name: that of the first segment of that name. */
  function Binding(segments: seq<(string, string)>, name: string): (r: Option<string>)
    ensures r.Some? ==> exists k :: 0 <= k < |segments| && segments[k] == (name, r.value)
    ensures r.None? ==> forall k :: 0 <= k < |segments| ==> segments[k].0 != name
    decreases |segments|
  {
    if segments == [] then None
    else if segments[0].0 == name then Some(segments[0].1)
    else Binding(segments[1..], name)
  }

  /** The path with every bound placeholder replaced by its value; an unbound one stays `{name}`. */
  function Path(template: seq<PathPart>, segments: seq<(string, string)>): string
    decreases |template|
  {
    if template == [] then ""
    else
      var head := match template[0]
        case Lit(t) => t
        case Hole(n) => if Binding(segments, n).Some? then Binding(segments, n).value else "{" + n + "}";
      head + Path(template[1..], segments)
  }

  /** The placeholders of a template that no segment binds, in order. */
  function Unbound(template: seq<PathPart>, segments: seq<(string, string)>): (r: seq<string>)
    ensures forall k :: 0 <= k < |r| ==> Binding(segments, r[k]).None?
    ensures forall k :: 0 <= k < |template| && template[k].Hole? && Binding(segments, template[k].name).None? ==>
      template[k].name in r
    decreases |template|
  {
    if template == [] then []
    else
      var here := if template[0].Hole? && Binding(segments, template[0].name).None? then [template[0].name] else [];
      here + Unbound(template[1..], segments)
  }

  /** The template as written in the source, placeholders included. */
  function Template<B>(e: Endpoint<B>): string
  {
    Path(e.template, [])
  }

  /** The path the request goes to. */
  function Url<B>(e: Endpoint<B>): string
  {
    Path(e.template, e.segments)
  }

  predicate FullyBound<B>(e: Endpoint<B>)
  {
    Unbound(e.template, e.segments) == []
  }

  /** With nothing left unbound, the path holds no `{`-placeholder of the template. */
  lemma {:induction false} BoundPathHasNoPlaceholder(template: seq<PathPart>, segments: seq<(string, string)>)
    requires Unbound(template, segments) == []
    requires forall k :: 0 <= k < |template| && template[k].Lit? ==> '{' !in template[k].text
    requires forall k :: 0 <= k < |segments| ==> '{' !in segments[k].1
    ensures '{' !in Path(template, segments)
    decreases |template|
  {
    if template != [] {
      assert Unbound(template[1..], segments) == [];
      BoundPathHasNoPlaceholder(template[1..], segments);
      match template[0]
      case Lit(t) =>
      case Hole(n) =>
        assert Binding(segments, n).Some?;
    }
  }

  // ----- Bodies that are not entities ---------------------------------------

  /** `{ password }`: a new password. */
  datatype PasswordBody = PasswordBody(password: string)

  /** `{ username, password }`: login credentials. */
  datatype Credentials = Credentials(username: string, password: string)

  /** `{ name, permissions }`: the fields of an account role that creation sends. */
  datatype RoleFields = RoleFields(name: Option<string>, permissions: Option<seq<string>>)

  /** `{ name, isActive, validFrom, validTo, permissions }`: the fields of an API key that creation sends. */
  datatype ApiKeyFields = ApiKeyFields(
    name: Option<string>,
    isActive: bool,
    validFrom: Option<DateTime>,
    validTo: Option<DateTime>,
    permissions: seq<string>)

  // ----- Reshaping the outcome ----------------------------------------------

  /**
   * `(await PostAsync<KeyResult<string>>(...)).Result`: the created id, or a
   * null-reference failure when the decoded data is null; a failure of the
   * call propagates unchanged.
   */
  function KeyResultValue(o: Outcome<Option<KeyResult>>): (r: Outcome<Option<string>>)
    ensures o.Failure? ==> r == Failure(o.error)
    ensures o == Success(None) ==> r == Failure(NullReference)
    ensures o.Success? && o.value.Some? ==> r == Success(o.value.value.result)
  {
    match o
    case Failure(e) => Failure(e)
    case Success(None) => Failure(NullReference)
    case Success(Some(k)) => Success(k.result)
  }

  predicate IsUnauthorized<T>(o: Outcome<T>)
  {
    o.Failure? && o.error.Atlas? && o.error.httpStatusCode == Unauthorized
  }

  /**
   * The Login convention: an AtlasException with status 401 becomes a null
   * token; every other outcome, success or failure, is passed on unchanged.
   */
  function LoginResult(o: Outcome<Option<AuthToken>>): (r: Outcome<Option<AuthToken>>)
    ensures IsUnauthorized(o) ==> r == Success(None)
    ensures !IsUnauthorized(o) ==> r == o
    ensures r.Failure? <==> o.Failure? && !IsUnauthorized(o)
    ensures r == Success(None) <==> IsUnauthorized(o) || o == Success(None)
  {
    if IsUnauthorized(o) then Success(None) else o
  }

  /**
   * Through the pipeline: a 401 response whose body is empty or a JSON object
   * logs in as null; a 401 whose body is not JSON still fails, with the
   * parser's exception.
   */
  lemma LoginOfUnauthorizedResponse(response: Response<Option<AuthToken>>, parse: string -> Option<ErrorBody>)
    requires response.status == Unauthorized
    ensures ParsedBody(response.content, parse).Some? ==>
      LoginResult(ElaborateResponse(Some(response), parse)) == Success(None)
    ensures ParsedBody(response.content, parse).None? ==>
      LoginResult(ElaborateResponse(Some(response), parse)) == Failure(JsonReader)
  {
  }

  /** A 200 response logs in with its decoded token. */
  lemma LoginOfOKResponse(response: Response<Option<AuthToken>>, parse: string -> Option<ErrorBody>)
    requires response.status == OK
    ensures LoginResult(ElaborateResponse(Some(response), parse)) == Success(response.data)
  {
  }

  // ----- Running an endpoint method -----------------------------------------

  /** The parameter AddJsonBody adds for a body whose JSON text is `json`. */
  function BodyParameter(json: string): Parameter
  {
    Parameter(RequestBody, "", Json(json))
  }

  /**
   * The name-value pairs the AddQuery overload for a list query adds; the
   * overloads for user and account queries are not part of this model and
   * are given as `render`. An endpoint without a list query adds none.
   */
  function QueryPairs(query: ListParameters, render: ListParameters -> seq<(string, ParamValue)>): seq<(string, ParamValue)>
  {
    if query.NoQuery? then [] else render(query)
  }

  function QueryParameters(pairs: seq<(string, ParamValue)>): seq<Parameter>
  {
    seq(|pairs|, k requires 0 <= k < |pairs| => Parameter(QueryString, pairs[k].0, pairs[k].1))
  }

  /**
   * What an endpoint's request holds when it reaches the pipeline: the query
   * parameters of its list query, in order, then its body serialized by
   * `serialize` as the one body parameter, when it has a body.
   */
  function Carried<B>(e: Endpoint<B>, serialize: B -> string,
                      render: ListParameters -> seq<(string, ParamValue)>): (r: seq<Parameter>)
    ensures var pairs := QueryPairs(e.query, render);
      |r| == |pairs| + (if e.body.Some? then 1 else 0)
      && (forall k :: 0 <= k < |pairs| ==> r[k] == Parameter(QueryString, pairs[k].0, pairs[k].1))
      && (e.body.Some? ==> r[|r| - 1] == BodyParameter(serialize(e.body.value)))
  {
    QueryParameters(QueryPairs(e.query, render))
      + (if e.body.Some? then [BodyParameter(serialize(e.body.value))] else [])
  }

  /**
   * The body reaches the transport: once the pipeline has enriched the
   * request, its body parameter is there exactly when the endpoint has a
   * body, and it is the only body parameter.
   */
  lemma SentBody<B>(e: Endpoint<B>, serialize: B -> string,
                    render: ListParameters -> seq<(string, ParamValue)>, credential: string, sdk: string)
    ensures var sent := Enriched(Carried(e, serialize, render), credential, sdk);
      (forall p :: p in sent && p.kind == RequestBody ==> e.body.Some? && p == BodyParameter(serialize(e.body.value)))
      && (e.body.Some? ==> BodyParameter(serialize(e.body.value)) in sent)
  {
    var carried := Carried(e, serialize, render);
    var pairs := QueryPairs(e.query, render);
    var sent := Enriched(carried, credential, sdk);
    var added := if credential != "" then [BearerHeader(credential)] else [];
    assert sent == Without(carried, AuthParameter) + added + StandardHeaders(sdk);
    forall p | p in sent && p.kind == RequestBody
      ensures e.body.Some? && p == BodyParameter(serialize(e.body.value))
    {
      assert p !in added && p !in StandardHeaders(sdk);
      assert p in carried;
      var k :| 0 <= k < |carried| && carried[k] == p;
      if k < |pairs| {
        assert carried[k].kind == QueryString;
      }
    }
    if e.body.Some? {
      assert carried[|carried| - 1] == BodyParameter(serialize(e.body.value));
      assert BodyParameter(serialize(e.body.value)) in Without(carried, AuthParameter);
    }
  }

  /**
   * The list query reaches the transport: apart from Authorization, the
   * enriched request holds the query parameters in order, then the body
   * parameter, then the three standard headers.
   */
  lemma SentQuery<B>(e: Endpoint<B>, serialize: B -> string,
                     render: ListParameters -> seq<(string, ParamValue)>, credential: string, sdk: string)
    ensures Without(Enriched(Carried(e, serialize, render), credential, sdk), AuthParameter)
      == Without(QueryParameters(QueryPairs(e.query, render)), AuthParameter)
         + (if e.body.Some? then [BodyParameter(serialize(e.body.value))] else [])
         + StandardHeaders(sdk)
  {
    var query := QueryParameters(QueryPairs(e.query, render));
    var body := if e.body.Some? then [BodyParameter(serialize(e.body.value))] else [];
    EnrichedKeepsOthers(query + body, credential, sdk);
    WithoutAppend(query, body, AuthParameter);
    WithoutAbsent(body, AuthParameter);
  }

  /** The AddQueryParameter calls of a list query's AddQuery overload, one per rendered pair. */
  method AddQueryPairs(request: Request, pairs: seq<(string, ParamValue)>)
    modifies request`parameters
    ensures request.parameters == old(request.parameters) + QueryParameters(pairs)
  {
    for i := 0 to |pairs|
      invariant request.parameters == old(request.parameters) + QueryParameters(pairs[..i])
    {
      assert QueryParameters(pairs[..i + 1]) == QueryParameters(pairs[..i]) + [Parameter(QueryString, pairs[i].0, pairs[i].1)];
      request.AddQueryParameter(pairs[i].0, pairs[i].1);
    }
    assert pairs[..|pairs|] == pairs;
  }

  /**
   * An endpoint method on a client: a refused descriptor raises before any
   * request exists, so nothing is sent and the pending token stays; a built
   * one becomes a request to its path carrying its list query and its JSON
   * body, sent through the client's pipeline. The JSON serializer is given
   * as `serialize`.
   */
  method Dispatch<B, T>(client: ClientBase, built: Outcome<Endpoint<B>>,
                        serialize: B -> string,
                        render: ListParameters -> seq<(string, ParamValue)>,
                        transport: (Verb, string, seq<Parameter>) -> TransportResult<T>,
                        parse: string -> Option<ErrorBody>)
    returns (outcome: Outcome<T>)
    modifies client`token
    ensures built.Failure? ==> outcome == Failure(built.error) && client.token == old(client.token)
    ensures built.Success? ==>
      var sent := Enriched(Carried(built.value, serialize, render), old(client.Credential()), client.SdkHeader());
      var result := transport(built.value.verb, Url(built.value), sent);
      (result.Faulted? ==> client.token == old(client.token) && outcome == Failure(result.error))
      && (result.Returned? ==> client.token == "" && outcome == ElaborateResponse(result.response, parse))
  {
    if built.Failure? {
      return Failure(built.error);
    }
    var request := new Request(Url(built.value));
    AddQueryPairs(request, QueryPairs(built.value.query, render));
    if built.value.body.Some? {
      request.AddJsonBody(serialize(built.value.body.value));
    }
    assert request.parameters == Carried(built.value, serialize, render);
    outcome := client.Send(request, built.value.verb, transport, parse);
  }
}
