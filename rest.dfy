/**
 * The boundary to the HTTP library: a request under construction is its
 * resource path and an ordered list of named parameters (headers, query
 * parameters, URL segments, the body), which the SDK's helpers add to and
 * remove from in place.
 */
module Rest {

  datatype Verb = Get | Post | Put | Delete

  datatype ParameterKind = HttpHeader | QueryString | UrlSegment | RequestBody

  /** A parameter value: text, a number the library renders itself, a body serialized to JSON, or null. */
  datatype ParamValue = Text(text: string) | Number(number: int) | Json(json: string) | Null

  datatype Parameter = Parameter(kind: ParameterKind, name: string, value: ParamValue)

  /** The parameters called `name`, in their order in `ps`. */
  function Named(ps: seq<Parameter>, name: string): (r: seq<Parameter>)
    ensures |r| <= |ps|
    ensures forall k :: 0 <= k < |r| ==> r[k].name == name && r[k] in ps
    ensures forall p :: p in ps && p.name == name ==> p in r
    decreases |ps|
  {
    if ps == [] then []
    else if ps[0].name == name then [ps[0]] + Named(ps[1..], name)
    else Named(ps[1..], name)
  }

  /** The parameters not called `name`, in their order in `ps`. */
  function Without(ps: seq<Parameter>, name: string): (r: seq<Parameter>)
    ensures |r| <= |ps|
    ensures forall k :: 0 <= k < |r| ==> r[k].name != name && r[k] in ps
    ensures forall p :: p in ps && p.name != name ==> p in r
    decreases |ps|
  {
    if ps == [] then []
    else if ps[0].name == name then Without(ps[1..], name)
    else [ps[0]] + Without(ps[1..], name)
  }

  /** A request is split by a name into the parameters of that name and the rest. */
  lemma {:induction false} NamedWithoutPartition(ps: seq<Parameter>, name: string)
    ensures |Named(ps, name)| + |Without(ps, name)| == |ps|
    decreases |ps|
  {
    if ps != [] {
      NamedWithoutPartition(ps[1..], name);
    }
  }

  /** Removing a name that no parameter has changes nothing. */
  lemma {:induction false} WithoutAbsent(ps: seq<Parameter>, name: string)
    requires forall k :: 0 <= k < |ps| ==> ps[k].name != name
    ensures Without(ps, name) == ps
    decreases |ps|
  {
    if ps != [] {
      WithoutAbsent(ps[1..], name);
    }
  }

  /** Named distributes over concatenation. */
  lemma {:induction false} NamedAppend(ps: seq<Parameter>, qs: seq<Parameter>, name: string)
    ensures Named(ps + qs, name) == Named(ps, name) + Named(qs, name)
    decreases |ps|
  {
    if ps == [] {
      assert ps + qs == qs;
    } else {
      assert (ps + qs)[1..] == ps[1..] + qs;
      NamedAppend(ps[1..], qs, name);
    }
  }

  /** Without distributes over concatenation. */
  lemma {:induction false} WithoutAppend(ps: seq<Parameter>, qs: seq<Parameter>, name: string)
    ensures Without(ps + qs, name) == Without(ps, name) + Without(qs, name)
    decreases |ps|
  {
    if ps == [] {
      assert ps + qs == qs;
    } else {
      assert (ps + qs)[1..] == ps[1..] + qs;
      WithoutAppend(ps[1..], qs, name);
    }
  }

  /** A request: the resource path template and its parameters in insertion order. */
  class Request {
    const resource: string
    var parameters: seq<Parameter>

    constructor (resource: string)
      ensures this.resource == resource && parameters == []
    {
      this.resource := resource;
      parameters := [];
    }

    method AddParameter(p: Parameter)
      modifies this`parameters
      ensures parameters == old(parameters) + [p]
    {
      parameters := parameters + [p];
    }

    /** Appends a header; the library keeps every header it is given. */
    method AddHeader(name: string, value: string)
      modifies this`parameters
      ensures parameters == old(parameters) + [Parameter(HttpHeader, name, Text(value))]
    {
      AddParameter(Parameter(HttpHeader, name, Text(value)));
    }

    method AddQueryParameter(name: string, value: ParamValue)
      modifies this`parameters
      ensures parameters == old(parameters) + [Parameter(QueryString, name, value)]
    {
      AddParameter(Parameter(QueryString, name, value));
    }

    /** Adds the body, serialized to JSON, as the request's one unnamed body parameter. */
    method AddJsonBody(json: string)
      modifies this`parameters
      ensures parameters == old(parameters) + [Parameter(RequestBody, "", Json(json))]
    {
      AddParameter(Parameter(RequestBody, "", Json(json)));
    }

    /** Removes every parameter called `name`, whatever its kind. */
    method RemoveParameter(name: string)
      modifies this`parameters
      ensures parameters == Without(old(parameters), name)
    {
      parameters := Without(parameters, name);
    }
  }
}
