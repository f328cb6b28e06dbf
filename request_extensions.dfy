/**
 * The SDK's request-building helpers: the bearer Authorization header and
 * the query-string parameters of content and asset list queries. Each
 * helper changes the request's parameter list in place and hands the same
 * request back, and is specified by a function of the old parameter list.
 */
module RequestExtensions {

  import opened Wrappers
  import opened Strings
  import opened Rest
  import opened Queries

  const AuthParameter := "Authorization"

  /** The Authorization header carrying `token` as a bearer credential. */
  function BearerHeader(token: string): Parameter
  {
    Parameter(HttpHeader, AuthParameter, Text("Bearer " + token))
  }

  /** The parameters after AddBearerToken: every Authorization parameter dropped, one added for a non-empty token. */
  function BearerApplied(ps: seq<Parameter>, token: string): seq<Parameter>
  {
    Without(ps, AuthParameter) + (if token != "" then [BearerHeader(token)] else [])
  }

  /**
   * After AddBearerToken there is exactly one Authorization parameter, `Bearer <token>`,
   * when the token is non-empty and none otherwise; every other parameter is kept in order.
   */
  lemma BearerAppliedAuthorization(ps: seq<Parameter>, token: string)
    ensures Named(BearerApplied(ps, token), AuthParameter) == (if token != "" then [BearerHeader(token)] else [])
    ensures Without(BearerApplied(ps, token), AuthParameter) == Without(ps, AuthParameter)
  {
    var rest := Without(ps, AuthParameter);
    var added := if token != "" then [BearerHeader(token)] else [];
    NamedAppend(rest, added, AuthParameter);
    WithoutAppend(rest, added, AuthParameter);
    NamedWithoutPartition(rest, AuthParameter);
    assert |Named(rest, AuthParameter)| == 0 by {
      NamedWithoutPartition(ps, AuthParameter);
      WithoutAbsent(rest, AuthParameter);
    }
    WithoutAbsent(rest, AuthParameter);
  }

  /** Applying the same bearer token twice is the same as applying it once. */
  lemma BearerAppliedIdempotent(ps: seq<Parameter>, token: string)
    ensures BearerApplied(BearerApplied(ps, token), token) == BearerApplied(ps, token)
  {
    BearerAppliedAuthorization(ps, token);
  }

  /** Replaces any Authorization parameter by `Bearer <token>`, or by nothing for an empty token. */
  method AddBearerToken(request: Request, token: string) returns (r: Request)
    modifies request`parameters
    ensures r == request
    ensures request.parameters == BearerApplied(old(request.parameters), token)
  {
    if exists k :: 0 <= k < |request.parameters| && request.parameters[k].name == AuthParameter {
      request.RemoveParameter(AuthParameter);
    } else {
      WithoutAbsent(request.parameters, AuthParameter);
    }
    if token != "" {
      request.AddHeader(AuthParameter, "Bearer " + token);
    }
    r := request;
  }

  // ----- Filters --------------------------------------------------------

  function QueryParameter(name: string, value: ParamValue): Parameter
  {
    Parameter(QueryString, name, value)
  }

  /** A filter piece becomes a parameter only when it splits on `=` into exactly two parts. */
  function PieceParameter(piece: string): seq<Parameter>
  {
    var parts := Split(piece, '=');
    if |parts| == 2 then [QueryParameter(parts[0], Text(parts[1]))] else []
  }

  /** The parameters of a sequence of filter pieces, in order. */
  function PieceParameters(pieces: seq<string>): seq<Parameter>
    decreases |pieces|
  {
    if pieces == [] then []
    else PieceParameters(pieces[..|pieces| - 1]) + PieceParameter(pieces[|pieces| - 1])
  }

  /** The parameters a filter string contributes: its `&`-separated well-formed `name=value` pieces. */
  function FilterParameters(filters: Option<string>): seq<Parameter>
  {
    if IsNullOrEmpty(filters) then [] else PieceParameters(Split(filters.value, '&'))
  }

  /** Every filter parameter is a query parameter whose name and value hold neither `&` nor `=`. */
  lemma {:induction false} PieceParametersWellFormed(pieces: seq<string>)
    requires forall k :: 0 <= k < |pieces| ==> '&' !in pieces[k]
    ensures forall k :: 0 <= k < |PieceParameters(pieces)| ==>
      var p := PieceParameters(pieces)[k];
      p.kind == QueryString && p.value.Text? &&
      '&' !in p.name && '=' !in p.name && '&' !in p.value.text && '=' !in p.value.text
    decreases |pieces|
  {
    if pieces != [] {
      var last := pieces[|pieces| - 1];
      PieceParametersWellFormed(pieces[..|pieces| - 1]);
      SplitPiecesAvoidSeparator(last, '=');
      var parts := Split(last, '=');
      if |parts| == 2 {
        JoinSplit(last, '=');
        assert Join(parts, "=") == parts[0] + "=" + parts[1];
        assert parts[0] <= last && last[|parts[0]| + 1..] == parts[1];
        forall ch | ch in parts[0] ensures ch in last { }
        forall ch | ch in parts[1] ensures ch in last { }
      }
    }
  }

  lemma FilterParametersWellFormed(filters: Option<string>)
    ensures forall k :: 0 <= k < |FilterParameters(filters)| ==>
      var p := FilterParameters(filters)[k];
      p.kind == QueryString && p.value.Text? &&
      '&' !in p.name && '=' !in p.name && '&' !in p.value.text && '=' !in p.value.text
  {
    if !IsNullOrEmpty(filters) {
      SplitPiecesAvoidSeparator(filters.value, '&');
      PieceParametersWellFormed(Split(filters.value, '&'));
    }
  }

  /** A filter string with no `&` and more than one `=` is one malformed piece: it adds nothing. */
  lemma SinglePieceWithManyEqualsDropped(s: string)
    requires '&' !in s
    requires multiset(s)['='] >= 2
    ensures FilterParameters(Some(s)) == []
  {
    SplitAbsent(s, '&');
    SplitCount(s, '=');
    assert [s][..0] == [];
    assert PieceParameters([s]) == PieceParameter(s);
  }

  /** The text `name=value` of one filter pair. */
  function PairText(pair: (string, string)): string
  {
    pair.0 + "=" + pair.1
  }

  function PairTexts(pairs: seq<(string, string)>): (r: seq<string>)
    ensures |r| == |pairs|
    ensures forall k :: 0 <= k < |pairs| ==> r[k] == PairText(pairs[k])
    decreases |pairs|
  {
    if pairs == [] then [] else [PairText(pairs[0])] + PairTexts(pairs[1..])
  }

  function PairParameters(pairs: seq<(string, string)>): (r: seq<Parameter>)
    ensures |r| == |pairs|
    decreases |pairs|
  {
    if pairs == [] then [] else PairParameters(pairs[..|pairs| - 1]) + [QueryParameter(pairs[|pairs| - 1].0, Text(pairs[|pairs| - 1].1))]
  }

  lemma {:induction false} PairParametersAt(pairs: seq<(string, string)>)
    ensures forall k :: 0 <= k < |pairs| ==> PairParameters(pairs)[k] == QueryParameter(pairs[k].0, Text(pairs[k].1))
    decreases |pairs|
  {
    if pairs != [] {
      PairParametersAt(pairs[..|pairs| - 1]);
    }
  }

  predicate CleanPair(pair: (string, string))
  {
    '&' !in pair.0 && '=' !in pair.0 && '&' !in pair.1 && '=' !in pair.1
  }

  lemma PairPieceParameter(pair: (string, string))
    requires CleanPair(pair)
    ensures PieceParameter(PairText(pair)) == [QueryParameter(pair.0, Text(pair.1))]
  {
    var xs := [pair.0, pair.1];
    assert Join(xs, "=") == PairText(pair) by {
      assert xs[1..] == [pair.1];
    }
    SplitJoin(xs, '=');
  }

  lemma {:induction false} PairPieceParameters(pairs: seq<(string, string)>)
    requires forall k :: 0 <= k < |pairs| ==> CleanPair(pairs[k])
    ensures PieceParameters(PairTexts(pairs)) == PairParameters(pairs)
    decreases |pairs|
  {
    if pairs != [] {
      var init := pairs[..|pairs| - 1];
      var texts := PairTexts(pairs);
      assert texts[..|texts| - 1] == PairTexts(init);
      PairPieceParameters(init);
      PairPieceParameter(pairs[|pairs| - 1]);
    }
  }

  /**
   * Round trip: a filter string written as `n1=v1&n2=v2&...` from clean pairs
   * yields exactly those pairs, in order, as query parameters.
   */
  lemma FilterParametersRoundTrip(pairs: seq<(string, string)>)
    requires |pairs| >= 1
    requires forall k :: 0 <= k < |pairs| ==> CleanPair(pairs[k])
    ensures FilterParameters(Some(Join(PairTexts(pairs), "&"))) == PairParameters(pairs)
  {
    PairTextsAvoidAmpersand(pairs);
    FilterOfJoined(PairTexts(pairs));
    PairPieceParameters(pairs);
  }

  /** Pieces without `&`, joined with `&`, are split back into exactly those pieces. */
  lemma FilterOfJoined(texts: seq<string>)
    requires |texts| >= 1
    requires forall k :: 0 <= k < |texts| ==> '&' !in texts[k]
    ensures FilterParameters(Some(Join(texts, "&"))) == PieceParameters(texts)
  {
    SplitJoin(texts, '&');
    if Join(texts, "&") == "" {
      assert texts == [""];
      assert PieceParameters(texts) == PieceParameters([][..0]) + PieceParameter("");
    }
  }

  lemma PairTextsAvoidAmpersand(pairs: seq<(string, string)>)
    requires forall k :: 0 <= k < |pairs| ==> CleanPair(pairs[k])
    ensures forall k :: 0 <= k < |PairTexts(pairs)| ==> '&' !in PairTexts(pairs)[k]
  {
    var texts := PairTexts(pairs);
    forall k | 0 <= k < |texts| ensures '&' !in texts[k] {
      assert texts[k] == pairs[k].0 + "=" + pairs[k].1;
    }
  }

  // ----- Resolvers ------------------------------------------------------

  /** The names of the set resolver flags, in the fixed order media, mediagallery, references. */
  function ResolverNames(r: ContentResolver): seq<string>
  {
    (if HasFlag(r, Media) then ["media"] else [])
    + (if HasFlag(r, MediaGallery) then ["mediagallery"] else [])
    + (if HasFlag(r, References) then ["references"] else [])
  }

  /** The value of the `resolve` parameter: the set flags' names, comma-separated. */
  function ResolveValue(r: ContentResolver): string
  {
    Join(ResolverNames(r), ",")
  }

  /** No flag name is empty or ends in a comma. */
  lemma ResolverNamesUntrailed(r: ContentResolver)
    ensures forall k :: 0 <= k < |ResolverNames(r)| ==>
      ResolverNames(r)[k] != [] && ResolverNames(r)[k][|ResolverNames(r)[k]| - 1] != ','
  {
    var ns := ResolverNames(r);
    assert forall k :: 0 <= k < |ns| ==> ns[k] in {"media", "mediagallery", "references"};
  }

  lemma TrimmedResolverNames(r: ContentResolver)
    ensures TrimEnd(Terminated(ResolverNames(r)), ',') == ResolveValue(r)
  {
    ResolverNamesUntrailed(r);
    TrimmedTerminated(ResolverNames(r));
  }

  /** What the string builder holds: each name followed by a comma. */
  function Terminated(names: seq<string>): string
    decreases |names|
  {
    if names == [] then "" else Terminated(names[..|names| - 1]) + names[|names| - 1] + ","
  }

  lemma TerminatedSnoc(names: seq<string>, n: string)
    ensures Terminated(names + [n]) == Terminated(names) + n + ","
  {
    assert (names + [n])[..|names|] == names;
  }

  lemma {:induction false} TerminatedIsJoinPlusComma(names: seq<string>)
    requires names != []
    ensures Terminated(names) == Join(names, ",") + ","
    decreases |names|
  {
    var init := names[..|names| - 1];
    assert init + [names[|names| - 1]] == names;
    JoinSnoc(init, names[|names| - 1], ",");
    if init != [] {
      TerminatedIsJoinPlusComma(init);
    }
  }

  /** Trimming the trailing comma of the builder gives the comma-joined names, with no trailing comma. */
  lemma TrimmedTerminated(names: seq<string>)
    requires forall k :: 0 <= k < |names| ==> names[k] != [] && names[k][|names[k]| - 1] != ','
    ensures TrimEnd(Terminated(names), ',') == Join(names, ",")
  {
    if names != [] {
      TerminatedIsJoinPlusComma(names);
      var j := Join(names, ",");
      JoinEndsWithLastPiece(names, ",");
      assert (j + ",")[..|j + ","| - 1] == j;
      assert TrimEnd(j + ",", ',') == TrimEnd(j, ',');
    }
  }

  /** The `resolve` value is empty exactly when none of the three flags is set, and never ends in a comma. */
  lemma ResolveValueShape(r: ContentResolver)
    ensures ResolveValue(r) == "" <==> !HasFlag(r, Media) && !HasFlag(r, MediaGallery) && !HasFlag(r, References)
    ensures ResolveValue(r) == "" || ResolveValue(r)[|ResolveValue(r)| - 1] != ','
  {
    var ns := ResolverNames(r);
    if ns != [] {
      JoinEndsWithLastPiece(ns, ",");
    }
  }

  function ResolveParameters(r: ContentResolver): seq<Parameter>
  {
    if r != NoResolver then [QueryParameter("resolve", Text(ResolveValue(r)))] else []
  }

  // ----- Paging, sorting, optional text ---------------------------------

  /** A parameter for a text value, only when it is neither null nor empty. */
  function OptionalText(name: string, value: Option<string>): seq<Parameter>
  {
    if IsNullOrEmpty(value) then [] else [QueryParameter(name, Text(value.value))]
  }

  function PagingParameters(q: ListQuery): seq<Parameter>
  {
    [QueryParameter("page", Number(q.page)), QueryParameter("size", Number(q.size))]
  }

  function SortValue(sort: Option<string>): ParamValue
  {
    if sort.Some? then Text(sort.value) else Null
  }

  function SortingParameters(q: ListQuery): seq<Parameter>
  {
    [QueryParameter("sort", SortValue(q.sort))]
  }

  /** The query parameters a contents query adds, in the order they are added. */
  function ContentsQueryParameters(query: Option<ContentsQuery>): seq<Parameter>
  {
    match query
    case None => []
    case Some(q) =>
      FilterParameters(q.filters) + ResolveParameters(q.resolvers) + OptionalText("search", q.search)
      + PagingParameters(q.list) + SortingParameters(q.list)
  }

  /** The query parameters an assets query adds, in the order they are added. */
  function AssetsQueryParameters(query: Option<AssetsQuery>): seq<Parameter>
  {
    match query
    case None => []
    case Some(q) =>
      FilterParameters(q.filters) + OptionalText("folder", q.folder)
      + PagingParameters(q.list) + SortingParameters(q.list)
  }

  function Names(ps: seq<Parameter>): (r: seq<string>)
    ensures |r| == |ps|
    ensures forall k :: 0 <= k < |ps| ==> r[k] == ps[k].name
    decreases |ps|
  {
    if ps == [] then [] else [ps[0].name] + Names(ps[1..])
  }

  /**
   * After the filter parameters a contents query adds `resolve` (only for
   * resolvers other than None), `search` (only when non-empty), then always
   * `page`, `size` and `sort`; the three last carry the query's values.
   */
  lemma ContentsQueryLayout(q: ContentsQuery)
    ensures var ps := ContentsQueryParameters(Some(q));
      var f := |FilterParameters(q.filters)|;
      f <= |ps| && ps[..f] == FilterParameters(q.filters)
      && Names(ps[f..]) ==
        (if q.resolvers != NoResolver then ["resolve"] else [])
        + (if IsNullOrEmpty(q.search) then [] else ["search"])
        + ["page", "size", "sort"]
      && ps[|ps| - 3..] == [QueryParameter("page", Number(q.list.page)),
                            QueryParameter("size", Number(q.list.size)),
                            QueryParameter("sort", SortValue(q.list.sort))]
  {
    var f := FilterParameters(q.filters);
    var opt := ResolveParameters(q.resolvers) + OptionalText("search", q.search);
    var last := PagingParameters(q.list) + SortingParameters(q.list);
    Regroup(f, ResolveParameters(q.resolvers), OptionalText("search", q.search), PagingParameters(q.list), SortingParameters(q.list));
    LayoutOf(f, opt, last);
    NamesAppend(ResolveParameters(q.resolvers), OptionalText("search", q.search));
    ResolveNames(q.resolvers);
    OptionalTextNames("search", q.search);
    ListTail(q.list);
  }

  lemma ResolveNames(r: ContentResolver)
    ensures Names(ResolveParameters(r)) == (if r != NoResolver then ["resolve"] else [])
  {
  }

  lemma OptionalTextNames(name: string, value: Option<string>)
    ensures Names(OptionalText(name, value)) == (if IsNullOrEmpty(value) then [] else [name])
  {
  }

  /** Paging and sorting always end a list query with `page`, `size` and `sort`. */
  lemma ListTail(list: ListQuery)
    ensures PagingParameters(list) + SortingParameters(list) ==
      [QueryParameter("page", Number(list.page)), QueryParameter("size", Number(list.size)),
       QueryParameter("sort", SortValue(list.sort))]
    ensures Names(PagingParameters(list) + SortingParameters(list)) == ["page", "size", "sort"]
  {
  }

  lemma NamesAppend(a: seq<Parameter>, b: seq<Parameter>)
    ensures Names(a + b) == Names(a) + Names(b)
  {
  }

  /** The same shape for an assets query, with `folder` in place of resolve and search. */
  lemma AssetsQueryLayout(q: AssetsQuery)
    ensures var ps := AssetsQueryParameters(Some(q));
      var f := |FilterParameters(q.filters)|;
      f <= |ps| && ps[..f] == FilterParameters(q.filters)
      && Names(ps[f..]) == (if IsNullOrEmpty(q.folder) then [] else ["folder"]) + ["page", "size", "sort"]
      && ps[|ps| - 3..] == [QueryParameter("page", Number(q.list.page)),
                            QueryParameter("size", Number(q.list.size)),
                            QueryParameter("sort", SortValue(q.list.sort))]
  {
    var f := FilterParameters(q.filters);
    var opt := OptionalText("folder", q.folder);
    var last := PagingParameters(q.list) + SortingParameters(q.list);
    AppendAssoc(f + opt, PagingParameters(q.list), SortingParameters(q.list));
    LayoutOf(f, opt, last);
    OptionalTextNames("folder", q.folder);
    ListTail(q.list);
  }

  lemma Regroup(a: seq<Parameter>, b: seq<Parameter>, c: seq<Parameter>, d: seq<Parameter>, e: seq<Parameter>)
    ensures a + b + c + d + e == a + (b + c) + (d + e)
  {
  }

  /** Cutting `f + opt + last` back into its three parts. */
  lemma LayoutOf(f: seq<Parameter>, opt: seq<Parameter>, last: seq<Parameter>)
    ensures var ps := f + opt + last;
      |f| <= |ps| && ps[..|f|] == f && Names(ps[|f|..]) == Names(opt) + Names(last)
      && |last| <= |ps| && ps[|ps| - |last|..] == last
  {
    var ps := f + opt + last;
    assert ps[..|f|] == f;
    assert ps[|f|..] == opt + last;
    assert ps[|ps| - |last|..] == last;
    NamesAppend(opt, last);
  }

  // ----- The helpers that change the request -----------------------------

  lemma AppendAssoc(a: seq<Parameter>, b: seq<Parameter>, c: seq<Parameter>)
    ensures a + b + c == a + (b + c)
  {
  }

  method AddPaging(request: Request, query: Option<ListQuery>) returns (r: Request)
    modifies request`parameters
    ensures r == request
    ensures request.parameters == old(request.parameters) + (if query.Some? then PagingParameters(query.value) else [])
  {
    r := request;
    if query.None? {
      return;
    }
    request.AddQueryParameter("page", Number(query.value.page));
    request.AddQueryParameter("size", Number(query.value.size));
  }

  method AddSorting(request: Request, query: Option<ListQuery>) returns (r: Request)
    modifies request`parameters
    ensures r == request
    ensures request.parameters == old(request.parameters) + (if query.Some? then SortingParameters(query.value) else [])
  {
    r := request;
    if query.None? {
      return;
    }
    request.AddQueryParameter("sort", SortValue(query.value.sort));
  }

  /** The loop over `&`-separated filter pieces shared by both query helpers. */
  method AddFilters(request: Request, filters: Option<string>)
    modifies request`parameters
    ensures request.parameters == old(request.parameters) + FilterParameters(filters)
  {
    if IsNullOrEmpty(filters) {
      return;
    }
    var pieces := Split(filters.value, '&');
    var i := 0;
    while i < |pieces|
      invariant 0 <= i <= |pieces|
      invariant request.parameters == old(request.parameters) + PieceParameters(pieces[..i])
    {
      var parts := Split(pieces[i], '=');
      if |parts| == 2 {
        request.AddQueryParameter(parts[0], Text(parts[1]));
      }
      assert pieces[..i + 1][..i] == pieces[..i];
      i := i + 1;
    }
    assert pieces[..i] == pieces;
  }

  /** One step of the string builder: appends `name,` when the flag is set. */
  method AppendFlagName(resolvers: string, ghost names: seq<string>, isSet: bool, name: string)
    returns (out: string, ghost outNames: seq<string>)
    requires resolvers == Terminated(names)
    ensures outNames == names + (if isSet then [name] else [])
    ensures out == Terminated(outNames)
    ensures |resolvers| <= |out| && out[..|resolvers|] == resolvers
    ensures isSet <==> |out| > |resolvers|
  {
    out, outNames := resolvers, names;
    if isSet {
      TerminatedSnoc(names, name);
      out := resolvers + name + ",";
      outNames := names + [name];
    }
  }

  /** The string builder of AddQuery: a comma after each set flag's name, then the trailing comma trimmed. */
  method BuildResolveValue(r: ContentResolver) returns (value: string)
    ensures value == ResolveValue(r)
  {
    var resolvers;
    ghost var names;
    resolvers, names := AppendFlagName("", [], HasFlag(r, Media), "media");
    resolvers, names := AppendFlagName(resolvers, names, HasFlag(r, MediaGallery), "mediagallery");
    resolvers, names := AppendFlagName(resolvers, names, HasFlag(r, References), "references");
    assert [] + ResolverNames(r) == ResolverNames(r);
    assert names == ResolverNames(r);
    TrimmedResolverNames(r);
    value := TrimEnd(resolvers, ',');
  }

  method AddContentsQuery(request: Request, query: Option<ContentsQuery>) returns (r: Request)
    modifies request`parameters
    ensures r == request
    ensures request.parameters == old(request.parameters) + ContentsQueryParameters(query)
  {
    r := request;
    if query.None? {
      return;
    }
    var q := query.value;
    ghost var before := request.parameters;
    AddFilters(request, q.filters);
    ghost var added := FilterParameters(q.filters);
    AddResolve(request, q.resolvers);
    AppendAssoc(before, added, ResolveParameters(q.resolvers));
    added := added + ResolveParameters(q.resolvers);
    AddOptionalText(request, "search", q.search);
    AppendAssoc(before, added, OptionalText("search", q.search));
    added := added + OptionalText("search", q.search);
    r := AddPaging(request, Some(q.list));
    AppendAssoc(before, added, PagingParameters(q.list));
    added := added + PagingParameters(q.list);
    r := AddSorting(r, Some(q.list));
    AppendAssoc(before, added, SortingParameters(q.list));
  }

  /** Adds `resolve` for any resolver value other than None. */
  method AddResolve(request: Request, resolvers: ContentResolver)
    modifies request`parameters
    ensures request.parameters == old(request.parameters) + ResolveParameters(resolvers)
  {
    if resolvers != NoResolver {
      var value := BuildResolveValue(resolvers);
      request.AddQueryParameter("resolve", Text(value));
    }
  }

  /** Adds a text query parameter only when its value is neither null nor empty. */
  method AddOptionalText(request: Request, name: string, value: Option<string>)
    modifies request`parameters
    ensures request.parameters == old(request.parameters) + OptionalText(name, value)
  {
    if !IsNullOrEmpty(value) {
      request.AddQueryParameter(name, Text(value.value));
    }
  }

  method AddAssetsQuery(request: Request, query: Option<AssetsQuery>) returns (r: Request)
    modifies request`parameters
    ensures r == request
    ensures request.parameters == old(request.parameters) + AssetsQueryParameters(query)
  {
    r := request;
    if query.None? {
      return;
    }
    var q := query.value;
    ghost var before := request.parameters;
    AddFilters(request, q.filters);
    ghost var added := FilterParameters(q.filters);
    AddOptionalText(request, "folder", q.folder);
    AppendAssoc(before, added, OptionalText("folder", q.folder));
    added := added + OptionalText("folder", q.folder);
    r := AddPaging(request, Some(q.list));
    AppendAssoc(before, added, PagingParameters(q.list));
    added := added + PagingParameters(q.list);
    r := AddSorting(r, Some(q.list));
    AppendAssoc(before, added, SortingParameters(q.list));
  }
}
