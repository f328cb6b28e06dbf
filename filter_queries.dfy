/**
 * How the filter builder's rendering meets the list queries' filter
 * parsing: the builder separates entries with `$`, the queries split the
 * filter string on `&` and keep only pieces with exactly one `=`.
 */
module FilterQueries {

  import opened Wrappers
  import opened Strings
  import opened Rest
  import opened Queries
  import opened RequestExtensions

  /** One `Add` with a non-null value: field, operator and value. */
  datatype FilterSpec = FilterSpec(field: string, op: FilterOperatorType, value: FilterValue)

  function EntryOf(s: FilterSpec): string
  {
    Entry(s.field, s.op, s.value)
  }

  /** The entries a builder holds after one Add per spec, in order. */
  function Entries(specs: seq<FilterSpec>): (r: seq<string>)
    ensures |r| == |specs| && forall k :: 0 <= k < |specs| ==> r[k] == EntryOf(specs[k])
    decreases |specs|
  {
    if specs == [] then [] else [EntryOf(specs[0])] + Entries(specs[1..])
  }

  /** A spec whose field and rendered value hold neither `&` nor `=`. */
  predicate Clean(s: FilterSpec)
  {
    '&' !in s.field && '=' !in s.field && '&' !in Rendered(s.value) && '=' !in Rendered(s.value)
  }

  /** The parameter name of an entry: `filter[field][op]`. */
  function EntryName(s: FilterSpec): string
  {
    "filter[" + s.field + "][" + ParseOperator(s.op) + "]"
  }

  function EntryPairs(specs: seq<FilterSpec>): (r: seq<(string, string)>)
    ensures |r| == |specs| && forall k :: 0 <= k < |specs| ==> r[k] == (EntryName(specs[k]), Rendered(specs[k].value))
    decreases |specs|
  {
    if specs == [] then [] else [(EntryName(specs[0]), Rendered(specs[0].value))] + EntryPairs(specs[1..])
  }

  /** No operator token holds `&` or `=`. */
  lemma TokenClean(op: FilterOperatorType)
    ensures '&' !in ParseOperator(op) && '=' !in ParseOperator(op)
  {
    match op
    case Equal =>
    case NotEqual =>
    case LessThan =>
    case LessThanOrEqual =>
    case GreaterThan =>
    case GreaterThanOrEqual =>
    case All =>
    case Any =>
    case Contains =>
    case NotContains =>
    case NotAny =>
    case StartsWith =>
    case NotStatsWith =>
    case EndsWith =>
    case NotEndsWith =>
  }

  /** A clean entry is `name=value` with a clean name: exactly one `=` and no `&`. */
  lemma CleanEntry(s: FilterSpec)
    requires Clean(s)
    ensures EntryOf(s) == PairText((EntryName(s), Rendered(s.value)))
    ensures CleanPair((EntryName(s), Rendered(s.value)))
    ensures multiset(EntryOf(s))['='] == 1 && '&' !in EntryOf(s)
  {
    TokenClean(s.op);
    var name := EntryName(s);
    var v := Rendered(s.value);
    EntryText(s.field, ParseOperator(s.op), v);
    assert '=' !in name && '&' !in name;
    PairTextCount(name, v);
  }

  /** Proof helper for CleanEntry: the entry text regrouped as name, `=`, value. */
  lemma EntryText(field: string, token: string, v: string)
    ensures "filter[" + field + "][" + token + "]=" + v == ("filter[" + field + "][" + token + "]") + "=" + v
  {
  }

  /** Proof helper for CleanEntry: `name=value` over a clean name and value has one `=` and no `&`. */
  lemma PairTextCount(name: string, v: string)
    requires '=' !in name && '&' !in name && '=' !in v && '&' !in v
    ensures multiset(name + "=" + v)['='] == 1 && '&' !in name + "=" + v
  {
    assert multiset(name + "=" + v) == multiset(name) + multiset("=") + multiset(v);
    assert multiset(name)['='] == 0 && multiset(v)['='] == 0;
  }

  /** Clean specs give clean name/value pairs. */
  lemma CleanEntryPairs(specs: seq<FilterSpec>)
    requires forall k :: 0 <= k < |specs| ==> Clean(specs[k])
    ensures forall k :: 0 <= k < |specs| ==> CleanPair(EntryPairs(specs)[k])
  {
    var pairs := EntryPairs(specs);
    forall k | 0 <= k < |specs| ensures CleanPair(pairs[k]) {
      CleanEntry(specs[k]);
    }
  }

  /** Each clean entry holds exactly one `=` and no `&`. */
  lemma CleanEntriesSeparated(specs: seq<FilterSpec>)
    requires forall k :: 0 <= k < |specs| ==> Clean(specs[k])
    ensures forall k :: 0 <= k < |specs| ==> multiset(Entries(specs)[k])['='] == 1 && '&' !in Entries(specs)[k]
  {
    var es := Entries(specs);
    forall k | 0 <= k < |specs| ensures multiset(es[k])['='] == 1 && '&' !in es[k] {
      CleanEntry(specs[k]);
    }
  }

  /** The builder's entries for clean specs are the texts of their pairs. */
  lemma CleanEntryTexts(specs: seq<FilterSpec>)
    requires forall k :: 0 <= k < |specs| ==> Clean(specs[k])
    ensures PairTexts(EntryPairs(specs)) == Entries(specs)
  {
    var pairs := EntryPairs(specs);
    var es := Entries(specs);
    forall k | 0 <= k < |specs| ensures PairText(pairs[k]) == es[k] {
      CleanEntry(specs[k]);
    }
  }

  /**
   * As written: the builder's `$`-joined string of two or more clean entries
   * is one `&`-piece with several `=`, so a list query drops it whole and
   * sends no filter at all.
   */
  lemma DollarJoinedFiltersDropped(specs: seq<FilterSpec>)
    requires |specs| >= 2
    requires forall k :: 0 <= k < |specs| ==> Clean(specs[k])
    ensures FilterParameters(Some(Join(Entries(specs), "$"))) == []
  {
    CleanEntriesSeparated(specs);
    SeparatedJoinDropped(Entries(specs));
  }

  /** Two or more `name=value` texts joined with `$` make one piece with several `=`. */
  lemma SeparatedJoinDropped(es: seq<string>)
    requires |es| >= 2
    requires forall k :: 0 <= k < |es| ==> multiset(es[k])['='] == 1 && '&' !in es[k]
    ensures FilterParameters(Some(Join(es, "$"))) == []
  {
    var s := Join(es, "$");
    JoinCountOnce(es, "$", '=');
    JoinAvoids(es, "$", '&');
    SinglePieceWithManyEqualsDropped(s);
  }

  /** The same for a builder holding those entries: its string conversion loses every filter. */
  lemma BuilderStringDropsFilters(b: FilterBuilder, specs: seq<FilterSpec>)
    requires b.filters == Entries(specs)
    requires |specs| >= 2
    requires forall k :: 0 <= k < |specs| ==> Clean(specs[k])
    ensures FilterParameters(Some(b.ToString())) == []
  {
    DollarJoinedFiltersDropped(specs);
  }

  /**
   * Corrected: joined with `&`, clean entries reach the request as one query
   * parameter each, `filter[field][op]` = rendered value, in insertion order.
   */
  lemma BuilderQueryStringRoundTrip(b: FilterBuilder, specs: seq<FilterSpec>)
    requires b.filters == Entries(specs)
    requires forall k :: 0 <= k < |specs| ==> Clean(specs[k])
    ensures var ps := FilterParameters(Some(b.QueryString()));
      |ps| == |specs| &&
      forall k :: 0 <= k < |specs| ==> ps[k] == QueryParameter(EntryName(specs[k]), Text(Rendered(specs[k].value)))
  {
    if specs != [] {
      var pairs := EntryPairs(specs);
      CleanEntryPairs(specs);
      CleanEntryTexts(specs);
      FilterParametersRoundTrip(pairs);
      PairParametersAt(pairs);
    }
  }
}
