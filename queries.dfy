/**
 * Query records for list endpoints, the content-resolver flags, the filter
 * operators and the filter builder that renders `filter[field][op]=value`
 * entries.
 */
module Queries {

  import opened Wrappers
  import opened Strings

  /** Paging and sorting shared by every list query. */
  datatype ListQuery = ListQuery(page: int, size: int, sort: Option<string>)

  /** A list query as constructed with no initialiser: page 1, size 25, no sort. */
  function DefaultListQuery(): (q: ListQuery)
    ensures q.page == 1 && q.size == 25 && q.sort.None?
  {
    ListQuery(1, 25, None)
  }

  /**
   * The `[Flags]` enum of content resolvers, kept as its 32-bit underlying
   * value so that combinations and undeclared bits are representable.
   */
  type ContentResolver = bv32

  const NoResolver: ContentResolver := 0
  const Media: ContentResolver := 1
  const MediaGallery: ContentResolver := 2
  const References: ContentResolver := 4

  /** `Enum.HasFlag`: every bit of `flag` is set in `value`. */
  predicate HasFlag(value: ContentResolver, flag: ContentResolver)
  {
    value & flag == flag
  }

  datatype ContentsQuery = ContentsQuery(
    list: ListQuery,
    filters: Option<string>,
    search: Option<string>,
    resolvers: ContentResolver)

  function DefaultContentsQuery(): (q: ContentsQuery)
    ensures q.list == DefaultListQuery()
    ensures q.filters.None? && q.search.None? && q.resolvers == NoResolver
  {
    ContentsQuery(DefaultListQuery(), None, None, NoResolver)
  }

  /** The assets query: filters and a folder on top of paging and sorting. */
  datatype AssetsQuery = AssetsQuery(list: ListQuery, filters: Option<string>, folder: Option<string>)

  datatype UserQuery = UserQuery(
    list: ListQuery,
    username: Option<string>,
    search: Option<string>,
    resolvers: ContentResolver)

  /** The paged account query: a user name, a search text and a role id on top of paging and sorting. */
  datatype AccountsQuery = AccountsQuery(
    list: ListQuery,
    username: Option<string>,
    search: Option<string>,
    roleId: Option<string>)

  datatype FilterOperatorType =
    | Equal | NotEqual | LessThan | LessThanOrEqual | GreaterThan | GreaterThanOrEqual
    | All | Any | Contains | NotContains | NotAny | StartsWith | NotStatsWith
    | EndsWith | NotEndsWith

  /** The wire token of a filter operator. */
  function ParseOperator(op: FilterOperatorType): string
  {
    match op
    case All => "all"
    case Contains => "contains"
    case EndsWith => "ends"
    case Equal => "eq"
    case GreaterThan => "gt"
    case GreaterThanOrEqual => "gte"
    case Any => "any"
    case LessThan => "lt"
    case LessThanOrEqual => "lte"
    case NotContains => "ncontains"
    case NotEndsWith => "nends"
    case NotEqual => "neq"
    case NotAny => "nany"
    case NotStatsWith => "nstarts"
    case StartsWith => "starts"
  }

  /** The operator a wire token stands for, if any: the reference inverse of ParseOperator. */
  function OperatorOfToken(token: string): Option<FilterOperatorType>
  {
    if token == "eq" then Some(Equal)
    else if token == "neq" then Some(NotEqual)
    else if token == "lt" then Some(LessThan)
    else if token == "lte" then Some(LessThanOrEqual)
    else if token == "gt" then Some(GreaterThan)
    else if token == "gte" then Some(GreaterThanOrEqual)
    else if token == "all" then Some(All)
    else if token == "any" then Some(Any)
    else if token == "contains" then Some(Contains)
    else if token == "ncontains" then Some(NotContains)
    else if token == "nany" then Some(NotAny)
    else if token == "starts" then Some(StartsWith)
    else if token == "nstarts" then Some(NotStatsWith)
    else if token == "ends" then Some(EndsWith)
    else if token == "nends" then Some(NotEndsWith)
    else None
  }

  /** Every operator's token reads back as that operator. */
  lemma OperatorTokenRoundTrip(op: FilterOperatorType)
    ensures OperatorOfToken(ParseOperator(op)) == Some(op)
  {
    match op
    case Equal =>
    case NotEqual =>
    case LessThan =>
    case LessThanOrEqual =>
    case GreaterThan =>
    case GreaterThanOrEqual =>
    case All =>
    case Any =>
    case Contains =>
    case NotContains =>
    case NotAny =>
    case StartsWith =>
    case NotStatsWith =>
    case EndsWith =>
    case NotEndsWith =>
  }

  /** Distinct operators have distinct tokens. */
  lemma ParseOperatorInjective(a: FilterOperatorType, b: FilterOperatorType)
    ensures ParseOperator(a) == ParseOperator(b) ==> a == b
  {
    OperatorTokenRoundTrip(a);
    OperatorTokenRoundTrip(b);
  }

  /**
   * A filter value: `text` is its `ToString()`; `number` is its invariant-culture
   * rendering when that text parses as a double.
   */
  datatype FilterValue = FilterValue(text: string, number: Option<string>)

  /** The text an entry carries for a value: the number's rendering when it parses, its own text otherwise. */
  function Rendered(v: FilterValue): string
  {
    v.number.GetOr(v.text)
  }

  /** One rendered filter entry. */
  function Entry(field: string, op: FilterOperatorType, v: FilterValue): string
  {
    "filter[" + field + "][" + ParseOperator(op) + "]=" + Rendered(v)
  }

  /** The append-only list of rendered filter entries. */
  class FilterBuilder {
    var filters: seq<string>

    /** Private in the SDK: callers obtain a builder through Create. */
    constructor ()
      ensures filters == []
    {
      filters := [];
    }

    static method Create() returns (b: FilterBuilder)
      ensures fresh(b) && b.filters == [] && b.ToString() == ""
    {
      b := new FilterBuilder();
    }

    /** Appends one entry for a non-null value; a null value adds nothing. */
    method Add(field: string, op: FilterOperatorType, value: Option<FilterValue>) returns (r: FilterBuilder)
      modifies this`filters
      ensures r == this
      ensures value.None? ==> filters == old(filters)
      ensures value.Some? ==> filters == old(filters) + [Entry(field, op, value.value)]
      ensures value.Some? && old(filters) == [] ==> ToString() == Entry(field, op, value.value)
      ensures value.Some? && old(filters) != [] ==> ToString() == old(ToString()) + "$" + Entry(field, op, value.value)
    {
      if value.Some? {
        var v := value.value;
        if v.number.Some? {
          filters := filters + ["filter[" + field + "][" + ParseOperator(op) + "]=" + v.number.value];
        } else {
          filters := filters + ["filter[" + field + "][" + ParseOperator(op) + "]=" + v.text];
        }
        JoinSnoc(old(filters), Entry(field, op, v), "$");
      }
      r := this;
    }

    /** The entries in insertion order, separated by `$`; the implicit string conversion returns the same. */
    function ToString(): string
      reads this
    {
      Join(filters, "$")
    }

    /**
     * The entries separated by `&`, the separator the list queries split their
     * filter string on: the rendering a builder needs for its entries to reach
     * the request as separate parameters.
     */
    function QueryString(): string
      reads this
    {
      Join(filters, "&")
    }
  }
}
