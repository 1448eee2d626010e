/**
 * The product search (`app/routes/api.get-products.jsx`): the request body is
 * completed with defaults, the filters become a Shopify search string, the UI's
 * sort field becomes a `ProductSortKeys` value, and every product edge of the
 * answer is given the shop's `productExtendedInfo` rows of that product.
 *
 * The Admin API is a parameter: the edges it answers for the query variables.
 */
module GetProducts {
  import opened Wrappers
  import opened Text
  import opened ExtendedInfo

  /** A filter field as JSON may carry it: missing or null, a string, or an array of strings. */
  datatype FilterValue = Absent | Single(text: string) | Many(items: seq<string>)

  datatype Filters = Filters(
    status: Option<string>, tag: Option<string>, vendor: FilterValue, category: FilterValue,
    demoVideo: Option<string>)

  /** `{}` */
  const NO_FILTERS := Filters(None, None, Absent, Absent, None)

  /** The request body; `None` is a missing or null field. */
  datatype Body = Body(
    cursor: Option<string>, direction: Option<string>, query: Option<string>,
    sortKey: Option<string>, reverse: Option<bool>, filters: Option<Filters>)

  /** The body with its defaults filled in. */
  datatype Settings = Settings(
    cursor: Option<string>, direction: string, query: Option<string>, sortKey: string,
    reverse: bool, filters: Filters)

  /** `v || d` on a string field. */
  function OrDefault(v: Option<string>, d: string): (r: string)
    ensures Truthy(v) ==> r == v.value
    ensures !Truthy(v) ==> r == d
  {
    if Truthy(v) then v.value else d
  }

  /**
   * `cursor` and `query` fall back to null, `direction` to "next", `sortKey` to
   * "CREATED_AT", `filters` to `{}`; `reverse ?? true` keeps an explicit false.
   */
  function Defaults(b: Body): (r: Settings)
    ensures r.cursor.Some? <==> Truthy(b.cursor)
    ensures r.cursor.Some? ==> r.cursor == b.cursor
    ensures r.query.Some? <==> Truthy(b.query)
    ensures r.query.Some? ==> r.query == b.query
    ensures r.direction != "" && r.sortKey != ""
    ensures r.reverse <==> b.reverse != Some(false)
    ensures r.direction == OrDefault(b.direction, "next") && r.sortKey == OrDefault(b.sortKey, "CREATED_AT")
    ensures b.filters.Some? ==> r.filters == b.filters.value
    ensures b.filters.None? ==> r.filters == NO_FILTERS
  {
    Settings(
      if Truthy(b.cursor) then b.cursor else None,
      OrDefault(b.direction, "next"),
      if Truthy(b.query) then b.query else None,
      OrDefault(b.sortKey, "CREATED_AT"),
      if b.reverse.Some? then b.reverse.value else true,
      if b.filters.Some? then b.filters.value else NO_FILTERS)
  }

  /** An empty body asks for the first page, newest first, unfiltered. */
  lemma EmptyBodyDefaults()
    ensures Defaults(Body(None, None, None, None, None, None))
            == Settings(None, "next", None, "CREATED_AT", true, NO_FILTERS)
  {
  }

  // ----- the filter string -----

  /** The values a vendor or category filter contributes: an array as it is, a non-empty string as the one value. */
  function FilterValues(v: FilterValue): (r: seq<string>)
    ensures v.Many? ==> r == v.items
    ensures v.Single? ==> (r == [] <==> v.text == "")
    ensures v.Single? && v.text != "" ==> r == [v.text]
    ensures v.Absent? ==> r == []
  {
    match v
    case Absent => []
    case Single(t) => if t == "" then [] else [t]
    case Many(xs) => xs
  }

  /** `Array.isArray(v) ? v : []`: a string is not an array, so it contributes nothing. */
  function FilterValuesAsWritten(v: FilterValue): (r: seq<string>)
    ensures v.Many? ==> r == v.items
    ensures !v.Many? ==> r == []
  {
    if v.Many? then v.items else []
  }

  /** `xs.map(x => prefix + x)` */
  function Prefixed(prefix: string, xs: seq<string>): (r: seq<string>)
    ensures |r| == |xs| && forall i :: 0 <= i < |xs| ==> r[i] == prefix + xs[i]
  {
    seq(|xs|, i requires 0 <= i < |xs| => prefix + xs[i])
  }

  /** `category_id:` with the last "/" segment of each category gid. */
  function CategoryTerms(cs: seq<string>): (r: seq<string>)
    ensures |r| == |cs| && forall i :: 0 <= i < |cs| ==> r[i] == "category_id:" + LastSegment(cs[i], '/')
  {
    seq(|cs|, i requires 0 <= i < |cs| => "category_id:" + LastSegment(cs[i], '/'))
  }

  /** `(${terms.join(" OR ")})` */
  function Group(terms: seq<string>): (r: string)
    ensures |r| >= 2 && r[0] == '(' && r[|r| - 1] == ')'
  {
    "(" + Join(terms, " OR ") + ")"
  }

  /** The `demoVideo` part: "true" and "false" select products with and without the video tag. */
  function DemoPart(d: Option<string>): (r: seq<string>)
    ensures d == Some("true") ==> r == ["tag:youtubevideo"]
    ensures d == Some("false") ==> r == ["-tag:youtubevideo"]
    ensures d != Some("true") && d != Some("false") ==> r == []
  {
    if d == Some("true") then ["tag:youtubevideo"]
    else if d == Some("false") then ["-tag:youtubevideo"]
    else []
  }

  /** `status:` and `tag:` parts, present when the field is truthy. */
  function FieldPart(name: string, v: Option<string>): seq<string> {
    if Truthy(v) then [name + v.value] else []
  }

  /** A parenthesised OR-group, present when there is at least one term. */
  function GroupPart(terms: seq<string>): seq<string> {
    if terms != [] then [Group(terms)] else []
  }

  /** The parts in their fixed order: status, tag, vendor group, category group, demo video. */
  function PartsFor(f: Filters, vendors: seq<string>, categories: seq<string>): seq<string> {
    FieldPart("status:", f.status) + FieldPart("tag:", f.tag)
    + GroupPart(Prefixed("vendor:", vendors)) + GroupPart(CategoryTerms(categories))
    + DemoPart(f.demoVideo)
  }

  /** The filter parts as intended: a vendor or category sent as a string is taken as that one value. */
  function FilterParts(f: Filters): seq<string> {
    PartsFor(f, FilterValues(f.vendor), FilterValues(f.category))
  }

  /** The filter parts as the route builds them: only arrays are read for vendor and category. */
  function FilterPartsAsWritten(f: Filters): seq<string> {
    PartsFor(f, FilterValuesAsWritten(f.vendor), FilterValuesAsWritten(f.category))
  }

  /** The successive `filterParts.push` calls. */
  method BuildFilterParts(f: Filters) returns (parts: seq<string>)
    ensures parts == FilterPartsAsWritten(f)
  {
    parts := [];
    if Truthy(f.status) {
      parts := parts + ["status:" + f.status.value];
    }
    assert parts == FieldPart("status:", f.status);
    if Truthy(f.tag) {
      parts := parts + ["tag:" + f.tag.value];
    }
    assert parts == FieldPart("status:", f.status) + FieldPart("tag:", f.tag);
    ghost var fields := parts;
    var vendors := FilterValuesAsWritten(f.vendor);
    if vendors != [] {
      parts := parts + [Group(Prefixed("vendor:", vendors))];
    }
    assert parts == fields + GroupPart(Prefixed("vendor:", vendors));
    ghost var withVendors := parts;
    var categories := FilterValuesAsWritten(f.category);
    if categories != [] {
      parts := parts + [Group(CategoryTerms(categories))];
    }
    assert parts == withVendors + GroupPart(CategoryTerms(categories));
    ghost var groups := parts;
    if f.demoVideo == Some("true") {
      parts := parts + ["tag:youtubevideo"];
    } else if f.demoVideo == Some("false") {
      parts := parts + ["-tag:youtubevideo"];
    }
    assert parts == groups + DemoPart(f.demoVideo);
  }

  /** Every part is non-empty and there are at most five of them, one per filter. */
  lemma PartsShape(f: Filters, vendors: seq<string>, categories: seq<string>)
    ensures |PartsFor(f, vendors, categories)| <= 5
    ensures forall i :: 0 <= i < |PartsFor(f, vendors, categories)| ==> PartsFor(f, vendors, categories)[i] != ""
  {
  }

  /** A status filter comes first, and a demo-video choice last. */
  lemma PartsOrder(f: Filters)
    ensures Truthy(f.status) ==> FilterPartsAsWritten(f)[0] == "status:" + f.status.value
    ensures f.demoVideo == Some("true") ==> FilterPartsAsWritten(f)[|FilterPartsAsWritten(f)| - 1] == "tag:youtubevideo"
    ensures f.demoVideo == Some("false") ==> FilterPartsAsWritten(f)[|FilterPartsAsWritten(f)| - 1] == "-tag:youtubevideo"
  {
  }

  /** A `demoVideo` other than "true" or "false" adds nothing. */
  lemma OtherDemoValueIgnored(f: Filters)
    requires f.demoVideo != Some("true") && f.demoVideo != Some("false")
    ensures FilterPartsAsWritten(f) == FilterPartsAsWritten(f.(demoVideo := None))
  {
  }

  /** The vendor group lists one `vendor:` term per vendor, joined by " OR ". */
  lemma VendorGroup(f: Filters, vs: seq<string>)
    requires vs != [] && f.status.None? && f.tag.None?
    ensures FilterPartsAsWritten(f.(vendor := Many(vs)))[0] == "(" + Join(Prefixed("vendor:", vs), " OR ") + ")"
  {
  }

  /** A category filter searches by the last segment of the category gid. */
  lemma CategoryById(f: Filters, c: string)
    requires f.status.None? && f.tag.None? && f.vendor.Absent?
    ensures FilterPartsAsWritten(f.(category := Many([c])))[0] == Group(["category_id:" + LastSegment(c, '/')])
  {
    var g := f.(category := Many([c]));
    assert CategoryTerms([c]) == ["category_id:" + LastSegment(c, '/')];
    OnlyCategoryGroup(g, [c]);
  }

  lemma OnlyCategoryGroup(f: Filters, categories: seq<string>)
    requires f.status.None? && f.tag.None?
    ensures PartsFor(f, [], categories) == GroupPart(CategoryTerms(categories)) + DemoPart(f.demoVideo)
  {
    assert Prefixed("vendor:", []) == [];
  }

  /** On arrays, the only shape the route reads, the two builders agree. */
  lemma AgreesOnArrays(f: Filters)
    requires !f.vendor.Single? && !f.category.Single?
    ensures FilterParts(f) == FilterPartsAsWritten(f)
  {
  }

  /** A vendor sent as a string filters exactly as the one-element array would. */
  lemma SingleIsOneElementArray(f: Filters, v: string)
    requires v != ""
    ensures FilterParts(f.(vendor := Single(v))) == FilterParts(f.(vendor := Many([v])))
    ensures FilterParts(f.(category := Single(v))) == FilterParts(f.(category := Many([v])))
  {
  }

  /**
   * As written, the vendor text field and the category choice of the product table,
   * which both send a string, filter nothing: the query is the same as without them.
   */
  lemma StringFiltersDropped(f: Filters, v: string, c: string)
    requires v != "" && c != ""
    ensures FilterPartsAsWritten(f.(vendor := Single(v), category := Single(c)))
            == FilterPartsAsWritten(f.(vendor := Absent, category := Absent))
    ensures FilterParts(f.(vendor := Single(v), category := Single(c)))
            != FilterParts(f.(vendor := Absent, category := Absent))
  {
    var g := f.(vendor := Single(v), category := Single(c));
    PartsShape(g, [], []);
    PartsShape(g, FilterValues(g.vendor), FilterValues(g.category));
    assert |FilterParts(g)| == |FilterParts(f.(vendor := Absent, category := Absent))| + 2;
  }

  /** `filterParts.join(" ")` */
  function FilterQuery(f: Filters): (r: string)
    ensures r == "" <==> FilterPartsAsWritten(f) == []
  {
    var parts := FilterPartsAsWritten(f);
    PartsShape(f, FilterValuesAsWritten(f.vendor), FilterValuesAsWritten(f.category));
    JoinEmpty(parts, " ");
    Join(parts, " ")
  }

  /** A join of non-empty parts is empty exactly when there are no parts. */
  lemma {:induction false} JoinEmpty(parts: seq<string>, sep: string)
    requires forall i :: 0 <= i < |parts| ==> parts[i] != ""
    ensures Join(parts, sep) == "" <==> parts == []
  {
    if |parts| > 1 {
      assert |Join(parts, sep)| >= |parts[0]|;
    }
  }

  // ----- sort key and query -----

  const SORT_KEYS: set<string> := {"TITLE", "VENDOR", "CREATED_AT", "INVENTORY_TOTAL"}

  /** `sortKeyMap[sortKey] || "CREATED_AT"` */
  function GqlSortKey(k: string): (r: string)
    ensures r in SORT_KEYS
    ensures k !in {"title", "vendor", "inventory"} ==> r == "CREATED_AT"
  {
    if k == "title" then "TITLE"
    else if k == "vendor" then "VENDOR"
    else if k == "createdAt" then "CREATED_AT"
    else if k == "inventory" then "INVENTORY_TOTAL"
    else "CREATED_AT"
  }

  /** The four UI fields map to four different sort keys; the default body sorts by creation. */
  lemma SortKeysDistinct()
    ensures GqlSortKey("title") == "TITLE" && GqlSortKey("vendor") == "VENDOR"
    ensures GqlSortKey("createdAt") == "CREATED_AT" && GqlSortKey("inventory") == "INVENTORY_TOTAL"
    ensures GqlSortKey("CREATED_AT") == "CREATED_AT"
  {
  }

  /** `[query, filterQuery].filter(Boolean).join(" ")` */
  function FinalQuery(query: Option<string>, filterQuery: string): (r: string)
    ensures !Truthy(query) ==> r == filterQuery
    ensures Truthy(query) && filterQuery == "" ==> r == query.value
    ensures Truthy(query) && filterQuery != "" ==> r == query.value + " " + filterQuery
  {
    Join((if Truthy(query) then [query.value] else []) + (if filterQuery != "" then [filterQuery] else []), " ")
  }

  /** The variables of the `products` query. */
  datatype Variables = Variables(cursor: Option<string>, sortKey: string, reverse: bool, query: string)

  function VariablesOf(s: Settings): (r: Variables)
    ensures r.cursor == s.cursor && r.reverse == s.reverse
    ensures r.sortKey in SORT_KEYS
    ensures r.query == "" <==> !Truthy(s.query) && FilterPartsAsWritten(s.filters) == []
  {
    Variables(s.cursor, GqlSortKey(s.sortKey), s.reverse, FinalQuery(s.query, FilterQuery(s.filters)))
  }

  /**
   * As written, a vendor or category sent as a string reaches the search as if it had
   * not been sent; a one-element array of the same value does narrow the search.
   */
  lemma StringFiltersNotSent(s: Settings, v: string, c: string)
    ensures VariablesOf(s.(filters := s.filters.(vendor := Single(v), category := Single(c))))
            == VariablesOf(s.(filters := s.filters.(vendor := Absent, category := Absent)))
    ensures |FilterPartsAsWritten(s.filters.(vendor := Many([v])))| == |FilterPartsAsWritten(s.filters.(vendor := Absent))| + 1
  {
    var f := s.filters;
    assert FilterPartsAsWritten(f.(vendor := Single(v), category := Single(c)))
        == FilterPartsAsWritten(f.(vendor := Absent, category := Absent));
    assert Prefixed("vendor:", [v]) == ["vendor:" + v];
  }

  // ----- the extended-info join -----

  /** A product edge of the answer; its other fields are passed through unchanged. */
  datatype ProductEdge = ProductEdge(cursor: string, nodeId: string)

  /** The edge with `node.extendedInfo` attached. */
  datatype EdgeWithInfo = EdgeWithInfo(edge: ProductEdge, extendedInfo: seq<InfoRow>)

  /** `BigInt(edge.node.id.split("/").pop())` */
  function EdgeProductId(e: ProductEdge): Option<nat> {
    ParseNat(LastSegment(e.nodeId, '/'))
  }

  /**
   * The rows `findMany` returns for the shop, filtered to one product: storage order,
   * only rows of that shop and product.
   */
  function RowsOf(rows: seq<InfoRow>, shop: string, productId: nat): (r: seq<InfoRow>)
    ensures forall x :: x in r <==> x in rows && Of(x, productId, shop)
    ensures |r| == MatchCount(rows, shop, productId)
  {
    if rows == [] then []
    else
      var init := rows[..|rows| - 1];
      var last := rows[|rows| - 1];
      assert forall x :: x in rows <==> x in init || x == last;
      RowsOf(init, shop, productId) + (if Of(last, productId, shop) then [last] else [])
  }

  /** Adding rows of other products or shops does not change what a product is given. */
  lemma {:induction false} RowsOfIgnoresOthers(rows: seq<InfoRow>, more: seq<InfoRow>, shop: string, productId: nat)
    requires forall i :: 0 <= i < |more| ==> !Of(more[i], productId, shop)
    ensures RowsOf(rows + more, shop, productId) == RowsOf(rows, shop, productId)
    decreases |more|
  {
    if more == [] {
      assert rows + more == rows;
    } else {
      var init := more[..|more| - 1];
      assert (rows + more)[..|rows + more| - 1] == rows + init;
      RowsOfIgnoresOthers(rows, init, shop, productId);
    }
  }

  /**
   * Every edge, in order, with the shop's rows of its product; `None` when an edge id
   * does not end in a decimal number, where `BigInt` throws and the action fails.
   */
  function AttachExtendedInfo(edges: seq<ProductEdge>, rows: seq<InfoRow>, shop: string): (r: Option<seq<EdgeWithInfo>>)
    ensures r.Some? <==> forall i :: 0 <= i < |edges| ==> EdgeProductId(edges[i]).Some?
    ensures r.Some? ==> |r.value| == |edges| && forall i :: 0 <= i < |edges| ==>
      r.value[i] == EdgeWithInfo(edges[i], RowsOf(rows, shop, EdgeProductId(edges[i]).value))
  {
    if forall i :: 0 <= i < |edges| ==> EdgeProductId(edges[i]).Some? then
      Some(seq(|edges|, i requires 0 <= i < |edges| && EdgeProductId(edges[i]).Some? =>
        EdgeWithInfo(edges[i], RowsOf(rows, shop, EdgeProductId(edges[i]).value))))
    else None
  }

  /** Two edges of the same product are given the same rows, and an edge's rows all belong to it. */
  lemma AttachedRowsBelong(edges: seq<ProductEdge>, rows: seq<InfoRow>, shop: string, i: nat, x: InfoRow)
    requires i < |edges| && AttachExtendedInfo(edges, rows, shop).Some?
    requires x in AttachExtendedInfo(edges, rows, shop).value[i].extendedInfo
    ensures x in rows && x.shop == shop && x.productId == EdgeProductId(edges[i]).value
  {
  }

  /** The action: the query variables sent, and the edges with their extended info (`None` when it throws). */
  method Action(body: Body, shop: string, rows: seq<InfoRow>, api: Variables -> seq<ProductEdge>)
    returns (vars: Variables, r: Option<seq<EdgeWithInfo>>)
    ensures vars == VariablesOf(Defaults(body))
    ensures r == AttachExtendedInfo(api(vars), rows, shop)
  {
    var settings := Defaults(body);
    var parts := BuildFilterParts(settings.filters);
    var filterQuery := Join(parts, " ");
    vars := Variables(settings.cursor, GqlSortKey(settings.sortKey), settings.reverse, FinalQuery(settings.query, filterQuery));
    r := AttachExtendedInfo(api(vars), rows, shop);
  }
}
