/**
 * The product table page (`app/routes/app._index.jsx`): its loader (the plan a
 * returning `charge_id` belongs to, the onboarding flag, the shop's tags and
 * categories without repeats) and the logic inside the table: the YouTube link
 * check of a manual edit, the request each fetch sends with its cursor stack, the
 * applied-filter chips, the inventory and video-source labels, and the ids sent for
 * video discovery.
 */
module ProductTable {
  import opened Wrappers
  import opened Text
  import opened Collections
  import opened Subscriptions
  import opened AppShell
  import opened GetProducts
  import opened UpdateMetafield

  // ----- loader -----

  /** `findCharge`: the subscription found, `true` when the shop has no plan at all, or `undefined`. */
  datatype ChargeGate = ChargeFound(sub: Subscription) | NoPlans | NoMatch

  function GateOf(r: Option<Subscription>): ChargeGate {
    if r.Some? then ChargeFound(r.value) else NoMatch
  }

  /**
   * With a `charge_id`, the first subscription whose id contains it; without one,
   * `true` for a shop with no subscription, else its first active subscription.
   */
  function FindCharge(chargeId: Option<string>, subs: seq<Subscription>): (r: ChargeGate)
    ensures r.ChargeFound? ==> r.sub in subs
    ensures Truthy(chargeId) ==> !r.NoPlans? && (r.ChargeFound? ==> Contains(r.sub.id, chargeId.value))
    ensures Truthy(chargeId) ==> (r.NoMatch? <==> forall i :: 0 <= i < |subs| ==> !Contains(subs[i].id, chargeId.value))
    ensures !Truthy(chargeId) ==> (r.NoPlans? <==> subs == [])
    ensures !Truthy(chargeId) && r.ChargeFound? ==> IsActive(r.sub)
    ensures !Truthy(chargeId) ==> (r.NoMatch? <==> subs != [] && forall i :: 0 <= i < |subs| ==> !IsActive(subs[i]))
  {
    if Truthy(chargeId) then GateOf(FindByCharge(subs, chargeId.value))
    else if subs == [] then NoPlans
    else GateOf(FirstActive(subs))
  }

  datatype Category = Category(id: string, name: Option<string>)

  /** A product edge of the tags-and-categories query; `None` is a null field. */
  datatype TaxonomyEdge = TaxonomyEdge(tags: Option<seq<string>>, category: Option<Category>)

  /** `edges.flatMap(edge => edge.node.tags || [])` */
  function AllTags(edges: seq<TaxonomyEdge>): (r: seq<string>)
    ensures forall t :: t in r <==> exists i :: 0 <= i < |edges| && edges[i].tags.Some? && t in edges[i].tags.value
  {
    if edges == [] then []
    else
      var init := edges[..|edges| - 1];
      var last := edges[|edges| - 1];
      assert forall i :: 0 <= i < |init| ==> init[i] == edges[i];
      AllTags(init) + (if last.tags.Some? then last.tags.value else [])
  }

  /** `Array.from(new Set(allTags))`: every tag of some product, once, in order of first appearance. */
  function UniqueTags(edges: seq<TaxonomyEdge>): (r: seq<string>)
    ensures Distinct(r)
    ensures forall t :: t in r <==> exists i :: 0 <= i < |edges| && edges[i].tags.Some? && t in edges[i].tags.value
  {
    Dedup(AllTags(edges))
  }

  /** `edges.map(edge => edge.node.category).filter(Boolean)`, keyed by id. */
  function CategoryPairs(edges: seq<TaxonomyEdge>): (r: seq<(string, Category)>)
    ensures forall i :: 0 <= i < |r| ==> r[i].0 == r[i].1.id
    ensures forall c :: (exists i :: 0 <= i < |r| && r[i].1 == c) <==> (exists i :: 0 <= i < |edges| && edges[i].category == Some(c))
  {
    if edges == [] then []
    else
      var init := edges[..|edges| - 1];
      var last := edges[|edges| - 1];
      var front := CategoryPairs(init);
      assert forall i :: 0 <= i < |init| ==> init[i] == edges[i];
      if last.category.Some? then
        var r := front + [(last.category.value.id, last.category.value)];
        assert forall i :: 0 <= i < |front| ==> r[i] == front[i];
        assert r[|front|].1 == last.category.value;
        r
      else front
  }

  function CategoryIds(cs: seq<Category>): (r: seq<string>)
    ensures |r| == |cs| && forall i :: 0 <= i < |cs| ==> r[i] == cs[i].id
  {
    seq(|cs|, i requires 0 <= i < |cs| => cs[i].id)
  }

  /** `Array.from(new Map(categories.map(cat => [cat.id, cat])).values())` */
  function UniqueCategories(edges: seq<TaxonomyEdge>): seq<Category> {
    Values(FromPairs(CategoryPairs(edges)))
  }

  /** The value carried under a key is a category with that id. */
  lemma {:induction false} LastValueIsKeyed(ps: seq<(string, Category)>, k: string)
    requires forall i :: 0 <= i < |ps| ==> ps[i].0 == ps[i].1.id
    ensures LastValue(ps, k).Some? ==> LastValue(ps, k).value.id == k
  {
    if ps != [] && ps[|ps| - 1].0 != k {
      LastValueIsKeyed(ps[..|ps| - 1], k);
    }
  }

  /**
   * Each category id appears once, in order of first appearance, and carries the
   * category last seen with that id.
   */
  lemma UniqueCategoriesSpec(edges: seq<TaxonomyEdge>)
    ensures CategoryIds(UniqueCategories(edges)) == Dedup(Keys(CategoryPairs(edges)))
    ensures forall i :: 0 <= i < |UniqueCategories(edges)| ==>
      LastValue(CategoryPairs(edges), UniqueCategories(edges)[i].id) == Some(UniqueCategories(edges)[i])
  {
    var ps := CategoryPairs(edges);
    var m := FromPairs(ps);
    FromPairsSpec(ps);
    var r := UniqueCategories(edges);
    forall i | 0 <= i < |m|
      ensures r[i] == m[i].1 && LastValue(ps, m[i].0) == Some(m[i].1) && m[i].1.id == m[i].0
    {
      var j := FindKey(m, m[i].0).value;
      assert Keys(m)[j] == Keys(m)[i];
      assert j == i;
      LastValueIsKeyed(ps, m[i].0);
    }
    assert CategoryIds(r) == Keys(m);
  }

  /** What the loader hands the page. */
  datatype PageData = PageData(
    tags: seq<string>, categories: seq<Category>, onboardingComplete: bool, shopDomain: string,
    findCharge: ChargeGate)

  function Loader(shop: string, chargeId: Option<string>, subs: seq<Subscription>, fields: seq<AppMetafield>,
                  edges: seq<TaxonomyEdge>): (r: PageData)
    ensures r.tags == UniqueTags(edges) && r.categories == UniqueCategories(edges)
    ensures r.onboardingComplete == OnboardingComplete(fields) && r.shopDomain == shop
    ensures r.findCharge == FindCharge(chargeId, subs)
  {
    PageData(UniqueTags(edges), UniqueCategories(edges), OnboardingComplete(fields), shop, FindCharge(chargeId, subs))
  }

  // ----- the YouTube link of a manual edit -----

  /** The alternatives of the pattern, in the order the regular expression tries them. */
  const LINK_PREFIXES: seq<string> := ["youtube.com/watch?v=", "youtube.com/embed/", "youtube.com/shorts/", "youtu.be/"]

  /** `[a-zA-Z0-9_-]` */
  predicate IsIdChar(c: char) {
    'a' <= c <= 'z' || 'A' <= c <= 'Z' || '0' <= c <= '9' || c == '_' || c == '-'
  }

  predicate IsVideoId(id: string) {
    |id| == 11 && forall i :: 0 <= i < |id| ==> IsIdChar(id[i])
  }

  /** Alternative `k` matches at `i`: its prefix, then eleven id characters. */
  predicate MatchesWith(s: string, i: nat, k: nat) {
    && k < |LINK_PREFIXES|
    && OccursAt(LINK_PREFIXES[k], s, i)
    && i + |LINK_PREFIXES[k]| + 11 <= |s|
    && IsVideoId(s[i + |LINK_PREFIXES[k]|..i + |LINK_PREFIXES[k]| + 11])
  }

  predicate MatchesAt(s: string, i: nat) {
    exists k :: 0 <= k < |LINK_PREFIXES| && MatchesWith(s, i, k)
  }

  /** The first alternative, from `k` on, that matches at `i`. */
  function AlternativeFrom(s: string, i: nat, k: nat): (r: Option<nat>)
    decreases |LINK_PREFIXES| - k
    ensures r.Some? ==> k <= r.value && MatchesWith(s, i, r.value)
    ensures r.Some? ==> forall m :: k <= m < r.value ==> !MatchesWith(s, i, m)
    ensures r.None? ==> forall m :: k <= m ==> !MatchesWith(s, i, m)
    ensures k == 0 ==> (r.None? <==> !MatchesAt(s, i))
  {
    if k >= |LINK_PREFIXES| then None
    else if MatchesWith(s, i, k) then Some(k)
    else AlternativeFrom(s, i, k + 1)
  }

  /** The leftmost position, from `from` on, where the pattern matches, with the alternative matching there. */
  function FindLink(s: string, from: nat): (r: Option<(nat, nat)>)
    decreases |s| - from
    ensures r.Some? ==> from <= r.value.0 && MatchesWith(s, r.value.0, r.value.1)
    ensures r.Some? ==> forall m: nat :: m < r.value.1 ==> !MatchesWith(s, r.value.0, m)
    ensures r.Some? ==> forall j: nat :: from <= j < r.value.0 ==> !MatchesAt(s, j)
    ensures r.None? ==> forall j: nat :: from <= j ==> !MatchesAt(s, j)
  {
    if from >= |s| then None
    else
      match AlternativeFrom(s, from, 0)
      case Some(k) => Some((from, k))
      case None => FindLink(s, from + 1)
  }

  /** `link.match(youtubeRegex)?.[1]`: the eleven characters captured by the leftmost match. */
  function VideoIdOf(s: string): (r: Option<string>)
    ensures r.Some? ==> IsVideoId(r.value)
    ensures r.None? <==> forall j: nat :: !MatchesAt(s, j)
    ensures r.Some? ==> exists i: nat, k: nat ::
      && MatchesWith(s, i, k)
      && (forall j: nat :: j < i ==> !MatchesAt(s, j))
      && (forall m: nat :: m < k ==> !MatchesWith(s, i, m))
      && r.value == s[i + |LINK_PREFIXES[k]|..i + |LINK_PREFIXES[k]| + 11]
  {
    match FindLink(s, 0)
    case None => None
    case Some((i, k)) =>
      assert MatchesAt(s, i);
      var n := i + |LINK_PREFIXES[k]|;
      Some(s[n..n + 11])
  }

  /** A character different from the pattern's at some offset rules out an occurrence. */
  lemma NotAtMismatch(p: string, s: string, j: nat, t: nat)
    requires t < |p| && j + t < |s| && s[j + t] != p[t]
    ensures !OccursAt(p, s, j)
  {
    if j + |p| <= |s| {
      assert s[j..j + |p|][t] == s[j + t];
    }
  }

  lemma {:induction false} FindLinkSkips(s: string, from: nat, to: nat)
    requires from <= to && forall j: nat :: from <= j < to ==> !MatchesAt(s, j)
    ensures FindLink(s, from) == FindLink(s, to)
    decreases (to as int) - (from as int)
  {
    if from < to {
      FindLinkSkips(s, from + 1, to);
    }
  }

  /**
   * A link made of text without a "y", one of the four prefixes, an id, and anything
   * after, yields that id.
   */
  lemma LinkFound(a: string, k: nat, id: string, rest: string)
    requires k < |LINK_PREFIXES| && IsVideoId(id)
    requires forall i :: 0 <= i < |a| ==> a[i] != 'y'
    ensures VideoIdOf(a + LINK_PREFIXES[k] + id + rest) == Some(id)
  {
    var p := LINK_PREFIXES[k];
    var s := a + p + id + rest;
    assert s[|a|..|a| + |p|] == p;
    assert s[|a| + |p|..|a| + |p| + 11] == id;
    assert MatchesWith(s, |a|, k);
    forall j: nat | j < |a| ensures !MatchesAt(s, j) {
      forall m: nat | m < |LINK_PREFIXES| ensures !OccursAt(LINK_PREFIXES[m], s, j) {
        assert s[j] == a[j];
        NotAtMismatch(LINK_PREFIXES[m], s, j, 0);
      }
    }
    forall m: nat | m < k ensures !MatchesWith(s, |a|, m) {
      var t := if k == 3 then 5 else 12;
      assert s[|a| + t] == p[t];
      NotAtMismatch(LINK_PREFIXES[m], s, |a|, t);
    }
    FindLinkSkips(s, 0, |a|);
  }

  /** An id has no ".", so no "www." either. */
  lemma NoWwwInId(id: string)
    requires IsVideoId(id)
    ensures IndexOf(id, "www.").None?
  {
    forall j: nat ensures !OccursAt("www.", id, j) {
      if j + 4 <= |id| {
        NotAtMismatch("www.", id, j, 3);
      }
    }
  }

  /**
   * The url the manual edit stores (`normalizeUrl` of the embed url built from the id)
   * gives back the same id when checked again.
   */
  lemma StoredEmbedUrlGivesId(id: string)
    requires IsVideoId(id)
    ensures VideoIdOf(NormalizeUrl(EmbedUrl(id))) == Some(id)
  {
    EmbedUrlNormalized(id);
    NoWwwInId(id);
    var scheme := "https://";
    assert EMBED_PREFIX == scheme + LINK_PREFIXES[1];
    LinkFound(scheme, 1, id, []);
    assert scheme + LINK_PREFIXES[1] + id + [] == EMBED_PREFIX + id;
  }

  datatype LinkCheck = EmptyLink | InvalidLink | ValidLink(link: string, videoId: string)

  /**
   * `handleEditVideo`'s checks: a missing or blank link is refused first; then the
   * trimmed link must match the pattern, and the match supplies the video id.
   */
  function CheckEditLink(link: Option<string>): (r: LinkCheck)
    ensures r.EmptyLink? <==> link.None? || Trim(link.value) == ""
    ensures r.InvalidLink? <==> link.Some? && Trim(link.value) != "" && forall j: nat :: !MatchesAt(Trim(link.value), j)
    ensures r.ValidLink? ==> r.link == Trim(link.value) && IsVideoId(r.videoId) && VideoIdOf(r.link) == Some(r.videoId)
  {
    if link.None? || Trim(link.value) == "" then EmptyLink
    else
      match VideoIdOf(Trim(link.value))
      case None => InvalidLink
      case Some(id) => ValidLink(Trim(link.value), id)
  }

  /** `validateYouTubeVideo`'s check, before its oEmbed lookup: the video id, or a refusal. */
  function CheckPreviewLink(link: string): (r: Option<string>)
    ensures Trim(link) == "" ==> r.None?
    ensures r.Some? ==> IsVideoId(r.value)
  {
    if Trim(link) == "" then None else VideoIdOf(Trim(link))
  }

  /** The oEmbed lookup of `validateYouTubeVideo`: answered OK, answered otherwise, or thrown. */
  datatype Lookup = LookupOk | LookupNotOk | LookupThrows

  datatype Preview = PreviewRejected(message: string) | PreviewAccepted(videoId: string, trimmedLink: string)

  /** `validateYouTubeVideo`: the link check, then the oEmbed lookup of the id found. */
  function ValidatePreview(link: string, lookup: Lookup): (r: Preview)
    ensures r.PreviewAccepted? <==> CheckPreviewLink(link).Some? && lookup.LookupOk?
    ensures r.PreviewAccepted? ==> r.videoId == CheckPreviewLink(link).value && r.trimmedLink == Trim(link)
    ensures CheckPreviewLink(link).None? ==> r == PreviewRejected(INVALID_LINK)
  {
    var id := CheckPreviewLink(link);
    if id.None? then PreviewRejected(INVALID_LINK)
    else if lookup.LookupNotOk? then PreviewRejected("This YouTube video does not exist or is private.")
    else if lookup.LookupThrows? then PreviewRejected("Could not verify video. Please try again.")
    else PreviewAccepted(id.value, Trim(link))
  }

  const INVALID_LINK := "Please enter a valid YouTube video link."

  /** Both checks accept the same links with the same id; they differ only in the message for a blank link. */
  lemma ChecksAgree(link: string)
    ensures CheckPreviewLink(link).Some? <==> CheckEditLink(Some(link)).ValidLink?
    ensures CheckPreviewLink(link).Some? ==> CheckPreviewLink(link).value == CheckEditLink(Some(link)).videoId
  {
  }

  /** A product row of the table, as far as the edit request reads it. */
  datatype Row = Row(id: string, title: Option<string>, vendor: Option<string>, productType: Option<string>)

  /** The body `handleEditVideo` posts to the manual-edit route for a valid link. */
  function EditRequest(product: Row, link: string, videoId: string, mode: Option<string>): (r: Request)
    ensures r.link == link && r.videoId == videoId && r.productId == product.id && r.mode == mode
    ensures r.summary.None? && r.highlights.None?
  {
    Request(product.id, link, product.title, product.vendor, videoId, product.productType, mode, None, None)
  }

  /** A link the page accepts leads the manual edit to store an embed url carrying the same video id. */
  lemma AcceptedLinkStoresSameId(product: Row, link: Option<string>, mode: Option<string>)
    requires CheckEditLink(link).ValidLink?
    ensures var c := CheckEditLink(link);
      VideoIdOf(NormalizeUrl(EmbedUrl(EditRequest(product, c.link, c.videoId, mode).videoId))) == Some(c.videoId)
  {
    StoredEmbedUrlGivesId(CheckEditLink(link).videoId);
  }

  // ----- the request of each fetch -----

  /** The tabs of the table; tab 0 shows every status. */
  const ITEM_STRINGS: seq<string> := ["All", "Active", "Draft", "Archived"]

  /** The page's filter and sort state. */
  datatype View = View(
    selectedTab: nat, sortSelected: Option<string>, queryValue: string, demoVideo: Option<string>,
    category: Option<string>, vendor: Option<string>, status: Option<string>, tag: Option<string>)

  /** `selectedTab === 0 ? null : itemStrings[selectedTab].toUpperCase()` */
  function TabFilter(tab: nat): (r: Option<string>)
    requires tab < |ITEM_STRINGS|
    ensures r.None? <==> tab == 0
  {
    if tab == 0 then None else Some(Upper(ITEM_STRINGS[tab]))
  }

  /** The three status tabs filter by the same values as the status choices. */
  lemma TabsAreStatuses()
    ensures TabFilter(1) == Some("ACTIVE") && TabFilter(2) == Some("DRAFT") && TabFilter(3) == Some("ARCHIVED")
  {
    assert Upper("Active") == "ACTIVE";
    assert Upper("Draft") == "DRAFT";
    assert Upper("Archived") == "ARCHIVED";
  }

  /** `s.split(" ")[0]` */
  function FirstWord(s: string): (r: string)
    ensures ' ' !in r && r <= s
    ensures |r| < |s| ==> s[|r|] == ' '
  {
    if s == [] || s[0] == ' ' then "" else [s[0]] + FirstWord(s[1..])
  }

  /** A JSON field from a nullable string: null and undefined both arrive as absent. */
  function FilterField(v: Option<string>): FilterValue {
    if v.Some? then Single(v.value) else Absent
  }

  /** The body `fetchProducts` posts to the product search. */
  function RequestBody(view: View, cursor: Option<string>, direction: string): (r: Body)
    requires view.selectedTab < |ITEM_STRINGS|
    ensures r.cursor == cursor && r.direction == Some(direction) && r.query == Some(view.queryValue)
    ensures view.sortSelected.Some? ==>
      r.sortKey == Some(FirstWord(view.sortSelected.value)) && r.reverse == Some(Contains(view.sortSelected.value, "desc"))
    ensures view.sortSelected.None? ==> r.sortKey.None? && r.reverse.None?
    ensures r.filters.Some? && r.filters.value.vendor == FilterField(view.vendor)
    ensures r.filters.value.category == FilterField(view.category)
    ensures r.filters.value.tag == view.tag && r.filters.value.demoVideo == view.demoVideo
    ensures r.filters.value.status == (if view.selectedTab == 0 then view.status else TabFilter(view.selectedTab))
  {
    var sort := view.sortSelected;
    Body(cursor, Some(direction), Some(view.queryValue),
         if sort.Some? then Some(FirstWord(sort.value)) else None,
         if sort.Some? then Some(Contains(sort.value, "desc")) else None,
         Some(Filters(
           if Truthy(TabFilter(view.selectedTab)) then TabFilter(view.selectedTab) else view.status,
           view.tag, FilterField(view.vendor), FilterField(view.category), view.demoVideo)))
  }

  /** The fields of the table's sort choices, in the order it lists them, and the search's sort key for each. */
  const SORT_FIELDS: seq<string> := ["title", "vendor", "inventory", "createdAt"]
  const FIELD_SORT_KEYS: seq<string> := ["TITLE", "VENDOR", "INVENTORY_TOTAL", "CREATED_AT"]

  /** The value of the table's `k`th sort choice: each field "asc", then "desc". */
  function SortValue(k: nat): string
    requires k < 2 * |SORT_FIELDS|
  {
    SORT_FIELDS[k / 2] + (if k % 2 == 1 then " desc" else " asc")
  }

  /** Every sort choice reaches the product search as its own sort key, reversed exactly for the "desc" ones. */
  lemma SortChoicesReachSearch(k: nat)
    requires k < 2 * |SORT_FIELDS|
    ensures GqlSortKey(FirstWord(SortValue(k))) == FIELD_SORT_KEYS[k / 2]
    ensures Contains(SortValue(k), "desc") <==> k % 2 == 1
  {
    var field := SORT_FIELDS[k / 2];
    var v := SortValue(k);
    FirstWordOfPair(field, if k % 2 == 1 then " desc" else " asc");
    if k % 2 == 1 {
      ContainsAt(v, "desc", |field| + 1);
    } else if k == 0 || k == 4 {
      NoOccurrence(v, "desc");
    } else {
      SingleDHasNoDesc(v, if k == 2 then 3 else 6);
    }
  }

  /** A text whose only "d" is followed by something other than "e" does not contain "desc". */
  lemma SingleDHasNoDesc(v: string, d: nat)
    requires d + 1 < |v| && v[d + 1] != 'e'
    requires forall j :: 0 <= j < |v| && j != d ==> v[j] != 'd'
    ensures !Contains(v, "desc")
  {
    forall j: nat ensures !OccursAt("desc", v, j) {
      if j + 4 <= |v| {
        if j == d {
          NotAtMismatch("desc", v, j, 1);
        } else {
          NotAtMismatch("desc", v, j, 0);
        }
      }
    }
  }

  lemma {:induction false} FirstWordOfPair(w: string, rest: string)
    requires ' ' !in w && rest != [] && rest[0] == ' '
    ensures FirstWord(w + rest) == w
  {
    if w != [] {
      assert (w + rest)[1..] == w[1..] + rest;
      FirstWordOfPair(w[1..], rest);
    }
  }

  /**
   * As written, the vendor typed in the table and the category chosen there reach the
   * product search as strings, which the search ignores: the query is the one without them.
   */
  lemma TableFiltersIgnored(view: View, cursor: Option<string>, direction: string)
    requires view.selectedTab < |ITEM_STRINGS|
    requires Truthy(view.vendor) && Truthy(view.category)
    ensures var f := Defaults(RequestBody(view, cursor, direction)).filters;
      FilterPartsAsWritten(f) == FilterPartsAsWritten(f.(vendor := Absent, category := Absent))
  {
    var f := Defaults(RequestBody(view, cursor, direction)).filters;
    StringFiltersDropped(f, view.vendor.value, view.category.value);
  }

  // ----- the cursor stack -----

  /** `cursorStack` after a fetch: "next" with a cursor pushes it, "previous" pops one. */
  function StackAfter(stack: seq<string>, cursor: Option<string>, direction: string): (r: seq<string>)
    ensures direction == "next" && Truthy(cursor) ==> r == stack + [cursor.value]
    ensures direction == "previous" ==> r == if stack == [] then [] else stack[..|stack| - 1]
    ensures direction != "previous" && !(direction == "next" && Truthy(cursor)) ==> r == stack
  {
    var pushed := if direction == "next" && Truthy(cursor) then stack + [cursor.value] else stack;
    if direction == "previous" then (if pushed == [] then [] else pushed[..|pushed| - 1]) else pushed
  }

  /** `cursorStack.at(-2) || null`: the cursor the "Previous" button fetches with. */
  function PreviousCursor(stack: seq<string>): (r: Option<string>)
    ensures |stack| < 2 ==> r.None?
    ensures |stack| >= 2 ==> (r.Some? <==> stack[|stack| - 2] != "") && (r.Some? ==> r.value == stack[|stack| - 2])
  {
    if |stack| >= 2 && stack[|stack| - 2] != "" then Some(stack[|stack| - 2]) else None
  }

  /**
   * The stack lists the non-empty cursors the shown page was reached through, the
   * last being the cursor the shown page was fetched with.
   */
  predicate Consistent(stack: seq<string>, current: Option<string>) {
    && (forall i :: 0 <= i < |stack| ==> stack[i] != "")
    && current == (if stack == [] then None else Some(stack[|stack| - 1]))
  }

  /** "Next" then "Previous" comes back to the page shown before, with the stack as it was. */
  lemma PreviousUndoesNext(stack: seq<string>, current: Option<string>, next: string)
    requires Consistent(stack, current) && next != ""
    ensures Consistent(StackAfter(stack, Some(next), "next"), Some(next))
    ensures PreviousCursor(StackAfter(stack, Some(next), "next")) == current
    ensures StackAfter(StackAfter(stack, Some(next), "next"), current, "previous") == stack
  {
    var s := stack + [next];
    assert s[..|s| - 1] == stack;
  }

  /** Going back keeps the stack consistent with the page shown. */
  lemma PreviousKeepsConsistent(stack: seq<string>, current: Option<string>)
    requires Consistent(stack, current)
    ensures Consistent(StackAfter(stack, PreviousCursor(stack), "previous"), PreviousCursor(stack))
  {
  }

  /**
   * As written, a filter change fetches the first page again without a cursor but
   * keeps the stack: the first page is shown with "Previous" still enabled.
   */
  lemma ReloadKeepsStack(stack: seq<string>, current: Option<string>)
    requires Consistent(stack, current) && stack != []
    ensures StackAfter(stack, None, "next") == stack
    ensures !Consistent(StackAfter(stack, None, "next"), None)
  {
  }

  /**
   * As written, the refresh after an edit or a delete fetches the shown page with its
   * own cursor as "next" and so pushes that cursor again: "Previous" then reloads the
   * page shown instead of the one before it.
   */
  lemma RefreshPushesAgain(c: string)
    requires c != ""
    ensures Consistent([c], Some(c))
    ensures PreviousCursor(StackAfter([c], Some(c), "next")) == Some(c)
  {
  }

  /** The stack a filter change evidently calls for: the first page has nothing before it. */
  function StackAfterReload(stack: seq<string>): (r: seq<string>)
    ensures Consistent(r, None)
  {
    []
  }

  /** The stack a refresh of the shown page evidently calls for: unchanged. */
  function StackAfterRefresh(stack: seq<string>): (r: seq<string>)
    ensures |r| == |stack| && PreviousCursor(r) == PreviousCursor(stack)
  {
    stack
  }

  /** Refreshing as intended keeps the stack consistent with the page shown. */
  lemma RefreshKeepsConsistent(stack: seq<string>, current: Option<string>)
    requires Consistent(stack, current)
    ensures Consistent(StackAfterRefresh(stack), current)
  {
  }

  /** The table's paging state, changed by each fetch. */
  class Pager {
    var cursorStack: seq<string>
    var currentCursor: Option<string>

    constructor ()
      ensures cursorStack == [] && currentCursor.None?
      ensures Consistent(cursorStack, currentCursor)
    {
      cursorStack := [];
      currentCursor := None;
    }

    /** `hasPrevious` */
    function HasPrevious(): (r: bool)
      reads this
      ensures r <==> cursorStack != []
    {
      |cursorStack| > 0
    }

    /** `fetchProducts(cursorValue, direction)`: the body it posts, and the new stack and cursor. */
    method FetchProducts(view: View, cursorValue: Option<string>, direction: string) returns (body: Body)
      requires view.selectedTab < |ITEM_STRINGS|
      modifies this
      ensures body == RequestBody(view, cursorValue, direction)
      ensures cursorStack == StackAfter(old(cursorStack), cursorValue, direction)
      ensures currentCursor == cursorValue
    {
      body := RequestBody(view, cursorValue, direction);
      if direction == "next" && Truthy(cursorValue) {
        cursorStack := cursorStack + [cursorValue.value];
      }
      if direction == "previous" {
        cursorStack := if cursorStack == [] then [] else cursorStack[..|cursorStack| - 1];
      }
      currentCursor := cursorValue;
    }

    /** The "Next" button, with the last edge's cursor of the page shown. */
    method Next(view: View, lastCursor: Option<string>) returns (body: Body)
      requires view.selectedTab < |ITEM_STRINGS|
      requires Consistent(cursorStack, currentCursor) && Truthy(lastCursor)
      modifies this
      ensures Consistent(cursorStack, currentCursor) && currentCursor == lastCursor
      ensures cursorStack == old(cursorStack) + [lastCursor.value]
      ensures body == RequestBody(view, lastCursor, "next")
    {
      body := FetchProducts(view, lastCursor, "next");
    }

    /**
     * As written, the refetch after a filter change: the first page, with the stack kept.
     */
    method Reload(view: View) returns (body: Body)
      requires view.selectedTab < |ITEM_STRINGS|
      modifies this
      ensures cursorStack == old(cursorStack) && currentCursor.None?
      ensures body == RequestBody(view, None, "next")
    {
      body := FetchProducts(view, None, "next");
    }

    /**
     * As written, the refetch after a generation, an edit or a delete: the shown page
     * fetched again as "next", which pushes its cursor a second time.
     */
    method Refresh(view: View) returns (body: Body)
      requires view.selectedTab < |ITEM_STRINGS|
      modifies this
      ensures cursorStack == StackAfter(old(cursorStack), old(currentCursor), "next")
      ensures currentCursor == old(currentCursor)
      ensures body == RequestBody(view, old(currentCursor), "next")
    {
      body := FetchProducts(view, currentCursor, "next");
    }

    /** The refetch after a filter change as intended: the first page with an empty stack. */
    method ReloadFirstPage(view: View) returns (body: Body)
      requires view.selectedTab < |ITEM_STRINGS|
      modifies this
      ensures cursorStack == StackAfterReload(old(cursorStack)) && currentCursor.None?
      ensures Consistent(cursorStack, currentCursor) && !HasPrevious()
      ensures body == RequestBody(view, None, "next")
    {
      body := RequestBody(view, None, "next");
      cursorStack := [];
      currentCursor := None;
    }

    /** The refetch of the shown page as intended: same cursor, stack unchanged. */
    method RefreshShownPage(view: View) returns (body: Body)
      requires view.selectedTab < |ITEM_STRINGS|
      requires Consistent(cursorStack, currentCursor)
      modifies this
      ensures cursorStack == StackAfterRefresh(old(cursorStack)) && currentCursor == old(currentCursor)
      ensures Consistent(cursorStack, currentCursor)
      ensures body == RequestBody(view, old(currentCursor), "next")
    {
      RefreshKeepsConsistent(cursorStack, currentCursor);
      body := RequestBody(view, currentCursor, "next");
    }

    /** The "Previous" button. */
    method Previous(view: View) returns (body: Body)
      requires view.selectedTab < |ITEM_STRINGS|
      requires Consistent(cursorStack, currentCursor)
      modifies this
      ensures Consistent(cursorStack, currentCursor)
      ensures currentCursor == PreviousCursor(old(cursorStack))
      ensures cursorStack == StackAfter(old(cursorStack), PreviousCursor(old(cursorStack)), "previous")
      ensures body == RequestBody(view, PreviousCursor(old(cursorStack)), "previous")
    {
      PreviousKeepsConsistent(cursorStack, currentCursor);
      body := FetchProducts(view, PreviousCursor(cursorStack), "previous");
    }
  }

  // ----- applied filters and labels -----

  /** The `key` of a chip, naming the filter its remove button clears. */
  datatype FilterKey = DemoVideoKey | CategoryKey | VendorKey | StatusKey | TagKey

  datatype AppliedFilter = AppliedFilter(key: FilterKey, caption: string)

  /** `categories.find(cat => cat.id === category)?.name || "Unknown"` */
  function CategoryLabel(categories: seq<Category>, id: string): (r: string)
    ensures r != ""
    ensures r != "Unknown" ==> exists i :: 0 <= i < |categories| && categories[i].id == id && categories[i].name == Some(r)
    ensures (forall i :: 0 <= i < |categories| ==> categories[i].id != id) ==> r == "Unknown"
  {
    if categories == [] then "Unknown"
    else if categories[0].id == id then (if Truthy(categories[0].name) then categories[0].name.value else "Unknown")
    else
      var r := CategoryLabel(categories[1..], id);
      assert forall i :: 1 <= i < |categories| ==> categories[i] == categories[1..][i - 1];
      r
  }

  function ChipIf(shown: bool, key: FilterKey, caption: string): seq<AppliedFilter> {
    if shown then [AppliedFilter(key, caption)] else []
  }

  function DemoCaption(demoVideo: Option<string>): string {
    "Has Youtube Video: " + (if demoVideo == Some("true") then "Yes" else "No")
  }

  function CategoryCaption(categories: seq<Category>, category: Option<string>): string {
    "Category: " + CategoryLabel(categories, category.GetOr(""))
  }

  function FieldCaption(name: string, value: Option<string>): string {
    name + ": " + value.GetOr("")
  }

  /** The chips above the table, in their fixed order; a demo-video choice counts even when not "true". */
  function AppliedFilters(view: View, categories: seq<Category>): seq<AppliedFilter> {
    ChipIf(view.demoVideo.Some?, DemoVideoKey, DemoCaption(view.demoVideo))
    + ChipIf(Truthy(view.category), CategoryKey, CategoryCaption(categories, view.category))
    + ChipIf(Truthy(view.vendor), VendorKey, FieldCaption("Vendor", view.vendor))
    + ChipIf(Truthy(view.status), StatusKey, FieldCaption("Status", view.status))
    + ChipIf(Truthy(view.tag), TagKey, FieldCaption("Tag", view.tag))
  }

  /** The successive `appliedFilters.push` calls. */
  method BuildAppliedFilters(view: View, categories: seq<Category>) returns (applied: seq<AppliedFilter>)
    ensures applied == AppliedFilters(view, categories)
  {
    ghost var demo := ChipIf(view.demoVideo.Some?, DemoVideoKey, DemoCaption(view.demoVideo));
    ghost var category := ChipIf(Truthy(view.category), CategoryKey, CategoryCaption(categories, view.category));
    ghost var vendor := ChipIf(Truthy(view.vendor), VendorKey, FieldCaption("Vendor", view.vendor));
    ghost var status := ChipIf(Truthy(view.status), StatusKey, FieldCaption("Status", view.status));
    ghost var tag := ChipIf(Truthy(view.tag), TagKey, FieldCaption("Tag", view.tag));
    applied := [];
    if view.demoVideo.Some? {
      applied := applied + [AppliedFilter(DemoVideoKey, DemoCaption(view.demoVideo))];
    }
    assert applied == demo;
    if Truthy(view.category) {
      applied := applied + [AppliedFilter(CategoryKey, CategoryCaption(categories, view.category))];
    }
    assert applied == demo + category;
    if Truthy(view.vendor) {
      applied := applied + [AppliedFilter(VendorKey, FieldCaption("Vendor", view.vendor))];
    }
    assert applied == demo + category + vendor;
    if Truthy(view.status) {
      applied := applied + [AppliedFilter(StatusKey, FieldCaption("Status", view.status))];
    }
    assert applied == demo + category + vendor + status;
    if Truthy(view.tag) {
      applied := applied + [AppliedFilter(TagKey, FieldCaption("Tag", view.tag))];
    }
    assert applied == demo + category + vendor + status + tag;
  }

  function KeyIf(shown: bool, key: FilterKey): seq<FilterKey> {
    if shown then [key] else []
  }

  function ChipKeys(chips: seq<AppliedFilter>): (r: seq<FilterKey>)
    ensures |r| == |chips| && forall i :: 0 <= i < |chips| ==> r[i] == chips[i].key
  {
    seq(|chips|, i requires 0 <= i < |chips| => chips[i].key)
  }

  /** The keys of the chips shown, in order, given which filters are set. */
  function KeysOf(demo: bool, category: bool, vendor: bool, status: bool, tag: bool): seq<FilterKey> {
    KeyIf(demo, DemoVideoKey) + KeyIf(category, CategoryKey)
    + KeyIf(vendor, VendorKey) + KeyIf(status, StatusKey) + KeyIf(tag, TagKey)
  }

  function ShownKeys(view: View): seq<FilterKey> {
    KeysOf(view.demoVideo.Some?, Truthy(view.category), Truthy(view.vendor), Truthy(view.status), Truthy(view.tag))
  }

  lemma ChipKeysOfApplied(view: View, categories: seq<Category>)
    ensures ChipKeys(AppliedFilters(view, categories)) == ShownKeys(view)
  {
    var c1 := ChipIf(view.demoVideo.Some?, DemoVideoKey, DemoCaption(view.demoVideo));
    var c2 := ChipIf(Truthy(view.category), CategoryKey, CategoryCaption(categories, view.category));
    var c3 := ChipIf(Truthy(view.vendor), VendorKey, FieldCaption("Vendor", view.vendor));
    var c4 := ChipIf(Truthy(view.status), StatusKey, FieldCaption("Status", view.status));
    var c5 := ChipIf(Truthy(view.tag), TagKey, FieldCaption("Tag", view.tag));
    ChipKeysAppend(c1, c2);
    ChipKeysAppend(c1 + c2, c3);
    ChipKeysAppend(c1 + c2 + c3, c4);
    ChipKeysAppend(c1 + c2 + c3 + c4, c5);
    ChipKeysIf(view.demoVideo.Some?, DemoVideoKey, DemoCaption(view.demoVideo));
    ChipKeysIf(Truthy(view.category), CategoryKey, CategoryCaption(categories, view.category));
    ChipKeysIf(Truthy(view.vendor), VendorKey, FieldCaption("Vendor", view.vendor));
    ChipKeysIf(Truthy(view.status), StatusKey, FieldCaption("Status", view.status));
    ChipKeysIf(Truthy(view.tag), TagKey, FieldCaption("Tag", view.tag));
  }

  /** One chip per set filter, none twice, each present exactly when its filter is set. */
  lemma AppliedFiltersSpec(view: View, categories: seq<Category>)
    ensures Distinct(ChipKeys(AppliedFilters(view, categories)))
    ensures DemoVideoKey in ChipKeys(AppliedFilters(view, categories)) <==> view.demoVideo.Some?
    ensures CategoryKey in ChipKeys(AppliedFilters(view, categories)) <==> Truthy(view.category)
    ensures VendorKey in ChipKeys(AppliedFilters(view, categories)) <==> Truthy(view.vendor)
    ensures StatusKey in ChipKeys(AppliedFilters(view, categories)) <==> Truthy(view.status)
    ensures TagKey in ChipKeys(AppliedFilters(view, categories)) <==> Truthy(view.tag)
  {
    ChipKeysOfApplied(view, categories);
    KeysOfSpec(view.demoVideo.Some?, Truthy(view.category), Truthy(view.vendor), Truthy(view.status), Truthy(view.tag));
  }

  lemma KeysOfSpec(demo: bool, category: bool, vendor: bool, status: bool, tag: bool)
    ensures Distinct(KeysOf(demo, category, vendor, status, tag))
    ensures forall k :: k in KeysOf(demo, category, vendor, status, tag) <==>
      (k == DemoVideoKey && demo) || (k == CategoryKey && category) || (k == VendorKey && vendor) ||
      (k == StatusKey && status) || (k == TagKey && tag)
  {
    var keys := KeyIf(demo, DemoVideoKey);
    AppendKeyIf(keys, category, CategoryKey);
    keys := keys + KeyIf(category, CategoryKey);
    AppendKeyIf(keys, vendor, VendorKey);
    keys := keys + KeyIf(vendor, VendorKey);
    AppendKeyIf(keys, status, StatusKey);
    keys := keys + KeyIf(status, StatusKey);
    AppendKeyIf(keys, tag, TagKey);
  }

  lemma ChipKeysAppend(a: seq<AppliedFilter>, b: seq<AppliedFilter>)
    ensures ChipKeys(a + b) == ChipKeys(a) + ChipKeys(b)
  {
  }

  lemma ChipKeysIf(shown: bool, key: FilterKey, caption: string)
    ensures ChipKeys(ChipIf(shown, key, caption)) == KeyIf(shown, key)
  {
  }

  /** Appending a key not shown yet keeps the keys distinct. */
  lemma AppendKeyIf(keys: seq<FilterKey>, shown: bool, key: FilterKey)
    requires Distinct(keys) && key !in keys
    ensures Distinct(keys + KeyIf(shown, key))
    ensures forall x :: x in keys + KeyIf(shown, key) <==> x in keys || (shown && x == key)
  {
  }

  /** The first variant of a product, as far as the labels read it; `None` is a null field. */
  datatype Variant = Variant(inventoryQuantity: Option<int>, tracked: Option<bool>)

  /** The inventory column. */
  function InventoryLabel(variant: Option<Variant>): (r: string)
    ensures variant.Some? && variant.value.tracked == Some(false) ==> r == "Not Tracked"
    ensures r == "Out of Stock" <==> variant.Some? && variant.value.tracked != Some(false) && variant.value.inventoryQuantity == Some(0)
    ensures r == "-" <==>
      (variant.None? || (variant.value.tracked != Some(false) &&
         (variant.value.inventoryQuantity.None? || variant.value.inventoryQuantity.value < 0)))
  {
    if variant.Some? && variant.value.tracked == Some(false) then "Not Tracked"
    else if variant.Some? && variant.value.inventoryQuantity == Some(0) then "Out of Stock"
    else if variant.Some? && variant.value.inventoryQuantity.Some? && variant.value.inventoryQuantity.value > 0 then
      var count := NatToString(variant.value.inventoryQuantity.value);
      assert (count + " In Stock")[0] == count[0];
      count + " In Stock"
    else "-"
  }

  /** A positive quantity of a tracked (or untold) variant shows that number in stock. */
  lemma InStockLabel(q: nat, tracked: Option<bool>)
    requires q > 0 && tracked != Some(false)
    ensures InventoryLabel(Some(Variant(Some(q), tracked))) == NatToString(q) + " In Stock"
  {
  }

  /** The video-source column. */
  function VideoSourceLabel(source: Option<string>): (r: string)
    ensures r == "Found automatically" <==> source == Some("AUTO")
    ensures r == "Added manually" <==> source == Some("MANUAL")
    ensures r == "No video" <==> source != Some("AUTO") && source != Some("MANUAL")
  {
    if source == Some("AUTO") then "Found automatically"
    else if source == Some("MANUAL") then "Added manually"
    else "No video"
  }

  /** The demo-video column: the stored link, or "No video" when it is missing or empty. */
  function DemoColumn(value: Option<string>): (r: string)
    ensures r != ""
    ensures Truthy(value) ==> r == value.value
  {
    if Truthy(value) then value.value else "No video"
  }

  /** The labels match the `video_source` values the two routes write. */
  lemma SourceLabelsOfRoutes()
    ensures VideoSourceLabel(Some("AUTO")) == "Found automatically"
    ensures VideoSourceLabel(Some("MANUAL")) == "Added manually"
  {
  }

  // ----- ids sent for discovery -----

  /** `ids.map(id => id.split("/").pop())` */
  function GenerationIds(ids: seq<string>): (r: seq<string>)
    ensures |r| == |ids| && forall i :: 0 <= i < |ids| ==> r[i] == LastSegment(ids[i], '/')
  {
    seq(|ids|, i requires 0 <= i < |ids| => LastSegment(ids[i], '/'))
  }

  /** The gid of a product without its trailing "/" and number. */
  const PRODUCT_GID_BASE := "gid://shopify/Product"

  /** A product gid yields its number, which the discovery routes parse back to the same product. */
  lemma GidGivesNumber(n: nat)
    ensures LastSegment(PRODUCT_GID_BASE + "/" + NatToString(n), '/') == NatToString(n)
    ensures ParseNat(GenerationIds([PRODUCT_GID_BASE + "/" + NatToString(n)])[0]) == Some(n)
  {
    LastSegmentAfterSeparator(PRODUCT_GID_BASE, NatToString(n));
    ParsePrinted(n);
  }

  lemma {:induction false} LastSegmentAfterSeparator(a: string, d: string)
    requires '/' !in d
    ensures LastSegment(a + "/" + d, '/') == d
    decreases |d|
  {
    var s := a + "/" + d;
    if d == [] {
      assert s[|s| - 1] == '/';
    } else {
      var init := d[..|d| - 1];
      assert s[..|s| - 1] == a + "/" + init;
      LastSegmentAfterSeparator(a, init);
      assert init + [d[|d| - 1]] == d;
    }
  }
}
