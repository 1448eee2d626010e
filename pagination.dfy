/**
 * Cursor pagination over the Admin API's `products` connection, as the analytics
 * and account loaders walk it: request with the current cursor, read the page,
 * continue with the cursor of the page's last edge while `hasNextPage` holds.
 * The API is an oracle: `pages[i]` is its answer to the i-th request.
 */
module Pagination {
  import opened Wrappers

  datatype Edge = Edge(cursor: string, id: string)
  datatype Page = Page(edges: seq<Edge>, hasNextPage: bool)

  /**
   * How a walk ends: after reading `pagesRead` pages, the last without a next page;
   * by throwing at page `atPage`, which claims a next page but has no edge to take a
   * cursor from; or never, while the oracle's answers last.
   */
  datatype Walk = Finished(pagesRead: nat) | Crashed(atPage: nat) | Unfinished

  predicate Continues(p: Page) {
    p.hasNextPage && p.edges != []
  }

  function WalkFrom(pages: seq<Page>, k: nat): (r: Walk)
    decreases |pages| - k
    ensures r.Finished? ==> k < r.pagesRead <= |pages| && !pages[r.pagesRead - 1].hasNextPage
    ensures r.Finished? ==> forall i :: k <= i < r.pagesRead - 1 ==> Continues(pages[i])
    ensures r.Crashed? ==> k <= r.atPage < |pages| && pages[r.atPage].hasNextPage && pages[r.atPage].edges == []
    ensures r.Crashed? ==> forall i :: k <= i < r.atPage ==> Continues(pages[i])
    ensures r.Unfinished? ==> forall i :: k <= i < |pages| ==> Continues(pages[i])
  {
    if k >= |pages| then Unfinished
    else if !pages[k].hasNextPage then Finished(k + 1)
    else if pages[k].edges == [] then Crashed(k)
    else WalkFrom(pages, k + 1)
  }

  function WalkOf(pages: seq<Page>): Walk {
    WalkFrom(pages, 0)
  }

  /** Total number of edges on the pages. */
  function EdgeCount(pages: seq<Page>): nat {
    if pages == [] then 0 else EdgeCount(pages[..|pages| - 1]) + |pages[|pages| - 1].edges|
  }

  function IdsOf(edges: seq<Edge>): (r: seq<string>)
    ensures |r| == |edges| && forall i :: 0 <= i < |edges| ==> r[i] == edges[i].id
  {
    seq(|edges|, i requires 0 <= i < |edges| => edges[i].id)
  }

  /** Node ids of all edges, page after page. */
  function EdgeIds(pages: seq<Page>): seq<string> {
    if pages == [] then [] else EdgeIds(pages[..|pages| - 1]) + IdsOf(pages[|pages| - 1].edges)
  }

  function LastCursor(p: Page): Option<string> {
    if p.edges == [] then None else Some(p.edges[|p.edges| - 1].cursor)
  }

  /** The cursors of the first `n` requests: none, then each page's last cursor. */
  function Sent(pages: seq<Page>, n: nat): (r: seq<Option<string>>)
    requires n <= |pages| + 1
    ensures |r| == n
    ensures n > 0 ==> r[0] == None
    ensures forall i :: 0 < i < n ==> r[i] == LastCursor(pages[i - 1])
  {
    seq(n, i requires 0 <= i < n => if i == 0 then None else LastCursor(pages[i - 1]))
  }

  lemma EdgeCountSnoc(pages: seq<Page>, i: nat)
    requires i < |pages|
    ensures EdgeCount(pages[..i + 1]) == EdgeCount(pages[..i]) + |pages[i].edges|
    ensures EdgeIds(pages[..i + 1]) == EdgeIds(pages[..i]) + IdsOf(pages[i].edges)
  {
    assert pages[..i + 1][..i] == pages[..i];
  }

  /** What reading page `i` does to the walk: finish there, throw there, or go on. */
  lemma WalkStep(pages: seq<Page>, i: nat)
    requires i < |pages|
    ensures !pages[i].hasNextPage ==> WalkFrom(pages, i) == Finished(i + 1)
    ensures pages[i].hasNextPage && pages[i].edges == [] ==> WalkFrom(pages, i) == Crashed(i)
    ensures Continues(pages[i]) ==> WalkFrom(pages, i) == WalkFrom(pages, i + 1)
    ensures Continues(pages[i]) ==> LastCursor(pages[i]) == Some(pages[i].edges[|pages[i].edges| - 1].cursor)
  {
  }

  lemma SentSnoc(pages: seq<Page>, i: nat)
    requires i < |pages|
    ensures Sent(pages, i + 1) == Sent(pages, i) + [if i == 0 then None else LastCursor(pages[i - 1])]
  {
  }
}
