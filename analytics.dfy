/**
 * The analytics page loader (`app/routes/app.analytics.jsx`): it folds the shop's
 * activity log into play and page-view counters, totals them, walks the tagged
 * products page by page, fetches their details in batches of 20 and joins them with
 * the counters and the extended-info rows, lists the untagged products worth a
 * video, and computes the share of products that carry one.
 */
module Analytics {
  import opened Wrappers
  import opened Text
  import opened Collections
  import opened Sorting
  import opened Pagination
  import opened Engagement
  import opened ExtendedInfo
  import opened Subscriptions

  const DAY_MS: int := 86400000
  const BATCH_SIZE: nat := 20

  // ----- time window -----

  /** `url.searchParams.get("time") || "lastWeek"` */
  function TimeFilter(param: Option<string>): (r: string)
    ensures r != ""
    ensures param.Some? && param.value != "" ==> r == param.value
    ensures param.None? || param.value == "" ==> r == "lastWeek"
  {
    if param.Some? && param.value != "" then param.value else "lastWeek"
  }

  /**
   * The lower bound on `createdAt`: a week back for "lastWeek", thirty days back for
   * "lastMonth"; "all" and any other value leave the log unconstrained.
   */
  function Since(filter: string, now: int): (r: Option<int>)
    ensures filter == "lastWeek" ==> r == Some(now - 7 * DAY_MS)
    ensures filter == "lastMonth" ==> r == Some(now - 30 * DAY_MS)
    ensures filter != "lastWeek" && filter != "lastMonth" ==> r.None?
  {
    if filter == "lastWeek" then Some(now - 7 * DAY_MS)
    else if filter == "lastMonth" then Some(now - 30 * DAY_MS)
    else None
  }

  predicate InWindow(a: Activity, since: Option<int>) {
    since.None? || a.createdAt >= since.value
  }

  /** `activity.findMany({ where: { shop, createdAt } })`, in table order. */
  function SelectActivities(log: seq<Activity>, shop: string, since: Option<int>): (r: seq<Activity>)
    ensures |r| <= |log|
    ensures forall a :: a in r <==> a in log && a.shop == shop && InWindow(a, since)
  {
    if log == [] then []
    else
      var init := SelectActivities(log[..|log| - 1], shop, since);
      var last := log[|log| - 1];
      assert forall a :: a in log <==> a in log[..|log| - 1] || a == last;
      init + (if last.shop == shop && InWindow(last, since) then [last] else [])
  }

  /** Each selected row is kept as many times as the log holds it, so the tallies count every row of the window. */
  lemma {:induction false} SelectKeepsMultiplicity(log: seq<Activity>, shop: string, since: Option<int>, a: Activity)
    ensures multiset(SelectActivities(log, shop, since))[a] == if a.shop == shop && InWindow(a, since) then multiset(log)[a] else 0
  {
    if log != [] {
      var init := log[..|log| - 1];
      var last := log[|log| - 1];
      SelectKeepsMultiplicity(init, shop, since, a);
      var kept := SelectActivities(init, shop, since);
      var extra := if last.shop == shop && InWindow(last, since) then [last] else [];
      assert SelectActivities(log, shop, since) == kept + extra;
      assert multiset(kept + extra)[a] == multiset(kept)[a] + multiset(extra)[a];
      CountSnoc(log, a);
    }
  }

  /** The selection keeps table order: selecting from two stretches of the log is selecting from each in turn. */
  lemma {:induction false} SelectAppend(log: seq<Activity>, more: seq<Activity>, shop: string, since: Option<int>)
    ensures SelectActivities(log + more, shop, since) == SelectActivities(log, shop, since) + SelectActivities(more, shop, since)
    decreases |more|
  {
    if more == [] {
      assert log + more == log;
    } else {
      var init := more[..|more| - 1];
      var last := more[|more| - 1];
      AppendSnoc(log, more);
      SelectAppend(log, init, shop, since);
      SelectSnoc(log + init, last, shop, since);
      SelectSnoc(init, last, shop, since);
      var front := SelectActivities(log, shop, since);
      var back := SelectActivities(init, shop, since);
      var extra := if last.shop == shop && InWindow(last, since) then [last] else [];
      assert SelectActivities(log + more, shop, since) == (front + back) + extra;
      assert SelectActivities(more, shop, since) == back + extra;
      ConcatAssoc(front, back, extra);
    }
  }

  lemma SelectSnoc(log: seq<Activity>, a: Activity, shop: string, since: Option<int>)
    ensures SelectActivities(log + [a], shop, since)
            == SelectActivities(log, shop, since) + (if a.shop == shop && InWindow(a, since) then [a] else [])
  {
    assert (log + [a])[..|log|] == log;
  }

  /** A shorter window sees fewer rows: every row of the last week is a row of the last month, which is a row of "all". */
  lemma WindowsNest(log: seq<Activity>, shop: string, now: int)
    ensures forall a :: a in SelectActivities(log, shop, Since("lastWeek", now)) ==> a in SelectActivities(log, shop, Since("lastMonth", now))
    ensures forall a :: a in SelectActivities(log, shop, Since("lastMonth", now)) ==> a in SelectActivities(log, shop, Since("all", now))
  {
  }

  // ----- the activity fold -----

  /** A null `videoUrl` is interpolated as "null". */
  function UrlText(u: Option<string>): string {
    if u.Some? then u.value else "null"
  }

  /** The counter key `${pid}__${videoUrl}`. */
  function PlayKeyText(pid: nat, u: Option<string>): string {
    NatToString(pid) + "__" + UrlText(u)
  }

  predicate Counted(a: Activity, kind: string) {
    a.productId.Some? && a.kind == kind
  }

  /** The play-counter keys of the counted `VIDEO_PLAY` rows, in log order. */
  function PlayKeys(acts: seq<Activity>): seq<string> {
    if acts == [] then []
    else
      var a := acts[|acts| - 1];
      PlayKeys(acts[..|acts| - 1]) + (if Counted(a, "VIDEO_PLAY") then [PlayKeyText(a.productId.value, a.videoUrl)] else [])
  }

  /** The product keys of the counted `PAGE_VIEW` rows, in log order. */
  function ViewKeys(acts: seq<Activity>): seq<string> {
    if acts == [] then []
    else
      var a := acts[|acts| - 1];
      ViewKeys(acts[..|acts| - 1]) + (if !Counted(a, "VIDEO_PLAY") && Counted(a, "PAGE_VIEW") then [NatToString(a.productId.value)] else [])
  }

  /** `counts[k] = (counts[k] || 0) + 1` */
  function Increment(m: Entries<string, nat>, k: string): Entries<string, nat> {
    Put(m, k, Lookup(m, k).GetOr(0) + 1)
  }

  /** The object obtained by incrementing each key of `ks` in turn from `{}`. */
  function Tally(ks: seq<string>): Entries<string, nat> {
    if ks == [] then [] else Increment(Tally(ks[..|ks| - 1]), ks[|ks| - 1])
  }

  lemma TallySnoc(ks: seq<string>, k: string)
    ensures Tally(ks + [k]) == Increment(Tally(ks), k)
  {
    assert (ks + [k])[..|ks|] == ks;
  }

  /** A tally has one entry per key, in order of first occurrence. */
  lemma {:induction false} TallyKeys(ks: seq<string>)
    ensures Keys(Tally(ks)) == Dedup(ks)
  {
    if ks != [] {
      var init, k := ks[..|ks| - 1], ks[|ks| - 1];
      assert ks == init + [k];
      TallySnoc(init, k);
      TallyKeys(init);
      DedupSnoc(init, k);
      var m := Tally(init);
      assert Keys(Put(m, k, Lookup(m, k).GetOr(0) + 1)) == if k in Keys(m) then Keys(m) else Keys(m) + [k];
    }
  }

  /** Each counter is the number of times its key occurs. */
  lemma {:induction false} TallyCounts(ks: seq<string>)
    ensures forall k :: Lookup(Tally(ks), k).GetOr(0) == multiset(ks)[k]
  {
    if ks != [] {
      var init, k := ks[..|ks| - 1], ks[|ks| - 1];
      TallyCounts(init);
      assert ks == init + [k];
    }
  }

  /** The counters add up to the number of keys. */
  lemma {:induction false} TallySum(ks: seq<string>)
    ensures Sum(Values(Tally(ks))) == |ks|
  {
    if ks != [] {
      var init, k := ks[..|ks| - 1], ks[|ks| - 1];
      assert ks == init + [k];
      TallySnoc(init, k);
      TallySum(init);
      IncrementSum(Tally(init), k);
    }
  }

  lemma IncrementSum(m: Entries<string, nat>, k: string)
    ensures Sum(Values(Increment(m, k))) == Sum(Values(m)) + 1
  {
    SumAfterPut(m, k, Lookup(m, k).GetOr(0) + 1);
  }

  lemma KeysSnoc(acts: seq<Activity>, i: nat)
    requires i < |acts|
    ensures var a := acts[i];
      && PlayKeys(acts[..i + 1]) == PlayKeys(acts[..i]) + (if Counted(a, "VIDEO_PLAY") then [PlayKeyText(a.productId.value, a.videoUrl)] else [])
      && ViewKeys(acts[..i + 1]) == ViewKeys(acts[..i]) + (if !Counted(a, "VIDEO_PLAY") && Counted(a, "PAGE_VIEW") then [NatToString(a.productId.value)] else [])
  {
    assert acts[..i + 1][..i] == acts[..i];
  }

  /**
   * The `for (const act of activities)` loop: a row without a product is skipped,
   * a `VIDEO_PLAY` row adds one to its product-and-video counter, a `PAGE_VIEW` row one
   * to its product's counter, and any other row nothing.
   */
  method FoldActivities(acts: seq<Activity>) returns (plays: Entries<string, nat>, views: Entries<string, nat>)
    ensures plays == Tally(PlayKeys(acts))
    ensures views == Tally(ViewKeys(acts))
  {
    plays := [];
    views := [];
    ghost var pk: seq<string> := [];
    ghost var vk: seq<string> := [];
    for i := 0 to |acts|
      invariant pk == PlayKeys(acts[..i]) && vk == ViewKeys(acts[..i])
      invariant plays == Tally(pk)
      invariant views == Tally(vk)
    {
      var act := acts[i];
      KeysSnoc(acts, i);
      if act.productId.Some? {
        var pid := act.productId.value;
        if act.kind == "VIDEO_PLAY" {
          var key := PlayKeyText(pid, act.videoUrl);
          TallySnoc(pk, key);
          plays := Increment(plays, key);
          pk := pk + [key];
        } else if act.kind == "PAGE_VIEW" {
          var key := NatToString(pid);
          TallySnoc(vk, key);
          views := Increment(views, key);
          vk := vk + [key];
        }
      }
    }
    assert acts[..|acts|] == acts;
  }

  // ----- counters to rows -----

  /** A `videoStats` entry; `productId` is the decimal text of the `BigInt`. */
  datatype VideoStat = VideoStat(productId: string, videoUrl: string, playCount: nat)

  /** The key split at its first "__", keeping all that follows. */
  function SplitKey(key: string): (r: (string, string))
    ensures IndexOf(key, "__").Some? ==> r.0 + "__" + r.1 == key
  {
    match IndexOf(key, "__")
    case None => (key, "")
    case Some(i) =>
      assert key == key[..i] + "__" + key[i + 2..];
      (key[..i], key[i + 2..])
  }

  /** `const [productId, videoUrl] = key.split("__")`: the url stops at the next "__". */
  function SplitKeyAsWritten(key: string): (r: (string, string)) {
    match IndexOf(key, "__")
    case None => (key, "")
    case Some(i) =>
      var rest := key[i + 2..];
      match IndexOf(rest, "__")
      case None => (key[..i], rest)
      case Some(j) => (key[..i], rest[..j])
  }

  lemma DigitsHaveNoUnderscore(pid: nat)
    ensures forall i :: 0 <= i < |NatToString(pid)| ==> NatToString(pid)[i] != "__"[0]
  {
  }

  /** Splitting a counter key gives back the product id and the url it was built from. */
  lemma SplitKeyRoundTrip(pid: nat, u: Option<string>)
    ensures SplitKey(PlayKeyText(pid, u)) == (NatToString(pid), UrlText(u))
  {
    DigitsHaveNoUnderscore(pid);
    FirstOccurrenceAfter(NatToString(pid), "__", UrlText(u));
    var key := PlayKeyText(pid, u);
    var n := |NatToString(pid)|;
    assert key[..n] == NatToString(pid);
    assert key[n + 2..] == UrlText(u);
  }

  /**
   * As written, a url that itself contains "__" loses everything from there on: the
   * row reports a url that was never played.
   */
  lemma SplitKeyAsWrittenTruncates(pid: nat, x: string, y: string)
    requires forall i :: 0 <= i < |x| ==> x[i] != '_'
    ensures SplitKeyAsWritten(PlayKeyText(pid, Some(x + "__" + y))) == (NatToString(pid), x)
    ensures x != x + "__" + y
  {
    DigitsHaveNoUnderscore(pid);
    var url := x + "__" + y;
    FirstOccurrenceAfter(NatToString(pid), "__", url);
    var key := PlayKeyText(pid, Some(url));
    var n := |NatToString(pid)|;
    assert key[..n] == NatToString(pid);
    assert key[n + 2..] == url;
    FirstOccurrenceAfter(x, "__", y);
    assert url[..|x|] == x;
  }

  /** A url up to its first "__": all of it when it holds none. */
  function UpToSeparator(u: string): string {
    match IndexOf(u, "__")
    case None => u
    case Some(j) => u[..j]
  }

  /**
   * As written, splitting a counter key gives back the product id and the url up to
   * its first "__"; the url comes back whole exactly when it holds no "__".
   */
  lemma SplitKeyAsWrittenSpec(pid: nat, u: Option<string>)
    ensures SplitKeyAsWritten(PlayKeyText(pid, u)) == (NatToString(pid), UpToSeparator(UrlText(u)))
    ensures UpToSeparator(UrlText(u)) == UrlText(u) <==> IndexOf(UrlText(u), "__").None?
  {
    DigitsHaveNoUnderscore(pid);
    FirstOccurrenceAfter(NatToString(pid), "__", UrlText(u));
    var key := PlayKeyText(pid, u);
    var n := |NatToString(pid)|;
    assert key[..n] == NatToString(pid);
    assert key[n + 2..] == UrlText(u);
  }

  /** An embed url whose 11-character video id holds "__" (such ids are valid). */
  lemma TruncationExample()
    ensures SplitKeyAsWritten(PlayKeyText(42, Some("https://youtube.com/embed/ab__cdefghi"))).1
            == "https://youtube.com/embed/ab"
  {
    var x := "https://youtube.com/embed/ab";
    assert x + "__" + "cdefghi" == "https://youtube.com/embed/ab__cdefghi";
    SplitKeyAsWrittenTruncates(42, x, "cdefghi");
  }

  /** The intended conversion: each key split at its first "__", keeping the whole url. */
  function VideoStats(plays: Entries<string, nat>): (r: seq<VideoStat>)
    ensures |r| == |plays|
    ensures forall i :: 0 <= i < |plays| ==>
      r[i] == VideoStat(SplitKey(plays[i].0).0, SplitKey(plays[i].0).1, plays[i].1)
  {
    seq(|plays|, i requires 0 <= i < |plays| => VideoStat(SplitKey(plays[i].0).0, SplitKey(plays[i].0).1, plays[i].1))
  }

  /** `Object.entries(playCounts).map(...)` as written: the url part stops at the next "__". */
  function VideoStatsAsWritten(plays: Entries<string, nat>): (r: seq<VideoStat>)
    ensures |r| == |plays|
    ensures forall i :: 0 <= i < |plays| ==>
      r[i] == VideoStat(SplitKeyAsWritten(plays[i].0).0, SplitKeyAsWritten(plays[i].0).1, plays[i].1)
  {
    seq(|plays|, i requires 0 <= i < |plays| =>
      VideoStat(SplitKeyAsWritten(plays[i].0).0, SplitKeyAsWritten(plays[i].0).1, plays[i].1))
  }

  /**
   * Each counted play row is represented by a video entry carrying its product id,
   * its url unchanged, and the number of plays of that (product, url) in the window.
   */
  lemma {:induction false} VideoStatsComplete(acts: seq<Activity>, a: Activity)
    requires a in acts && Counted(a, "VIDEO_PLAY")
    ensures var key := PlayKeyText(a.productId.value, a.videoUrl);
      exists i :: 0 <= i < |VideoStats(Tally(PlayKeys(acts)))| &&
        VideoStats(Tally(PlayKeys(acts)))[i] ==
          VideoStat(NatToString(a.productId.value), UrlText(a.videoUrl), multiset(PlayKeys(acts))[key])
  {
    var key := PlayKeyText(a.productId.value, a.videoUrl);
    PlayKeyListed(acts, a);
    TallyKeys(PlayKeys(acts));
    TallyCounts(PlayKeys(acts));
    var m := Tally(PlayKeys(acts));
    assert key in Keys(m);
    var i := FindKey(m, key).value;
    SplitKeyRoundTrip(a.productId.value, a.videoUrl);
    assert Lookup(m, key) == Some(m[i].1);
    assert VideoStats(m)[i] == VideoStat(NatToString(a.productId.value), UrlText(a.videoUrl), multiset(PlayKeys(acts))[key]);
  }

  /**
   * As written, each counted play row is represented by a video entry carrying its
   * product id, its url up to the first "__", and the plays of that (product, url).
   */
  lemma {:induction false} VideoStatsAsWrittenEntry(acts: seq<Activity>, a: Activity)
    requires a in acts && Counted(a, "VIDEO_PLAY")
    ensures var key := PlayKeyText(a.productId.value, a.videoUrl);
      exists i :: 0 <= i < |VideoStatsAsWritten(Tally(PlayKeys(acts)))| &&
        VideoStatsAsWritten(Tally(PlayKeys(acts)))[i] ==
          VideoStat(NatToString(a.productId.value), UpToSeparator(UrlText(a.videoUrl)), multiset(PlayKeys(acts))[key])
  {
    var key := PlayKeyText(a.productId.value, a.videoUrl);
    PlayKeyListed(acts, a);
    TallyKeys(PlayKeys(acts));
    TallyCounts(PlayKeys(acts));
    var m := Tally(PlayKeys(acts));
    assert key in Keys(m);
    var i := FindKey(m, key).value;
    SplitKeyAsWrittenSpec(a.productId.value, a.videoUrl);
    assert Lookup(m, key) == Some(m[i].1);
    assert VideoStatsAsWritten(m)[i] ==
      VideoStat(NatToString(a.productId.value), UpToSeparator(UrlText(a.videoUrl)), multiset(PlayKeys(acts))[key]);
  }

  lemma {:induction false} PlayKeyListed(acts: seq<Activity>, a: Activity)
    requires a in acts && Counted(a, "VIDEO_PLAY")
    ensures PlayKeyText(a.productId.value, a.videoUrl) in PlayKeys(acts)
  {
    var init := acts[..|acts| - 1];
    if a != acts[|acts| - 1] {
      assert a in init by {
        assert acts == init + [acts[|acts| - 1]];
      }
      PlayKeyListed(init, a);
    }
  }

  // ----- totals and rates -----

  /** `Math.round(a / b)` on non-negative integers: the nearest integer, halves rounded up. */
  function RoundHalfUp(a: nat, b: nat): (r: nat)
    requires b > 0
    ensures (2 * r - 1) * b <= 2 * a < (2 * r + 1) * b
  {
    var q := (2 * a + b) / (2 * b);
    assert 2 * b * q <= 2 * a + b < 2 * b * q + 2 * b;
    assert (2 * q - 1) * b == 2 * b * q - b;
    assert (2 * q + 1) * b == 2 * b * q + b;
    q
  }

  /** `views > 0 ? Math.round((plays / views) * 100) : 0` */
  function PlayRate(plays: nat, views: nat): (r: nat)
    ensures views == 0 ==> r == 0
    ensures views > 0 ==> (2 * r - 1) * views <= 200 * plays < (2 * r + 1) * views
  {
    if views > 0 then RoundHalfUp(100 * plays, views) else 0
  }

  /** `pageViewsArr.find(p => p.productId === pid)?.viewCount || 0` */
  function ViewsOf(views: Entries<string, nat>, pid: string): nat {
    Lookup(views, pid).GetOr(0)
  }

  /** `allVideoTotals`: plays of every video entry, and its product's page views once per entry. */
  function Totals(stats: seq<VideoStat>, views: Entries<string, nat>): (nat, nat) {
    if stats == [] then (0, 0)
    else
      var t := Totals(stats[..|stats| - 1], views);
      var v := stats[|stats| - 1];
      (t.0 + v.playCount, t.1 + ViewsOf(views, v.productId))
  }

  /** Total plays are the sum of the play counters. */
  lemma {:induction false} TotalPlaysIsCounterSum(plays: Entries<string, nat>, views: Entries<string, nat>)
    ensures Totals(VideoStatsAsWritten(plays), views).0 == Sum(Values(plays))
  {
    if plays != [] {
      var init := plays[..|plays| - 1];
      TotalPlaysIsCounterSum(init, views);
      assert VideoStatsAsWritten(plays)[..|plays| - 1] == VideoStatsAsWritten(init);
      assert Values(plays)[..|plays| - 1] == Values(init);
    }
  }

  /** So total plays are exactly the counted `VIDEO_PLAY` rows of the window. */
  lemma TotalPlaysIsPlayRows(acts: seq<Activity>, views: Entries<string, nat>)
    ensures Totals(VideoStatsAsWritten(Tally(PlayKeys(acts))), views).0 == |PlayKeys(acts)|
  {
    TotalPlaysIsCounterSum(Tally(PlayKeys(acts)), views);
    TallySum(PlayKeys(acts));
  }

  /** Page views of a product without any video entry do not count towards the total views. */
  lemma {:induction false} TotalViewsIgnoreUnplayed(stats: seq<VideoStat>, views: Entries<string, nat>, pid: string, n: nat)
    requires forall i :: 0 <= i < |stats| ==> stats[i].productId != pid
    ensures Totals(stats, Put(views, pid, n)).1 == Totals(stats, views).1
  {
    if stats != [] {
      TotalViewsIgnoreUnplayed(stats[..|stats| - 1], views, pid, n);
    }
  }

  /** The store-wide play rate shown on the page. */
  function StoreRate(totals: (nat, nat)): (r: nat)
    ensures totals.1 == 0 ==> r == 0
    ensures totals.1 > 0 ==> (2 * r - 1) * totals.1 <= 200 * totals.0 < (2 * r + 1) * totals.1
  {
    PlayRate(totals.0, totals.1)
  }

  /** 10 plays over 100 views for one product and 50 views of an unplayed one: the rate is 10 %, not 7 %. */
  lemma StoreRateExample()
    ensures StoreRate(Totals([VideoStat("1", "u", 10)], [("1", 100), ("2", 50)])) == 10
  {
    var stats := [VideoStat("1", "u", 10)];
    var views := [("1", 100), ("2", 50)];
    assert Keys(views) == ["1", "2"];
    assert IndexIn(Keys(views), "1") == Some(0);
    assert stats[..0] == [];
    assert Totals(stats, views) == (10, 100);
  }

  // ----- the tagged-product walk -----

  /**
   * The `while (hasNextPage)` loop: counts the edges, collects the node ids into a
   * `Set`, and advances the cursor to each page's last edge.
   */
  method WalkTagged(pages: seq<Page>) returns (walk: Walk, count: nat, ids: seq<string>, sent: seq<Option<string>>)
    ensures walk == WalkOf(pages)
    ensures walk.Finished? ==>
      && count == EdgeCount(pages[..walk.pagesRead])
      && ids == Dedup(EdgeIds(pages[..walk.pagesRead]))
      && sent == Sent(pages, walk.pagesRead)
  {
    count := 0;
    ids := [];
    sent := [];
    var hasNextPage := true;
    var cursor: Option<string> := None;
    var i := 0;
    while hasNextPage
      invariant 0 <= i <= |pages|
      invariant hasNextPage ==> WalkFrom(pages, i) == WalkOf(pages)
      invariant !hasNextPage ==> i > 0 && WalkOf(pages) == Finished(i)
      invariant count == EdgeCount(pages[..i])
      invariant ids == Dedup(EdgeIds(pages[..i]))
      invariant sent == Sent(pages, i)
      invariant hasNextPage ==> cursor == (if i == 0 then None else LastCursor(pages[i - 1]))
      decreases |pages| - i
    {
      if i == |pages| {
        walk := Unfinished;
        return;
      }
      SentSnoc(pages, i);
      WalkStep(pages, i);
      sent := sent + [cursor];
      var edges := pages[i].edges;
      EdgeCountSnoc(pages, i);
      count := count + |edges|;
      hasNextPage := pages[i].hasNextPage;
      if hasNextPage {
        if edges == [] {
          walk := Crashed(i);
          return;
        }
        cursor := Some(edges[|edges| - 1].cursor);
      } else {
        cursor := None;
      }
      ids := CollectIds(ids, EdgeIds(pages[..i]), edges);
      i := i + 1;
    }
    walk := Finished(i);
  }

  /** `for (const edge of edges) productIds.add(edge.node.id)` */
  method CollectIds(ids: seq<string>, before: seq<string>, edges: seq<Edge>) returns (r: seq<string>)
    requires ids == Dedup(before)
    ensures r == Dedup(before + IdsOf(edges))
  {
    r := ids;
    assert before + IdsOf(edges[..0]) == before;
    for j := 0 to |edges|
      invariant r == Dedup(before + IdsOf(edges[..j]))
    {
      CollectStep(before, edges, j);
      if edges[j].id !in r {
        r := r + [edges[j].id];
      }
    }
    assert edges[..|edges|] == edges;
  }

  /** One more id added to the `Set`: it goes last unless it was already there. */
  lemma CollectStep(before: seq<string>, edges: seq<Edge>, j: nat)
    requires j < |edges|
    ensures var d := Dedup(before + IdsOf(edges[..j]));
      Dedup(before + IdsOf(edges[..j + 1])) == if edges[j].id in d then d else d + [edges[j].id]
  {
    assert IdsOf(edges[..j + 1]) == IdsOf(edges[..j]) + [edges[j].id];
    assert before + IdsOf(edges[..j + 1]) == (before + IdsOf(edges[..j])) + [edges[j].id];
    DedupSnoc(before + IdsOf(edges[..j]), edges[j].id);
  }

  // ----- product details, batches and the joined rows -----

  /** A product node from the `nodes(ids:)` query; `summary` is its `youtube_demo_summary` metafield. */
  datatype ProductNode = ProductNode(gid: string, title: string, summary: Option<string>)

  /** A row of the result table. */
  datatype ProductStat = ProductStat(
    id: string, title: string, videoUrl: Option<string>, playCount: nat, pdpViews: nat, playRate: nat,
    summary: Option<string>, highlights: Option<string>, sourceMethod: Option<string>, isMain: Option<bool>)

  /** `a || b` on possibly missing strings. */
  function OrElse(a: Option<string>, b: Option<string>): (r: Option<string>)
    ensures a.Some? && a.value != "" ==> r == a
    ensures !(a.Some? && a.value != "") ==> r == b
  {
    if a.Some? && a.value != "" then a else b
  }

  /** `new Map(videoStats.map(v => [v.productId.toString(), v]))` */
  function StatPairs(stats: seq<VideoStat>): (r: seq<(string, VideoStat)>)
    ensures |r| == |stats| && forall i :: 0 <= i < |stats| ==> r[i] == (stats[i].productId, stats[i])
  {
    seq(|stats|, i requires 0 <= i < |stats| => (stats[i].productId, stats[i]))
  }

  /** The video entry a product is joined with: the last entry for that product, as a `Map` keeps the last value. */
  lemma VideoOfProductIsLastEntry(stats: seq<VideoStat>, id: string)
    ensures Lookup(FromPairs(StatPairs(stats)), id) == LastValue(StatPairs(stats), id)
  {
    FromPairsSpec(StatPairs(stats));
  }

  /** `extendedInfos.find(info => info.productId.toString() === id)` */
  function FirstInfo(infos: seq<InfoRow>, id: string): (r: Option<InfoRow>)
    ensures r.Some? ==> r.value in infos && NatToString(r.value.productId) == id
    ensures r.Some? ==>
      exists i :: 0 <= i < |infos| && infos[i] == r.value && (forall j :: 0 <= j < i ==> NatToString(infos[j].productId) != id)
    ensures r.None? ==> forall i :: 0 <= i < |infos| ==> NatToString(infos[i].productId) != id
  {
    if infos == [] then None
    else if NatToString(infos[0].productId) == id then Some(infos[0])
    else
      var r := FirstInfo(infos[1..], id);
      assert forall i :: 1 <= i < |infos| ==> infos[i] == infos[1..][i - 1];
      r
  }

  /** What the joins read: the video map, the page-view counters and the shop's extended-info rows. */
  datatype JoinContext = JoinContext(videoMap: Entries<string, VideoStat>, views: Entries<string, nat>, infos: seq<InfoRow>)

  /**
   * One result row: the numeric id from the gid; plays from the product's video entry
   * (0 without one); views from its page-view counter; the rate rounded to whole
   * percent; the url and summary falling back to the extended-info row.
   */
  function ProductRow(node: ProductNode, ctx: JoinContext): (r: ProductStat)
    ensures r.id == ReplaceFirst(node.gid, "gid://shopify/Product/", "") && r.title == node.title
    ensures r.playCount == (match Lookup(ctx.videoMap, r.id) case Some(v) => v.playCount case None => 0)
    ensures r.pdpViews == ViewsOf(ctx.views, r.id)
    ensures r.pdpViews == 0 ==> r.playRate == 0
    ensures r.pdpViews > 0 ==> (2 * r.playRate - 1) * r.pdpViews <= 200 * r.playCount < (2 * r.playRate + 1) * r.pdpViews
    ensures FirstInfo(ctx.infos, r.id).None? ==> r.highlights.None? && r.sourceMethod.None? && r.isMain.None?
    ensures FirstInfo(ctx.infos, r.id).None? ==> r.videoUrl == OrElse(PlayedUrl(ctx.videoMap, r.id), None)
    ensures FirstInfo(ctx.infos, r.id).None? ==> r.summary == OrElse(None, node.summary)
    ensures FirstInfo(ctx.infos, r.id).Some? ==>
      var e := FirstInfo(ctx.infos, r.id).value;
      && r.videoUrl == OrElse(PlayedUrl(ctx.videoMap, r.id), OrElse(e.videoUrl, None))
      && r.summary == OrElse(e.aiSummary, node.summary)
      && r.highlights == e.highlights && r.sourceMethod == e.sourceMethod && r.isMain == Some(e.isMain)
  {
    var id := ReplaceFirst(node.gid, "gid://shopify/Product/", "");
    var views := ViewsOf(ctx.views, id);
    var (plays, playedUrl) := match Lookup(ctx.videoMap, id)
      case Some(v) => (v.playCount, Some(v.videoUrl))
      case None => (0, None);
    match FirstInfo(ctx.infos, id)
    case None =>
      ProductStat(id, node.title, OrElse(playedUrl, None), plays, views, PlayRate(plays, views),
                  OrElse(None, node.summary), None, None, None)
    case Some(e) =>
      ProductStat(id, node.title, OrElse(playedUrl, OrElse(e.videoUrl, None)), plays, views, PlayRate(plays, views),
                  OrElse(e.aiSummary, node.summary), e.highlights, e.sourceMethod, Some(e.isMain))
  }

  /** The url of the product's video entry, when it has one. */
  function PlayedUrl(videoMap: Entries<string, VideoStat>, id: string): Option<string> {
    match Lookup(videoMap, id)
    case Some(v) => Some(v.videoUrl)
    case None => None
  }

  /** The rows for `ids`, in order, skipping ids the `nodes` query answers with null. */
  function RowsFor(ids: seq<string>, lookup: string -> Option<ProductNode>, ctx: JoinContext): (r: seq<ProductStat>)
    ensures |r| <= |ids|
  {
    if ids == [] then []
    else
      var node := lookup(ids[|ids| - 1]);
      RowsFor(ids[..|ids| - 1], lookup, ctx) + (if node.Some? then [ProductRow(node.value, ctx)] else [])
  }

  lemma {:induction false} RowsForAppend(a: seq<string>, b: seq<string>, lookup: string -> Option<ProductNode>, ctx: JoinContext)
    ensures RowsFor(a + b, lookup, ctx) == RowsFor(a, lookup, ctx) + RowsFor(b, lookup, ctx)
    decreases |b|
  {
    if b == [] {
      assert a + b == a;
    } else {
      var init := b[..|b| - 1];
      assert (a + b)[..|a + b| - 1] == a + init;
      RowsForAppend(a, init, lookup, ctx);
    }
  }

  function Min(a: int, b: int): int {
    if a < b then a else b
  }

  /** One `nodes(ids:)` request: a row for each id the query resolves, in order. */
  method FetchBatch(batch: seq<string>, lookup: string -> Option<ProductNode>, ctx: JoinContext) returns (rows: seq<ProductStat>)
    ensures rows == RowsFor(batch, lookup, ctx)
  {
    rows := [];
    for j := 0 to |batch|
      invariant rows == RowsFor(batch[..j], lookup, ctx)
    {
      assert batch[..j + 1][..j] == batch[..j];
      var node := lookup(batch[j]);
      if node.Some? {
        rows := rows + [ProductRow(node.value, ctx)];
      }
    }
    assert batch[..|batch|] == batch;
  }

  /**
   * The batched `for` loop: the ids go to the `nodes` query 20 at a time, in order,
   * and each returned product becomes a row. `lookup` answers the query for one id.
   */
  method FetchDetails(ids: seq<string>, lookup: string -> Option<ProductNode>, ctx: JoinContext)
    returns (batches: seq<seq<string>>, rows: seq<ProductStat>)
    ensures IsBatching(batches, ids, BATCH_SIZE)
    ensures rows == RowsFor(ids, lookup, ctx)
  {
    batches := [];
    rows := [];
    var i := 0;
    while i < |ids|
      invariant 0 <= i
      invariant Flatten(batches) == ids[..Min(i, |ids|)]
      invariant forall k :: 0 <= k < |batches| ==> 0 < |batches[k]| <= BATCH_SIZE
      invariant forall k :: 0 <= k < |batches| - 1 ==> |batches[k]| == BATCH_SIZE
      invariant i < |ids| ==> forall k :: 0 <= k < |batches| ==> |batches[k]| == BATCH_SIZE
      invariant rows == RowsFor(ids[..Min(i, |ids|)], lookup, ctx)
      decreases |ids| - i
    {
      var end := Min(i + BATCH_SIZE, |ids|);
      var batch := ids[i..end];
      FlattenAppend(batches, batch);
      assert ids[..i] + batch == ids[..end];
      RowsForAppend(ids[..i], batch, lookup, ctx);
      batches := batches + [batch];
      var found := FetchBatch(batch, lookup, ctx);
      rows := rows + found;
      i := i + BATCH_SIZE;
    }
    assert ids[..|ids|] == ids;
  }

  /** `b.playCount - a.playCount || b.pdpViews - a.pdpViews` */
  function EngagementRank(p: ProductStat): Rank {
    Rank(p.playCount, p.pdpViews)
  }

  // ----- opportunities -----

  /** A product of the `-tag:youtubevideo` query. */
  datatype UntaggedNode = UntaggedNode(
    gid: string, title: string, videoMeta: Option<string>, tracksInventory: Option<bool>, totalInventory: Option<int>)

  datatype Opportunity = Opportunity(id: string, title: string, pdpViews: nat)

  /** The video metafield holds something other than blanks. */
  predicate HasVideo(n: UntaggedNode) {
    n.videoMeta.Some? && n.videoMeta.value != "" && Trim(n.videoMeta.value) != ""
  }

  /** Inventory not tracked, or tracked with stock left. */
  predicate Available(n: UntaggedNode) {
    n.tracksInventory == Some(false)
    || (n.tracksInventory == Some(true) && n.totalInventory.Some? && n.totalInventory.value > 0)
  }

  predicate IsOpportunity(n: UntaggedNode) {
    !HasVideo(n) && Available(n)
  }

  function OpportunityOf(n: UntaggedNode, views: Entries<string, nat>): Opportunity {
    var id := ReplaceFirst(n.gid, "gid://shopify/Product/", "");
    Opportunity(id, n.title, ViewsOf(views, id))
  }

  /** The qualifying products in query order. */
  function Opportunities(nodes: seq<UntaggedNode>, views: Entries<string, nat>): (r: seq<Opportunity>)
    ensures |r| <= |nodes|
    ensures forall o :: o in r ==> exists n :: n in nodes && IsOpportunity(n) && o == OpportunityOf(n, views)
    ensures forall n :: n in nodes && IsOpportunity(n) ==> OpportunityOf(n, views) in r
  {
    if nodes == [] then []
    else
      var n := nodes[|nodes| - 1];
      var init := Opportunities(nodes[..|nodes| - 1], views);
      assert forall m :: m in nodes <==> m in nodes[..|nodes| - 1] || m == n;
      init + (if IsOpportunity(n) then [OpportunityOf(n, views)] else [])
  }

  function ViewsRank(o: Opportunity): Rank {
    Rank(o.pdpViews, 0)
  }

  /** The `for (const edge of noTagEdges)` loop and the sort by page views, larger first. */
  method CollectOpportunities(nodes: seq<UntaggedNode>, views: Entries<string, nat>) returns (r: seq<Opportunity>)
    ensures r == SortDesc(Opportunities(nodes, views), ViewsRank)
  {
    r := [];
    for i := 0 to |nodes|
      invariant r == Opportunities(nodes[..i], views)
    {
      assert nodes[..i + 1][..i] == nodes[..i];
      var n := nodes[i];
      if !HasVideo(n) && Available(n) {
        r := r + [OpportunityOf(n, views)];
      }
    }
    assert nodes[..|nodes|] == nodes;
    r := SortDesc(r, ViewsRank);
  }

  /** The sorted opportunities are exactly the qualifying products, most viewed first, ties in query order. */
  lemma OpportunitiesSorted(nodes: seq<UntaggedNode>, views: Entries<string, nat>)
    ensures var r := SortDesc(Opportunities(nodes, views), ViewsRank);
      && SortedDesc(r, ViewsRank)
      && multiset(r) == multiset(Opportunities(nodes, views))
      && (forall i, j :: 0 <= i < j < |r| ==> r[i].pdpViews >= r[j].pdpViews)
  {
    SortDescSpec(Opportunities(nodes, views), ViewsRank);
  }

  // ----- coverage -----

  /** `coveragePercent`: the number 0 without products, else the percentage text. */
  datatype Coverage = NoProducts | Percent(text: string)

  /** Tenths of a percent, rounded as `toFixed(1)` rounds (halves up). */
  function CoverageTenths(tagged: nat, total: nat): (r: nat)
    requires total > 0
    ensures (2 * r - 1) * total <= 2000 * tagged < (2 * r + 1) * total
  {
    RoundHalfUp(1000 * tagged, total)
  }

  /** `(n / 10).toFixed(1).replace(/\.0$/, "")` for a count `n` of tenths. */
  function FormatTenths(n: nat): string {
    NatToString(n / 10) + (if n % 10 == 0 then "" else "." + [DigitChar(n % 10)])
  }

  /** Reads a percentage text back into tenths. */
  function ParseTenths(s: string): Option<nat> {
    match IndexOf(s, ".")
    case None =>
      (match ParseNat(s) case Some(v) => Some(10 * v) case None => None)
    case Some(i) =>
      if i + 2 == |s| && IsDigit(s[i + 1]) && s[i + 1] != '0' then
        (match ParseNat(s[..i]) case Some(v) => Some(10 * v + (s[i + 1] as int - '0' as int)) case None => None)
      else None
  }

  /** The text reads back as the tenths it was printed from. */
  lemma FormatTenthsRoundTrip(n: nat)
    ensures ParseTenths(FormatTenths(n)) == Some(n)
  {
    var w := NatToString(n / 10);
    ParsePrinted(n / 10);
    assert forall i :: 0 <= i < |w| ==> w[i] != "."[0];
    if n % 10 == 0 {
      NoOccurrence(w, ".");
      assert FormatTenths(n) == w;
      assert n == 10 * (n / 10);
    } else {
      var d := [DigitChar(n % 10)];
      FirstOccurrenceAfter(w, ".", d);
      assert FormatTenths(n) == w + "." + d;
      assert (w + "." + d)[..|w|] == w;
    }
  }

  function CoverageOf(tagged: nat, total: nat): (r: Coverage)
    ensures total == 0 <==> r.NoProducts?
    ensures r.Percent? ==> ParseTenths(r.text) == Some(CoverageTenths(tagged, total))
  {
    if total == 0 then NoProducts
    else
      FormatTenthsRoundTrip(CoverageTenths(tagged, total));
      Percent(FormatTenths(CoverageTenths(tagged, total)))
  }

  /** 37 of 100 products gives "37", with the ".0" dropped; 1 of 3 gives "33.3". */
  lemma CoverageExamples()
    ensures CoverageOf(37, 100) == Percent("37")
    ensures CoverageOf(1, 3) == Percent("33.3")
  {
    assert CoverageTenths(37, 100) == 370;
    assert NatToString(37) == "37";
    assert CoverageTenths(1, 3) == 333;
    assert NatToString(33) == "33";
  }

  /** The result rows are the fetched rows, most played first, ties broken by page views, then by fetch order. */
  lemma ProductsSorted(rows: seq<ProductStat>)
    ensures var r := SortDesc(rows, EngagementRank);
      && multiset(r) == multiset(rows)
      && (forall i, j :: 0 <= i < j < |r| ==> r[i].playCount >= r[j].playCount)
      && (forall i, j :: 0 <= i < j < |r| && r[i].playCount == r[j].playCount ==> r[i].pdpViews >= r[j].pdpViews)
  {
    SortDescSpec(rows, EngagementRank);
  }

  // ----- the loader -----

  /** `productExtendedInfo.findMany({ where: { shop } })`, in table order. */
  function ShopInfos(rows: seq<InfoRow>, shop: string): (r: seq<InfoRow>)
    ensures forall x :: x in r <==> x in rows && x.shop == shop
  {
    if rows == [] then []
    else ShopInfos(rows[..|rows| - 1], shop) + (if rows[|rows| - 1].shop == shop then [rows[|rows| - 1]] else [])
  }

  /** What the Admin API answers: the tagged-product pages, the `nodes` lookup, the untagged products and the two product counts. */
  datatype Catalog = Catalog(
    pages: seq<Page>, lookup: string -> Option<ProductNode>, untagged: seq<UntaggedNode>, total: nat, tagged: nat)

  datatype AnalyticsData = AnalyticsData(
    count: nat, products: seq<ProductStat>, hasActiveSubscription: bool, shopDomain: string, timeFilter: string,
    noVideoProducts: seq<Opportunity>, totals: (nat, nat), coverage: Coverage)

  /**
   * The loader. The result is `None` exactly when the tagged-product walk does not
   * end normally (it throws on a page claiming more pages without edges).
   */
  method Loader(shop: string, timeParam: Option<string>, now: int, log: seq<Activity>, infoRows: seq<InfoRow>,
                active: seq<Subscription>, api: Catalog) returns (r: Option<AnalyticsData>)
    ensures r.Some? <==> WalkOf(api.pages).Finished?
    ensures r.Some? ==>
      var acts := SelectActivities(log, shop, Since(TimeFilter(timeParam), now));
      var views := Tally(ViewKeys(acts));
      var stats := VideoStatsAsWritten(Tally(PlayKeys(acts)));
      var read := api.pages[..WalkOf(api.pages).pagesRead];
      var ctx := JoinContext(FromPairs(StatPairs(stats)), views, ShopInfos(infoRows, shop));
      && r.value.count == EdgeCount(read)
      && r.value.products == SortDesc(RowsFor(Dedup(EdgeIds(read)), api.lookup, ctx), EngagementRank)
      && r.value.hasActiveSubscription == HasActive(active)
      && r.value.shopDomain == shop && r.value.timeFilter == TimeFilter(timeParam)
      && r.value.noVideoProducts == SortDesc(Opportunities(api.untagged, views), ViewsRank)
      && r.value.totals == Totals(stats, views)
      && r.value.coverage == CoverageOf(api.tagged, api.total)
  {
    var filter := TimeFilter(timeParam);
    var acts := SelectActivities(log, shop, Since(filter, now));
    var plays, views := FoldActivities(acts);
    var stats := VideoStatsAsWritten(plays);
    var infos := ShopInfos(infoRows, shop);
    var totals := Totals(stats, views);
    var walk, count, ids, _ := WalkTagged(api.pages);
    if !walk.Finished? {
      return None;
    }
    var ctx := JoinContext(FromPairs(StatPairs(stats)), views, infos);
    var _, rows := FetchDetails(ids, api.lookup, ctx);
    var products := SortDesc(rows, EngagementRank);
    var opportunities := CollectOpportunities(api.untagged, views);
    r := Some(AnalyticsData(count, products, HasActive(active), shop, filter, opportunities, totals,
                            CoverageOf(api.tagged, api.total)));
  }
}
