/**
 * The account page loader (`app/routes/app.account.jsx`): the current plan, the
 * trial-day arithmetic, and the number of products tagged `youtubevideo`, counted
 * by walking the paginated product search. Instants are integer milliseconds and a
 * day is 86 400 000 ms.
 */
module Account {
  import opened Wrappers
  import opened Subscriptions
  import opened Pagination

  const DAY_MS: int := 86400000

  /** `activeSubscriptions[0]?.name || "Trial"`: the first listed subscription, active or not. */
  function CurrentPlan(active: seq<Subscription>): (r: string)
    ensures r != ""
    ensures r == "Trial" || (|active| > 0 && r == active[0].name)
    ensures |active| > 0 && active[0].name != "" ==> r == active[0].name
  {
    if |active| > 0 && active[0].name != "" then active[0].name else "Trial"
  }

  /** `trialDays || 0` */
  function TrialDays(active: seq<Subscription>): (r: int)
    ensures |active| == 0 || active[0].trialDays.None? ==> r == 0
    ensures |active| > 0 && active[0].trialDays.Some? ==> r == active[0].trialDays.value
  {
    if |active| > 0 && active[0].trialDays.Some? then active[0].trialDays.value else 0
  }

  /** `Math.ceil(a / d)` on integers. */
  function CeilDiv(a: int, d: int): (r: int)
    requires d > 0
    ensures (r - 1) * d < a <= r * d
  {
    -((-a) / d)
  }

  /** `daysLeft` and `used` are `None` where the page computes `NaN` (no subscription to date the trial from). */
  datatype Trial = Trial(trialDays: int, daysLeft: Option<int>, used: Option<int>)

  function TrialEnd(s: Subscription, trialDays: int): int
    requires s.createdAt.Some?
  {
    s.createdAt.value + trialDays * DAY_MS
  }

  /**
   * `trialDaysLeft = max(0, ceil((trialEnd - today) / day))` and
   * `trialUsed = trialDays - trialDaysLeft`.
   */
  function TrialStatus(active: seq<Subscription>, today: int): (r: Trial)
    ensures r.trialDays == TrialDays(active)
    ensures r.daysLeft.Some? <==> |active| > 0 && active[0].createdAt.Some?
    ensures r.daysLeft.None? ==> r.used.None?
    ensures r.daysLeft.Some? ==> r.daysLeft.value >= 0 && r.used == Some(r.trialDays - r.daysLeft.value)
    ensures r.daysLeft.Some? ==>
      var end := TrialEnd(active[0], r.trialDays);
      && (r.daysLeft.value == 0 <==> end <= today)
      && (r.daysLeft.value > 0 ==> (r.daysLeft.value - 1) * DAY_MS < end - today <= r.daysLeft.value * DAY_MS)
  {
    var days := TrialDays(active);
    if |active| > 0 && active[0].createdAt.Some? then
      var c := CeilDiv(TrialEnd(active[0], days) - today, DAY_MS);
      var left := if c > 0 then c else 0;
      Trial(days, Some(left), Some(days - left))
    else
      Trial(days, None, None)
  }

  /** Once the trial has started, the days used lie between 0 and the trial length. */
  lemma TrialUsedBounds(active: seq<Subscription>, today: int)
    requires |active| > 0 && active[0].createdAt.Some? && TrialDays(active) >= 0
    requires active[0].createdAt.value <= today
    ensures var t := TrialStatus(active, today);
      t.used.Some? && 0 <= t.used.value <= t.trialDays
  {
    var t := TrialStatus(active, today);
    var end := TrialEnd(active[0], t.trialDays);
    assert end - today <= t.trialDays * DAY_MS;
  }

  /**
   * The `while (hasNextPage)` loop: `count` adds each page's edges, and the cursor
   * advances to the page's last edge while `hasNextPage` holds. Returns how the walk
   * ended, the count, and the cursor each request carried.
   */
  method CountTagged(pages: seq<Page>) returns (walk: Walk, count: nat, sent: seq<Option<string>>)
    ensures walk == WalkOf(pages)
    ensures walk.Finished? ==> count == EdgeCount(pages[..walk.pagesRead]) && sent == Sent(pages, walk.pagesRead)
  {
    count := 0;
    sent := [];
    var hasNextPage := true;
    var cursor: Option<string> := None;
    var i := 0;
    while hasNextPage
      invariant 0 <= i <= |pages|
      invariant hasNextPage ==> WalkFrom(pages, i) == WalkOf(pages)
      invariant !hasNextPage ==> i > 0 && WalkOf(pages) == Finished(i)
      invariant count == EdgeCount(pages[..i])
      invariant sent == Sent(pages, i)
      invariant hasNextPage ==> cursor == (if i == 0 then None else LastCursor(pages[i - 1]))
      decreases |pages| - i
    {
      if i == |pages| {
        walk := Unfinished;
        return;
      }
      SentSnoc(pages, i);
      WalkStep(pages, i);
      sent := sent + [cursor];
      var edges := pages[i].edges;
      EdgeCountSnoc(pages, i);
      count := count + |edges|;
      hasNextPage := pages[i].hasNextPage;
      if hasNextPage {
        if edges == [] {
          walk := Crashed(i);
          return;
        }
        cursor := Some(edges[|edges| - 1].cursor);
      }
      i := i + 1;
    }
    walk := Finished(i);
  }

  datatype AccountData = AccountData(count: nat, currentPlan: string, trial: Trial)

  /** The loader's data, or `None` when the product walk throws (or has not ended). */
  method Loader(active: seq<Subscription>, today: int, pages: seq<Page>) returns (r: Option<AccountData>)
    ensures r.Some? <==> WalkOf(pages).Finished?
    ensures r.Some? ==> r.value == AccountData(EdgeCount(pages[..WalkOf(pages).pagesRead]),
                                               CurrentPlan(active), TrialStatus(active, today))
  {
    var walk, count, _ := CountTagged(pages);
    if walk.Finished? {
      r := Some(AccountData(count, CurrentPlan(active), TrialStatus(active, today)));
    } else {
      r := None;
    }
  }
}
