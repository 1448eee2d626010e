/**
 * The storefront engagement tables: `videoPlayCount` (one counter per product and
 * video url, whatever the shop), `videoPageView` (one counter per shop, product,
 * page type and page handle) and the append-only `activity` log the analytics page
 * aggregates. Each table is a field of the store, changed in place.
 */
module Engagement {
  import opened Wrappers

  /** A `videoPlayCount` row: the shop that created it and its counter. */
  datatype PlayRow = PlayRow(shop: string, playCount: nat)

  /** Unique key `productId_videoUrl`. */
  datatype PlayKey = PlayKey(productId: nat, videoUrl: string)

  /** Unique key `shop_productId_pageType_pageHandle`. */
  datatype ViewKey = ViewKey(shop: string, productId: nat, pageType: string, pageHandle: string)

  /** An `activity` row; `createdAt` in milliseconds, `productId` and `videoUrl` nullable. */
  datatype Activity = Activity(shop: string, productId: Option<nat>, kind: string, videoUrl: Option<string>, createdAt: int)

  /** The play counters after one upsert-increment of `key`: created at 1 with `shop`, or one more. */
  function BumpPlay(plays: map<PlayKey, PlayRow>, key: PlayKey, shop: string): (r: map<PlayKey, PlayRow>)
    ensures key in r
    ensures key in plays ==> r[key] == PlayRow(plays[key].shop, plays[key].playCount + 1)
    ensures key !in plays ==> r[key] == PlayRow(shop, 1)
    ensures forall k :: k != key ==> (k in r <==> k in plays) && (k in plays ==> r[k] == plays[k])
  {
    if key in plays then plays[key := PlayRow(plays[key].shop, plays[key].playCount + 1)]
    else plays[key := PlayRow(shop, 1)]
  }

  /** The page-view counters after one upsert-increment of `key`. */
  function BumpView(views: map<ViewKey, nat>, key: ViewKey): (r: map<ViewKey, nat>)
    ensures key in r && r[key] == (if key in views then views[key] else 0) + 1
    ensures forall k :: k != key ==> (k in r <==> k in views) && (k in views ==> r[k] == views[k])
  {
    views[key := (if key in views then views[key] else 0) + 1]
  }

  /**
   * The play counter ignores the shop: plays of one (product, video) from two shops
   * land on one row, which keeps the shop that created it.
   */
  lemma PlaysSharedAcrossShops(plays: map<PlayKey, PlayRow>, key: PlayKey, shopA: string, shopB: string)
    requires key !in plays
    ensures BumpPlay(BumpPlay(plays, key, shopA), key, shopB)[key] == PlayRow(shopA, 2)
  {
  }

  class Store {
    var plays: map<PlayKey, PlayRow>
    var views: map<ViewKey, nat>
    var activity: seq<Activity>

    constructor (plays0: map<PlayKey, PlayRow>, views0: map<ViewKey, nat>, activity0: seq<Activity>)
      ensures plays == plays0 && views == views0 && activity == activity0
    {
      plays := plays0;
      views := views0;
      activity := activity0;
    }

    /** `videoPlayCount.upsert` with `increment: 1`; returns the row's new count. */
    method UpsertPlay(key: PlayKey, shop: string) returns (playCount: nat)
      modifies this
      ensures plays == BumpPlay(old(plays), key, shop)
      ensures views == old(views) && activity == old(activity)
      ensures playCount == plays[key].playCount
    {
      plays := BumpPlay(plays, key, shop);
      playCount := plays[key].playCount;
    }

    /** `videoPageView.upsert` with `increment: 1`; returns the row's new count. */
    method UpsertView(key: ViewKey) returns (viewCount: nat)
      modifies this
      ensures views == BumpView(old(views), key)
      ensures plays == old(plays) && activity == old(activity)
      ensures viewCount == views[key]
    {
      views := BumpView(views, key);
      viewCount := views[key];
    }

    /** `activity.create` */
    method Log(a: Activity)
      modifies this
      ensures activity == old(activity) + [a]
      ensures plays == old(plays) && views == old(views)
    {
      activity := activity + [a];
    }
  }
}
