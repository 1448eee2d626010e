/**
 * The storefront's play beacon (`app/routes/api.update-videocount.jsx`): counts one
 * play of a product's video and logs a `VIDEO_PLAY` activity.
 */
module UpdateVideoCount {
  import opened Wrappers
  import opened Text
  import opened Engagement

  /** Which store call, if any, throws. */
  datatype StoreFault = NoFault | UpsertFails | LogFails

  /** Status, `success` and the reported `playCount`. */
  datatype Reply = Reply(status: nat, success: bool, playCount: Option<nat>)

  /**
   * Missing input is a 400 with no write. A product id `BigInt` cannot parse, or a
   * failing upsert, is a 500 with no write. Otherwise the (productId, videoUrl)
   * counter goes up by one (or is created at 1 for this shop); then one activity row
   * is appended and the reply carries the new count, unless the append fails, which
   * is a 500 after the counter has moved.
   */
  method Action(store: Store, shop: string, productId: Option<string>, videoUrl: Option<string>, now: int, fault: StoreFault)
    returns (r: Reply)
    modifies store
    ensures !(Truthy(productId) && Truthy(videoUrl)) ==> r == Reply(400, false, None) && unchanged(store)
    ensures Truthy(productId) && Truthy(videoUrl) && (ParseNat(productId.value).None? || fault == UpsertFails) ==>
      r == Reply(500, false, None) && unchanged(store)
    ensures Truthy(productId) && Truthy(videoUrl) && ParseNat(productId.value).Some? && fault != UpsertFails ==>
      var key := PlayKey(ParseNat(productId.value).value, videoUrl.value);
      && store.plays == BumpPlay(old(store.plays), key, shop)
      && store.views == old(store.views)
      && (fault == LogFails ==> r == Reply(500, false, None) && store.activity == old(store.activity))
      && (fault == NoFault ==>
            && store.activity == old(store.activity) + [Activity(shop, Some(key.productId), "VIDEO_PLAY", videoUrl, now)]
            && r == Reply(200, true, Some(store.plays[key].playCount)))
  {
    if !Truthy(productId) || !Truthy(videoUrl) {
      return Reply(400, false, None);
    }
    var pid := ParseNat(productId.value);
    if pid.None? || fault == UpsertFails {
      return Reply(500, false, None);
    }
    var key := PlayKey(pid.value, videoUrl.value);
    var count := store.UpsertPlay(key, shop);
    if fault == LogFails {
      return Reply(500, false, None);
    }
    store.Log(Activity(shop, Some(pid.value), "VIDEO_PLAY", videoUrl, now));
    r := Reply(200, true, Some(count));
  }
}
