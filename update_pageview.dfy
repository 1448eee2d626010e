/**
 * The storefront's page-view beacon (`app/routes/api.update-pageview.jsx`): counts
 * one view of a product page, per shop, page type and page handle.
 */
module UpdatePageView {
  import opened Wrappers
  import opened Text
  import opened Engagement

  /** `pageHandle || ""` */
  function HandleOrEmpty(h: Option<string>): (r: string)
    ensures Truthy(h) ==> r == h.value
    ensures !Truthy(h) ==> r == ""
  {
    if h.Some? then h.value else ""
  }

  /** Status, `success` and the reported `viewCount`. */
  datatype Reply = Reply(status: nat, success: bool, viewCount: Option<nat>)

  /**
   * Missing `productId` or `pageType` is a 400 with no write; an unparsable product
   * id or a failing upsert is a 500 with no write. Otherwise exactly the counter keyed
   * (shop, productId, pageType, pageHandle or "") goes up by one, or is created at 1.
   */
  method Action(store: Store, shop: string, productId: Option<string>, pageType: Option<string>,
                pageHandle: Option<string>, upsertFails: bool)
    returns (r: Reply)
    modifies store
    ensures !(Truthy(productId) && Truthy(pageType)) ==> r == Reply(400, false, None) && unchanged(store)
    ensures Truthy(productId) && Truthy(pageType) && (ParseNat(productId.value).None? || upsertFails) ==>
      r == Reply(500, false, None) && unchanged(store)
    ensures Truthy(productId) && Truthy(pageType) && ParseNat(productId.value).Some? && !upsertFails ==>
      var key := ViewKey(shop, ParseNat(productId.value).value, pageType.value, HandleOrEmpty(pageHandle));
      && store.views == BumpView(old(store.views), key)
      && store.plays == old(store.plays) && store.activity == old(store.activity)
      && r == Reply(200, true, Some(store.views[key]))
  {
    if !Truthy(productId) || !Truthy(pageType) {
      return Reply(400, false, None);
    }
    var pid := ParseNat(productId.value);
    if pid.None? || upsertFails {
      return Reply(500, false, None);
    }
    var count := store.UpsertView(ViewKey(shop, pid.value, pageType.value, HandleOrEmpty(pageHandle)));
    r := Reply(200, true, Some(count));
  }
}
