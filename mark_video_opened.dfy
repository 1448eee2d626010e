/**
 * `app/routes/api.mark-video-opened.jsx`: flags every extended-info row of a product
 * in the session's shop as opened.
 */
module MarkVideoOpened {
  import opened Wrappers
  import opened Text
  import opened ExtendedInfo

  datatype Reply = Reply(status: nat, success: bool, updatedCount: Option<nat>, error: string)

  /**
   * The guard chain: no shop in the session is a 401; a missing product id a 400; one
   * `BigInt` cannot parse a 400. Then the rows of (shop, productId) are flagged;
   * none matched is a 404, otherwise 200 with the number of rows matched. A store
   * failure is a 500 with the error's message.
   */
  method Action(table: InfoTable, sessionShop: Option<string>, productId: Option<string>, storeFails: bool, failure: string)
    returns (r: Reply)
    modifies table
    ensures (sessionShop.None? || sessionShop.value == "") ==> r.status == 401 && unchanged(table)
    ensures sessionShop.Some? && sessionShop.value != "" && (productId.None? || productId.value == "") ==>
      r.status == 400 && r.error == "productId is required" && unchanged(table)
    ensures sessionShop.Some? && sessionShop.value != "" && productId.Some? && productId.value != ""
            && ParseNat(productId.value).None? ==>
      r.status == 400 && r.error == "Invalid productId format" && unchanged(table)
    ensures sessionShop.Some? && sessionShop.value != "" && productId.Some? && productId.value != ""
            && ParseNat(productId.value).Some? ==>
      var pid := ParseNat(productId.value).value;
      && (storeFails ==> r.status == 500 && unchanged(table))
      && (!storeFails ==>
            && table.rows == OpenedRows(old(table.rows), sessionShop.value, pid)
            && (MatchCount(old(table.rows), sessionShop.value, pid) == 0 ==> r.status == 404 && !r.success)
            && (MatchCount(old(table.rows), sessionShop.value, pid) > 0 ==>
                  r == Reply(200, true, Some(MatchCount(old(table.rows), sessionShop.value, pid)), "")))
  {
    if sessionShop.None? || sessionShop.value == "" {
      return Reply(401, false, None, "Shop not found in session");
    }
    if productId.None? || productId.value == "" {
      return Reply(400, false, None, "productId is required");
    }
    var pid := ParseNat(productId.value);
    if pid.None? {
      return Reply(400, false, None, "Invalid productId format");
    }
    if storeFails {
      return Reply(500, false, None, if failure != "" then failure else "Unknown error");
    }
    var count := table.MarkOpened(sessionShop.value, pid.value);
    if count == 0 {
      return Reply(404, false, None, "No productExtendedInfo row found for this product");
    }
    r := Reply(200, true, Some(count), "");
  }
}
