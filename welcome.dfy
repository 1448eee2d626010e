/**
 * The after-billing landing route (`app/routes/welcome.jsx`): it checks that the
 * returned charge is active and then sends the browser to the app inside the
 * shop's admin.
 */
module Welcome {
  import opened Wrappers
  import opened Text
  import opened Subscriptions
  import opened Collections

  datatype WelcomeReply = WelcomeError(message: string) | WelcomeOk(shop: string)

  predicate Given(p: Option<string>) {
    p.Some? && p.value != ""
  }

  /**
   * Missing `shop` or `charge_id`: "Missing shop or charge_id" before any lookup.
   * Otherwise success exactly when the first subscription whose id contains the
   * charge id is ACTIVE, with the session's shop; any other case is "Charge not
   * active". `subs` is the API's answer and `sessionShop` the shop of the session
   * opened for `shop`.
   */
  function Loader(shop: Option<string>, chargeId: Option<string>, subs: seq<Subscription>, sessionShop: string): (r: WelcomeReply)
    ensures !(Given(shop) && Given(chargeId)) ==> r == WelcomeError("Missing shop or charge_id")
    ensures r.WelcomeOk? <==> Given(shop) && Given(chargeId) && FindByCharge(subs, chargeId.value).Some?
                              && IsActive(FindByCharge(subs, chargeId.value).value)
    ensures r.WelcomeOk? ==> r.shop == sessionShop
    ensures Given(shop) && Given(chargeId) && r.WelcomeError? ==> r.message == "Charge not active"
  {
    if !Given(shop) || !Given(chargeId) then WelcomeError("Missing shop or charge_id")
    else
      var found := FindByCharge(subs, chargeId.value);
      if found.None? || !IsActive(found.value) then WelcomeError("Charge not active")
      else WelcomeOk(sessionShop)
  }

  const SCHEME := "https://"

  /** The app's page inside a shop's admin. */
  const APP_PAGE := "admin/apps/autovid/app"

  /** `window.top.location.href` after a successful load with a non-empty shop. */
  function TopLocation(reply: WelcomeReply): (r: Option<string>)
    ensures r.Some? <==> reply.WelcomeOk? && reply.shop != ""
    ensures r.Some? ==> StartsWith(r.value, SCHEME + reply.shop + "/")
    ensures r.Some? ==> r.value == SCHEME + reply.shop + "/" + APP_PAGE
  {
    if reply.WelcomeOk? && reply.shop != "" then
      var u := SCHEME + reply.shop + "/" + APP_PAGE;
      assert u[..|SCHEME + reply.shop + "/"|] == SCHEME + reply.shop + "/";
      Some(u)
    else None
  }

  /** For a shop domain without "/", the host of the target is exactly the shop and the path is the app's page. */
  lemma TargetIsShopAdmin(shop: string)
    requires shop != "" && forall i :: 0 <= i < |shop| ==> shop[i] != '/'
    ensures var u := TopLocation(WelcomeOk(shop)).value;
      && u[..|SCHEME|] == SCHEME
      && IndexOf(u[|SCHEME|..], "/") == Some(|shop|)
      && u[|SCHEME| + |shop|..] == "/" + APP_PAGE
  {
    var u := TopLocation(WelcomeOk(shop)).value;
    var path := "/" + APP_PAGE;
    AfterPrefix(SCHEME, shop + path);
    AfterPrefix(SCHEME + shop, path);
    ConcatAssoc(SCHEME, shop, path);
    ConcatAssoc(SCHEME + shop, "/", APP_PAGE);
    ConcatAssoc(shop, "/", APP_PAGE);
    FirstOccurrenceAfter(shop, "/", APP_PAGE);
  }
}
