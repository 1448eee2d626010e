/**
 * The page Shopify returns to after a plan is approved (`app/routes/billing.jsx`):
 * the loader looks the returned `charge_id` up among the shop's subscriptions, and
 * on success the page moves on to the onboarding screen.
 */
module Billing {
  import opened Wrappers
  import opened Subscriptions

  /** The loader's data (the API key field is left out). */
  datatype BillingReply = BillingReply(error: bool, message: string, onboardingComplete: bool)

  /** A query parameter is truthy when present and non-empty. */
  predicate Given(p: Option<string>) {
    p.Some? && p.value != ""
  }

  /**
   * No charge id: "Charge Id not found." before any lookup. Otherwise the first
   * subscription whose id contains the charge id decides: none gives "Charge not
   * found.", an ACTIVE one success, any other "Charge is not active.".
   * `subs` is the API's answer for the shop.
   */
  function Loader(chargeId: Option<string>, subs: seq<Subscription>): (r: BillingReply)
    ensures !r.onboardingComplete
    ensures !Given(chargeId) ==> r == BillingReply(true, "Charge Id not found.", false)
    ensures Given(chargeId) && FindByCharge(subs, chargeId.value).None? ==> r == BillingReply(true, "Charge not found.", false)
    ensures !r.error <==> Given(chargeId) && FindByCharge(subs, chargeId.value).Some?
                          && IsActive(FindByCharge(subs, chargeId.value).value)
    ensures !r.error ==> r.message == ""
    ensures r.error && Given(chargeId) && FindByCharge(subs, chargeId.value).Some? ==> r.message == "Charge is not active."
  {
    if !Given(chargeId) then BillingReply(true, "Charge Id not found.", false)
    else match FindByCharge(subs, chargeId.value)
      case None => BillingReply(true, "Charge not found.", false)
      case Some(s) =>
        if IsActive(s) then BillingReply(false, "", false)
        else BillingReply(true, "Charge is not active.", false)
  }

  /** Where the component navigates: nowhere on error, else "/app" or "/app/welcome" by the onboarding flag. */
  function NavigationTarget(reply: BillingReply): Option<string> {
    if reply.error then None
    else if reply.onboardingComplete then Some("/app") else Some("/app/welcome")
  }

  /** Since the loader always reports onboarding as incomplete, a successful return always leads to "/app/welcome". */
  lemma SuccessGoesToWelcome(chargeId: Option<string>, subs: seq<Subscription>)
    ensures NavigationTarget(Loader(chargeId, subs)).Some? ==> NavigationTarget(Loader(chargeId, subs)) == Some("/app/welcome")
    ensures NavigationTarget(Loader(chargeId, subs)).Some? <==>
      exists i :: 0 <= i < |subs| && Given(chargeId) && FindByCharge(subs, chargeId.value) == Some(subs[i]) && IsActive(subs[i])
  {
    if Given(chargeId) && FindByCharge(subs, chargeId.value).Some? {
      var i :| 0 <= i < |subs| && subs[i] == FindByCharge(subs, chargeId.value).value;
    }
  }
}
