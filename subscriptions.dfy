/**
 * App subscriptions as the Shopify billing API reports them, and the lookups the
 * routes make over them: the subscription a returning `charge_id` belongs to, and
 * whether any subscription is active.
 */
module Subscriptions {
  import opened Wrappers
  import opened Text

  /** `trialDays` and `createdAt` (milliseconds) are `None` when the API leaves them null. */
  datatype Subscription = Subscription(
    id: string, name: string, status: string, trialDays: Option<int>, createdAt: Option<int>)

  predicate IsActive(s: Subscription) {
    s.status == "ACTIVE"
  }

  /** `subs.find(sub => sub.id.includes(chargeId))` */
  function FindByCharge(subs: seq<Subscription>, chargeId: string): (r: Option<Subscription>)
    ensures r.None? <==> forall i :: 0 <= i < |subs| ==> !Contains(subs[i].id, chargeId)
    ensures r.Some? ==> exists i :: (0 <= i < |subs| && subs[i] == r.value
                                   && Contains(subs[i].id, chargeId)
                                   && forall j :: 0 <= j < i ==> !Contains(subs[j].id, chargeId))
  {
    if subs == [] then None
    else if Contains(subs[0].id, chargeId) then Some(subs[0])
    else
      var r := FindByCharge(subs[1..], chargeId);
      assert forall i :: 1 <= i < |subs| ==> subs[i] == subs[1..][i - 1];
      r
  }

  /** `subs.find(sub => sub.status === "ACTIVE")` */
  function FirstActive(subs: seq<Subscription>): (r: Option<Subscription>)
    ensures r.None? <==> forall i :: 0 <= i < |subs| ==> !IsActive(subs[i])
    ensures r.Some? ==> exists i :: (0 <= i < |subs| && subs[i] == r.value && IsActive(subs[i])
                                   && forall j :: 0 <= j < i ==> !IsActive(subs[j]))
  {
    if subs == [] then None
    else if IsActive(subs[0]) then Some(subs[0])
    else
      var r := FirstActive(subs[1..]);
      assert forall i :: 1 <= i < |subs| ==> subs[i] == subs[1..][i - 1];
      r
  }

  /** `subs.length > 0 && subs.some(sub => sub.status === "ACTIVE")`: some subscription is active. */
  function HasActive(subs: seq<Subscription>): (r: bool)
    ensures r <==> exists i :: 0 <= i < |subs| && IsActive(subs[i])
  {
    |subs| > 0 && FirstActive(subs).Some?
  }
}
