/**
 * The compliance webhook endpoint (`app/routes/webhook.jsx`): it acknowledges the
 * three mandatory privacy topics and rejects any other topic.
 */
module Webhook {

  datatype Response = Response(status: nat, body: string)

  predicate IsComplianceTopic(topic: string) {
    topic == "CUSTOMERS_DATA_REQUEST" || topic == "CUSTOMERS_REDACT" || topic == "SHOP_REDACT"
  }

  /** `hasAdmin` is whether authentication produced an admin context (none once the shop has uninstalled). */
  function Action(hasAdmin: bool, topic: string): (r: Response)
    ensures !hasAdmin ==> r.status == 200
    ensures r.status == 200 <==> !hasAdmin || IsComplianceTopic(topic)
    ensures r.status != 200 ==> r.status == 404
    ensures hasAdmin && IsComplianceTopic(topic) ==> r.body == "Webhook processed"
  {
    if !hasAdmin then Response(200, "No admin context (likely shop uninstalled)")
    else if IsComplianceTopic(topic) then Response(200, "Webhook processed")
    else Response(404, "Unhandled webhook topic")
  }

  /** The GET handler always answers 200 with a JSON acknowledgement. */
  function Loader(): (r: Response)
    ensures r.status == 200 && r.body == "{\"message\":\"Webhook received\"}"
  {
    Response(200, "{\"message\":\"Webhook received\"}")
  }
}
