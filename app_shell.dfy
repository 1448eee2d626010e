/**
 * The embedded app's frame (`app/routes/app.jsx`): the subscription gate that sends
 * a shop without an active plan to Shopify's pricing page, the onboarding flag read
 * from an app-installation metafield, and the navigation links it unlocks.
 */
module AppShell {
  import opened Wrappers
  import opened Text
  import opened Subscriptions

  /** An app-installation metafield. */
  datatype AppMetafield = AppMetafield(namespace: string, key: string, value: string)

  predicate IsOnboardingField(m: AppMetafield) {
    m.namespace == "Auto-Video" && m.key == "app_onboarding"
  }

  /**
   * The first metafield in namespace "Auto-Video" with key "app_onboarding" has value
   * exactly "true".
   */
  function OnboardingComplete(fields: seq<AppMetafield>): (r: bool)
    ensures r <==> exists i :: (0 <= i < |fields| && IsOnboardingField(fields[i]) && fields[i].value == "true"
                                && forall j :: 0 <= j < i ==> !IsOnboardingField(fields[j]))
  {
    if fields == [] then false
    else if IsOnboardingField(fields[0]) then fields[0].value == "true"
    else
      var r := OnboardingComplete(fields[1..]);
      assert forall i :: 1 <= i < |fields| ==> fields[i] == fields[1..][i - 1];
      assert r ==> exists i :: 1 <= i < |fields| && IsOnboardingField(fields[i]) && fields[i].value == "true"
                               && forall j :: 0 <= j < i ==> !IsOnboardingField(fields[j]);
      r
  }

  /** An environment variable interpolated into a template literal: unset prints as "undefined". */
  function EnvText(env: Option<string>): string {
    if env.Some? then env.value else "undefined"
  }

  /** `process.env.SHOPIFY_API_KEY || ""` */
  function ApiKey(env: Option<string>): (r: string)
    ensures r == "" <==> env.None? || env.value == ""
    ensures r != "" ==> env == Some(r)
  {
    if env.Some? then env.value else ""
  }

  function PricingPlansUrl(shop: string, env: Option<string>): string {
    "https://admin.shopify.com/store/" + shop + "/charges/" + EnvText(env) + "/pricing_plans"
  }

  datatype ShellReply = RedirectTo(url: string) | Shell(apiKey: string, onboardingComplete: bool)

  /**
   * The loader: no active subscription redirects to the pricing plans of this shop and
   * app; otherwise the page gets the API key and the onboarding flag.
   */
  function Loader(shop: string, active: seq<Subscription>, fields: seq<AppMetafield>, env: Option<string>): (r: ShellReply)
    ensures r.RedirectTo? <==> forall i :: 0 <= i < |active| ==> !IsActive(active[i])
    ensures r.RedirectTo? ==> StartsWith(r.url, "https://admin.shopify.com/store/" + shop + "/charges/")
    ensures r.RedirectTo? ==> r.url == PricingPlansUrl(shop, env)
    ensures r.Shell? ==> r.onboardingComplete == OnboardingComplete(fields) && r.apiKey == ApiKey(env)
  {
    if !HasActive(active) then
      var u := PricingPlansUrl(shop, env);
      assert u == ("https://admin.shopify.com/store/" + shop + "/charges/") + (EnvText(env) + "/pricing_plans");
      RedirectTo(u)
    else
      Shell(ApiKey(env), OnboardingComplete(fields))
  }

  /** The NavMenu links (label, path): Home always, the rest only after onboarding. */
  function NavLinks(onboardingComplete: bool): (r: seq<(string, string)>)
    ensures |r| > 0 && r[0] == ("Home", "/app")
    ensures onboardingComplete <==> |r| == 4
    ensures !onboardingComplete ==> |r| == 1
    ensures onboardingComplete ==> r[1..] == [("Analytics", "/app/analytics"), ("Account", "/app/account"),
                                               ("Getting Started", "/app/welcome")]
  {
    [("Home", "/app")]
      + (if onboardingComplete
         then [("Analytics", "/app/analytics"), ("Account", "/app/account"), ("Getting Started", "/app/welcome")]
         else [])
  }
}
