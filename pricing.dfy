/** The pricing page's decision rules: `handleBuy`, which either sends a
    signed-out visitor to the login page, ignores a click on the current
    plan, or starts a payment with the gateway the plan's currency selects;
    and the button each plan card shows. The page's state is the stored
    token and the `my_subscription` answer (`None` while absent). */
module Pricing {
  import opened Records
  import opened Database
  import opened Subscriptions
  import opened Payments

  const LoginPath: string := "/login"

  /** A JavaScript string from storage is truthy when present and non-empty. */
  predicate Truthy(token: Option<string>) {
    token.Some? && token.value != ""
  }

  /** `sub?.active && sub.plan_id === p.id` */
  predicate IsCurrentPlan(sub: Option<SubscriptionInfo>, plan: Plan) {
    sub.Some? && sub.value.ActiveSubscription? && sub.value.planId == plan.id
  }

  /** What a click on "buy" does. */
  datatype BuyAction = GoToLogin | NoAction | PayRazorpay(planId: int) | PayStripe(planId: int)

  /** The gateway a plan's currency selects: Razorpay for "INR", Stripe for
      every other currency. */
  function GatewayFor(currency: string): (g: Gateway)
    ensures g == Razorpay <==> currency == INR
  {
    if currency == INR then Razorpay else Stripe
  }

  /** `handleBuy`: without a token the visitor is sent to the login page;
      a click on the current plan does nothing; any other click starts a
      payment for that plan with the gateway its currency selects. */
  function HandleBuy(token: Option<string>, sub: Option<SubscriptionInfo>, plan: Plan): (r: BuyAction)
    ensures r == GoToLogin <==> !Truthy(token)
    ensures r == NoAction <==> Truthy(token) && IsCurrentPlan(sub, plan)
    ensures r == PayRazorpay(plan.id) <==>
      Truthy(token) && !IsCurrentPlan(sub, plan) && GatewayFor(plan.currency) == Razorpay
    ensures r == PayStripe(plan.id) <==>
      Truthy(token) && !IsCurrentPlan(sub, plan) && GatewayFor(plan.currency) == Stripe
    ensures (r.PayRazorpay? || r.PayStripe?) ==> r.planId == plan.id
  {
    if !Truthy(token) then GoToLogin
    else if IsCurrentPlan(sub, plan) then NoAction
    else if plan.currency == INR then PayRazorpay(plan.id)
    else PayStripe(plan.id)
  }

  /** The button of a plan card. */
  datatype PlanButton = SignInToActivate | PlanActivated | PayWith(gateway: Gateway)

  /** The card's button announces exactly what `handleBuy` does: "sign in"
      when it goes to the login page, the disabled "activated" button exactly
      when it would do nothing, and the gateway it would pay with. */
  function ButtonFor(token: Option<string>, sub: Option<SubscriptionInfo>, plan: Plan): (r: PlanButton)
    ensures r == SignInToActivate <==> HandleBuy(token, sub, plan) == GoToLogin
    ensures r == PlanActivated <==> HandleBuy(token, sub, plan) == NoAction
    ensures r == PayWith(Razorpay) <==> HandleBuy(token, sub, plan) == PayRazorpay(plan.id)
    ensures r == PayWith(Stripe) <==> HandleBuy(token, sub, plan) == PayStripe(plan.id)
  {
    if !Truthy(token) then SignInToActivate
    else if IsCurrentPlan(sub, plan) then PlanActivated
    else PayWith(GatewayFor(plan.currency))
  }

  /** Seen from the backend: a catalogue plan whose currency is neither
      "INR" nor "USD" is sent down the Stripe path, which the Stripe checkout
      endpoint rejects with HTTP 400. */
  lemma OtherCurrencyRejected(token: Option<string>, sub: Option<SubscriptionInfo>,
                              plans: seq<Plan>, k: nat)
    requires PlanIdsArePositions(plans) && k < |plans|
    requires Truthy(token) && !IsCurrentPlan(sub, plans[k])
    requires plans[k].currency != INR && plans[k].currency != USD
    ensures HandleBuy(token, sub, plans[k]) == PayStripe(plans[k].id)
    ensures PlanForPurchase(plans, plans[k].id, USD).None?
  {
    assert plans[k].id == k + 1;
  }

  /** With the backend's answer for the user, the plan marked current is the
      plan of the latest active subscription. */
  lemma CurrentPlanIsLatestActive(subs: seq<Subscription>, plans: seq<Plan>, userId: int, now: int, plan: Plan)
    requires MySubscription(subs, plans, userId, now).Ok?
    ensures var sub := Some(MySubscription(subs, plans, userId, now).value);
      IsCurrentPlan(sub, plan) <==>
        LatestActive(subs, userId).Some? && subs[LatestActive(subs, userId).value].planId == plan.id
  {
  }
}
