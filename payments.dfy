/** The payments router: activating a purchased subscription, creating a
    Razorpay order for an INR plan, verifying a completed Razorpay payment and
    opening a Stripe checkout session for a USD plan.

    The payment gateways are not modelled: the order id Razorpay issues, the
    verdict of its signature check and the checkout session Stripe creates are
    parameters (`None` when the gateway call raises). Invoice generation and
    e-mail are reduced to the invoice file name they produce. */
module Payments {
  import opened Records
  import opened Query
  import opened Database

  /** One row of the bulk update that sets the user's active subscriptions to "expired". */
  function Expire(s: Subscription, userId: int): Subscription {
    if IsActiveOf(s, userId) then s.(status := Expired) else s
  }

  /** The subscriptions table after `update({"status": "expired"})` on the
      rows of `userId` whose status is "active". */
  function ExpireActive(subs: seq<Subscription>, userId: int): (r: seq<Subscription>)
    ensures |r| == |subs|
    ensures forall i :: 0 <= i < |subs| ==> r[i] == Expire(subs[i], userId)
  {
    if subs == [] then []
    else ExpireActive(subs[..|subs| - 1], userId) + [Expire(subs[|subs| - 1], userId)]
  }

  /** After the bulk update no subscription of the user is active, the user's
      active rows became expired, and every other row is untouched. */
  lemma ExpireActiveEffect(subs: seq<Subscription>, userId: int)
    ensures var r := ExpireActive(subs, userId);
      && |r| == |subs|
      && (forall i :: 0 <= i < |r| ==> !IsActiveOf(r[i], userId))
      && (forall i :: 0 <= i < |r| && IsActiveOf(subs[i], userId) ==> r[i] == subs[i].(status := Expired))
      && (forall i :: 0 <= i < |r| && !IsActiveOf(subs[i], userId) ==> r[i] == subs[i])
  {
  }

  /** After an activation the user has exactly one active subscription, the
      new row, which starts at `now` with no tokens used and ends 30 days
      later; other users' rows are as before. */
  lemma ActivationLeavesOneActive(subs: seq<Subscription>, userId: int, planId: int, now: int)
    ensures var r := ExpireActive(subs, userId) + [NewSubscription(|subs| + 1, userId, planId, now, PaidPeriodDays)];
      && |r| == |subs| + 1
      && IsActiveOf(r[|subs|], userId) && r[|subs|].planId == planId && r[|subs|].usedTokens == 0
      && r[|subs|].endDate == Some(r[|subs|].startDate + 30 * 86400)
      && (forall i :: 0 <= i < |r| && IsActiveOf(r[i], userId) ==> i == |subs|)
      && (forall i :: 0 <= i < |subs| && subs[i].userId != userId ==> r[i] == subs[i])
  {
  }

  /** `activate_subscription`: expire the user's active subscriptions, then
      insert a fresh active one for `plan` lasting 30 days. */
  method ActivateSubscription(db: Db, userId: int, plan: Plan, now: int) returns (sub: Subscription)
    requires db.Valid()
    requires 1 <= userId <= |db.users| && plan in db.plans
    modifies db
    ensures db.Valid()
    ensures sub == NewSubscription(|old(db.subs)| + 1, userId, plan.id, now, PaidPeriodDays)
    ensures db.subs == ExpireActive(old(db.subs), userId) + [sub]
    ensures db.users == old(db.users) && db.plans == old(db.plans) && db.payments == old(db.payments)
    ensures db.messages == old(db.messages) && db.usage == old(db.usage)
  {
    ghost var k :| 0 <= k < |db.plans| && db.plans[k] == plan;
    var subs := db.subs;
    var i := 0;
    while i < |subs|
      invariant 0 <= i <= |subs| == |db.subs|
      invariant forall j :: 0 <= j < i ==> subs[j] == Expire(db.subs[j], userId)
      invariant forall j :: i <= j < |subs| ==> subs[j] == db.subs[j]
    {
      subs := subs[i := Expire(subs[i], userId)];
      i := i + 1;
    }
    assert subs == ExpireActive(db.subs, userId);
    sub := NewSubscription(|subs| + 1, userId, plan.id, now, PaidPeriodDays);
    db.subs := subs + [sub];
  }

  /** `filter(Plan.id == plan_id, Plan.is_active == True).first()`, then the
      currency test of the purchase endpoints. */
  function PlanForPurchase(plans: seq<Plan>, planId: int, currency: string): (r: Option<nat>)
    ensures r.Some? ==> r.value < |plans| && plans[r.value].id == planId
    ensures r.Some? ==> plans[r.value].isActive && plans[r.value].currency == currency
    ensures PlanIdsArePositions(plans) ==>
      (r.None? <==> forall j :: 0 <= j < |plans| && plans[j].id == planId ==>
                                 !plans[j].isActive || plans[j].currency != currency)
  {
    match FirstIndex(plans, (p: Plan) => p.id == planId && p.isActive)
    case None => None
    case Some(k) => if plans[k].currency == currency then Some(k) else None
  }

  /** The amount of a Razorpay order in paise: the plan's price, raised to
      Razorpay's minimum of 100 paise (one rupee). */
  function OrderAmount(price: int): (paise: int)
    ensures paise >= 100
    ensures paise >= price
    ensures paise == price || paise == 100
  {
    if price < 100 then 100 else price
  }

  /** Whether a payment with this transaction id is already recorded (the
      column is unique, so a second insert fails). */
  function TransactionIdUsed(payments: seq<Payment>, t: string): (used: bool)
    ensures used <==> exists i :: 0 <= i < |payments| && payments[i].transactionId == Some(t)
  {
    FirstIndex(payments, (p: Payment) => p.transactionId == Some(t)).Some?
  }

  /** What `razorpay_create_order` answers. */
  datatype Order = Order(orderId: string, key: string, amount: int, currency: string, planName: string)

  /** `razorpay_create_order`: only an existing, active INR plan can be bought
      through Razorpay; the order is recorded as a "created" Razorpay payment
      whose transaction id is the order id. */
  method RazorpayCreateOrder(db: Db, userId: int, planId: int, gatewayOrderId: Option<string>,
                             key: string, now: int) returns (r: Result<Order>)
    requires db.Valid() && 1 <= userId <= |db.users|
    modifies db
    ensures db.Valid()
    ensures db.users == old(db.users) && db.plans == old(db.plans) && db.subs == old(db.subs)
    ensures db.messages == old(db.messages) && db.usage == old(db.usage)
    ensures PlanForPurchase(old(db.plans), planId, INR).None? ==> r == Err(BadRequest)
    ensures r.Err? ==> db.payments == old(db.payments)
    ensures r.Ok? <==> PlanForPurchase(old(db.plans), planId, INR).Some? && gatewayOrderId.Some?
                         && !TransactionIdUsed(old(db.payments), gatewayOrderId.value)
    ensures r.Ok? ==>
      var plan := old(db.plans)[PlanForPurchase(old(db.plans), planId, INR).value];
      && r.value == Order(gatewayOrderId.value, key, OrderAmount(plan.price), INR, plan.name)
      && db.payments == old(db.payments) + [Payment(|old(db.payments)| + 1, userId, plan.id, Razorpay,
                                                    plan.price, INR, Created, gatewayOrderId, None, now)]
  {
    var k := PlanForPurchase(db.plans, planId, INR);
    if k.None? {
      return Err(BadRequest);
    }
    var plan := db.plans[k.value];
    if gatewayOrderId.None? || TransactionIdUsed(db.payments, gatewayOrderId.value) {
      return Err(ServerError);
    }
    var payment := Payment(|db.payments| + 1, userId, plan.id, Razorpay, plan.price, INR,
                           Created, gatewayOrderId, None, now);
    db.payments := db.payments + [payment];
    r := Ok(Order(gatewayOrderId.value, key, OrderAmount(plan.price), INR, plan.name));
  }

  /** A request field counts as given when present and not the empty string. */
  predicate Given(field: Option<string>) {
    field.Some? && field.value != ""
  }

  /** `filter_by(transaction_id=order_id, gateway="razorpay").first()` */
  function RazorpayPaymentFor(payments: seq<Payment>, orderId: string): (r: Option<nat>)
    ensures r.Some? ==> r.value < |payments| && payments[r.value].transactionId == Some(orderId)
                        && payments[r.value].gateway == Razorpay
    ensures r.None? <==> forall j :: 0 <= j < |payments| ==>
                           payments[j].transactionId != Some(orderId) || payments[j].gateway != Razorpay
  {
    FirstIndex(payments, (p: Payment) => p.transactionId == Some(orderId) && p.gateway == Razorpay)
  }

  /** `razorpay_verify`: with all three fields given and a valid signature,
      marks the order's payment "success", records its invoice and activates
      the payment's plan for the calling user. Every rejection leaves the
      database as it was. */
  method RazorpayVerify(db: Db, userId: int, orderId: Option<string>, paymentId: Option<string>,
                        signature: Option<string>, signatureValid: bool, invoiceName: string, now: int)
    returns (r: Result<()>)
    requires db.Valid() && 1 <= userId <= |db.users|
    modifies db
    ensures db.Valid()
    ensures db.users == old(db.users) && db.plans == old(db.plans)
    ensures db.messages == old(db.messages) && db.usage == old(db.usage)
    ensures !(Given(orderId) && Given(paymentId) && Given(signature)) ==> r == Err(BadRequest)
    ensures Given(orderId) && Given(paymentId) && Given(signature) && !signatureValid ==> r == Err(BadRequest)
    ensures Given(orderId) && Given(paymentId) && Given(signature) && signatureValid ==>
              (r == Err(NotFound) <==> RazorpayPaymentFor(old(db.payments), orderId.value).None?)
    ensures (Given(orderId) && Given(paymentId) && Given(signature) && signatureValid
             && RazorpayPaymentFor(old(db.payments), orderId.value).Some?) ==> r == Ok(())
    ensures r.Err? ==> db.payments == old(db.payments) && db.subs == old(db.subs)
    ensures r.Ok? ==>
      && Given(orderId) && Given(paymentId) && Given(signature) && signatureValid
      && RazorpayPaymentFor(old(db.payments), orderId.value).Some?
      && var k := RazorpayPaymentFor(old(db.payments), orderId.value).value;
         var paid := old(db.payments)[k];
         && db.payments == old(db.payments)[k := paid.(status := Success, invoiceFilename := Some(invoiceName))]
         && db.subs == ExpireActive(old(db.subs), userId)
                       + [NewSubscription(|old(db.subs)| + 1, userId, paid.planId, now, PaidPeriodDays)]
  {
    if !(Given(orderId) && Given(paymentId) && Given(signature)) {
      return Err(BadRequest);
    }
    if !signatureValid {
      return Err(BadRequest);
    }
    var k := RazorpayPaymentFor(db.payments, orderId.value);
    if k.None? {
      return Err(NotFound);
    }
    var i := k.value;
    ghost var before := db.payments;
    var paid := db.payments[i].(status := Success);
    PaymentUpdateKeepsValid(db.users, db.plans, db.subs, db.payments, db.messages, db.usage, i, paid);
    db.payments := db.payments[i := paid];
    var planId := paid.planId;
    PlanByIdAtPosition(db.plans, planId);
    var plan := db.plans[planId - 1];
    var _ := ActivateSubscription(db, userId, plan, now);
    var invoiced := paid.(invoiceFilename := Some(invoiceName));
    PaymentUpdateKeepsValid(db.users, db.plans, db.subs, db.payments, db.messages, db.usage, i, invoiced);
    db.payments := db.payments[i := invoiced];
    assert db.payments == before[i := before[i].(status := Success, invoiceFilename := Some(invoiceName))];
    r := Ok(());
  }

  /** What Stripe returns for a new checkout session. */
  datatype CheckoutSession = CheckoutSession(id: string, url: string)

  /** `stripe_checkout`: only an existing, active USD plan can be bought
      through Stripe; the session is recorded as a "pending" Stripe payment
      whose transaction id is the session id, and its URL is returned. */
  method StripeCheckout(db: Db, userId: int, planId: int, session: Option<CheckoutSession>, now: int)
    returns (r: Result<string>)
    requires db.Valid() && 1 <= userId <= |db.users|
    modifies db
    ensures db.Valid()
    ensures db.users == old(db.users) && db.plans == old(db.plans) && db.subs == old(db.subs)
    ensures db.messages == old(db.messages) && db.usage == old(db.usage)
    ensures PlanForPurchase(old(db.plans), planId, USD).None? ==> r == Err(BadRequest)
    ensures r.Err? ==> db.payments == old(db.payments)
    ensures r.Ok? <==> PlanForPurchase(old(db.plans), planId, USD).Some? && session.Some?
                         && !TransactionIdUsed(old(db.payments), session.value.id)
    ensures r.Ok? ==>
      var plan := old(db.plans)[PlanForPurchase(old(db.plans), planId, USD).value];
      && r.value == session.value.url
      && db.payments == old(db.payments) + [Payment(|old(db.payments)| + 1, userId, plan.id, Stripe,
                                                    plan.price, USD, Pending, Some(session.value.id), None, now)]
  {
    var k := PlanForPurchase(db.plans, planId, USD);
    if k.None? {
      return Err(BadRequest);
    }
    var plan := db.plans[k.value];
    if session.None? || TransactionIdUsed(db.payments, session.value.id) {
      return Err(ServerError);
    }
    var payment := Payment(|db.payments| + 1, userId, plan.id, Stripe, plan.price, USD,
                           Pending, Some(session.value.id), None, now);
    db.payments := db.payments + [payment];
    r := Ok(session.value.url);
  }
}
