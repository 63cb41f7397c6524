/** Model of backend/app/services/payment_service.py over the `payments`
    table of backend/app/models/payment.py: payment intents, the
    `pending -> completed` transition, the provider webhook and checkout
    sessions. `uuid4().hex` strings are parameters. */
module PaymentService {
  import opened Wrappers
  import Seqs
  import Lic = LicenseService
  import Sub = SubscriptionService

  /** One row of the `payments` table. */
  datatype Payment = Payment(id: nat, userId: int, provider: string, amount: real,
                             currency: string, status: string, createdAt: int)

  ghost predicate PaymentsKeyed(rows: seq<Payment>) {
    forall i :: 0 <= i < |rows| ==> rows[i].id == i + 1
  }

  /** The `payments` table. */
  class PaymentTable {
    var rows: seq<Payment>

    ghost predicate Valid()
      reads this
    {
      PaymentsKeyed(rows)
    }

    constructor ()
      ensures Valid() && rows == []
    {
      rows := [];
    }
  }

  /** `select(Payment).where(Payment.id == id).first()`, as a row index. */
  function FindPayment(rows: seq<Payment>, id: int): (r: Option<nat>)
    ensures r.Some? ==> r.value < |rows| && rows[r.value].id == id
    ensures r.Some? ==> forall k :: 0 <= k < r.value ==> rows[k].id != id
    ensures r.None? <==> forall i :: 0 <= i < |rows| ==> rows[i].id != id
    decreases |rows|
  {
    if rows == [] then None
    else
      var last := |rows| - 1;
      var rest := FindPayment(rows[..last], id);
      assert forall i :: 0 <= i < last ==> rows[..last][i] == rows[i];
      if rest.Some? then rest else if rows[last].id == id then Some(last) else None
  }

  /** `get_payments_for_user`: exactly the user's payments, in table order. */
  function PaymentsForUser(rows: seq<Payment>, userId: int): (r: seq<Payment>)
    ensures forall p :: p in r ==> p in rows && p.userId == userId
    ensures forall i :: 0 <= i < |rows| && rows[i].userId == userId ==> rows[i] in r
    decreases |rows|
  {
    if rows == [] then []
    else
      var rest := PaymentsForUser(rows[1..], userId);
      assert forall i :: 1 <= i < |rows| ==> rows[i] == rows[1..][i - 1];
      if rows[0].userId == userId then [rows[0]] + rest else rest
  }

  /** `create_payment`: adds one record with the given fields. */
  method CreatePayment(db: PaymentTable, userId: int, provider: string, amount: real, currency: string,
                       now: int, status: string := "pending")
    returns (p: Payment)
    requires db.Valid()
    modifies db
    ensures db.Valid()
    ensures p == Payment(|old(db.rows)| + 1, userId, provider, amount, currency, status, now)
    ensures db.rows == old(db.rows) + [p]
  {
    p := Payment(|db.rows| + 1, userId, provider, amount, currency, status, now);
    db.rows := db.rows + [p];
  }

  /** The amount and normalised cycle a payment intent charges: the yearly
      price exactly for `"yearly"`, the monthly price otherwise. */
  function AmountFor(plan: Sub.Plan, billingCycle: string): (r: (real, string))
    ensures r.0 == plan.priceYearly <== billingCycle == "yearly"
    ensures billingCycle != "yearly" ==> r.0 == plan.priceMonthly && r.1 == "monthly"
    ensures r.1 == "yearly" <==> billingCycle == "yearly"
  {
    if billingCycle == "yearly" then (plan.priceYearly, "yearly") else (plan.priceMonthly, "monthly")
  }

  /** `f"pi_{uuid.uuid4().hex[:24]}"`. */
  function ClientSecret(uuidHex: string): string {
    "pi_" + Seqs.Take(uuidHex, 24)
  }

  datatype PaymentIntent = PaymentIntent(paymentId: nat, clientSecret: string, amount: real,
                                         currency: string, status: string, plan: string,
                                         billingCycle: string)

  /** `PaymentProcessor.create_payment_intent`: an unknown plan raises and adds
      nothing; otherwise one pending USD record from the stripe provider is
      added and the intent carries the record's id and amount. */
  method CreatePaymentIntent(db: PaymentTable, planId: string, billingCycle: string, userId: int,
                             uuidHex: string, now: int)
    returns (r: Result<PaymentIntent>)
    requires db.Valid()
    modifies db
    ensures db.Valid()
    ensures r.Err? <==> Sub.GetPlan(planId).None?
    ensures r.Err? ==> (db.rows == old(db.rows)
      && r.error == "Payment intent creation failed: Invalid plan: " + planId)
    ensures r.Ok? ==>
      var plan := Sub.GetPlan(planId).value;
      var p := Payment(|old(db.rows)| + 1, userId, "stripe", AmountFor(plan, billingCycle).0, "USD", "pending", now);
      && db.rows == old(db.rows) + [p]
      && r.value == PaymentIntent(p.id, ClientSecret(uuidHex), p.amount, "USD",
                                  "requires_payment_method", planId, AmountFor(plan, billingCycle).1)
  {
    var plan := Sub.GetPlan(planId);
    if plan.None? {
      return Err("Payment intent creation failed: Invalid plan: " + planId);
    }
    var amount, cycle;
    if billingCycle == "yearly" {
      amount, cycle := plan.value.priceYearly, "yearly";
    } else {
      amount, cycle := plan.value.priceMonthly, "monthly";
    }
    var p := CreatePayment(db, userId, "stripe", amount, "USD", now, "pending");
    r := Ok(PaymentIntent(p.id, ClientSecret(uuidHex), amount, "USD", "requires_payment_method", planId, cycle));
  }

  datatype PaymentResponse = PaymentResponse(status: string, plan: string, message: string, paymentId: Option<nat>)

  /** The answer and new table of `process_payment`. */
  function ProcessOutcome(rows: seq<Payment>, id: int): (out: (Result<PaymentResponse>, seq<Payment>))
    ensures |out.1| == |rows|
  {
    match FindPayment(rows, id)
    case None => (Err("Payment processing failed: Payment not found"), rows)
    case Some(i) =>
      if rows[i].status != "pending" then (Err("Payment processing failed: Payment already processed"), rows)
      else (Ok(PaymentResponse("completed", "pro", "Payment processed successfully", Some(rows[i].id))),
            rows[i := rows[i].(status := "completed")])
  }

  /** A missing id fails and a processed payment fails without change; a
      pending one, and only it, becomes completed. */
  lemma ProcessOutcomeCases(rows: seq<Payment>, id: int)
    ensures var (r, after) := ProcessOutcome(rows, id);
      && (FindPayment(rows, id).None? ==> r == Err("Payment processing failed: Payment not found") && after == rows)
      && (FindPayment(rows, id).Some? && rows[FindPayment(rows, id).value].status != "pending" ==>
            r == Err("Payment processing failed: Payment already processed") && after == rows)
      && (r.Ok? ==> var i := FindPayment(rows, id).value;
            rows[i].status == "pending" && after == rows[i := rows[i].(status := "completed")])
  {
  }

  /** Processing the same payment twice fails the second time, so a payment
      is completed at most once by this path. */
  lemma {:induction false} ProcessTwiceFails(rows: seq<Payment>, id: int)
    requires ProcessOutcome(rows, id).0.Ok?
    ensures var after := ProcessOutcome(rows, id).1;
      && ProcessOutcome(after, id).0 == Err("Payment processing failed: Payment already processed")
      && ProcessOutcome(after, id).1 == after
  {
    var i := FindPayment(rows, id).value;
    var after := ProcessOutcome(rows, id).1;
    assert after == rows[i := rows[i].(status := "completed")];
    assert after[i].id == id;
    assert forall k :: 0 <= k < i ==> after[k] == rows[k];
    assert FindPayment(after, id) == Some(i);
  }

  /** `PaymentProcessor.process_payment`. */
  method ProcessPayment(db: PaymentTable, id: int) returns (r: Result<PaymentResponse>)
    requires db.Valid()
    modifies db
    ensures db.Valid()
    ensures (r, db.rows) == ProcessOutcome(old(db.rows), id)
  {
    var found := FindPayment(db.rows, id);
    if found.None? {
      return Err("Payment processing failed: Payment not found");
    }
    var i := found.value;
    if db.rows[i].status != "pending" {
      return Err("Payment processing failed: Payment already processed");
    }
    db.rows := db.rows[i := db.rows[i].(status := "completed")];
    r := Ok(PaymentResponse("completed", "pro", "Payment processed successfully", Some(db.rows[i].id)));
  }

  /** `set_payment_status`: changes only the status of the named payment; a
      missing id answers none and changes nothing. */
  method SetPaymentStatus(db: PaymentTable, id: int, status: string) returns (r: Option<Payment>)
    requires db.Valid()
    modifies db
    ensures db.Valid()
    ensures FindPayment(old(db.rows), id).None? ==> r.None? && db.rows == old(db.rows)
    ensures FindPayment(old(db.rows), id).Some? ==>
      var i := FindPayment(old(db.rows), id).value;
      && db.rows == old(db.rows)[i := old(db.rows)[i].(status := status)]
      && r == Some(db.rows[i])
  {
    var found := FindPayment(db.rows, id);
    if found.None? {
      return None;
    }
    var i := found.value;
    db.rows := db.rows[i := db.rows[i].(status := status)];
    r := Some(db.rows[i]);
  }

  /** The parts of a provider webhook the handler reads; an absent field is a
      missing dict key. `paymentId` is the `metadata.payment_id` value. */
  datatype Webhook = Webhook(eventType: Option<string>, paymentId: Option<int>,
                             planId: Option<string>, billingCycle: Option<string>)

  datatype WebhookResult = WebhookResult(status: string, message: string)

  const Ignored: WebhookResult := WebhookResult("ignored", "Event type not handled")

  /** The webhook names an existing payment for a succeeded intent; a zero
      id is falsy in Python and is ignored. */
  predicate Actionable(rows: seq<Payment>, w: Webhook) {
    && w.eventType == Some("payment_intent.succeeded")
    && w.paymentId.Some? && w.paymentId.value != 0
    && FindPayment(rows, w.paymentId.value).Some?
  }

  /** `PaymentProcessor.handle_webhook`. Anything but an actionable succeeded
      event is ignored with no change. Otherwise the payment is completed
      (and stays completed) and a subscription is created for its user, with
      plan `"basic"` and cycle `"monthly"` unless the metadata give others; an
      unknown plan makes the subscription fail, answered as an error. */
  method HandleWebhook(payments: PaymentTable, licenses: Lic.LicenseTable, w: Webhook, now: int)
    returns (r: WebhookResult)
    requires payments.Valid() && licenses.Valid()
    modifies payments, licenses
    ensures payments.Valid() && licenses.Valid()
    ensures !Actionable(old(payments.rows), w) ==>
      r == Ignored && payments.rows == old(payments.rows) && licenses.rows == old(licenses.rows)
    ensures Actionable(old(payments.rows), w) ==>
      var i := FindPayment(old(payments.rows), w.paymentId.value).value;
      var p := old(payments.rows)[i];
      var planId := w.planId.GetOr("basic");
      var cycle := w.billingCycle.GetOr("monthly");
      && payments.rows == old(payments.rows)[i := p.(status := "completed")]
      && (Sub.GetPlan(planId).None? ==>
            licenses.rows == old(licenses.rows)
            && r == WebhookResult("error", "Webhook processing failed: Invalid plan ID: " + planId))
      && (Sub.GetPlan(planId).Some? ==>
            r == WebhookResult("processed", "Subscription activated")
            && licenses.rows == Sub.DeactivateUser(old(licenses.rows), p.userId)
                                + [Lic.License(|old(licenses.rows)| + 1, p.userId, planId, true,
                                               Some(now + Sub.ValidDays(cycle) * Lic.SecondsPerDay), now)])
  {
    if w.eventType == Some("payment_intent.succeeded") && w.paymentId.Some? && w.paymentId.value != 0 {
      var found := FindPayment(payments.rows, w.paymentId.value);
      if found.Some? {
        var i := found.value;
        payments.rows := payments.rows[i := payments.rows[i].(status := "completed")];
        var planId := w.planId.GetOr("basic");
        var cycle := w.billingCycle.GetOr("monthly");
        var sub := Sub.CreateSubscription(licenses, payments.rows[i].userId, planId, now, cycle);
        if sub.Err? {
          return WebhookResult("error", "Webhook processing failed: " + sub.error);
        }
        return WebhookResult("processed", "Subscription activated");
      }
    }
    r := Ignored;
  }

  /** `create_checkout_session`'s answer. */
  datatype CheckoutSession = CheckoutSession(checkoutUrl: string, sessionId: string,
                                             paymentIntent: PaymentIntent,
                                             successUrl: string, cancelUrl: string)

  const CheckoutPrefix: string := "https://checkout.stripe.com/pay/"

  /** `create_checkout_session`: an unknown plan raises; otherwise a payment
      intent is created and the checkout url is the Stripe prefix followed by
      the intent's client secret. */
  method CreateCheckoutSession(db: PaymentTable, userId: int, planId: string, now: int,
                               intentHex: string, sessionHex: string, billingCycle: string := "monthly")
    returns (r: Result<CheckoutSession>)
    requires db.Valid()
    modifies db
    ensures db.Valid()
    ensures r.Err? <==> Sub.GetPlan(planId).None?
    ensures r.Err? ==> (db.rows == old(db.rows)
      && r.error == "Checkout session creation failed: Invalid plan: " + planId)
    ensures r.Ok? ==>
      var plan := Sub.GetPlan(planId).value;
      var p := Payment(|old(db.rows)| + 1, userId, "stripe", AmountFor(plan, billingCycle).0, "USD", "pending", now);
      && db.rows == old(db.rows) + [p]
      && r.value.paymentIntent == PaymentIntent(p.id, ClientSecret(intentHex), p.amount, "USD",
                                                "requires_payment_method", planId, AmountFor(plan, billingCycle).1)
      && r.value.checkoutUrl == CheckoutPrefix + r.value.paymentIntent.clientSecret
      && r.value.sessionId == "cs_" + Seqs.Take(sessionHex, 24)
      && r.value.successUrl == "https://yourdomain.com/success"
      && r.value.cancelUrl == "https://yourdomain.com/cancel"
  {
    var plan := Sub.GetPlan(planId);
    if plan.None? {
      return Err("Checkout session creation failed: Invalid plan: " + planId);
    }
    var intent := CreatePaymentIntent(db, planId, billingCycle, userId, intentHex, now);
    r := Ok(CheckoutSession(CheckoutPrefix + intent.value.clientSecret, "cs_" + Seqs.Take(sessionHex, 24),
                            intent.value, "https://yourdomain.com/success", "https://yourdomain.com/cancel"));
  }
}
