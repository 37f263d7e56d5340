/** The subscription lifecycle: a non-admin buys a gateway subscription, the
    checkout's signature is verified against the stored subscription id before
    the payment is recorded and the subscription activated, and cancellation
    cancels at the gateway, refunds inside the refund window and clears the
    local state. Gateway calls are logged in the store; whether each one
    succeeded is an input. */
module PaymentController {
  import opened Domain
  import opened Database

  /** Where the verification handler redirects the browser. */
  datatype Redirect = PaymentSuccess(reference: string) | PaymentFail

  /** The checkout signature the gateway must have sent: HMAC-SHA256 under the
      server's secret over the payment id and the subscription id stored on the
      user, joined by "|". */
  function ExpectedSignature(env: Env, paymentId: string, storedId: Option<string>): (sig: string)
    ensures storedId.Some? ==> sig == env.hmacSha256(env.razorpaySecret, paymentId + "|" + storedId.value)
    ensures storedId.None? ==> sig == env.hmacSha256(env.razorpaySecret, paymentId + "|" + "undefined")
  {
    env.hmacSha256(env.razorpaySecret, paymentId + "|" + Text(storedId))
  }

  /** The refund rule: the window of `refundDays` days, in milliseconds, is
      longer than the payment's age. */
  predicate RefundDue(refundDays: int, now: int, createdAt: int): (due: bool)
    ensures now == createdAt ==> (due <==> refundDays > 0)
    ensures refundDays <= 0 && now >= createdAt ==> !due
  {
    refundDays * MS_PER_DAY > now - createdAt
  }

  /** The rule, read as a deadline: a refund is due exactly before the moment
      the window closes. */
  lemma RefundDeadline(refundDays: int, now: int, createdAt: int)
    ensures RefundDue(refundDays, now, createdAt) <==> now < createdAt + refundDays * 86400000
  {
  }

  /** A cancellation that earns a refund would have earned it earlier too, and
      one that does not would not later. */
  lemma RefundMonotone(refundDays: int, earlier: int, later: int, createdAt: int)
    requires earlier <= later
    ensures RefundDue(refundDays, later, createdAt) ==> RefundDue(refundDays, earlier, createdAt)
  {
  }

  /** `Payment.findOne({razorpay_subscription_id: id})`: the first payment of
      the subscription, in insertion order. */
  function FindPayment(payments: seq<Payment>, id: Option<string>): (k: Option<nat>)
    ensures k.Some? ==> k.value < |payments| && Some(payments[k.value].subscriptionId) == id
    ensures k.Some? ==> forall j :: 0 <= j < k.value ==> Some(payments[j].subscriptionId) != id
    ensures k.None? ==> forall j :: 0 <= j < |payments| ==> Some(payments[j].subscriptionId) != id
  {
    if payments == [] then None
    else if Some(payments[0].subscriptionId) == id then Some(0)
    else match FindPayment(payments[1..], id)
      case None => None
      case Some(k) => Some(k + 1)
  }

  /** The payment table after `deleteOne` on its `k`-th row: that row is gone
      and the others keep their order. */
  function RemoveAt(payments: seq<Payment>, k: nat): (r: seq<Payment>)
    requires k < |payments|
    ensures |r| == |payments| - 1
    ensures forall j :: 0 <= j < k ==> r[j] == payments[j]
    ensures forall j :: k <= j < |r| ==> r[j] == payments[j + 1]
    ensures multiset(r) + multiset{payments[k]} == multiset(payments)
  {
    assert payments == payments[..k] + [payments[k]] + payments[k + 1..];
    payments[..k] + payments[k + 1..]
  }

  /** `buySubscription`. An admin is refused with 400 before the gateway is
      called. Anyone else gets a gateway subscription of 12 cycles with customer
      notification, whose id and status are stored on the user and whose id is
      returned. */
  method BuySubscription(db: Store, env: Env, uid: UserId, created: Option<GatewaySubscription>)
    returns (r: Result<string>)
    requires db.Valid()
    modifies db
    ensures db.Valid()
    ensures db.payments == old(db.payments) && db.stats == old(db.stats)
    ensures uid !in old(db.users) ==> r == Err(NullAccess) && unchanged(db)
    ensures uid in old(db.users) && old(db.users[uid].role) == ADMIN ==> r == Err(Http(400)) && unchanged(db)
    ensures uid in old(db.users) && old(db.users[uid].role) != ADMIN ==>
      && db.gatewayCalls == old(db.gatewayCalls) + [CreateCall(env.planId, 1, 12)]
      && (created.None? ==> r == Err(Upstream) && db.users == old(db.users))
      && (created.Some? ==>
            && r == Ok(created.value.id)
            && db.users == old(db.users)[uid := old(db.users[uid]).(
                 subscription := Subscription(Some(created.value.id), Some(created.value.status)))])
  {
    if uid !in db.users {
      return Err(NullAccess);
    }
    var user := db.users[uid];
    if user.role == ADMIN {
      return Err(Http(400));
    }
    db.gatewayCalls := db.gatewayCalls + [CreateCall(env.planId, 1, 12)];
    if created.None? {
      return Err(Upstream);
    }
    var subscription := created.value;
    user := user.(subscription := Subscription(Some(subscription.id), Some(subscription.status)));
    db.users := db.users[uid := user];
    r := Ok(subscription.id);
  }

  /** `paymentVerification`. The signature is checked against the expected one
      for the request's payment id and the user's stored subscription id. A
      mismatch redirects to the failure page and writes nothing. A match records
      one payment with the three request fields (the schema requires each to be
      non-empty), marks the subscription active and redirects to the success
      page with the payment id as reference. */
  method PaymentVerification(db: Store, env: Env, uid: UserId, paymentId: string, subscriptionId: string,
                             signature: string, now: int) returns (r: Result<Redirect>)
    requires db.Valid()
    modifies db
    ensures db.Valid()
    ensures db.gatewayCalls == old(db.gatewayCalls) && db.stats == old(db.stats)
    ensures uid !in old(db.users) ==> r == Err(NullAccess) && unchanged(db)
    ensures uid in old(db.users) ==>
      var user := old(db.users[uid]);
      var authentic := signature == ExpectedSignature(env, paymentId, user.subscription.id);
      && (!authentic ==> r == Ok(PaymentFail) && unchanged(db))
      && (authentic && (paymentId == "" || subscriptionId == "" || signature == "") ==>
            r == Err(SchemaViolation) && unchanged(db))
      && (authentic && paymentId != "" && subscriptionId != "" && signature != "" ==>
            && r == Ok(PaymentSuccess(paymentId))
            && db.payments == old(db.payments) + [Payment(paymentId, subscriptionId, signature, now)]
            && db.users == old(db.users)[uid := user.(subscription := user.subscription.(status := Some(ACTIVE)))])
  {
    if uid !in db.users {
      return Err(NullAccess);
    }
    var user := db.users[uid];
    var storedId := user.subscription.id;
    var generated := ExpectedSignature(env, paymentId, storedId);
    var isAuthentic := generated == signature;
    if !isAuthentic {
      return Ok(PaymentFail);
    }
    if paymentId == "" || subscriptionId == "" || signature == "" {
      return Err(SchemaViolation);
    }
    db.payments := db.payments + [Payment(paymentId, subscriptionId, signature, now)];
    user := user.(subscription := user.subscription.(status := Some(ACTIVE)));
    db.users := db.users[uid := user];
    r := Ok(PaymentSuccess(paymentId));
  }

  /** `cancelSubscription`. The gateway cancellation comes first; when it fails
      nothing local changes. The subscription's payment is then looked up (none
      found: the handler throws, nothing local changes). Inside the refund
      window the payment is refunded at the gateway. Either way the payment row
      is deleted and the whole subscription sub-record cleared; the result says
      whether a refund was issued. */
  method CancelSubscription(db: Store, env: Env, uid: UserId, now: int, cancelled: bool, refunded: bool)
    returns (r: Result<bool>)
    requires db.Valid()
    modifies db
    ensures db.Valid()
    ensures db.stats == old(db.stats)
    ensures uid !in old(db.users) ==> r == Err(NullAccess) && unchanged(db)
    ensures uid in old(db.users) ==>
      var id := old(db.users[uid]).subscription.id;
      var found := FindPayment(old(db.payments), id);
      && (!cancelled ==>
            && r == Err(Upstream)
            && db.gatewayCalls == old(db.gatewayCalls) + [CancelCall(id)]
            && db.users == old(db.users) && db.payments == old(db.payments))
      && (cancelled && found.None? ==>
            && r == Err(NullAccess)
            && db.gatewayCalls == old(db.gatewayCalls) + [CancelCall(id)]
            && db.users == old(db.users) && db.payments == old(db.payments))
      && (cancelled && found.Some? ==>
            var payment := old(db.payments)[found.value];
            var refund := RefundDue(env.refundDays, now, payment.createdAt);
            && db.gatewayCalls == old(db.gatewayCalls) + [CancelCall(id)] +
                 (if refund then [RefundCall(payment.paymentId)] else [])
            && (refund && !refunded ==>
                  r == Err(Upstream) && db.users == old(db.users) && db.payments == old(db.payments))
            && (!refund || refunded ==>
                  && r == Ok(refund)
                  && db.payments == RemoveAt(old(db.payments), found.value)
                  && db.users == old(db.users)[uid := old(db.users[uid]).(subscription := NO_SUBSCRIPTION)]))
  {
    if uid !in db.users {
      return Err(NullAccess);
    }
    var user := db.users[uid];
    var subscriptionId := user.subscription.id;
    var refund := false;

    db.gatewayCalls := db.gatewayCalls + [CancelCall(subscriptionId)];
    if !cancelled {
      return Err(Upstream);
    }

    var found := FindPayment(db.payments, subscriptionId);
    if found.None? {
      return Err(NullAccess);
    }
    var payment := db.payments[found.value];

    var gap := now - payment.createdAt;
    var refundTime := env.refundDays * 24 * 60 * 60 * 1000;
    if refundTime > gap {
      db.gatewayCalls := db.gatewayCalls + [RefundCall(payment.paymentId)];
      if !refunded {
        return Err(Upstream);
      }
      refund := true;
    }

    db.payments := RemoveAt(db.payments, found.value);
    user := user.(subscription := NO_SUBSCRIPTION);
    db.users := db.users[uid := user];
    r := Ok(refund);
  }
}
