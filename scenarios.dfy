/** Clients that drive the handlers through the billing flow using their
    contracts alone. */
module Scenarios {
  import opened Domain
  import opened Database
  import PaymentController
  import UserController
  import Server

  /** Register, buy, a tampered checkout, then the genuine checkout. */
  method CheckoutScenario(env: Env, avatar: Avatar, issued: GatewaySubscription, paymentId: string,
                          signature: string, now: int)
    requires issued.id != "" && paymentId != "" && signature != ""
    requires signature == PaymentController.ExpectedSignature(env, paymentId, Some(issued.id))
  {
    var db := new Store();
    var registered := UserController.Register(db, Some("Ann"), Some("ann@example.org"), Some("pw"), true,
                                              Some(avatar), "u1");
    assert registered == Ok("u1");

    var bought := PaymentController.BuySubscription(db, env, "u1", Some(issued));
    assert bought == Ok(issued.id);
    assert db.users["u1"].subscription == Subscription(Some(issued.id), Some(issued.status));

    var tampered := PaymentController.PaymentVerification(db, env, "u1", paymentId, issued.id, signature + "0", now);
    assert |signature + "0"| != |signature|;
    assert tampered == Ok(PaymentController.PaymentFail);
    assert db.payments == [] && db.users["u1"].subscription.status == Some(issued.status);

    var verified := PaymentController.PaymentVerification(db, env, "u1", paymentId, issued.id, signature, now);
    assert verified == Ok(PaymentController.PaymentSuccess(paymentId));
    assert db.payments == [Payment(paymentId, issued.id, signature, now)];
    assert db.users["u1"].subscription.status == Some(ACTIVE);

  }

  /** Cancelling inside the refund window refunds; after it, it does not; the
      payment row and the subscription go either way. */
  method CancelScenario(db: Store, env: Env, uid: UserId, payment: Payment, now: int, late: bool)
    requires db.Valid() && uid in db.users
    requires db.users[uid].subscription.id == Some(payment.subscriptionId)
    requires db.payments == [payment] && db.gatewayCalls == []
    requires now == if late then payment.createdAt + env.refundDays * MS_PER_DAY
                    else payment.createdAt + env.refundDays * MS_PER_DAY - 1
    modifies db
  {
    assert PaymentController.FindPayment(db.payments, Some(payment.subscriptionId)) == Some(0);
    var cancelled := PaymentController.CancelSubscription(db, env, uid, now, true, true);
    assert cancelled == Ok(!late);
    assert late ==> db.gatewayCalls == [CancelCall(Some(payment.subscriptionId))];
    assert !late ==> db.gatewayCalls == [CancelCall(Some(payment.subscriptionId)), RefundCall(payment.paymentId)];
    assert db.payments == [] && db.users[uid].subscription == NO_SUBSCRIPTION;
  }

  /** An admin cannot buy: 400, no gateway call, no change to the user. */
  method AdminPurchaseScenario(env: Env, avatar: Avatar, issued: GatewaySubscription)
  {
    var db := new Store();
    var registered := UserController.Register(db, Some("Root"), Some("root@example.org"), Some("pw"), true,
                                              Some(avatar), "a1");
    var promoted := UserController.UpdateUserRole(db, "a1");
    assert db.users["a1"].role == ADMIN;
    var before := db.users;
    var bought := PaymentController.BuySubscription(db, env, "a1", Some(issued));
    assert bought == Err(Http(400));
    assert db.gatewayCalls == [] && db.users == before;
  }

  /** A new period, then a user change: the new period carries the counts. */
  method StatsScenario(avatar: Avatar, now: int)
  {
    var db := new Store();
    Server.NewPeriod(db, now);
    var registered := UserController.Register(db, Some("Bo"), Some("bo@example.org"), Some("pw"), true,
                                              Some(avatar), "b1");
    var refreshed := UserController.OnUserChange(db, now + 1);
    assert refreshed == Pass;
    assert |db.stats| == 1 && db.stats[0].users == 1 && db.stats[0].views == 0;
  }
}
