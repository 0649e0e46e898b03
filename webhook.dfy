/** `POST /api/webhooks/mercadopago`: on an approved payment notification, moves the tenant to
    the paid plan and activates its subscription for 30 days. */
module MercadoPagoWebhook {
  import opened Wrappers
  import opened Text
  import opened Plans
  import opened Accounts

  /** The notification body: its `type` and `data.id` ("" when absent). */
  datatype WebhookBody = WebhookBody(kind: string, dataId: string)

  /** The `metadata` of a payment ("" for a missing key). */
  datatype PaymentMetadata = PaymentMetadata(tenantId: string, planId: string) {
    predicate Complete() { tenantId != "" && planId != "" }
  }

  /** The payment record fetched from MercadoPago. */
  datatype Payment = Payment(id: Option<nat>, status: string, metadata: Option<PaymentMetadata>)

  datatype Response = Received | Failure(status: nat, error: string)

  /** `payment?.id` is truthy: present and not 0. */
  predicate HasId(payment: Option<Payment>) {
    payment.Some? && payment.value.id.Some? && payment.value.id.value != 0
  }

  /** Passes the structure, payment id and metadata checks. */
  predicate WellFormed(body: WebhookBody, payment: Option<Payment>) {
    body.kind == "payment" && body.dataId != "" && HasId(payment) && payment.value.metadata.Some?
  }

  /** The update for an approved payment with complete metadata: the tenant gets the plan and
      ACTIVE, its subscription gets ACTIVE, the payment id in decimal and a 30-day period from
      `now`. An unknown plan, or a missing tenant or subscription, ends in 500 with no write. */
  method Activate(store: AccountStore, md: PaymentMetadata, paymentId: nat, now: nat) returns (resp: Response)
    requires store.Valid()
    modifies store
    ensures store.Valid()
    ensures store.users == old(store.users)
    ensures ToPlanType(md.planId).None? ==> resp == Failure(500, "Webhook error") && unchanged(store)
    ensures md.tenantId !in old(store.tenants) || md.tenantId !in old(store.subscriptions) ==>
      resp == Failure(500, "Webhook error") && unchanged(store)
    ensures resp.Failure? ==> unchanged(store)
    ensures ToPlanType(md.planId).Some? && md.tenantId in old(store.tenants) && md.tenantId in old(store.subscriptions) ==>
      && resp == Received
      && store.tenants == old(store.tenants)[md.tenantId :=
           old(store.tenants)[md.tenantId].(planType := ToPlanType(md.planId).value, status := TenantStatus.ACTIVE)]
      && store.subscriptions == old(store.subscriptions)[md.tenantId :=
           old(store.subscriptions)[md.tenantId].(status := SubscriptionStatus.ACTIVE,
             mpSubscriptionId := Some(DecimalString(paymentId)),
             currentPeriodStart := now, currentPeriodEnd := now + 30 * DayMs)]
  {
    // `toPlanTypeSafe(planId)` is evaluated while building the update, before any write.
    var planType := ToPlanType(md.planId);
    if planType.None? {
      return Failure(500, "Webhook error");
    }
    // `tenant.update` with a nested `subscription.update` is one statement: it throws, and
    // writes nothing, when the tenant or its subscription does not exist.
    if md.tenantId !in store.tenants || md.tenantId !in store.subscriptions {
      return Failure(500, "Webhook error");
    }
    var tenant := store.tenants[md.tenantId];
    var sub := store.subscriptions[md.tenantId];
    // The period end is `now + 30 * 24 * 60 * 60 * 1000`, thirty days of `DayMs`.
    store.tenants := store.tenants[md.tenantId := tenant.(planType := planType.value, status := TenantStatus.ACTIVE)];
    store.subscriptions := store.subscriptions[md.tenantId := sub.(
      status := SubscriptionStatus.ACTIVE, mpSubscriptionId := Some(DecimalString(paymentId)),
      currentPeriodStart := now, currentPeriodEnd := now + 30 * DayMs)];
    resp := Received;
  }

  /** The request can change the database only through an approved payment with a tenant and a
      known plan: the tenant gets that plan and ACTIVE, its subscription gets ACTIVE, the payment
      id in decimal and a 30-day period from `now`. */
  method Post(store: AccountStore, body: WebhookBody, payment: Option<Payment>, now: nat) returns (resp: Response)
    requires store.Valid()
    modifies store
    ensures store.Valid()
    ensures store.users == old(store.users)
    ensures body.kind != "payment" || body.dataId == "" ==> resp == Failure(400, "Invalid webhook format")
    ensures body.kind == "payment" && body.dataId != "" && !HasId(payment) ==> resp == Failure(400, "Invalid payment data")
    ensures body.kind == "payment" && body.dataId != "" && HasId(payment) && payment.value.metadata.None? ==>
      resp == Failure(400, "Payment metadata missing")
    ensures WellFormed(body, payment) && payment.value.status != "approved" ==> resp == Received && unchanged(store)
    ensures WellFormed(body, payment) && payment.value.status == "approved" && !payment.value.metadata.value.Complete() ==>
      resp == Failure(400, "Invalid metadata")
    ensures WellFormed(body, payment) && payment.value.status == "approved" && payment.value.metadata.value.Complete() ==>
      var md := payment.value.metadata.value;
      && (ToPlanType(md.planId).None? ==> resp == Failure(500, "Webhook error") && unchanged(store))
      && (ToPlanType(md.planId).Some? && (md.tenantId !in old(store.tenants) || md.tenantId !in old(store.subscriptions)) ==>
            resp == Failure(500, "Webhook error") && unchanged(store))
      && (ToPlanType(md.planId).Some? && md.tenantId in old(store.tenants) && md.tenantId in old(store.subscriptions) ==>
            resp == Received)
    ensures resp.Failure? ==> resp.status in {400, 500} && unchanged(store)
    ensures store.tenants != old(store.tenants) || store.subscriptions != old(store.subscriptions) ==>
      resp == Received && HasId(payment) && payment.value.status == "approved"
    ensures resp == Received && HasId(payment) && payment.value.status == "approved" ==>
      var md := payment.value.metadata.value;
      && ToPlanType(md.planId).Some?
      && md.tenantId in old(store.tenants) && md.tenantId in old(store.subscriptions)
      && store.tenants == old(store.tenants)[md.tenantId :=
           old(store.tenants)[md.tenantId].(planType := ToPlanType(md.planId).value, status := TenantStatus.ACTIVE)]
      && store.subscriptions == old(store.subscriptions)[md.tenantId :=
           old(store.subscriptions)[md.tenantId].(status := SubscriptionStatus.ACTIVE,
             mpSubscriptionId := Some(DecimalString(payment.value.id.value)),
             currentPeriodStart := now, currentPeriodEnd := now + 30 * DayMs)]
  {
    if body.kind != "payment" || body.dataId == "" {
      return Failure(400, "Invalid webhook format");
    }
    if payment.None? || payment.value.id.None? || payment.value.id.value == 0 {
      return Failure(400, "Invalid payment data");
    }
    var p := payment.value;
    if p.metadata.None? {
      return Failure(400, "Payment metadata missing");
    }
    if p.status == "approved" {
      var md := p.metadata.value;
      if md.tenantId == "" || md.planId == "" {
        return Failure(400, "Invalid metadata");
      }
      resp := Activate(store, md, p.id.value, now);
      return;
    }
    return Received;
  }

  /** An approved payment naming an unknown plan ends in 500, as `toPlanTypeSafe` throws. */
  lemma UnknownPlanFails(planId: string)
    requires planId !in ValidPlanTypes
    ensures ToPlanType(planId).None? && ToPlanTypeByList(planId).None?
  {
    ParsersAgree(planId, TRIAL);
  }
}
