/** `POST /api/checkout`: validates a plan purchase, builds the payment preference sent to
    MercadoPago, and records a PENDING subscription for the tenant. */
module Checkout {
  import opened Wrappers
  import opened Plans
  import opened Accounts
  import Pricing

  /** A field of the JSON body: absent, a string, or a value of another type. */
  datatype Field = Absent | Str(s: string) | NonString

  /** `!field || typeof field !== 'string'` is false. */
  predicate IsGivenString(f: Field) {
    f.Str? && f.s != ""
  }

  datatype PreferenceItem = PreferenceItem(
    id: string, title: string, description: string, quantity: int, currencyId: string, unitPrice: int)

  datatype BackUrls = BackUrls(success: string, failure: string, pending: string)

  datatype PreferenceMetadata = PreferenceMetadata(
    tenantId: string, tenantSlug: string, planId: string, planInternalId: string, kind: string)

  datatype Preference = Preference(
    items: seq<PreferenceItem>, backUrls: BackUrls, notificationUrl: string,
    metadata: PreferenceMetadata, autoReturn: string)

  /** `features.join(' | ')`. */
  function Join(parts: seq<string>, sep: string): string {
    if parts == [] then "" else if |parts| == 1 then parts[0] else parts[0] + sep + Join(parts[1..], sep)
  }

  /** The preference for `plan`, bought by `tenant` under the key `planId`. */
  function BuildPreference(plan: Pricing.Plan, planId: string, tenant: Tenant, baseUrl: string): (p: Preference)
    ensures |p.items| == 1 && p.items[0].quantity == 1 && p.items[0].currencyId == "ARS"
    ensures p.items[0].unitPrice == plan.price && p.items[0].id == plan.id
    ensures p.backUrls.success == baseUrl + "/" + tenant.slug + "/billing/success"
    ensures p.backUrls.failure == p.backUrls.pending == baseUrl + "/" + tenant.slug + "/billing"
    ensures p.metadata == PreferenceMetadata(tenant.id, tenant.slug, planId, plan.id, "subscription")
  {
    Preference(
      [PreferenceItem(plan.id, plan.title + " - PrenderPOS",
        "SaaS de Gestión MultiRubro | Suscripción mensual | " + Join(plan.features, " | "),
        1, "ARS", plan.price)],
      BackUrls(baseUrl + "/" + tenant.slug + "/billing/success",
               baseUrl + "/" + tenant.slug + "/billing",
               baseUrl + "/" + tenant.slug + "/billing"),
      baseUrl + "/api/webhooks/mercadopago",
      PreferenceMetadata(tenant.id, tenant.slug, planId, plan.id, "subscription"),
      "approved")
  }

  /** What the MercadoPago SDK answered: a created preference, or an error with an optional
      HTTP status. */
  datatype SdkOutcome =
    | Created(preferenceId: string, initPoint: Option<string>, sandboxInitPoint: Option<string>)
    | SdkError(status: Option<int>)

  datatype Response = CheckoutUrl(url: Option<string>) | Failure(status: nat, error: string)

  /** The catch block: an error carrying status 400 answers 400, every other error 500. */
  function CaughtError(status: Option<int>): (r: Response)
    ensures r.Failure? && (r.status == 400 <==> status == Some(400)) && (r.status != 400 ==> r.status == 500)
  {
    if status == Some(400) then Failure(400, "Error en la configuración del pago")
    else Failure(500, "Error interno al procesar el pago")
  }

  /** `preference.init_point || preference.sandbox_init_point`. */
  function CheckoutLink(initPoint: Option<string>, sandboxInitPoint: Option<string>): (r: Option<string>)
    ensures r == initPoint || r == sandboxInitPoint
    ensures initPoint.Some? && initPoint.value != "" ==> r == initPoint
    ensures (r.Some? && r.value != "") <==>
      (initPoint.Some? && initPoint.value != "") || (sandboxInitPoint.Some? && sandboxInitPoint.value != "")
  {
    if initPoint.Some? && initPoint.value != "" then initPoint else sandboxInitPoint
  }

  /** The subscription row after the upsert: an existing row gets the preference, the plan,
      PENDING and the price, keeping its period; a new row also gets a 30-day period from `now`. */
  function Upserted(existing: Option<Subscription>, tenantId: string, preferenceId: string, plan: PlanType, price: int, now: nat)
    : (s: Subscription)
    ensures s.tenantId == (if existing.Some? then existing.value.tenantId else tenantId)
    ensures s.plan == plan && s.status == SubscriptionStatus.PENDING && s.price == price
    ensures s.mpPreferenceId == Some(preferenceId)
    ensures existing.Some? ==>
      && s.currentPeriodStart == existing.value.currentPeriodStart
      && s.currentPeriodEnd == existing.value.currentPeriodEnd
      && s.mpSubscriptionId == existing.value.mpSubscriptionId
    ensures existing.None? ==>
      s.currentPeriodStart == now && s.currentPeriodEnd == now + 30 * DayMs && s.mpSubscriptionId.None?
  {
    match existing
    case Some(old_) => old_.(mpPreferenceId := Some(preferenceId), plan := plan, status := SubscriptionStatus.PENDING, price := price)
    // A new row ends its period at `now + 30 * 24 * 60 * 60 * 1000`, thirty days of `DayMs`.
    case None => Subscription(tenantId, plan, SubscriptionStatus.PENDING, price, now, now + 30 * DayMs, Some(preferenceId), None)
  }

  /** The steps after validation: send the preference, then upsert the subscription with the
      preference id and answer with the checkout link. */
  method CreatePreference(store: AccountStore, tenant: Tenant, planId: string, plan: Pricing.Plan,
                          baseUrl: string, sdk: SdkOutcome, now: nat)
    returns (resp: Response, sent: Preference)
    requires store.Valid() && tenant.id in store.tenants && store.tenants[tenant.id] == tenant
    modifies store
    ensures store.Valid()
    ensures store.tenants == old(store.tenants) && store.users == old(store.users)
    ensures sent == BuildPreference(plan, planId, tenant, baseUrl)
    ensures sdk.SdkError? ==> resp == CaughtError(sdk.status)
    ensures sdk.Created? && ToPlanType(planId).None? ==> resp == CaughtError(None)
    ensures resp.Failure? ==> store.subscriptions == old(store.subscriptions)
    ensures resp.CheckoutUrl? ==>
      && sdk.Created? && ToPlanType(planId).Some?
      && resp.url == CheckoutLink(sdk.initPoint, sdk.sandboxInitPoint)
      && store.subscriptions == old(store.subscriptions)[tenant.id :=
           Upserted(if tenant.id in old(store.subscriptions) then Some(old(store.subscriptions)[tenant.id]) else None,
                    tenant.id, sdk.preferenceId, ToPlanType(planId).value, plan.price, now)]
    ensures sdk.Created? && ToPlanType(planId).Some? ==> resp.CheckoutUrl?
  {
    sent := BuildPreference(plan, planId, tenant, baseUrl);
    if sdk.SdkError? {
      return CaughtError(sdk.status), sent;
    }
    var checkoutUrl := CheckoutLink(sdk.initPoint, sdk.sandboxInitPoint);
    var planType := ToPlanType(planId);
    if planType.None? {
      return CaughtError(None), sent;
    }
    var existing := if tenant.id in store.subscriptions then Some(store.subscriptions[tenant.id]) else None;
    store.subscriptions := store.subscriptions[tenant.id :=
      Upserted(existing, tenant.id, sdk.preferenceId, planType.value, plan.price, now)];
    return CheckoutUrl(checkoutUrl), sent;
  }

  /** The steps after the field and configuration checks: look the organization up by its slug,
      check the plan against the price table, then create the preference. */
  method CheckoutFor(store: AccountStore, slug: string, planId: string, baseUrl: string, sdk: SdkOutcome, now: nat)
    returns (resp: Response, sent: Option<Preference>)
    requires store.Valid()
    modifies store
    ensures store.Valid()
    ensures store.tenants == old(store.tenants) && store.users == old(store.users)
    ensures !SlugTaken(old(store.tenants), slug) ==> resp == Failure(404, "Organización no encontrada") && sent.None?
    ensures SlugTaken(old(store.tenants), slug) && planId !in Pricing.ArgentinaPricing() ==>
      resp == Failure(400, "Plan no válido") && sent.None?
    ensures SlugTaken(old(store.tenants), slug) && planId in Pricing.ArgentinaPricing() ==>
      sent.Some? && (sdk.Created? ==> resp.CheckoutUrl?) && (sdk.SdkError? ==> resp == CaughtError(sdk.status))
    ensures sent.Some? ==>
      && planId in Pricing.ArgentinaPricing()
      && exists id :: id in old(store.tenants) && old(store.tenants)[id].slug == slug
           && sent.value == BuildPreference(Pricing.ArgentinaPricing()[planId], planId, old(store.tenants)[id], baseUrl)
    ensures resp.Failure? ==> store.subscriptions == old(store.subscriptions)
    ensures resp.CheckoutUrl? ==>
      && sent.Some? && sdk.Created?
      && resp.url == CheckoutLink(sdk.initPoint, sdk.sandboxInitPoint)
      && var tid := sent.value.metadata.tenantId;
      && var plan := Pricing.ArgentinaPricing()[planId];
      && ToPlanType(planId).Some?
      && store.subscriptions == old(store.subscriptions)[tid :=
           Upserted(if tid in old(store.subscriptions) then Some(old(store.subscriptions)[tid]) else None,
                    tid, sdk.preferenceId, ToPlanType(planId).value, plan.price, now)]
  {
    sent := None;
    if !exists id :: id in store.tenants && store.tenants[id].slug == slug {
      return Failure(404, "Organización no encontrada"), sent;
    }
    var id :| id in store.tenants && store.tenants[id].slug == slug;
    var tenant := store.tenants[id];
    var pricing := Pricing.ArgentinaPricing();
    if planId !in pricing {
      return Failure(400, "Plan no válido"), sent;
    }
    var preference;
    Pricing.TableKeysArePaidPlans(planId);
    resp, preference := CreatePreference(store, tenant, planId, pricing[planId], baseUrl, sdk, now);
    sent := Some(preference);
    assert old(store.tenants)[id].slug == slug;
    assert preference == BuildPreference(pricing[planId], planId, old(store.tenants)[id], baseUrl);
  }

  /** `baseUrl` is `NEXT_PUBLIC_BASE_URL` ("" when unset), `sdk` the answer to the preference
      request, `now` is `Date.now()`. Besides the response, `sent` is the preference sent. */
  method Post(store: AccountStore, tenantId: Field, planId: Field, baseUrl: string, sdk: SdkOutcome, now: nat)
    returns (resp: Response, sent: Option<Preference>)
    requires store.Valid()
    modifies store
    ensures store.Valid()
    ensures store.tenants == old(store.tenants) && store.users == old(store.users)
    ensures !IsGivenString(tenantId) ==> resp == Failure(400, "tenantId es requerido") && sent.None?
    ensures IsGivenString(tenantId) && !IsGivenString(planId) ==> resp == Failure(400, "planId es requerido") && sent.None?
    ensures IsGivenString(tenantId) && IsGivenString(planId) && baseUrl == "" ==>
      resp == Failure(500, "Error de configuración del servidor") && sent.None?
    ensures IsGivenString(tenantId) && IsGivenString(planId) && baseUrl != "" && !SlugTaken(old(store.tenants), tenantId.s) ==>
      resp == Failure(404, "Organización no encontrada")
    ensures IsGivenString(tenantId) && IsGivenString(planId) && baseUrl != "" && SlugTaken(old(store.tenants), tenantId.s)
            && planId.s !in Pricing.ArgentinaPricing() ==>
      resp == Failure(400, "Plan no válido") && sent.None?
    ensures sent.Some? ==>
      && IsGivenString(tenantId) && IsGivenString(planId) && baseUrl != "" && planId.s in Pricing.ArgentinaPricing()
      && exists id :: id in old(store.tenants) && old(store.tenants)[id].slug == tenantId.s
           && sent.value == BuildPreference(Pricing.ArgentinaPricing()[planId.s], planId.s, old(store.tenants)[id], baseUrl)
    ensures IsGivenString(tenantId) && IsGivenString(planId) && baseUrl != "" && SlugTaken(old(store.tenants), tenantId.s)
            && planId.s in Pricing.ArgentinaPricing() ==>
      sent.Some? && (sdk.Created? ==> resp.CheckoutUrl?) && (sdk.SdkError? ==> resp == CaughtError(sdk.status))
    ensures sdk.SdkError? && sent.Some? ==> resp == CaughtError(sdk.status)
    ensures resp.Failure? ==> store.subscriptions == old(store.subscriptions)
    ensures resp.CheckoutUrl? ==>
      && sent.Some? && sdk.Created?
      && resp.url == CheckoutLink(sdk.initPoint, sdk.sandboxInitPoint)
      && var tid := sent.value.metadata.tenantId;
      && var plan := Pricing.ArgentinaPricing()[planId.s];
      && ToPlanType(planId.s).Some?
      && store.subscriptions == old(store.subscriptions)[tid :=
           Upserted(if tid in old(store.subscriptions) then Some(old(store.subscriptions)[tid]) else None,
                    tid, sdk.preferenceId, ToPlanType(planId.s).value, plan.price, now)]
  {
    sent := None;
    if tenantId == Absent || tenantId == NonString || tenantId.s == "" {
      return Failure(400, "tenantId es requerido"), sent;
    }
    if planId == Absent || planId == NonString || planId.s == "" {
      return Failure(400, "planId es requerido"), sent;
    }
    if baseUrl == "" {
      return Failure(500, "Error de configuración del servidor"), sent;
    }
    resp, sent := CheckoutFor(store, tenantId.s, planId.s, baseUrl, sdk, now);
  }

  /** A plan that passes the table check always parses, so the upsert's `toPlanType` never
      throws and the plan written is never TRIAL. */
  lemma CheckedOutPlanIsPaid(planId: string)
    requires planId in Pricing.ArgentinaPricing()
    ensures ToPlanType(planId).Some? && ToPlanType(planId).value != TRIAL
  {
    Pricing.TableKeysArePaidPlans(planId);
  }
}
