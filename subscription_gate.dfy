/** `requireActiveSubscription`: the decision that lets a request through only for a known tenant
    whose trial has not run out and that is not suspended. */
module SubscriptionGate {
  import opened Wrappers
  import opened Plans
  import opened Accounts

  datatype Outcome = Denied(status: nat, error: string) | Allowed(tenant: Tenant)

  /** A TRIAL tenant whose trial end lies strictly before `now`; a tenant without a trial end
      never expires, and other plans ignore it. */
  predicate TrialExpired(t: Tenant, now: nat) {
    t.planType == TRIAL && t.trialEndsAt.Some? && t.trialEndsAt.value < now
  }

  /** `tokenTenantId` is the session token's tenant id (None without a token). */
  function RequireActiveSubscription(tokenTenantId: Option<string>, tenants: map<string, Tenant>, now: nat)
    : (r: Outcome)
    ensures r.Allowed? <==>
      && tokenTenantId.Some? && tokenTenantId.value != "" && tokenTenantId.value in tenants
      && !TrialExpired(tenants[tokenTenantId.value], now)
      && tenants[tokenTenantId.value].status != SUSPENDED
    ensures r.Allowed? ==> r.tenant == tenants[tokenTenantId.value]
    ensures r.Denied? ==> r.status in {401, 402, 404}
  {
    if tokenTenantId.None? || tokenTenantId.value == "" then Denied(401, "No autorizado")
    else if tokenTenantId.value !in tenants then Denied(404, "Tenant no encontrado")
    else
      var tenant := tenants[tokenTenantId.value];
      if tenant.planType == TRIAL && tenant.trialEndsAt.Some? && tenant.trialEndsAt.value < now then
        Denied(402, "Trial expirado. Debes elegir un plan para continuar.")
      else if tenant.status == SUSPENDED then
        Denied(402, "Cuenta suspendida. Regulariza tu pago.")
      else Allowed(tenant)
  }

  /** Which refusal is given: 401 without a tenant in the token, then 404 for an unknown tenant,
      then the expired trial, which wins over the suspension. */
  lemma DenialOrder(tokenTenantId: Option<string>, tenants: map<string, Tenant>, now: nat)
    ensures var r := RequireActiveSubscription(tokenTenantId, tenants, now);
      && ((tokenTenantId.None? || tokenTenantId.value == "") ==> r == Denied(401, "No autorizado"))
      && (tokenTenantId.Some? && tokenTenantId.value != "" && tokenTenantId.value !in tenants ==>
            r == Denied(404, "Tenant no encontrado"))
      && (tokenTenantId.Some? && tokenTenantId.value != "" && tokenTenantId.value in tenants ==>
            var t := tenants[tokenTenantId.value];
            && (TrialExpired(t, now) ==> r == Denied(402, "Trial expirado. Debes elegir un plan para continuar."))
            && (!TrialExpired(t, now) && t.status == SUSPENDED ==> r == Denied(402, "Cuenta suspendida. Regulariza tu pago.")))
  {
  }

  /** A trial ending exactly now is still valid; it expires from the next millisecond on. */
  lemma TrialBoundary(t: Tenant, end: nat)
    requires t.planType == TRIAL && t.trialEndsAt == Some(end)
    ensures !TrialExpired(t, end) && TrialExpired(t, end + 1)
  {
  }
}
