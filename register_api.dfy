/** `POST /api/register`: creates a tenant on a 14-day trial, its first user and its trial
    subscription, after checking the fields and that neither the e-mail nor the slug is taken. */
module RegisterApi {
  import opened Wrappers
  import opened Text
  import opened Plans
  import opened Accounts

  /** Replaces each maximal run of whitespace by one `-`: `.replace(/\s+/g, '-')`. */
  function Dashify(s: string): (r: string)
    ensures NoSpace(r) && |r| <= |s|
    ensures NoUpper(s) ==> NoUpper(r)
    decreases |s|
  {
    if s == [] then []
    else if IsSpace(s[0]) then
      var rest := TrimStart(s);
      assert |rest| < |s| by {
        assert rest == [] || rest[0] != s[0];
      }
      assert NoUpper(s) ==> NoUpper(rest) by {
        forall i | 0 <= i < |rest| ensures rest[i] == s[|s| - |rest| + i] { }
      }
      "-" + Dashify(rest)
    else [s[0]] + Dashify(s[1..])
  }

  /** The tenant slug: `tenantName.toLowerCase().replace(/\s+/g, '-')`. */
  function Slug(tenantName: string): (r: string)
    ensures NoSpace(r) && NoUpper(r)
  {
    LowerIdempotent(tenantName);
    Dashify(Lower(tenantName))
  }

  /** A string without whitespace comes out of the replacement unchanged. */
  lemma {:induction false} DashifyNoSpace(s: string)
    requires NoSpace(s)
    ensures Dashify(s) == s
  {
    if s != [] {
      DashifyNoSpace(s[1..]);
    }
  }

  /** The slug is stable: slugging a slug gives it back, and a name without whitespace is
      only lower-cased. */
  lemma SlugIdempotent(tenantName: string)
    ensures Slug(Slug(tenantName)) == Slug(tenantName)
    ensures NoSpace(tenantName) ==> Slug(tenantName) == Lower(tenantName)
  {
    var s := Slug(tenantName);
    LowerOfLower(s);
    DashifyNoSpace(s);
    if NoSpace(tenantName) {
      DashifyNoSpace(Lower(tenantName));
    }
  }

  const TrialMs: nat := 14 * DayMs

  datatype Request = Request(email: string, password: string, name: string, tenantName: string, tenantCategory: string)

  datatype Response =
    | Registered(email: string, name: string, tenantId: string, tenantSlug: string, trialEndsAt: nat)
    | Failure(status: nat, error: string)

  predicate FieldsPresent(req: Request) {
    req.email != "" && req.password != "" && req.name != "" && req.tenantName != "" && req.tenantCategory != ""
  }

  /** `now` is `Date.now()`, `newTenantId` the id the database gives the new tenant, and `hash`
      the password hashing function. */
  method Post(store: AccountStore, req: Request, now: nat, newTenantId: string, hash: string -> string)
    returns (resp: Response)
    requires store.Valid() && newTenantId !in store.tenants
    modifies store
    ensures store.Valid()
    ensures resp.Failure? ==> resp.status == 400 && unchanged(store)
    ensures !FieldsPresent(req) ==> resp == Failure(400, "Todos los campos son requeridos")
    ensures FieldsPresent(req) && req.email in old(store.users) ==> resp == Failure(400, "El usuario ya existe")
    ensures FieldsPresent(req) && req.email !in old(store.users) && SlugTaken(old(store.tenants), Slug(req.tenantName)) ==>
      resp == Failure(400, "El nombre de negocio ya está en uso")
    ensures resp.Registered? <==>
      FieldsPresent(req) && req.email !in old(store.users) && !SlugTaken(old(store.tenants), Slug(req.tenantName))
    ensures resp.Registered? ==>
      && resp == Registered(req.email, req.name, newTenantId, Slug(req.tenantName), now + TrialMs)
      && store.tenants == old(store.tenants)[newTenantId := Tenant(newTenantId, req.tenantName, Slug(req.tenantName),
           req.tenantCategory, TRIAL, TenantStatus.ACTIVE, Some(now + TrialMs))]
      && store.users == old(store.users)[req.email := User(req.email, req.name, hash(req.password), newTenantId)]
      && store.subscriptions == old(store.subscriptions)[newTenantId := Subscription(newTenantId, TRIAL,
           SubscriptionStatus.ACTIVE, 0, now, now + TrialMs, None, None)]
  {
    if req.email == "" || req.password == "" || req.name == "" || req.tenantName == "" || req.tenantCategory == "" {
      return Failure(400, "Todos los campos son requeridos");
    }
    if req.email in store.users {
      return Failure(400, "El usuario ya existe");
    }
    var tenantSlug := Slug(req.tenantName);
    if exists id :: id in store.tenants && store.tenants[id].slug == tenantSlug {
      return Failure(400, "El nombre de negocio ya está en uso");
    }
    var trialEndsAt := now + 14 * 24 * 60 * 60 * 1000;
    var tenant := Tenant(newTenantId, req.tenantName, tenantSlug, req.tenantCategory, TRIAL, TenantStatus.ACTIVE, Some(trialEndsAt));
    store.tenants := store.tenants[newTenantId := tenant];
    var hashedPassword := hash(req.password);
    store.users := store.users[req.email := User(req.email, req.name, hashedPassword, tenant.id)];
    store.subscriptions := store.subscriptions[tenant.id := Subscription(tenant.id, TRIAL, SubscriptionStatus.ACTIVE,
      0, now, trialEndsAt, None, None)];
    return Registered(req.email, req.name, tenant.id, tenant.slug, trialEndsAt);
  }
}
