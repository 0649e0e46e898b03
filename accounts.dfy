/** The account tables shared by registration, checkout, the payment webhook and the
    subscription gate: tenants by id, users by e-mail, and one subscription per tenant.
    Instants are milliseconds since the epoch. */
module Accounts {
  import opened Wrappers
  import opened Plans

  const DayMs: nat := 24 * 60 * 60 * 1000

  datatype TenantStatus = ACTIVE | SUSPENDED | CANCELLED

  datatype Tenant = Tenant(
    id: string, name: string, slug: string, category: string,
    planType: PlanType, status: TenantStatus, trialEndsAt: Option<nat>)

  /** A user; only the hash of the password is stored. */
  datatype User = User(email: string, name: string, passwordHash: string, tenantId: string)

  datatype SubscriptionStatus = ACTIVE | PENDING | CANCELLED

  datatype Subscription = Subscription(
    tenantId: string, plan: PlanType, status: SubscriptionStatus, price: int,
    currentPeriodStart: nat, currentPeriodEnd: nat,
    mpPreferenceId: Option<string>, mpSubscriptionId: Option<string>)

  predicate SlugTaken(tenants: map<string, Tenant>, slug: string) {
    exists id :: id in tenants && tenants[id].slug == slug
  }

  class AccountStore {
    var tenants: map<string, Tenant>
    var users: map<string, User>
    var subscriptions: map<string, Subscription>

    /** Rows are stored under their own key, slugs are unique, and users and subscriptions
        point at existing tenants. */
    ghost predicate Valid()
      reads this
    {
      && (forall id :: id in tenants ==> tenants[id].id == id)
      && (forall a, b :: a in tenants && b in tenants && tenants[a].slug == tenants[b].slug ==> a == b)
      && (forall e :: e in users ==> users[e].email == e && users[e].tenantId in tenants)
      && (forall t :: t in subscriptions ==> subscriptions[t].tenantId == t && t in tenants)
    }

    constructor ()
      ensures Valid() && tenants == map[] && users == map[] && subscriptions == map[]
    {
      tenants, users, subscriptions := map[], map[], map[];
    }
  }
}
