/** The `ARGENTINA_PRICING` table the checkout reads: one entry per paid plan, prices in whole
    Argentine pesos. */
module Pricing {
  import opened Text
  import Plans

  /** `-1` in `salesLimit` or `users` stands for "unlimited". */
  const Unlimited: int := -1

  datatype Plan = Plan(
    id: string, price: int, title: string, salesLimit: int, users: int,
    features: seq<string>, recommended: bool)

  /** The table. Its keys are BASIC, PROFESSIONAL and ENTERPRISE (there is no TRIAL entry),
      prices strictly increase, only PROFESSIONAL is recommended, each `id` is its key in lower
      case, ENTERPRISE is unlimited and the limited plans' limits increase. */
  function ArgentinaPricing(): (t: map<string, Plan>)
    ensures t.Keys == {"BASIC", "PROFESSIONAL", "ENTERPRISE"} && "TRIAL" !in t
    ensures 0 < t["BASIC"].price < t["PROFESSIONAL"].price < t["ENTERPRISE"].price
    ensures forall k :: k in t ==> (t[k].recommended <==> k == "PROFESSIONAL")
    ensures forall k :: k in t ==> t[k].id == Lower(k)
    ensures t["ENTERPRISE"].salesLimit == Unlimited && t["ENTERPRISE"].users == Unlimited
    ensures 0 < t["BASIC"].salesLimit < t["PROFESSIONAL"].salesLimit
    ensures 0 < t["BASIC"].users < t["PROFESSIONAL"].users
  {
    assert Lower("BASIC") == "basic";
    assert Lower("PROFESSIONAL") == "professional";
    assert Lower("ENTERPRISE") == "enterprise";
    map[
      "BASIC" := Plan("basic", 14999, "Plan Básico", 2500, 3,
        ["2,500 ventas/mes", "3 usuarios", "Soporte prioritario", "App móvil"], false),
      "PROFESSIONAL" := Plan("professional", 29999, "Plan Professional", 10000, 10,
        ["10,000 ventas/mes", "10 usuarios", "Soporte 24/7", "Analytics avanzado"], true),
      "ENTERPRISE" := Plan("enterprise", 59999, "Plan Enterprise", Unlimited, Unlimited,
        ["Ventas ilimitadas", "Usuarios ilimitados", "Soporte dedicado", "Personalización"], false)
    ]
  }

  /** Every key of the table parses as a paid plan, so a plan found in the table never makes
      `toPlanType` throw and can never be TRIAL. */
  lemma TableKeysArePaidPlans(k: string)
    requires k in ArgentinaPricing()
    ensures Plans.ToPlanType(k).Some? && Plans.ToPlanType(k).value != Plans.TRIAL
  {
  }
}
