/** The plan enum and the two parsers that turn a request's plan string into it. */
module Plans {
  import opened Wrappers

  datatype PlanType = TRIAL | BASIC | PROFESSIONAL | ENTERPRISE

  function Name(p: PlanType): string {
    match p
    case TRIAL => "TRIAL"
    case BASIC => "BASIC"
    case PROFESSIONAL => "PROFESSIONAL"
    case ENTERPRISE => "ENTERPRISE"
  }

  /** `toPlanType` of the checkout route, and `toPlanTypeSafe` of the payment webhook (the same
      switch): the plan whose name is `planId`, or None where the source throws. */
  function ToPlanType(planId: string): (r: Option<PlanType>)
    ensures r.Some? <==> planId in {"TRIAL", "BASIC", "PROFESSIONAL", "ENTERPRISE"}
    ensures r.Some? ==> Name(r.value) == planId
  {
    match planId
    case "TRIAL" => Some(TRIAL)
    case "BASIC" => Some(BASIC)
    case "PROFESSIONAL" => Some(PROFESSIONAL)
    case "ENTERPRISE" => Some(ENTERPRISE)
    case _ => None
  }

  const AllPlans: seq<PlanType> := [TRIAL, BASIC, PROFESSIONAL, ENTERPRISE]

  /** `validPlanTypes` of the webhook's `toPlanType`. */
  const ValidPlanTypes: seq<string> := ["TRIAL", "BASIC", "PROFESSIONAL", "ENTERPRISE"]

  function IndexIn(names: seq<string>, s: string): (r: Option<nat>)
    ensures r.Some? ==> r.value < |names| && names[r.value] == s
    ensures r.None? <==> s !in names
  {
    if names == [] then None
    else if names[0] == s then Some(0)
    else match IndexIn(names[1..], s)
      case None => None
      case Some(k) => Some(k + 1)
  }

  /** The webhook's `toPlanType`: `validPlanTypes.includes(planId)`, then `planId` itself read
      as a plan; None where the source throws. */
  function ToPlanTypeByList(planId: string): (r: Option<PlanType>)
    ensures r.Some? <==> planId in ValidPlanTypes
    ensures r.Some? ==> Name(r.value) == planId
  {
    match IndexIn(ValidPlanTypes, planId)
    case None => None
    case Some(i) =>
      assert Name(AllPlans[i]) == ValidPlanTypes[i];
      Some(AllPlans[i])
  }

  /** Both parsers accept exactly the four plan names, agree on every input, and invert `Name`. */
  lemma ParsersAgree(planId: string, p: PlanType)
    ensures ToPlanTypeByList(planId) == ToPlanType(planId)
    ensures ToPlanType(Name(p)) == Some(p)
  {
    if planId in ValidPlanTypes {
      var i := IndexIn(ValidPlanTypes, planId).value;
      assert Name(AllPlans[i]) == ValidPlanTypes[i];
    }
  }
}
