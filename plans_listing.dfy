/** `PlansController.plansList`: the public view of the configured plans. */
module PlansListing {
  import opened Wrappers
  import opened JsonValues

  /** A configured plan as the plan catalogue returns it (`getAll`); `unavailable` is
      whatever the configuration holds, possibly nothing. */
  datatype CatalogPlan = CatalogPlan(id: string, billingId: string, name: string, unavailable: Option<Json>)

  /** The API's plan: the billing id is not exposed and `unavailable` is present only when
      it is truthy. */
  datatype ApiPlan = ApiPlan(id: string, name: string, unavailable: Option<Json>)

  function Project(p: CatalogPlan): ApiPlan {
    ApiPlan(p.id, p.name, if Defined(p.unavailable) then p.unavailable else None)
  }

  /** `plansList(startKey, limit)`: every plan, projected, in catalogue order; a catalogue
      that fails makes the listing fail. Pagination is not implemented. */
  function PlansList(all: Result<seq<CatalogPlan>, string>, startKey: string, limit: int)
    : Result<seq<ApiPlan>, string>
  {
    match all
    case Failure(e) => Failure(e)
    case Success(ps) => Success(seq(|ps|, i requires 0 <= i < |ps| => Project(ps[i])))
  }

  /** The listing has one entry per catalogue plan, in the same order, with the same id and
      name; `unavailable` is kept when truthy and dropped otherwise; the page arguments make
      no difference. */
  lemma PlansListMeaning(all: Result<seq<CatalogPlan>, string>, startKey: string, limit: int,
                         startKey': string, limit': int)
    ensures var r := PlansList(all, startKey, limit);
      r == PlansList(all, startKey', limit')
      && (r.Success? <==> all.Success?)
      && (all.Failure? ==> r.error == all.error)
      && (all.Success? ==>
            |r.value| == |all.value|
            && forall i :: 0 <= i < |all.value| ==>
                 r.value[i].id == all.value[i].id && r.value[i].name == all.value[i].name
                 && (r.value[i].unavailable.Some? <==> Defined(all.value[i].unavailable))
                 && (r.value[i].unavailable.Some? ==> r.value[i].unavailable == all.value[i].unavailable))
  {
  }
}
