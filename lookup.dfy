/** The lookup family of the catalog document as functions of the document's
    fields. The methods of `Catalog.StandaloneCatalog` are proved equal to these. */
module Lookup {
  import opened CatalogTypes

  /** Position of the first entry equal to `name`, if there is one. */
  function FirstIndexOf(names: seq<string>, name: string): (r: Option<nat>)
    ensures r.Some? ==> r.value < |names| && names[r.value] == name
    ensures r.Some? ==> forall j :: 0 <= j < r.value ==> names[j] != name
    ensures r.None? <==> name !in names
  {
    if names == [] then None
    else if names[0] == name then Some(0)
    else match FirstIndexOf(names[1..], name)
      case None => None
      case Some(k) => Some(k + 1)
  }

  /** The names of `xs`, in order, as `nameOf` reads them. */
  function Names<T>(xs: seq<T>, nameOf: T -> string): (names: seq<string>)
    ensures |names| == |xs|
    ensures forall i :: 0 <= i < |xs| ==> names[i] == nameOf(xs[i])
  {
    seq(|xs|, i requires 0 <= i < |xs| => nameOf(xs[i]))
  }

  function ProductName(p: Product): string { p.name }

  function PlanName(p: Plan): string { p.name }

  ghost predicate UniquePlanNames(ps: seq<Plan>) {
    forall i, j :: 0 <= i < j < |ps| ==> ps[i].name != ps[j].name
  }

  /** `findCurrentProduct(name)`: the first product, in array order, whose name
      is exactly `name`; a null name, a null array or no match all raise
      CAT_NO_SUCH_PRODUCT carrying `name`. */
  function ProductNamed(products: Option<seq<Product>>, name: Option<string>): (r: Result<Product>)
    ensures r.Err? <==> name.None? || products.None? ||
                        forall i :: 0 <= i < |products.value| ==> products.value[i].name != name.value
    ensures r.Err? ==> r == Throw(CatNoSuchProduct, [name])
    ensures r.Ok? ==> r.value.name == name.value &&
                      exists i :: 0 <= i < |products.value| && products.value[i] == r.value &&
                                  forall j :: 0 <= j < i ==> products.value[j].name != name.value
  {
    if name.None? || products.None? then Throw(CatNoSuchProduct, [name])
    else match FirstIndexOf(Names(products.value, ProductName), name.value)
      case None => Throw(CatNoSuchProduct, [name])
      case Some(i) => Ok(products.value[i])
  }

  /** `findCurrentPlan(name)`: the same search over the plan array, raising
      CAT_NO_SUCH_PLAN. */
  function PlanNamed(plans: Option<seq<Plan>>, name: Option<string>): (r: Result<Plan>)
    ensures r.Err? <==> name.None? || plans.None? ||
                        forall i :: 0 <= i < |plans.value| ==> plans.value[i].name != name.value
    ensures r.Err? ==> r == Throw(CatNoSuchPlan, [name])
    ensures r.Ok? ==> r.value.name == name.value &&
                      exists i :: 0 <= i < |plans.value| && plans.value[i] == r.value &&
                                  forall j :: 0 <= j < i ==> plans.value[j].name != name.value
  {
    if name.None? || plans.None? then Throw(CatNoSuchPlan, [name])
    else match FirstIndexOf(Names(plans.value, PlanName), name.value)
      case None => Throw(CatNoSuchPlan, [name])
      case Some(i) => Ok(plans.value[i])
  }

  /** The period as it appears in a CAT_PLAN_NOT_FOUND diagnostic. */
  function PeriodString(period: Option<BillingPeriod>): (s: string) {
    if period.None? then "NULL" else period.value.name
  }

  /** `findCurrentPlan(productName, period, priceListName)`. */
  function PlanFor(c: Collaborators, products: Option<seq<Product>>, priceLists: Option<PriceListSet>,
                   productName: Option<string>, period: Option<BillingPeriod>,
                   priceListName: Option<string>): (r: Result<Plan>)
    // a null product name is refused before anything else is consulted
    ensures productName.None? ==> r == Throw(CatNullProductName, [])
    // then an absent price-list set
    ensures productName.Some? && priceLists.None? ==> r == Throw(CatPriceListNotFound, [priceListName])
    // then an unknown product
    ensures productName.Some? && priceLists.Some? && ProductNamed(products, productName).Err? ==>
              r == Throw(CatNoSuchProduct, [productName])
    // then the price-list set decides
    ensures productName.Some? && priceLists.Some? && ProductNamed(products, productName).Ok? ==>
              var found := c.getPlanFrom(priceLists.value, priceListName,
                                         ProductNamed(products, productName).value, period);
              && (found.Err? ==> r == Err(found.fault))
              && (found == Ok(None) ==>
                    r == Throw(CatPlanNotFound, [productName, Some(PeriodString(period)), priceListName]))
              && (found.Ok? && found.value.Some? ==> r == Ok(found.value.value))
    ensures r.Ok? ==> productName.Some? && priceLists.Some? && ProductNamed(products, productName).Ok?
  {
    if productName.None? then Throw(CatNullProductName, [])
    else if priceLists.None? then Throw(CatPriceListNotFound, [priceListName])
    else
      var product :- ProductNamed(products, productName);
      var found :- c.getPlanFrom(priceLists.value, priceListName, product, period);
      if found.None? then Throw(CatPlanNotFound, [productName, Some(PeriodString(period)), priceListName])
      else Ok(found.value)
  }

  /** `findCurrentPhase(name)`: the plan named after the phase is looked up and
      asked for the phase. */
  function PhaseNamed(c: Collaborators, plans: Option<seq<Plan>>, name: Option<string>): (r: Result<PlanPhase>)
    ensures name.None? || plans.None? ==> r == Throw(CatNoSuchPhase, [name])
    ensures name.Some? && plans.Some? && c.planName(name.value).Err? ==>
              r == Err(c.planName(name.value).fault)
    ensures name.Some? && plans.Some? && c.planName(name.value).Ok? ==>
              var owner := PlanNamed(plans, Some(c.planName(name.value).value));
              && (owner.Err? ==> r == Throw(CatNoSuchPlan, [Some(c.planName(name.value).value)]))
              && (owner.Ok? ==> r == c.findPhase(owner.value, name.value))
  {
    if name.None? || plans.None? then Throw(CatNoSuchPhase, [name])
    else
      var planName :- c.planName(name.value);
      var plan :- PlanNamed(plans, Some(planName));
      c.findPhase(plan, name.value)
  }

  /** `findCurrentPricelist(name)`: null checks, then the price-list set decides. */
  function PricelistNamed(c: Collaborators, priceLists: Option<PriceListSet>, name: Option<string>): (r: Result<PriceList>)
    ensures name.None? || priceLists.None? ==> r == Throw(CatPriceListNotFound, [name])
    ensures name.Some? && priceLists.Some? ==> r == c.findPriceListFrom(priceLists.value, name)
  {
    if name.None? || priceLists.None? then Throw(CatPriceListNotFound, [name])
    else c.findPriceListFrom(priceLists.value, name)
  }

  /** `findCurrentPriceList(name)`: delegates without a null check, so an
      absent price-list set is a null dereference. */
  function PriceListFrom(c: Collaborators, priceLists: Option<PriceListSet>, name: Option<string>): (r: Result<PriceList>)
    ensures priceLists.None? ==> r == Err(NullPointer)
    ensures priceLists.Some? ==> r == c.findPriceListFrom(priceLists.value, name)
  {
    if priceLists.None? then Err(NullPointer)
    else c.findPriceListFrom(priceLists.value, name)
  }

  /** The two price-list lookups agree when the name and the set are present.
      They part on a null set, which only the checked lookup reports as a
      missing price list, and on a null name, which only the unchecked lookup
      hands on to the set. */
  lemma PriceListLookupsCompared(c: Collaborators, priceLists: Option<PriceListSet>, name: Option<string>)
    ensures name.Some? && priceLists.Some? ==>
              PricelistNamed(c, priceLists, name) == PriceListFrom(c, priceLists, name)
    ensures priceLists.None? ==>
              && PricelistNamed(c, priceLists, name) == Throw(CatPriceListNotFound, [name])
              && PriceListFrom(c, priceLists, name) == Err(NullPointer)
    ensures name.None? && priceLists.Some? ==>
              && PricelistNamed(c, priceLists, name) == Throw(CatPriceListNotFound, [None])
              && PriceListFrom(c, priceLists, name) == c.findPriceListFrom(priceLists.value, None)
  {
  }

  /** `canCreatePlan(specifier)`: product, plan and price list are resolved in
      that order, the first failure propagates, and the answer is whether
      none of the three is retired. */
  function CanCreate(c: Collaborators, products: Option<seq<Product>>, priceLists: Option<PriceListSet>,
                     spec: PlanSpecifier): (r: Result<bool>)
    ensures r.Ok? <==>
              && ProductNamed(products, spec.productName).Ok?
              && PlanFor(c, products, priceLists, spec.productName, spec.period, spec.priceListName).Ok?
              && PriceListFrom(c, priceLists, spec.priceListName).Ok?
    ensures r.Ok? ==>
              (r.value <==>
                 && !ProductNamed(products, spec.productName).value.retired
                 && !PlanFor(c, products, priceLists, spec.productName, spec.period, spec.priceListName).value.retired
                 && !PriceListFrom(c, priceLists, spec.priceListName).value.retired)
    ensures ProductNamed(products, spec.productName).Err? ==> r == Throw(CatNoSuchProduct, [spec.productName])
    ensures ProductNamed(products, spec.productName).Ok? &&
            PlanFor(c, products, priceLists, spec.productName, spec.period, spec.priceListName).Err? ==>
              r == Err(PlanFor(c, products, priceLists, spec.productName, spec.period, spec.priceListName).fault)
    ensures PlanFor(c, products, priceLists, spec.productName, spec.period, spec.priceListName).Ok? &&
            PriceListFrom(c, priceLists, spec.priceListName).Err? ==>
              r == Err(PriceListFrom(c, priceLists, spec.priceListName).fault)
    // the product lookup runs first, so a null product name is reported as an
    // unknown product, never as CAT_NULL_PRODUCT_NAME
    ensures spec.productName.None? ==> r == Throw(CatNoSuchProduct, [None])
    // the plan lookup has already refused an absent price-list set, so the
    // unchecked price-list lookup never dereferences it
    ensures r.Err? && r.fault == NullPointer ==> priceLists.Some?
  {
    var product :- ProductNamed(products, spec.productName);
    var plan :- PlanFor(c, products, priceLists, spec.productName, spec.period, spec.priceListName);
    var priceList :- PriceListFrom(c, priceLists, spec.priceListName);
    Ok(!product.retired && !plan.retired && !priceList.retired)
  }

  /** Each plan of a document whose plan names are unique is found again by
      its own name. */
  lemma {:induction false} PlanNamedFindsEach(plans: seq<Plan>, k: nat)
    requires k < |plans|
    requires UniquePlanNames(plans)
    ensures PlanNamed(Some(plans), Some(plans[k].name)) == Ok(plans[k])
  {
    var r := PlanNamed(Some(plans), Some(plans[k].name));
    assert r.Ok?;
    var i :| 0 <= i < |plans| && plans[i] == r.value &&
             forall j :: 0 <= j < i ==> plans[j].name != plans[k].name;
    assert i == k;
  }

  /** The price-list set only hands out plans owned by the document's plan
      collection (price lists hold plans by reference). */
  ghost predicate SetOffersOwnPlans(c: Collaborators, priceLists: PriceListSet, plans: seq<Plan>) {
    forall name, product, period ::
      c.getPlanFrom(priceLists, name, product, period).Ok? &&
      c.getPlanFrom(priceLists, name, product, period).value.Some? ==>
        c.getPlanFrom(priceLists, name, product, period).value.value in plans
  }

  /** The two `findCurrentPlan` overloads agree: a plan found through a
      (product, period, price list) query is found again by its name. */
  lemma PlanForAgreesWithPlanNamed(c: Collaborators, products: Option<seq<Product>>,
                                   priceLists: Option<PriceListSet>, plans: seq<Plan>,
                                   productName: Option<string>, period: Option<BillingPeriod>,
                                   priceListName: Option<string>)
    requires priceLists.Some? ==> SetOffersOwnPlans(c, priceLists.value, plans)
    requires UniquePlanNames(plans)
    ensures var r := PlanFor(c, products, priceLists, productName, period, priceListName);
            r.Ok? ==> PlanNamed(Some(plans), Some(r.value.name)) == r
  {
    var r := PlanFor(c, products, priceLists, productName, period, priceListName);
    if r.Ok? {
      var product := ProductNamed(products, productName).value;
      assert c.getPlanFrom(priceLists.value, priceListName, product, period) == Ok(Some(r.value));
      assert r.value in plans;
      var k :| 0 <= k < |plans| && plans[k] == r.value;
      PlanNamedFindsEach(plans, k);
    }
  }
}
