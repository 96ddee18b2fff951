/** `getAvailableAddonListings(baseProductName)` as a function: for each add-on
    the base product accepts, for each plan of that add-on, for each price list,
    one listing when the price list offers the add-on for the plan's period and
    offers exactly that plan for the base product. Each level is a fold taken
    from the back, so that a prefix of a loop's work is the fold of a prefix. */
module Addons {
  import opened CatalogTypes
  import opened Lookup

  /** Which test admits a (plan, price list) pair: the one the source applies,
      or the one it evidently means (see `Intended` below). */
  datatype Filter = AsWritten | Intended

  /** One price list's contribution for one add-on plan. As written, the test
      null-checks the price list's plan for the add-on, then compares the price
      list's plan for the BASE product with the add-on plan, dereferencing null
      when the price list has no plan for the base product. `Intended` swaps
      the two products back: the base product must have a plan in the price
      list, and the price list's plan for the add-on must be this plan. */
  function ListingIn(filter: Filter, c: Collaborators, base: Product, addon: Product, plan: Plan,
                     pl: PriceList): (r: Result<seq<Listing>>)
  {
    if filter == Intended then
      Ok(if c.findPlan(pl, base, plan.period).Some? && c.findPlan(pl, addon, plan.period) == Some(plan)
         then [Listing(plan, pl)] else [])
    else if c.findPlan(pl, addon, plan.period).None? then Ok([])
    else match c.findPlan(pl, base, plan.period)
      case None => Err(NullPointer)
      case Some(q) => Ok(if q == plan then [Listing(plan, pl)] else [])
  }

  function OverPriceLists(filter: Filter, c: Collaborators, base: Product, addon: Product, plan: Plan,
                          lists: seq<PriceList>): (r: Result<seq<Listing>>)
  {
    if lists == [] then Ok([])
    else
      var front :- OverPriceLists(filter, c, base, addon, plan, lists[..|lists| - 1]);
      var last :- ListingIn(filter, c, base, addon, plan, lists[|lists| - 1]);
      Ok(front + last)
  }

  /** The plans of one add-on; the price-list set is dereferenced only for a
      plan of that add-on. */
  function OverPlans(filter: Filter, c: Collaborators, base: Product, addon: Product, plans: seq<Plan>,
                     priceLists: Option<PriceListSet>): (r: Result<seq<Listing>>)
  {
    if plans == [] then Ok([])
    else
      var front :- OverPlans(filter, c, base, addon, plans[..|plans| - 1], priceLists);
      var plan := plans[|plans| - 1];
      if plan.product != addon then Ok(front)
      else if priceLists.None? then Err(NullPointer)
      else
        var last :- OverPriceLists(filter, c, base, addon, plan, priceLists.value.all);
        Ok(front + last)
  }

  /** The add-ons of the base product; the plan array is dereferenced once per add-on. */
  function OverAddons(filter: Filter, c: Collaborators, base: Product, addons: seq<Product>, plans: Option<seq<Plan>>,
                      priceLists: Option<PriceListSet>): (r: Result<seq<Listing>>)
  {
    if addons == [] then Ok([])
    else
      var front :- OverAddons(filter, c, base, addons[..|addons| - 1], plans, priceLists);
      if plans.None? then Err(NullPointer)
      else
        var last :- OverPlans(filter, c, base, addons[|addons| - 1], plans.value, priceLists);
        Ok(front + last)
  }

  /** The whole query. A lookup failure of the base product is swallowed into
      an empty list; a null dereference is not. */
  function AddonListings(filter: Filter, c: Collaborators, products: Option<seq<Product>>, plans: Option<seq<Plan>>,
                         priceLists: Option<PriceListSet>, baseProductName: Option<string>): (r: Result<seq<Listing>>)
    // an unknown or null base product yields the empty list, not an error
    ensures ProductNamed(products, baseProductName).Err? ==> r == Ok([])
    // so does a base product that accepts no add-on
    ensures (ProductNamed(products, baseProductName).Ok? &&
             ProductNamed(products, baseProductName).value.available == []) ==> r == Ok([])
  {
    match ProductNamed(products, baseProductName)
    case Err(f) => if f.Api? then Ok([]) else Err(f)
    case Ok(base) => OverAddons(filter, c, base, base.available, plans, priceLists)
  }

  /** What the price list of a returned listing `l` has to answer. */
  ghost predicate Offered(filter: Filter, c: Collaborators, base: Product, l: Listing) {
    if filter == Intended then
      && c.findPlan(l.priceList, base, l.plan.period).Some?
      && c.findPlan(l.priceList, l.plan.product, l.plan.period) == Some(l.plan)
    else
      && c.findPlan(l.priceList, l.plan.product, l.plan.period).Some?
      && c.findPlan(l.priceList, base, l.plan.period) == Some(l.plan)
  }

  // ---------------------------------------------------------------------------
  // A failure on a prefix is the failure of the whole fold.

  lemma {:induction false} OverPriceListsSticks(filter: Filter, c: Collaborators, base: Product, addon: Product, plan: Plan,
                                                lists: seq<PriceList>, n: nat)
    requires n <= |lists|
    requires OverPriceLists(filter, c, base, addon, plan, lists[..n]).Err?
    ensures OverPriceLists(filter, c, base, addon, plan, lists) == OverPriceLists(filter, c, base, addon, plan, lists[..n])
  {
    if n < |lists| {
      assert lists[..|lists| - 1][..n] == lists[..n];
      OverPriceListsSticks(filter, c, base, addon, plan, lists[..|lists| - 1], n);
    } else {
      assert lists[..n] == lists;
    }
  }

  lemma {:induction false} OverPlansSticks(filter: Filter, c: Collaborators, base: Product, addon: Product, plans: seq<Plan>,
                                           priceLists: Option<PriceListSet>, n: nat)
    requires n <= |plans|
    requires OverPlans(filter, c, base, addon, plans[..n], priceLists).Err?
    ensures OverPlans(filter, c, base, addon, plans, priceLists) == OverPlans(filter, c, base, addon, plans[..n], priceLists)
  {
    if n < |plans| {
      assert plans[..|plans| - 1][..n] == plans[..n];
      OverPlansSticks(filter, c, base, addon, plans[..|plans| - 1], priceLists, n);
    } else {
      assert plans[..n] == plans;
    }
  }

  lemma {:induction false} OverAddonsSticks(filter: Filter, c: Collaborators, base: Product, addons: seq<Product>,
                                            plans: Option<seq<Plan>>, priceLists: Option<PriceListSet>, n: nat)
    requires n <= |addons|
    requires OverAddons(filter, c, base, addons[..n], plans, priceLists).Err?
    ensures OverAddons(filter, c, base, addons, plans, priceLists) == OverAddons(filter, c, base, addons[..n], plans, priceLists)
  {
    if n < |addons| {
      assert addons[..|addons| - 1][..n] == addons[..n];
      OverAddonsSticks(filter, c, base, addons[..|addons| - 1], plans, priceLists, n);
    } else {
      assert addons[..n] == addons;
    }
  }

  // ---------------------------------------------------------------------------
  // What the listings are, level by level: the only failure is a null
  // dereference, and a listing is returned exactly when the filters admit it.

  lemma {:induction false} OverPriceListsMembers(filter: Filter, c: Collaborators, base: Product, addon: Product, plan: Plan,
                                                 lists: seq<PriceList>)
    requires plan.product == addon
    ensures OverPriceLists(filter, c, base, addon, plan, lists).Err? ==>
              OverPriceLists(filter, c, base, addon, plan, lists).fault == NullPointer
    ensures OverPriceLists(filter, c, base, addon, plan, lists).Ok? ==>
              forall l :: l in OverPriceLists(filter, c, base, addon, plan, lists).value <==>
                            l.plan == plan && l.priceList in lists && Offered(filter, c, base, l)
  {
    if lists != [] {
      var front := lists[..|lists| - 1];
      OverPriceListsMembers(filter, c, base, addon, plan, front);
      assert lists == front + [lists[|lists| - 1]];
    }
  }

  lemma {:induction false} OverPlansMembers(filter: Filter, c: Collaborators, base: Product, addon: Product, plans: seq<Plan>,
                                            priceLists: Option<PriceListSet>)
    ensures OverPlans(filter, c, base, addon, plans, priceLists).Err? ==>
              OverPlans(filter, c, base, addon, plans, priceLists).fault == NullPointer
    ensures OverPlans(filter, c, base, addon, plans, priceLists).Ok? ==>
              forall l :: l in OverPlans(filter, c, base, addon, plans, priceLists).value <==>
                            && l.plan in plans && l.plan.product == addon
                            && priceLists.Some? && l.priceList in priceLists.value.all
                            && Offered(filter, c, base, l)
  {
    if plans != [] {
      var front := plans[..|plans| - 1];
      var plan := plans[|plans| - 1];
      OverPlansMembers(filter, c, base, addon, front, priceLists);
      assert plans == front + [plan];
      if plan.product == addon && priceLists.Some? {
        OverPriceListsMembers(filter, c, base, addon, plan, priceLists.value.all);
      }
    }
  }

  lemma {:induction false} OverAddonsMembers(filter: Filter, c: Collaborators, base: Product, addons: seq<Product>,
                                             plans: Option<seq<Plan>>, priceLists: Option<PriceListSet>)
    ensures OverAddons(filter, c, base, addons, plans, priceLists).Err? ==>
              OverAddons(filter, c, base, addons, plans, priceLists).fault == NullPointer
    ensures OverAddons(filter, c, base, addons, plans, priceLists).Ok? ==>
              forall l :: l in OverAddons(filter, c, base, addons, plans, priceLists).value <==>
                            && plans.Some? && l.plan in plans.value && l.plan.product in addons
                            && priceLists.Some? && l.priceList in priceLists.value.all
                            && Offered(filter, c, base, l)
  {
    if addons != [] {
      var front := addons[..|addons| - 1];
      var addon := addons[|addons| - 1];
      OverAddonsMembers(filter, c, base, front, plans, priceLists);
      assert addons == front + [addon];
      if plans.Some? {
        OverPlansMembers(filter, c, base, addon, plans.value, priceLists);
      }
    }
  }

  /** The query never raises a CatalogApiException: it either returns, or
      fails with a null dereference. */
  lemma AddonListingsNeverThrowsApi(filter: Filter, c: Collaborators, products: Option<seq<Product>>,
                                    plans: Option<seq<Plan>>, priceLists: Option<PriceListSet>,
                                    baseProductName: Option<string>)
    ensures AddonListings(filter, c, products, plans, priceLists, baseProductName).Err? ==>
              AddonListings(filter, c, products, plans, priceLists, baseProductName).fault == NullPointer
  {
    var found := ProductNamed(products, baseProductName);
    if found.Ok? {
      OverAddonsMembers(filter, c, found.value, found.value.available, plans, priceLists);
    }
  }

  /** A returned listing is exactly a (plan, price list) pair where the plan
      belongs to an add-on the base product accepts and the price list answers
      as `Offered` demands; the listings are those the nested add-on, plan,
      price-list iteration admits, and no others. */
  lemma AddonListingsMembers(filter: Filter, c: Collaborators, products: Option<seq<Product>>,
                             plans: Option<seq<Plan>>, priceLists: Option<PriceListSet>,
                             baseProductName: Option<string>, l: Listing)
    requires ProductNamed(products, baseProductName).Ok?
    requires AddonListings(filter, c, products, plans, priceLists, baseProductName).Ok?
    ensures var base := ProductNamed(products, baseProductName).value;
            l in AddonListings(filter, c, products, plans, priceLists, baseProductName).value <==>
              && plans.Some? && l.plan in plans.value && l.plan.product in base.available
              && priceLists.Some? && l.priceList in priceLists.value.all
              && Offered(filter, c, base, l)
  {
    var base := ProductNamed(products, baseProductName).value;
    OverAddonsMembers(filter, c, base, base.available, plans, priceLists);
  }

  /** The price lists never miss the base product where they offer one of its
      add-on plans: then the dereference of the source is safe. */
  ghost predicate BasePricedWhereAddonIs(c: Collaborators, base: Product, plans: seq<Plan>, lists: seq<PriceList>) {
    forall plan, pl :: plan in plans && pl in lists && plan.product in base.available &&
                       c.findPlan(pl, plan.product, plan.period).Some? ==>
                         c.findPlan(pl, base, plan.period).Some?
  }

  lemma {:induction false} OverPriceListsSafe(filter: Filter, c: Collaborators, base: Product, addon: Product,
                                              plan: Plan, lists: seq<PriceList>)
    requires filter == AsWritten ==>
               forall pl :: pl in lists && c.findPlan(pl, addon, plan.period).Some? ==>
                              c.findPlan(pl, base, plan.period).Some?
    ensures OverPriceLists(filter, c, base, addon, plan, lists).Ok?
  {
    if lists != [] {
      OverPriceListsSafe(filter, c, base, addon, plan, lists[..|lists| - 1]);
    }
  }

  lemma {:induction false} OverPlansSafe(filter: Filter, c: Collaborators, base: Product, addon: Product,
                                         plans: seq<Plan>, priceSet: PriceListSet)
    requires addon in base.available
    requires filter == AsWritten ==> BasePricedWhereAddonIs(c, base, plans, priceSet.all)
    ensures OverPlans(filter, c, base, addon, plans, Some(priceSet)).Ok?
  {
    if plans != [] {
      var front := plans[..|plans| - 1];
      var plan := plans[|plans| - 1];
      assert filter == AsWritten ==> BasePricedWhereAddonIs(c, base, front, priceSet.all);
      OverPlansSafe(filter, c, base, addon, front, priceSet);
      if plan.product == addon {
        OverPriceListsSafe(filter, c, base, addon, plan, priceSet.all);
      }
    }
  }

  lemma {:induction false} OverAddonsSafe(filter: Filter, c: Collaborators, base: Product, addons: seq<Product>,
                                          plans: seq<Plan>, priceSet: PriceListSet)
    requires forall a :: a in addons ==> a in base.available
    requires filter == AsWritten ==> BasePricedWhereAddonIs(c, base, plans, priceSet.all)
    ensures OverAddons(filter, c, base, addons, Some(plans), Some(priceSet)).Ok?
  {
    if addons != [] {
      OverAddonsSafe(filter, c, base, addons[..|addons| - 1], plans, priceSet);
      OverPlansSafe(filter, c, base, addons[|addons| - 1], plans, priceSet);
    }
  }

  /** The query returns normally whenever both arrays are present and, as
      written, the price lists never miss the base product where they offer
      one of its add-ons; with the intended test, whenever both arrays are
      present. */
  lemma AddonListingsSafe(filter: Filter, c: Collaborators, products: Option<seq<Product>>, plans: seq<Plan>,
                          priceLists: PriceListSet, baseProductName: Option<string>)
    requires filter == AsWritten && ProductNamed(products, baseProductName).Ok? ==>
               BasePricedWhereAddonIs(c, ProductNamed(products, baseProductName).value, plans, priceLists.all)
    ensures AddonListings(filter, c, products, Some(plans), Some(priceLists), baseProductName).Ok?
  {
    var found := ProductNamed(products, baseProductName);
    if found.Ok? {
      OverAddonsSafe(filter, c, found.value, found.value.available, plans, priceLists);
    }
  }

  // ---------------------------------------------------------------------------
  // Conversely, a query that returns normally as written has dereferenced the
  // base product's plan in every price list offering one of its add-on plans.

  lemma {:induction false} OverPriceListsOkCovers(c: Collaborators, base: Product, addon: Product, plan: Plan,
                                                  lists: seq<PriceList>)
    requires OverPriceLists(AsWritten, c, base, addon, plan, lists).Ok?
    ensures forall pl :: pl in lists && c.findPlan(pl, addon, plan.period).Some? ==>
                           c.findPlan(pl, base, plan.period).Some?
  {
    if lists != [] {
      var front := lists[..|lists| - 1];
      OverPriceListsOkCovers(c, base, addon, plan, front);
      assert lists == front + [lists[|lists| - 1]];
    }
  }

  lemma {:induction false} OverPlansOkCovers(c: Collaborators, base: Product, addon: Product, plans: seq<Plan>,
                                             priceSet: PriceListSet)
    requires OverPlans(AsWritten, c, base, addon, plans, Some(priceSet)).Ok?
    ensures forall plan, pl :: plan in plans && plan.product == addon && pl in priceSet.all &&
                               c.findPlan(pl, addon, plan.period).Some? ==>
                                 c.findPlan(pl, base, plan.period).Some?
  {
    if plans != [] {
      var front := plans[..|plans| - 1];
      var plan := plans[|plans| - 1];
      OverPlansOkCovers(c, base, addon, front, priceSet);
      assert plans == front + [plan];
      if plan.product == addon {
        OverPriceListsOkCovers(c, base, addon, plan, priceSet.all);
      }
    }
  }

  lemma {:induction false} OverAddonsOkCovers(c: Collaborators, base: Product, addons: seq<Product>,
                                              plans: seq<Plan>, priceSet: PriceListSet)
    requires OverAddons(AsWritten, c, base, addons, Some(plans), Some(priceSet)).Ok?
    ensures forall plan, pl :: plan in plans && plan.product in addons && pl in priceSet.all &&
                               c.findPlan(pl, plan.product, plan.period).Some? ==>
                                 c.findPlan(pl, base, plan.period).Some?
  {
    if addons != [] {
      var front := addons[..|addons| - 1];
      var addon := addons[|addons| - 1];
      OverAddonsOkCovers(c, base, front, plans, priceSet);
      OverPlansOkCovers(c, base, addon, plans, priceSet);
      assert addons == front + [addon];
    }
  }

  /** With both arrays present, the query as written fails exactly when some
      price list offers an add-on plan but has no plan of that period for the
      base product, and then with a null dereference. */
  lemma AsWrittenFailsExactlyWhereBaseUnpriced(c: Collaborators, products: Option<seq<Product>>, plans: seq<Plan>,
                                               priceLists: PriceListSet, baseProductName: Option<string>)
    requires ProductNamed(products, baseProductName).Ok?
    ensures var r := AddonListings(AsWritten, c, products, Some(plans), Some(priceLists), baseProductName);
            && (r.Ok? <==> BasePricedWhereAddonIs(c, ProductNamed(products, baseProductName).value, plans, priceLists.all))
            && (r.Err? ==> r == Err(NullPointer))
  {
    var base := ProductNamed(products, baseProductName).value;
    var r := AddonListings(AsWritten, c, products, Some(plans), Some(priceLists), baseProductName);
    if BasePricedWhereAddonIs(c, base, plans, priceLists.all) {
      AddonListingsSafe(AsWritten, c, products, plans, priceLists, baseProductName);
    }
    if r.Ok? {
      OverAddonsOkCovers(c, base, base.available, plans, priceLists);
    }
    AddonListingsNeverThrowsApi(AsWritten, c, products, Some(plans), Some(priceLists), baseProductName);
  }

  // ---------------------------------------------------------------------------
  // The test as written never admits an add-on plan; the intended one does.

  /** A price list answers `findPlan` with a plan of the product it was asked about. */
  ghost predicate PlansOfAskedProduct(c: Collaborators) {
    forall pl, product, period :: c.findPlan(pl, product, period).Some? ==>
                                    c.findPlan(pl, product, period).value.product == product
  }

  /** As written, an admitted listing would need a plan owned both by an
      add-on of the base product and by the base product itself. A product
      value cannot be among its own add-ons, so on every document this model
      can express the query lists nothing. */
  lemma AsWrittenListsNothing(c: Collaborators, products: Option<seq<Product>>, plans: Option<seq<Plan>>,
                              priceLists: Option<PriceListSet>, baseProductName: Option<string>)
    requires PlansOfAskedProduct(c)
    requires AddonListings(AsWritten, c, products, plans, priceLists, baseProductName).Ok?
    ensures AddonListings(AsWritten, c, products, plans, priceLists, baseProductName).value == []
  {
    var r := AddonListings(AsWritten, c, products, plans, priceLists, baseProductName);
    if r.value != [] && ProductNamed(products, baseProductName).Ok? {
      var base := ProductNamed(products, baseProductName).value;
      AddonListingsMembers(AsWritten, c, products, plans, priceLists, baseProductName, r.value[0]);
      assert false;
    }
  }

  /** The intended test never dereferences null, and lists exactly the add-on
      plans that a price list offers for their add-on where it also offers the
      base product a plan of the same period. */
  lemma IntendedListsOfferedAddons(c: Collaborators, products: Option<seq<Product>>, plans: seq<Plan>,
                                   priceLists: PriceListSet, baseProductName: Option<string>, l: Listing)
    requires ProductNamed(products, baseProductName).Ok?
    ensures AddonListings(Intended, c, products, Some(plans), Some(priceLists), baseProductName).Ok?
    ensures var base := ProductNamed(products, baseProductName).value;
            l in AddonListings(Intended, c, products, Some(plans), Some(priceLists), baseProductName).value <==>
              && l.plan in plans && l.plan.product in base.available && l.priceList in priceLists.all
              && c.findPlan(l.priceList, base, l.plan.period).Some?
              && c.findPlan(l.priceList, l.plan.product, l.plan.period) == Some(l.plan)
  {
    AddonListingsSafe(Intended, c, products, plans, priceLists, baseProductName);
    AddonListingsMembers(Intended, c, products, Some(plans), Some(priceLists), baseProductName, l);
  }

  // A document on which the two tests differ: base product "basic" accepts
  // the add-on "extra", and the price list "standard" offers "extra-monthly"
  // for "extra" and "basic-monthly" for "basic".
  const Monthly := BillingPeriod("MONTHLY")
  const Extra := Product("extra", false, [])
  const Basic := Product("basic", false, [Extra])
  const ExtraMonthly := Plan("extra-monthly", Extra, Monthly, false)
  const BasicMonthly := Plan("basic-monthly", Basic, Monthly, false)
  const Standard := PriceList("standard", false)

  function ExampleCollaborators(): Collaborators {
    Collaborators(
      name => Ok(name),
      (plan, name) => Ok(PlanPhase(name)),
      (lists, name, product, period) => Ok(None),
      (lists, name) => Throw(CatPriceListNotFound, [name]),
      (pl, product, period) =>
        if product == Extra then Some(ExtraMonthly)
        else if product == Basic then Some(BasicMonthly)
        else None)
  }

  /** On that document the query as written lists nothing, while the
      intended test lists "extra-monthly" through "standard". */
  lemma AsWrittenMissesOfferedAddon()
    ensures AddonListings(AsWritten, ExampleCollaborators(), Some([Basic, Extra]), Some([BasicMonthly, ExtraMonthly]),
                          Some(PriceListSet([Standard])), Some("basic")) == Ok([])
    ensures AddonListings(Intended, ExampleCollaborators(), Some([Basic, Extra]), Some([BasicMonthly, ExtraMonthly]),
                          Some(PriceListSet([Standard])), Some("basic")) == Ok([Listing(ExtraMonthly, Standard)])
  {
    var c := ExampleCollaborators();
    var plans := [BasicMonthly, ExtraMonthly];
    var lists := PriceListSet([Standard]);
    assert "basic"[0] != "extra"[0];
    assert Basic != Extra;
    assert ProductNamed(Some([Basic, Extra]), Some("basic")) == Ok(Basic);
    assert [Extra][..0] == [] && plans[..1] == [BasicMonthly] && [BasicMonthly][..0] == [];
    assert lists.all[..0] == [];
    assert c.findPlan(Standard, Extra, Monthly) == Some(ExtraMonthly);
    assert c.findPlan(Standard, Basic, Monthly) == Some(BasicMonthly);
    assert ListingIn(AsWritten, c, Basic, Extra, ExtraMonthly, Standard) == Ok([]);
    assert ListingIn(Intended, c, Basic, Extra, ExtraMonthly, Standard) == Ok([Listing(ExtraMonthly, Standard)]);
    forall filter: Filter
      ensures OverAddons(filter, c, Basic, [Extra], Some(plans), Some(lists)) ==
              ListingIn(filter, c, Basic, Extra, ExtraMonthly, Standard)
    {
      var step := ListingIn(filter, c, Basic, Extra, ExtraMonthly, Standard);
      assert step.Ok? && [] + step.value == step.value;
      assert OverPriceLists(filter, c, Basic, Extra, ExtraMonthly, lists.all) == step;
      assert OverPlans(filter, c, Basic, Extra, [BasicMonthly], Some(lists)) == Ok([]);
      assert OverPlans(filter, c, Basic, Extra, plans, Some(lists)) == step;
    }
  }
}
