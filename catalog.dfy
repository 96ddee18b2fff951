/** The catalog document `StandaloneCatalog`: its fields, the setters and the
    `initialize`/`validate` cascades that write them or its error sink, and the
    lookup family, each proved equal to its specification function in `Lookup`
    or `Addons`. A Java `null` field is `None`. */
module Catalog {
  import opened CatalogTypes
  import opened Lookup
  import opened Addons
  import opened Validation

  class StandaloneCatalog {
    var effectiveDate: Option<Date>
    var catalogName: Option<string>
    var catalogURI: Option<Uri>
    var supportedCurrencies: Option<seq<Currency>>
    var products: Option<seq<Product>>
    var planRules: Option<PlanRules>
    var plans: Option<seq<Plan>>
    var priceLists: Option<PriceListSet>

    /** An empty document, as the XML binding creates it before filling it in. */
    constructor ()
      ensures effectiveDate.None? && catalogName.None? && catalogURI.None?
      ensures supportedCurrencies.None? && products.None? && planRules.None?
      ensures plans.None? && priceLists.None?
    {
      effectiveDate, catalogName, catalogURI := None, None, None;
      supportedCurrencies, products, planRules := None, None, None;
      plans, priceLists := None, None;
    }

    constructor WithEffectiveDate(date: Option<Date>)
      ensures effectiveDate == date && catalogName.None? && catalogURI.None?
      ensures supportedCurrencies.None? && products.None? && planRules.None?
      ensures plans.None? && priceLists.None?
    {
      effectiveDate, catalogName, catalogURI := date, None, None;
      supportedCurrencies, products, planRules := None, None, None;
      plans, priceLists := None, None;
    }

    // -------------------------------------------------------------------------
    // Setters: each overwrites one field and returns the document itself.

    method SetProducts(ps: Option<seq<Product>>) returns (self: StandaloneCatalog)
      modifies this`products
      ensures self == this && products == ps
    {
      products := ps;
      self := this;
    }

    method SetSupportedCurrencies(currencies: Option<seq<Currency>>) returns (self: StandaloneCatalog)
      modifies this`supportedCurrencies
      ensures self == this && supportedCurrencies == currencies
    {
      supportedCurrencies := currencies;
      self := this;
    }

    method SetPlanChangeRules(rules: Option<PlanRules>) returns (self: StandaloneCatalog)
      modifies this`planRules
      ensures self == this && planRules == rules
    {
      planRules := rules;
      self := this;
    }

    method SetPlans(ps: Option<seq<Plan>>) returns (self: StandaloneCatalog)
      modifies this`plans
      ensures self == this && plans == ps
    {
      plans := ps;
      self := this;
    }

    method SetEffectiveDate(date: Option<Date>) returns (self: StandaloneCatalog)
      modifies this`effectiveDate
      ensures self == this && effectiveDate == date
    {
      effectiveDate := date;
      self := this;
    }

    method SetPlanRules(rules: Option<PlanRules>) returns (self: StandaloneCatalog)
      modifies this`planRules
      ensures self == this && planRules == rules
    {
      planRules := rules;
      self := this;
    }

    method SetPriceLists(lists: Option<PriceListSet>) returns (self: StandaloneCatalog)
      modifies this`priceLists
      ensures self == this && priceLists == lists
    {
      priceLists := lists;
      self := this;
    }

    // -------------------------------------------------------------------------
    // Lookups

    method FindCurrentProduct(name: Option<string>) returns (r: Result<Product>)
      ensures r == ProductNamed(products, name)
    {
      if name.None? || products.None? {
        return Throw(CatNoSuchProduct, [name]);
      }
      var ps := products.value;
      var i := 0;
      while i < |ps|
        invariant 0 <= i <= |ps|
        invariant forall j :: 0 <= j < i ==> ps[j].name != name.value
      {
        if ps[i].name == name.value {
          assert Names(ps, ProductName)[i] == name.value;
          return Ok(ps[i]);
        }
        i := i + 1;
      }
      return Throw(CatNoSuchProduct, [name]);
    }

    /** The by-name overload of `findCurrentPlan`. */
    method FindCurrentPlanNamed(name: Option<string>) returns (r: Result<Plan>)
      ensures r == PlanNamed(plans, name)
    {
      if name.None? || plans.None? {
        return Throw(CatNoSuchPlan, [name]);
      }
      var ps := plans.value;
      var i := 0;
      while i < |ps|
        invariant 0 <= i <= |ps|
        invariant forall j :: 0 <= j < i ==> ps[j].name != name.value
      {
        if ps[i].name == name.value {
          assert Names(ps, PlanName)[i] == name.value;
          return Ok(ps[i]);
        }
        i := i + 1;
      }
      return Throw(CatNoSuchPlan, [name]);
    }

    /** The (product, period, price list) overload of `findCurrentPlan`. */
    method FindCurrentPlan(c: Collaborators, productName: Option<string>, period: Option<BillingPeriod>,
                           priceListName: Option<string>) returns (r: Result<Plan>)
      ensures r == PlanFor(c, products, priceLists, productName, period, priceListName)
    {
      if productName.None? {
        return Throw(CatNullProductName, []);
      }
      if priceLists.None? {
        return Throw(CatPriceListNotFound, [priceListName]);
      }
      var product := FindCurrentProduct(productName);
      if product.Err? {
        return Err(product.fault);
      }
      var found := c.getPlanFrom(priceLists.value, priceListName, product.value, period);
      if found.Err? {
        return Err(found.fault);
      }
      if found.value.None? {
        var periodString := if period.None? then "NULL" else period.value.name;
        return Throw(CatPlanNotFound, [productName, Some(periodString), priceListName]);
      }
      return Ok(found.value.value);
    }

    method FindCurrentPhase(c: Collaborators, name: Option<string>) returns (r: Result<PlanPhase>)
      ensures r == PhaseNamed(c, plans, name)
    {
      if name.None? || plans.None? {
        return Throw(CatNoSuchPhase, [name]);
      }
      var planName := c.planName(name.value);
      if planName.Err? {
        return Err(planName.fault);
      }
      var plan := FindCurrentPlanNamed(Some(planName.value));
      if plan.Err? {
        return Err(plan.fault);
      }
      r := c.findPhase(plan.value, name.value);
    }

    method FindCurrentPricelist(c: Collaborators, name: Option<string>) returns (r: Result<PriceList>)
      ensures r == PricelistNamed(c, priceLists, name)
    {
      if name.None? || priceLists.None? {
        return Throw(CatPriceListNotFound, [name]);
      }
      r := c.findPriceListFrom(priceLists.value, name);
    }

    method FindCurrentPriceList(c: Collaborators, priceListName: Option<string>) returns (r: Result<PriceList>)
      ensures r == PriceListFrom(c, priceLists, priceListName)
    {
      if priceLists.None? {
        return Err(NullPointer);
      }
      r := c.findPriceListFrom(priceLists.value, priceListName);
    }

    method CanCreatePlan(c: Collaborators, spec: PlanSpecifier) returns (r: Result<bool>)
      ensures r == CanCreate(c, products, priceLists, spec)
    {
      var product := FindCurrentProduct(spec.productName);
      if product.Err? {
        return Err(product.fault);
      }
      var plan := FindCurrentPlan(c, spec.productName, spec.period, spec.priceListName);
      if plan.Err? {
        return Err(plan.fault);
      }
      var priceList := FindCurrentPriceList(c, spec.priceListName);
      if priceList.Err? {
        return Err(priceList.fault);
      }
      return Ok(!product.value.retired && !plan.value.retired && !priceList.value.retired);
    }

    method GetAvailableAddonListings(c: Collaborators, baseProductName: Option<string>)
      returns (r: Result<seq<Listing>>)
      ensures r == AddonListings(AsWritten, c, products, plans, priceLists, baseProductName)
    {
      var found := FindCurrentProduct(baseProductName);
      if found.Err? {
        // no such product: the CatalogApiException is swallowed into an empty list
        return Ok([]);
      }
      var base := found.value;
      var addons := base.available;
      var availAddons: seq<Listing> := [];
      var i := 0;
      while i < |addons|
        invariant 0 <= i <= |addons|
        invariant OverAddons(AsWritten, c, base, addons[..i], plans, priceLists) == Ok(availAddons)
      {
        assert addons[..i + 1][..i] == addons[..i];
        if plans.None? {
          OverAddonsSticks(AsWritten, c, base, addons, plans, priceLists, i + 1);
          return Err(NullPointer);
        }
        var listed := ListingsOfAddon(c, base, addons[i], plans.value, priceLists);
        if listed.Err? {
          OverAddonsSticks(AsWritten, c, base, addons, plans, priceLists, i + 1);
          return Err(listed.fault);
        }
        availAddons := availAddons + listed.value;
        i := i + 1;
      }
      assert addons[..i] == addons;
      return Ok(availAddons);
    }

    /** The middle loop of `getAvailableAddonListings`: the plans of one add-on. */
    static method ListingsOfAddon(c: Collaborators, base: Product, addon: Product, ps: seq<Plan>,
                                  priceLists: Option<PriceListSet>) returns (r: Result<seq<Listing>>)
      ensures r == OverPlans(AsWritten, c, base, addon, ps, priceLists)
    {
      var listed: seq<Listing> := [];
      var j := 0;
      while j < |ps|
        invariant 0 <= j <= |ps|
        invariant OverPlans(AsWritten, c, base, addon, ps[..j], priceLists) == Ok(listed)
      {
        var plan := ps[j];
        assert ps[..j + 1][..j] == ps[..j];
        if plan.product == addon {
          if priceLists.None? {
            OverPlansSticks(AsWritten, c, base, addon, ps, priceLists, j + 1);
            return Err(NullPointer);
          }
          var offered := ListingsOfPlan(c, base, addon, plan, priceLists.value.all);
          if offered.Err? {
            OverPlansSticks(AsWritten, c, base, addon, ps, priceLists, j + 1);
            return Err(offered.fault);
          }
          listed := listed + offered.value;
        }
        j := j + 1;
      }
      assert ps[..j] == ps;
      return Ok(listed);
    }

    /** The inner loop of `getAvailableAddonListings`: the price lists that
        offer one add-on plan. */
    static method ListingsOfPlan(c: Collaborators, base: Product, addon: Product, plan: Plan,
                                 lists: seq<PriceList>) returns (r: Result<seq<Listing>>)
      ensures r == OverPriceLists(AsWritten, c, base, addon, plan, lists)
    {
      var listed: seq<Listing> := [];
      var k := 0;
      while k < |lists|
        invariant 0 <= k <= |lists|
        invariant OverPriceLists(AsWritten, c, base, addon, plan, lists[..k]) == Ok(listed)
      {
        var pl := lists[k];
        assert lists[..k + 1][..k] == lists[..k];
        if c.findPlan(pl, addon, plan.period).Some? {
          var q := c.findPlan(pl, base, plan.period);
          if q.None? {
            // the unchecked dereference of the base product's plan
            OverPriceListsSticks(AsWritten, c, base, addon, plan, lists, k + 1);
            return Err(NullPointer);
          }
          if q.value == plan {
            listed := listed + [Listing(plan, pl)];
            assert ListingIn(AsWritten, c, base, addon, plan, pl) == Ok([Listing(plan, pl)]);
          } else {
            assert ListingIn(AsWritten, c, base, addon, plan, pl) == Ok([]) && listed + [] == listed;
          }
        } else {
          assert ListingIn(AsWritten, c, base, addon, plan, pl) == Ok([]) && listed + [] == listed;
        }
        k := k + 1;
      }
      assert lists[..k] == lists;
      return Ok(listed);
    }

    // -------------------------------------------------------------------------
    // Cascades

    /** `initialize(catalog, sourceURI)`: records the source location, then
        hands it to the rules, the price-list set and every product and plan;
        an absent one of those is dereferenced. */
    method Initialize(sourceURI: Option<Uri>) returns (r: Result<()>)
      modifies this`catalogURI
      ensures catalogURI == sourceURI
      ensures r.Err? <==> planRules.None? || priceLists.None? || products.None? || plans.None?
      ensures r.Err? ==> r.fault == NullPointer
    {
      catalogURI := sourceURI;
      if planRules.None? || priceLists.None? || products.None? || plans.None? {
        return Err(NullPointer);
      }
      return Ok(());
    }

    /** The private helper of `validate`: validates each entity of an array
        into the sink, and returns the sink. */
    method ValidateEach<T>(errors: ValidationErrors, configs: Option<seq<T>>, check: T -> seq<ValidationError>)
      returns (r: Result<ValidationErrors>)
      modifies errors
      ensures configs.None? ==> r == Err(NullPointer) && errors.errors == old(errors.errors)
      ensures configs.Some? ==> r == Ok(errors) && errors.errors == old(errors.errors) + Reports(configs.value, check)
    {
      if configs.None? {
        return Err(NullPointer);
      }
      var xs := configs.value;
      var i := 0;
      while i < |xs|
        invariant 0 <= i <= |xs|
        invariant errors.errors == old(errors.errors) + Reports(xs[..i], check)
      {
        assert xs[..i + 1][..i] == xs[..i];
        errors.AddAll(check(xs[i]));
        i := i + 1;
      }
      assert xs[..i] == xs;
      return Ok(errors);
    }

    /** `validate(catalog, errors)`: products, plans, the price-list set and
        the rules report into one sink, which is returned. */
    method Validate(v: Validators, errors: ValidationErrors) returns (r: Result<ValidationErrors>)
      modifies errors
      ensures errors.errors ==
              old(errors.errors) + CatalogValidation(v, products, plans, priceLists, planRules).reported
      ensures r.Ok? <==> CatalogValidation(v, products, plans, priceLists, planRules).completed
      ensures r.Ok? ==> r.value == errors
      ensures r.Err? ==> r.fault == NullPointer
    {
      r := ValidateEach(errors, products, v.product);
      if r.Err? {
        return;
      }
      r := ValidateEach(errors, plans, v.plan);
      if r.Err? {
        return;
      }
      if priceLists.None? {
        return Err(NullPointer);
      }
      errors.AddAll(v.priceLists(priceLists.value));
      if planRules.None? {
        return Err(NullPointer);
      }
      errors.AddAll(v.rules(planRules.value));
      return Ok(errors);
    }
  }
}
