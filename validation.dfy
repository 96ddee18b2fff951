/** The accumulate-don't-throw validation of a catalog document: every entity
    validator appends what it finds to one shared sink. */
module Validation {
  import opened CatalogTypes

  /** The shared, growing list of validation errors. */
  class ValidationErrors {
    var errors: seq<ValidationError>

    constructor ()
      ensures errors == []
    {
      errors := [];
    }

    method AddAll(found: seq<ValidationError>)
      modifies this
      ensures errors == old(errors) + found
    {
      errors := errors + found;
    }
  }

  /** What `check` reports for the entities of `xs`, in array order. */
  function Reports<T>(xs: seq<T>, check: T -> seq<ValidationError>): (reported: seq<ValidationError>)
  {
    if xs == [] then [] else Reports(xs[..|xs| - 1], check) + check(xs[|xs| - 1])
  }

  /** An error reported for any one entity is in the accumulated report: a
      failing entity does not stop the entities after it from being validated. */
  lemma {:induction false} ReportsKeepEvery<T>(xs: seq<T>, check: T -> seq<ValidationError>, i: nat, e: ValidationError)
    requires i < |xs|
    requires e in check(xs[i])
    ensures e in Reports(xs, check)
  {
    if i < |xs| - 1 {
      ReportsKeepEvery(xs[..|xs| - 1], check, i, e);
    }
  }

  /** The errors appended by a `validate` cascade, and whether it ran to the
      end rather than dereferencing an absent collection. */
  datatype Validated = Validated(reported: seq<ValidationError>, completed: bool)

  /** `validate` over the document: products, then plans, then the price-list
      set, then the plan rules. */
  function CatalogValidation(v: Validators, products: Option<seq<Product>>, plans: Option<seq<Plan>>,
                             priceLists: Option<PriceListSet>, rules: Option<PlanRules>): (r: Validated)
    ensures r.completed <==> products.Some? && plans.Some? && priceLists.Some? && rules.Some?
    ensures products.None? ==> r.reported == []
    ensures products.Some? ==> Reports(products.value, v.product) <= r.reported
  {
    if products.None? then Validated([], false)
    else
      var fromProducts := Reports(products.value, v.product);
      if plans.None? then Validated(fromProducts, false)
      else
        var fromPlans := fromProducts + Reports(plans.value, v.plan);
        if priceLists.None? then Validated(fromPlans, false)
        else
          var fromPriceLists := fromPlans + v.priceLists(priceLists.value);
          if rules.None? then Validated(fromPriceLists, false)
          else Validated(fromPriceLists + v.rules(rules.value), true)
  }

  /** A completed cascade reports every error of every entity. */
  lemma ValidationReportsEveryEntity(v: Validators, products: seq<Product>, plans: seq<Plan>,
                                     priceLists: PriceListSet, rules: PlanRules)
    ensures var r := CatalogValidation(v, Some(products), Some(plans), Some(priceLists), Some(rules));
            && r.completed
            && (forall i, e :: 0 <= i < |products| && e in v.product(products[i]) ==> e in r.reported)
            && (forall i, e :: 0 <= i < |plans| && e in v.plan(plans[i]) ==> e in r.reported)
            && (forall e :: e in v.priceLists(priceLists) ==> e in r.reported)
            && (forall e :: e in v.rules(rules) ==> e in r.reported)
  {
    forall i, e | 0 <= i < |products| && e in v.product(products[i])
      ensures e in Reports(products, v.product)
    {
      ReportsKeepEvery(products, v.product, i, e);
    }
    forall i, e | 0 <= i < |plans| && e in v.plan(plans[i])
      ensures e in Reports(plans, v.plan)
    {
      ReportsKeepEvery(plans, v.plan, i, e);
    }
  }
}
