# Standalone catalog document

This project models `StandaloneCatalog`, the in-memory catalog document of the
billing system's catalog module. The document holds:

- the products
- the plans
- the price-list set
- the plan rules
- the supported currencies
- the effective date
- the URI it was loaded from

It answers these queries:

- find a product, a plan, a phase or a price list by name
- find the plan a price list offers for a product and billing period
- say whether a plan specifier may be created
- list the add-on plans a base product can be sold with

It also runs the `initialize` and `validate` cascades over its entities and has
fluent setters for its fields.

Modules:

- `CatalogTypes` (`types.dfy`):
  - the entities as value datatypes
  - Java `null` as `Option.None`
  - the two ways a query fails, as `Fault`: a `CatalogApiException` carrying
    an error code and arguments, or a `NullPointerException`
  - the calls into other catalog classes, as a `Collaborators` record of
    functions. Its fields are `DefaultPlanPhase.planName`, `Plan.findPhase`,
    `DefaultPriceListSet.getPlanFrom`,
    `DefaultPriceListSet.findPriceListFrom` and `PriceList.findPlan`.
- `Lookup` (`lookup.dfy`): every lookup query as a function of the document's
  fields, with its error cases in the order the source checks them.
- `Addons` (`addons.dfy`): the add-on listing query as three nested folds
  (add-ons, plans, price lists), and what its result contains. A `Filter`
  flag selects between the test as written and the corrected test (see
  Findings).
- `Validation` (`validation.dfy`):
  - the error sink `ValidationErrors`, as a class that only grows
  - the order in which `validate` consults the entities
- `Catalog` (`catalog.dfy`): the class `StandaloneCatalog`. Its fields are
  updated in place by the setters and by `Initialize`. Each lookup method
  carries the loops of the source and is proved equal to its function in
  `Lookup` or `Addons`.

## Model

| member | source | states |
|---|---|---|
| Lookup.FirstIndexOf | catalog/src/main/java/com/ning/billing/catalog/StandaloneCatalog.java:174-179 | The linear scan stops at the first entry equal to the name. No earlier entry matches. There is no result exactly when the name is absent. |
| Lookup.ProductNamed | catalog/src/main/java/com/ning/billing/catalog/StandaloneCatalog.java:170-180 | CAT_NO_SUCH_PRODUCT (carrying the name) is raised exactly when the name is null, the product array is null, or no product has that name. Otherwise the result is the first product in array order with that name. |
| Lookup.PlanNamed | catalog/src/main/java/com/ning/billing/catalog/StandaloneCatalog.java:157-167 | The same as ProductNamed, over the plan array, raising CAT_NO_SUCH_PLAN. |
| Lookup.PlanFor | catalog/src/main/java/com/ning/billing/catalog/StandaloneCatalog.java:140-154 | The checks run in this order. A null product name raises CAT_NULL_PRODUCT_NAME with no arguments. A null price-list set raises CAT_PRICE_LIST_NOT_FOUND(priceListName). An unknown product raises CAT_NO_SUCH_PRODUCT. Then an error of the price-list set propagates. A null plan raises CAT_PLAN_NOT_FOUND(productName, period or "NULL", priceListName). Otherwise the set's plan is returned. |
| Lookup.PhaseNamed | catalog/src/main/java/com/ning/billing/catalog/StandaloneCatalog.java:183-191 | A null name or null plan array raises CAT_NO_SUCH_PHASE(name). Otherwise an error from deriving the plan name propagates. An unknown plan raises CAT_NO_SUCH_PLAN(planName). Otherwise the result is that plan's answer for the phase name. |
| Lookup.PricelistNamed | catalog/src/main/java/com/ning/billing/catalog/StandaloneCatalog.java:194-201 | A null name or null price-list set raises CAT_PRICE_LIST_NOT_FOUND(name). Otherwise the result is the set's answer. |
| Lookup.PriceListFrom | catalog/src/main/java/com/ning/billing/catalog/StandaloneCatalog.java:128-130 | With no null check, a null price-list set is a null dereference. Otherwise the result is the set's answer. |
| Lookup.PriceListLookupsCompared | catalog/src/main/java/com/ning/billing/catalog/StandaloneCatalog.java:128-130 | `findCurrentPricelist` (lines 194-201) and `findCurrentPriceList` agree when a name and a set are present. A null set is CAT_PRICE_LIST_NOT_FOUND(name) for the first and a null dereference for the second. A null name with a set present is CAT_PRICE_LIST_NOT_FOUND(null) for the first, while the second passes null on to the set. |
| Lookup.CanCreate | catalog/src/main/java/com/ning/billing/catalog/StandaloneCatalog.java:310-318 | The answer exists exactly when the product, plan and price-list lookups all succeed. It is true exactly when none of the three is retired. Otherwise the first failure, in that order, propagates. A null product name surfaces as CAT_NO_SUCH_PRODUCT, never as CAT_NULL_PRODUCT_NAME. The unchecked price-list lookup never dereferences a null set. |
| Lookup.PlanNamedFindsEach | catalog/src/main/java/com/ning/billing/catalog/StandaloneCatalog.java:157-167 | When plan names are unique, every plan of the document is found by its own name. |
| Lookup.PlanForAgreesWithPlanNamed | catalog/src/main/java/com/ning/billing/catalog/StandaloneCatalog.java:140-167 | Suppose the price-list set only hands out the document's own plans and plan names are unique. Then a plan found by (product, period, price list) is found again by name. |
| Addons.AddonListings | catalog/src/main/java/com/ning/billing/catalog/StandaloneCatalog.java:320-345 | An unknown or null base product yields the empty list rather than an error. So does a base product that accepts no add-on. The body is the nested iteration: `OverAddons` over the add-ons, `OverPlans` over the plans, `OverPriceLists` over the price lists. `ListingIn` holds the test of lines 331-333, either as written or corrected. |
| Addons.AddonListingsNeverThrowsApi | catalog/src/main/java/com/ning/billing/catalog/StandaloneCatalog.java:324-342 | The query never raises a CatalogApiException. Its only failure is a null dereference. |
| Addons.AddonListingsMembers | catalog/src/main/java/com/ning/billing/catalog/StandaloneCatalog.java:327-337 | In both directions, a (plan, price list) pair is listed exactly when the plan is in the plan array, the plan's product is an add-on of the base product, the price list is in the set, and the price list answers as the test demands. |
| Addons.AddonListingsSafe | catalog/src/main/java/com/ning/billing/catalog/StandaloneCatalog.java:331-332 | As written, the query returns normally when both arrays are present and every price list offering an add-on plan also offers the base product a plan of that period. With the corrected test it returns normally whenever both arrays are present. |
| Addons.AsWrittenFailsExactlyWhereBaseUnpriced | catalog/src/main/java/com/ning/billing/catalog/StandaloneCatalog.java:331-332 | As written, with both arrays present, the query fails exactly when some price list offers an add-on plan but has no plan of that period for the base product. The failure is then a null dereference. This is the converse of AddonListingsSafe. |
| Addons.AsWrittenListsNothing | catalog/src/main/java/com/ning/billing/catalog/StandaloneCatalog.java:329-333 | As written, suppose price lists answer `findPlan` with a plan of the product they were asked about. Then the query lists nothing on any document where no product is among its own add-ons. |
| Addons.IntendedListsOfferedAddons | catalog/src/main/java/com/ning/billing/catalog/StandaloneCatalog.java:327-337 | With both arrays present, the corrected test always returns normally. It lists exactly the add-on plans a price list offers for their add-on, where that price list also offers the base product a plan of the same period. |
| Addons.AsWrittenMissesOfferedAddon | catalog/src/main/java/com/ning/billing/catalog/StandaloneCatalog.java:331-332 | On a concrete document the query as written returns the empty list, while the corrected test lists the offered add-on plan. |
| Validation.ReportsKeepEvery | catalog/src/main/java/com/ning/billing/catalog/StandaloneCatalog.java:249-255 | An error reported by any one entity of an array ends up in the sink. A failing entity does not stop the entities after it. |
| Validation.CatalogValidation | catalog/src/main/java/com/ning/billing/catalog/StandaloneCatalog.java:241-247 | The cascade completes exactly when products, plans, price-list set and rules are all present. A null product array stops it before anything is reported. The product reports come first. |
| Validation.ValidationReportsEveryEntity | catalog/src/main/java/com/ning/billing/catalog/StandaloneCatalog.java:241-255 | A completed cascade reports every error of every product, every plan, the price-list set and the rules. |
| Catalog.StandaloneCatalog.constructor | catalog/src/main/java/com/ning/billing/catalog/StandaloneCatalog.java:81-82 | A new document has every field null. |
| Catalog.StandaloneCatalog.WithEffectiveDate | catalog/src/main/java/com/ning/billing/catalog/StandaloneCatalog.java:84-86 | A new document has the given effective date and every other field null. |
| Catalog.StandaloneCatalog.SetProducts | catalog/src/main/java/com/ning/billing/catalog/StandaloneCatalog.java:274-277 | Overwrites only the products and returns the document itself. |
| Catalog.StandaloneCatalog.SetSupportedCurrencies | catalog/src/main/java/com/ning/billing/catalog/StandaloneCatalog.java:279-282 | Overwrites only the currencies and returns the document itself. |
| Catalog.StandaloneCatalog.SetPlanChangeRules | catalog/src/main/java/com/ning/billing/catalog/StandaloneCatalog.java:284-287 | Overwrites only the plan rules and returns the document itself. |
| Catalog.StandaloneCatalog.SetPlans | catalog/src/main/java/com/ning/billing/catalog/StandaloneCatalog.java:289-292 | Overwrites only the plans and returns the document itself. |
| Catalog.StandaloneCatalog.SetEffectiveDate | catalog/src/main/java/com/ning/billing/catalog/StandaloneCatalog.java:294-297 | Overwrites only the effective date and returns the document itself. |
| Catalog.StandaloneCatalog.SetPlanRules | catalog/src/main/java/com/ning/billing/catalog/StandaloneCatalog.java:299-302 | Overwrites only the plan rules and returns the document itself. |
| Catalog.StandaloneCatalog.SetPriceLists | catalog/src/main/java/com/ning/billing/catalog/StandaloneCatalog.java:304-307 | Overwrites only the price-list set and returns the document itself. |
| Catalog.StandaloneCatalog.FindCurrentProduct | catalog/src/main/java/com/ning/billing/catalog/StandaloneCatalog.java:170-180 | The loop's result is ProductNamed of the current fields. |
| Catalog.StandaloneCatalog.FindCurrentPlanNamed | catalog/src/main/java/com/ning/billing/catalog/StandaloneCatalog.java:157-167 | The loop's result is PlanNamed of the current fields. |
| Catalog.StandaloneCatalog.FindCurrentPlan | catalog/src/main/java/com/ning/billing/catalog/StandaloneCatalog.java:140-154 | The result is PlanFor of the current fields. |
| Catalog.StandaloneCatalog.FindCurrentPhase | catalog/src/main/java/com/ning/billing/catalog/StandaloneCatalog.java:183-191 | The result is PhaseNamed of the current fields. |
| Catalog.StandaloneCatalog.FindCurrentPricelist | catalog/src/main/java/com/ning/billing/catalog/StandaloneCatalog.java:194-201 | The result is PricelistNamed of the current fields. |
| Catalog.StandaloneCatalog.FindCurrentPriceList | catalog/src/main/java/com/ning/billing/catalog/StandaloneCatalog.java:128-130 | The result is PriceListFrom of the current fields. |
| Catalog.StandaloneCatalog.CanCreatePlan | catalog/src/main/java/com/ning/billing/catalog/StandaloneCatalog.java:310-318 | The result is CanCreate of the current fields. |
| Catalog.StandaloneCatalog.GetAvailableAddonListings | catalog/src/main/java/com/ning/billing/catalog/StandaloneCatalog.java:321-345 | The three nested loops build AddonListings with the test as written. |
| Catalog.StandaloneCatalog.ListingsOfAddon | catalog/src/main/java/com/ning/billing/catalog/StandaloneCatalog.java:328-337 | The plan loop for one add-on builds that add-on's fold over the plans. |
| Catalog.StandaloneCatalog.ListingsOfPlan | catalog/src/main/java/com/ning/billing/catalog/StandaloneCatalog.java:330-335 | The price-list loop for one add-on plan builds that plan's fold over the price lists. |
| Catalog.StandaloneCatalog.Initialize | catalog/src/main/java/com/ning/billing/catalog/StandaloneCatalog.java:259-271 | Records the source URI, which is the only field written. It then fails with a null dereference exactly when the rules, the price-list set, the products or the plans are null. |
| Catalog.StandaloneCatalog.ValidateEach | catalog/src/main/java/com/ning/billing/catalog/StandaloneCatalog.java:249-255 | Appends to the sink every entity's reports in array order and returns the sink. A null array is a null dereference and leaves the sink unchanged. |
| Catalog.StandaloneCatalog.Validate | catalog/src/main/java/com/ning/billing/catalog/StandaloneCatalog.java:241-247 | The sink grows by exactly what CatalogValidation reports. The sink is returned exactly when the cascade completes. Otherwise the failure is a null dereference. |

## Left out

- The rule queries at `StandaloneCatalog.java:209-238` (plan change policy and alignment, cancel policy, create alignment, billing alignment, plan change) only delegate to `PlanRules`. `PlanRules` is not part of this model; plan rules are an opaque value.
- The getters at `StandaloneCatalog.java:91-126` and `StandaloneCatalog.java:132-134` return a field unchanged. The model reads the fields directly.
- XML binding, date and URI parsing are left out. `Date`, `URI` and `PlanRules` are opaque types.
- The children's `initialize` and `validate` are not part of this model:
  - in `validate`, each entity validator is a function from the entity to the errors it appends
  - in `initialize`, only the null dereferences are modelled
  - the explicit `catalog` argument of both cascades is not modelled either; the validators are taken as already bound to it
- Catalog.StandaloneCatalog.Initialize: does not state what each child does with the URI (ValidatingConfig's own initialize, the rules, the price-list set, every product and plan). These children are not part of this model, so the contract covers only the URI field and the null dereferences.
- Null entries inside the product, plan, price-list and add-on arrays are not modelled; the model assumes there are none. The same holds for null names, a null add-on array and a null plan product. A null plan specifier in `canCreatePlan` is also not modelled.
- The collaborators' own behaviour is a parameter. `PriceList.findPlan` is taken not to throw. `DefaultPlanPhase.planName` either returns a name or fails.
- Java `equals` on products and plans is structural equality of the values.
- The setters at lines 274-307 store the caller's array reference. Later writes to that array would change what the lookups see. The model stores sequence values, so it has no such aliasing; none of the modelled operations writes to those arrays.
- Addons.AsWrittenListsNothing: add-on graphs are taken to be acyclic. A product value holds its add-ons inside it, so no product is its own add-on, directly or through a cycle. Java's add-on arrays hold references and could list the base product itself. Line 329 would then match the base product's own plans, and line 332 could admit them. The lemma says nothing about such documents.
- The `product != null` test at line 326 has no model. `findCurrentProduct` never returns null; it throws instead, so the test is always true.
- The `catalogName` field has no setter in the source. It is modelled as a field that only the constructors write.
- The plan and price-list loops of `getAvailableAddonListings` are separate static methods of the class. They append the same listings in the same order as the nested loops.

## Findings

| source | as written | input that shows it | evidently intended | confidence | as-written member | corrected member |
|---|---|---|---|---|---|---|
| catalog/src/main/java/com/ning/billing/catalog/StandaloneCatalog.java:331-332 | The test null-checks the price list's plan for the add-on. It then compares the price list's plan for the base product with the add-on plan. The two products are swapped between the two calls. Addons.AsWrittenFailsExactlyWhereBaseUnpriced gives the exact condition for the null dereference. | Base product "basic" accepts add-on "extra". Price list "standard" offers "extra-monthly" for "extra" and "basic-monthly" for "basic". The query lists nothing. A price list that offers the add-on but has no plan for the base product raises a NullPointerException. | Null-check the price list's plan for the base product, then compare its plan for the add-on with the add-on plan. | medium, not executed | Addons.AsWrittenMissesOfferedAddon | Addons.IntendedListsOfferedAddons |
