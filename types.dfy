/** Entities of a catalog document and the failures its queries raise.
    Java `null` is `None`; a thrown `CatalogApiException` and an unchecked
    `NullPointerException` are the two arms of `Fault`. */
module CatalogTypes {

  datatype Option<+T> = None | Some(value: T)

  /** Values the document only stores and hands on. */
  type Date
  type Uri
  type PlanRules
  type ValidationError(==)

  datatype Currency = Currency(code: string)

  /** A billing period; `name` is what its `toString` yields. */
  datatype BillingPeriod = BillingPeriod(name: string)

  /** A product with its retirement flag and the add-on products it accepts. */
  datatype Product = Product(name: string, retired: bool, available: seq<Product>)

  /** A plan: its owning product and billing period. */
  datatype Plan = Plan(name: string, product: Product, period: BillingPeriod, retired: bool)

  datatype PlanPhase = PlanPhase(name: string)

  datatype PriceList = PriceList(name: string, retired: bool)

  /** The price-list set; `all` is what `getAllPriceLists` yields. */
  datatype PriceListSet = PriceListSet(all: seq<PriceList>)

  /** A (product name, billing period, price-list name) query, each part nullable. */
  datatype PlanSpecifier = PlanSpecifier(productName: Option<string>,
                                         period: Option<BillingPeriod>,
                                         priceListName: Option<string>)

  /** An add-on plan offered through a price list. */
  datatype Listing = Listing(plan: Plan, priceList: PriceList)

  datatype ErrorCode =
    | CatNullProductName
    | CatNoSuchProduct
    | CatNoSuchPlan
    | CatNoSuchPhase
    | CatPlanNotFound
    | CatPriceListNotFound
    | OtherCode(id: nat)   // codes raised only by collaborators outside this model

  /** The error code and the diagnostic arguments (each possibly null). */
  datatype CatalogApiException = CatalogApiException(code: ErrorCode, args: seq<Option<string>>)

  datatype Fault = Api(error: CatalogApiException) | NullPointer

  datatype Result<+T> = Ok(value: T) | Err(fault: Fault) {
    predicate IsFailure() { Err? }
    function PropagateFailure<U>(): Result<U> requires Err? { Err(fault) }
    function Extract(): T requires Ok? { value }
  }

  function Throw<T>(code: ErrorCode, args: seq<Option<string>>): Result<T> {
    Err(Api(CatalogApiException(code, args)))
  }

  /** Calls into classes whose code is not part of this model:
      `DefaultPlanPhase.planName`, `Plan.findPhase`,
      `DefaultPriceListSet.getPlanFrom`, `DefaultPriceListSet.findPriceListFrom`
      and `PriceList.findPlan`. */
  datatype Collaborators = Collaborators(
    planName: string -> Result<string>,
    findPhase: (Plan, string) -> Result<PlanPhase>,
    getPlanFrom: (PriceListSet, Option<string>, Product, Option<BillingPeriod>) -> Result<Option<Plan>>,
    findPriceListFrom: (PriceListSet, Option<string>) -> Result<PriceList>,
    findPlan: (PriceList, Product, BillingPeriod) -> Option<Plan>)

  /** The entity validators the `validate` cascade calls, already bound to the
      catalog they validate against. */
  datatype Validators = Validators(
    product: Product -> seq<ValidationError>,
    plan: Plan -> seq<ValidationError>,
    priceLists: PriceListSet -> seq<ValidationError>,
    rules: PlanRules -> seq<ValidationError>)
}
