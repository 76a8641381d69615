/**
 * Value types shared by the cart store and the product service: the product
 * record the catalogue hands out, and the sort keys a page request carries.
 */
module Dtos {

  datatype Option<+T> = None | Some(value: T) {
    /** The value, or the given default when absent (the `??` operator). */
    function GetOr(default: T): T {
      match this
      case Some(v) => v
      case None => default
    }
  }

  /**
   * A product's sku. Skus are numbers and the cart uses them as object keys.
   * The model lists the cart's lines in ascending sku order. JavaScript does
   * so only for array-index keys (integers below 2^32 - 1) and lists larger
   * keys in insertion order; the cart's folds do not depend on the order.
   */
  type Sku = nat

  /**
   * The catalogue record. Prices are integer cents (the source uses
   * JavaScript numbers); a missing installment count is `None`.
   */
  datatype ProductDto = ProductDto(
    sku: Sku,
    title: string,
    style: Option<string>,
    price: int,
    currencyFormat: string,
    installments: Option<int>,
    isFreeShipping: bool,
    availableSizes: seq<string>)

  datatype Order = Asc | Desc

  /** The numeric properties of a product that a sort key may name. */
  datatype Property = PriceProperty | SkuProperty

  /** One sort key of a page request. */
  datatype Sort = Sort(property: Property, order: Order)

  /** The value of property `prop` of product `p`. */
  function KeyOf(p: ProductDto, prop: Property): int {
    match prop
    case PriceProperty => p.price
    case SkuProperty => p.sku
  }
}
