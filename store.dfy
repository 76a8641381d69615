/**
 * The application store: the cart slice (the table of lines and whether the
 * cart panel is shown) and the filter slice (the chosen sizes and the sort
 * keys), with one method per action. Replacing fields through the store's
 * setter becomes assignment to the fields.
 */
module Store {
  import opened Dtos
  import opened Cart

  class AppStore {
    var show: bool
    var products: Products
    var sizes: seq<string>
    var sort: seq<Sort>

    /** The initial state: hidden, empty cart, no sizes, sorted by price descending. */
    constructor ()
      ensures !show && products == map[]
      ensures sizes == [] && sort == [Sort(PriceProperty, Desc)]
    {
      show := false;
      products := map[];
      sizes := [];
      sort := [Sort(PriceProperty, Desc)];
    }

    /**
     * A product already in the cart gets one more item, whatever `amount`
     * says, and keeps the product record it was added with; a new product
     * becomes a line holding `amount`.
     */
    method AddProduct(product: ProductDto, amount: int := 1)
      modifies this
      ensures product.sku in old(products) ==>
                products == old(products)[product.sku := Line(old(products)[product.sku].product,
                                                              old(products)[product.sku].amount + 1)]
      ensures product.sku !in old(products) ==> products == old(products)[product.sku := Line(product, amount)]
      ensures products.Keys == old(products).Keys + {product.sku}
      ensures TotalProducts(products) == TotalProducts(old(products)) + (if product.sku in old(products) then 1 else amount)
      ensures Subtotal(products) == Subtotal(old(products)) +
                (if product.sku in old(products) then old(products)[product.sku].product.price
                 else LineValue(Line(product, amount)))
      ensures AllPositive(old(products)) && amount >= 1 ==> AllPositive(products)
      ensures show == old(show) && sizes == old(sizes) && sort == old(sort)
    {
      if product.sku in products {
        Increase(product.sku);
        return;
      }
      PutLine(products, product.sku, Line(product, amount));
      products := products[product.sku := Line(product, amount)];
    }

    /** Sets a present line's amount, to 1 when no amount is given; an absent sku changes nothing. */
    method ChangeProductAmount(sku: Sku, amount: Option<int>)
      modifies this
      ensures sku !in old(products) ==> products == old(products)
      ensures sku in old(products) ==>
                products == old(products)[sku := Line(old(products)[sku].product, amount.GetOr(1))]
      ensures sku in old(products) ==>
                TotalProducts(products) == TotalProducts(old(products)) - old(products)[sku].amount + amount.GetOr(1)
      ensures sku in old(products) ==>
                Subtotal(products) == Subtotal(old(products)) - LineValue(old(products)[sku])
                                      + old(products)[sku].product.price * amount.GetOr(1)
      ensures AllPositive(old(products)) && amount.GetOr(1) >= 1 ==> AllPositive(products)
      ensures show == old(show) && sizes == old(sizes) && sort == old(sort)
    {
      if sku !in products {
        return;
      }
      var line := Line(products[sku].product, amount.GetOr(1));
      PutLine(products, sku, line);
      products := products[sku := line];
    }

    /** Adds `amount` to a present line and keeps its product; an absent sku changes nothing. */
    method Increase(sku: Sku, amount: int := 1)
      modifies this
      ensures sku !in old(products) ==> products == old(products)
      ensures sku in old(products) ==>
                products == old(products)[sku := Line(old(products)[sku].product, old(products)[sku].amount + amount)]
      ensures products.Keys == old(products).Keys
      ensures TotalProducts(products) == TotalProducts(old(products)) + (if sku in old(products) then amount else 0)
      ensures sku in old(products) ==>
                Subtotal(products) == Subtotal(old(products)) + old(products)[sku].product.price * amount
      ensures AllPositive(old(products)) && amount >= 0 ==> AllPositive(products)
      ensures show == old(show) && sizes == old(sizes) && sort == old(sort)
    {
      if sku !in products {
        return;
      }
      ChangeAmount(products, sku, amount);
      products := products[sku := Line(products[sku].product, products[sku].amount + amount)];
    }

    /**
     * Computes `Min(1, old amount - amount)`: a cap at 1, not a floor. The
     * line is left as it was when that is 0 and set to it otherwise; from
     * a line of at least 1, a result below 1 needs an `amount` above 1.
     */
    method Decrease(sku: Sku, amount: int := 1)
      modifies this
      ensures sku !in old(products) ==> products == old(products)
      ensures sku in old(products) ==>
                var n := Min(1, old(products)[sku].amount - amount);
                products == if n == 0 then old(products)
                            else old(products)[sku := Line(old(products)[sku].product, n)]
      ensures products.Keys == old(products).Keys
      ensures sku in old(products) && old(products)[sku].amount != amount ==> products[sku].amount <= 1
      ensures sku in old(products) ==>
                var n := Min(1, old(products)[sku].amount - amount);
                TotalProducts(products) == TotalProducts(old(products)) - (if n == 0 then 0 else old(products)[sku].amount - n)
      ensures sku in old(products) ==>
                var n := Min(1, old(products)[sku].amount - amount);
                Subtotal(products) == Subtotal(old(products))
                                      - (if n == 0 then 0 else LineValue(old(products)[sku]) - old(products)[sku].product.price * n)
      ensures AllPositive(old(products)) && amount == 1 ==> AllPositive(products)
      ensures show == old(show) && sizes == old(sizes) && sort == old(sort)
    {
      if sku !in products {
        return;
      }
      var newAmount := Min(1, products[sku].amount - amount);
      if newAmount == 0 {
        return;
      }
      PutLine(products, sku, Line(products[sku].product, newAmount));
      products := products[sku := Line(products[sku].product, newAmount)];
    }

    /** Deletes the line of `sku`, if any; no other line changes. */
    method RemoveProduct(sku: Sku)
      modifies this
      ensures products == old(products) - {sku}
      ensures TotalProducts(products) == TotalProducts(old(products)) - (if sku in old(products) then old(products)[sku].amount else 0)
      ensures Subtotal(products) == Subtotal(old(products)) - (if sku in old(products) then LineValue(old(products)[sku]) else 0)
      ensures AllPositive(old(products)) ==> AllPositive(products)
      ensures show == old(show) && sizes == old(sizes) && sort == old(sort)
    {
      RemoveLine(products, sku);
      products := products - {sku};
    }

    /** Empties the cart; the panel's visibility is kept. */
    method ClearCart()
      modifies this
      ensures products == map[]
      ensures TotalProducts(products) == 0 && Subtotal(products) == 0 && MaxInstallments(products) == None
      ensures AllPositive(products)
      ensures show == old(show) && sizes == old(sizes) && sort == old(sort)
    {
      EmptyCart();
      products := map[];
    }

    /** Shows the cart panel, or hides it when given `false`. */
    method ShowCart(show: bool := true)
      modifies this
      ensures this.show == show
      ensures products == old(products) && sizes == old(sizes) && sort == old(sort)
      ensures AllPositive(old(products)) ==> AllPositive(products)
    {
      this.show := show;
    }

    /** Replaces the sizes the catalogue is filtered by. */
    method ChangeSizes(sizes: seq<string>)
      modifies this
      ensures this.sizes == sizes
      ensures sort == old(sort) && products == old(products) && show == old(show)
      ensures AllPositive(old(products)) ==> AllPositive(products)
    {
      this.sizes := sizes;
    }

    /** Replaces the sort keys of the catalogue. */
    method ChangeSort(sort: seq<Sort>)
      modifies this
      ensures this.sort == sort
      ensures sizes == old(sizes) && products == old(products) && show == old(show)
      ensures AllPositive(old(products)) ==> AllPositive(products)
    {
      this.sort := sort;
    }
  }

  /**
   * A client of the store: adding the same product twice shows 2 on the badge
   * in one line; setting the amount to 10 shows 10; checking out empties it.
   */
  method BadgeScenario(p: ProductDto)
  {
    var store := new AppStore();
    store.AddProduct(p);
    assert TotalProducts(store.products) == 1;
    store.AddProduct(p);
    assert TotalProducts(store.products) == 2 && store.products.Keys == {p.sku};
    store.ChangeProductAmount(p.sku, Some(10));
    assert TotalProducts(store.products) == 10;
    store.ShowCart();
    store.ClearCart();
    assert TotalProducts(store.products) == 0 && store.show;
  }

  /** A client of the store: what decreasing does to a line of 3, as written. */
  method DecreaseScenario(p: ProductDto)
  {
    var store := new AppStore();
    store.AddProduct(p, 3);
    store.Decrease(p.sku);
    assert store.products[p.sku].amount == 1;
    store.Decrease(p.sku);
    assert store.products[p.sku].amount == 1;
    store.Decrease(p.sku, 2);
    assert store.products[p.sku].amount == -1;
    store.RemoveProduct(p.sku);
    assert store.products == map[];
  }
}
