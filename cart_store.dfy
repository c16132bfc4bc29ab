/**
 * The cart's update rules on the map from product id to cart line, as
 * functions from the old map to the new one. The storefront's methods apply
 * them to its `cartItems` field.
 */
module CartStore {
  import opened Catalog
  import opened CartTotals

  /** Why an explicit quantity change was refused. */
  datatype CartError = ProductNotFound | InvalidQuantity

  datatype Result<T> = Ok(value: T) | Err(error: CartError)

  /**
   * Every line sits under its own product's id and holds between one item
   * and the product's stock.
   */
  ghost predicate WellFormed(items: map<string, CartLine>)
  {
    forall id :: id in items ==> items[id].product.id == id && 1 <= items[id].quantity <= items[id].product.stock
  }

  /** The wanted quantity, cut down to the stock when it exceeds it. */
  function CappedQuantity(wanted: nat, stock: nat): (r: nat)
    ensures r <= stock && r <= wanted
    ensures r == wanted || r == stock
  {
    if wanted <= stock then wanted else stock
  }

  /**
   * Adds `quantity` of `product`: a new line takes the quantity up to the
   * stock, an existing line grows by it up to the stock; the excess is dropped.
   */
  function Added(items: map<string, CartLine>, product: Product, quantity: nat): (r: map<string, CartLine>)
    ensures r.Keys == items.Keys + {product.id}
    ensures forall id :: id in items && id != product.id ==> r[id] == items[id]
    ensures r[product.id].quantity <= product.stock
    ensures r[product.id].quantity
      == CappedQuantity((if product.id in items then items[product.id].quantity else 0) + quantity, product.stock)
    ensures product.id !in items && quantity > product.stock ==> r[product.id].quantity == product.stock
    ensures product.id in items && items[product.id].quantity + quantity > product.stock
      ==> r[product.id].quantity == product.stock
    ensures product.id !in items ==> r[product.id].product == product
    ensures product.id in items ==> r[product.id].product == items[product.id].product
    ensures product.id !in items && quantity <= product.stock ==> r[product.id].quantity == quantity
    ensures product.id in items && items[product.id].quantity + quantity <= product.stock
      ==> r[product.id].quantity == items[product.id].quantity + quantity
    ensures product.id in items && items[product.id].quantity <= product.stock
      ==> items[product.id].quantity <= r[product.id].quantity
  {
    if product.id in items then
      var existing := items[product.id];
      items[product.id := CartLine(existing.product, CappedQuantity(existing.quantity + quantity, product.stock))]
    else
      items[product.id := CartLine(product, CappedQuantity(quantity, product.stock))]
  }

  /** Adding a positive quantity of an in-stock product keeps every line within its bounds. */
  lemma AddedWellFormed(items: map<string, CartLine>, product: Product, quantity: nat)
    requires WellFormed(items)
    requires 1 <= quantity && 1 <= product.stock
    requires product.id in items ==> items[product.id].product == product
    ensures WellFormed(Added(items, product, quantity))
    ensures 1 <= Added(items, product, quantity)[product.id].quantity
  {
  }

  /**
   * Adding changes the item count and the total price by exactly the change
   * of the one line it touches.
   */
  lemma AddedTotals(items: map<string, CartLine>, product: Product, quantity: nat)
    ensures var r := Added(items, product, quantity);
      && ItemCount(r) + (if product.id in items then items[product.id].quantity else 0)
         == ItemCount(items) + r[product.id].quantity
      && TotalPrice(r) + (if product.id in items then LineTotal(items[product.id]) else 0)
         == TotalPrice(items) + LineTotal(r[product.id])
  {
    var r := Added(items, product, quantity);
    assert r == items[product.id := r[product.id]];
    SumByUpdate(items, Quantity, product.id, r[product.id]);
    SumByUpdate(items, LineTotal, product.id, r[product.id]);
  }

  /** Removes the line under `id`; an absent id leaves the cart as it was. */
  function Removed(items: map<string, CartLine>, id: string): (r: map<string, CartLine>)
    ensures r.Keys == items.Keys - {id}
    ensures forall other :: other in r ==> r[other] == items[other]
    ensures id !in items ==> r == items
  {
    items - {id}
  }

  /** Removing a line takes exactly its quantity and price off the totals. */
  lemma RemovedTotals(items: map<string, CartLine>, id: string)
    ensures ItemCount(Removed(items, id)) + (if id in items then items[id].quantity else 0) == ItemCount(items)
    ensures TotalPrice(Removed(items, id)) + (if id in items then LineTotal(items[id]) else 0) == TotalPrice(items)
    ensures WellFormed(items) ==> WellFormed(Removed(items, id))
  {
    if id in items {
      SumByRemove(items, Quantity, id);
      SumByRemove(items, LineTotal, id);
    }
  }

  /**
   * Sets the quantity of the line under `id`, as the cart's quantity spinner
   * does: only a quantity between one and the product's stock is stored.
   */
  function WithQuantity(items: map<string, CartLine>, id: string, quantity: int): (r: Result<map<string, CartLine>>)
    ensures id !in items <==> r == Err(ProductNotFound)
    ensures r.Err? ==> r.error == ProductNotFound || r.error == InvalidQuantity
    ensures r.Ok? <==> id in items && 1 <= quantity <= items[id].product.stock
    ensures r.Ok? ==> r.value.Keys == items.Keys
    ensures r.Ok? ==> r.value[id].product == items[id].product && r.value[id].quantity == quantity
    ensures r.Ok? ==> forall other :: other in items && other != id ==> r.value[other] == items[other]
    ensures r.Ok? && WellFormed(items) ==> WellFormed(r.value)
  {
    if id !in items then Err(ProductNotFound)
    else if quantity < 1 || quantity > items[id].product.stock then Err(InvalidQuantity)
    else Ok(items[id := items[id].(quantity := quantity)])
  }

  /** A stored quantity change moves the item count by the difference of the old and new quantity. */
  lemma WithQuantityTotals(items: map<string, CartLine>, id: string, quantity: int)
    requires WithQuantity(items, id, quantity).Ok?
    ensures ItemCount(WithQuantity(items, id, quantity).value) + items[id].quantity == ItemCount(items) + quantity
    ensures TotalPrice(WithQuantity(items, id, quantity).value) + LineTotal(items[id])
      == TotalPrice(items) + items[id].product.price * quantity
  {
    var line := items[id].(quantity := quantity);
    SumByUpdate(items, Quantity, id, line);
    SumByUpdate(items, LineTotal, id, line);
  }
}
