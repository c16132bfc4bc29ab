/**
 * The storefront's state: the fixed catalog, the cart map keyed by product
 * id, and the two values the header and cart labels show (item count and
 * total price). Every cart mutation recomputes the two totals, so they always
 * equal the sums over the cart.
 */
module Storefront {
  import opened Wrappers
  import opened Catalog
  import opened CartTotals
  import opened CartStore
  import opened ProductFilter
  import opened PriceSort

  /** How a checkout attempt ends. */
  datatype CheckoutOutcome =
    | EmptyCartNotice  // the cart was empty: a notice, no confirmation asked
    | Purchased        // the user confirmed: the cart was emptied
    | Cancelled        // the user declined or closed the dialog: nothing changed

  class Storefront {
    const products: seq<Product>
    var cartItems: map<string, CartLine>
    var cartCount: nat
    var totalPrice: nat

    /**
     * Catalog ids are unique, every cart line is well formed and belongs to
     * a catalog product, and the labels show the current totals.
     */
    ghost predicate Valid()
      reads this
    {
      && UniqueIds(products)
      && WellFormed(cartItems)
      && (forall id :: id in cartItems ==> cartItems[id].product in products)
      && cartCount == ItemCount(cartItems)
      && totalPrice == TotalPrice(cartItems)
    }

    constructor (catalog: seq<Product>)
      requires UniqueIds(catalog)
      ensures Valid()
      ensures products == catalog && cartItems == map[]
      ensures cartCount == 0 && totalPrice == 0
    {
      products := catalog;
      cartItems := map[];
      cartCount, totalPrice := 0, 0;
    }

    /** Whether the cart has no lines. */
    predicate IsEmpty()
      reads this
    {
      cartItems == map[]
    }

    /** Recomputes the two labels from the cart. */
    method UpdateCartCountAndTotal()
      modifies this`cartCount, this`totalPrice
      ensures cartCount == ItemCount(cartItems) && totalPrice == TotalPrice(cartItems)
    {
      cartCount, totalPrice := ComputeTotals(cartItems);
    }

    /** Two catalog products with one id are one product. */
    lemma SameIdSameProduct(p: Product, q: Product)
      requires UniqueIds(products) && p in products && q in products && p.id == q.id
      ensures p == q
    {
    }

    /** Adds `quantity` of a catalog product, merging with its line and capping at its stock. */
    method AddToCart(product: Product, quantity: nat)
      requires Valid()
      requires product in products
      requires 1 <= quantity && 1 <= product.stock
      modifies this`cartItems, this`cartCount, this`totalPrice
      ensures Valid()
      ensures cartItems == Added(old(cartItems), product, quantity)
      ensures cartCount + (if product.id in old(cartItems) then old(cartItems)[product.id].quantity else 0)
        == old(cartCount) + cartItems[product.id].quantity
    {
      if product.id in cartItems {
        SameIdSameProduct(cartItems[product.id].product, product);
      }
      AddedWellFormed(cartItems, product, quantity);
      AddedTotals(cartItems, product, quantity);
      cartItems := Added(cartItems, product, quantity);
      UpdateCartCountAndTotal();
    }

    /** Removes the line of a product; removing an id that is not in the cart changes nothing. */
    method RemoveItem(id: string)
      requires Valid()
      modifies this`cartItems, this`cartCount, this`totalPrice
      ensures Valid()
      ensures cartItems == Removed(old(cartItems), id)
      ensures id !in old(cartItems) ==> cartItems == old(cartItems) && cartCount == old(cartCount)
    {
      RemovedTotals(cartItems, id);
      cartItems := Removed(cartItems, id);
      UpdateCartCountAndTotal();
    }

    /**
     * Sets a line's quantity from the cart's quantity spinner; a quantity
     * outside one to the product's stock, or an id not in the cart, is
     * refused and changes nothing.
     */
    method SetQuantity(id: string, quantity: int) returns (refused: Option<CartError>)
      requires Valid()
      modifies this`cartItems, this`cartCount, this`totalPrice
      ensures Valid()
      ensures refused.None? <==> WithQuantity(old(cartItems), id, quantity).Ok?
      ensures refused.None? ==> cartItems == WithQuantity(old(cartItems), id, quantity).value
      ensures refused.Some? ==> refused.value == WithQuantity(old(cartItems), id, quantity).error
      ensures refused.Some? ==> cartItems == old(cartItems) && cartCount == old(cartCount) && totalPrice == old(totalPrice)
    {
      var result := WithQuantity(cartItems, id, quantity);
      if result.Ok? {
        cartItems := result.value;
        UpdateCartCountAndTotal();
        refused := None;
      } else {
        refused := Some(result.error);
      }
    }

    /** Empties the cart; both totals drop to zero. */
    method Clear()
      requires Valid()
      modifies this`cartItems, this`cartCount, this`totalPrice
      ensures Valid()
      ensures cartItems == map[] && cartCount == 0 && totalPrice == 0
    {
      cartItems := map[];
      UpdateCartCountAndTotal();
    }

    /**
     * Checkout: an empty cart only gets a notice; otherwise the cart is
     * emptied if and only if the user confirms.
     */
    method HandleCheckout(confirmed: bool) returns (outcome: CheckoutOutcome)
      requires Valid()
      modifies this`cartItems, this`cartCount, this`totalPrice
      ensures Valid()
      ensures old(cartItems) == map[] ==> outcome == EmptyCartNotice
      ensures old(cartItems) != map[] && confirmed ==> outcome == Purchased
      ensures old(cartItems) != map[] && !confirmed ==> outcome == Cancelled
      ensures outcome == Purchased ==> cartItems == map[] && cartCount == 0 && totalPrice == 0
      ensures outcome != Purchased ==> cartItems == old(cartItems) && cartCount == old(cartCount) && totalPrice == old(totalPrice)
    {
      if IsEmpty() {
        return EmptyCartNotice;
      }
      if confirmed {
        Clear();
        outcome := Purchased;
      } else {
        outcome := Cancelled;
      }
    }

    /**
     * The products the grid shows: the catalog filtered by search text and
     * category, then sorted by price when the sort box asks for it.
     */
    method UpdateProductGrid(filterText: Option<string>, category: Option<string>, sortOption: Option<string>)
      returns (shown: seq<Product>)
      ensures forall p :: p in shown <==> p in products && Shown(p, filterText, category)
      ensures sortOption == Some("Low to High") ==> Sorted(shown, false)
      ensures sortOption == Some("High to Low") ==> Sorted(shown, true)
      ensures StablePermutation(shown, Filter(products, filterText, category))
      ensures sortOption != Some("Low to High") && sortOption != Some("High to Low")
        ==> shown == Filter(products, filterText, category)
    {
      var filtered := Filter(products, filterText, category);
      if sortOption == Some("Low to High") {
        shown := SortByPrice(filtered, false);
      } else if sortOption == Some("High to Low") {
        shown := SortByPrice(filtered, true);
      } else {
        shown := filtered;
      }
      forall p
        ensures p in shown <==> p in filtered
      {
        assert p in shown <==> p in multiset(shown);
        assert p in filtered <==> p in multiset(filtered);
      }
    }
  }

  /**
   * The pizza scenario: 3 pizzas at 5.99 make 3 items for 17.97; asking for 25
   * more caps the line at the stock of 20, for 119.80; checking out empties the cart.
   */
  method PizzaScenario()
  {
    var store := new Storefront(SeedProducts());
    var pizza := SeedProducts()[0];
    store.AddToCart(pizza, 3);
    SingleLineTotals("p1", store.cartItems["p1"]);
    assert store.cartItems == map["p1" := CartLine(pizza, 3)];
    assert store.cartCount == 3 && store.totalPrice == 1797;
    store.AddToCart(pizza, 25);
    SingleLineTotals("p1", store.cartItems["p1"]);
    assert store.cartItems == map["p1" := CartLine(pizza, 20)];
    assert store.cartCount == 20 && store.totalPrice == 11980;
    var outcome := store.HandleCheckout(true);
    assert outcome == Purchased && store.IsEmpty() && store.totalPrice == 0;
  }
}
