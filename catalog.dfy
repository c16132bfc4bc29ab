/**
 * The data model of the storefront: a catalog product and a cart line.
 * Prices are whole minor currency units (cents), so that a line's price and
 * the cart's totals are exact.
 */
module Catalog {

  /** One catalog entry; the image reference is a display concern and is not kept. */
  datatype Product = Product(
    id: string,
    name: string,
    description: string,
    price: nat,
    category: string,
    stock: nat)

  /** A cart line: a product together with the quantity ordered. */
  datatype CartLine = CartLine(product: Product, quantity: nat)

  /** The quantity of a line, as a function value for the totals. */
  function Quantity(line: CartLine): nat
  {
    line.quantity
  }

  /** The price of a line: unit price times quantity. */
  function LineTotal(line: CartLine): (r: nat)
    ensures line.quantity >= 1 ==> r >= line.product.price
    ensures r == 0 <==> line.product.price == 0 || line.quantity == 0
  {
    line.product.price * line.quantity
  }

  /** Product ids identify products: two catalog entries with one id are the same entry. */
  ghost predicate UniqueIds(products: seq<Product>)
  {
    forall i, j :: 0 <= i < j < |products| ==> products[i].id != products[j].id
  }

  /** The five products the application starts with (prices in cents). */
  function SeedProducts(): (r: seq<Product>)
    ensures |r| == 5
    ensures UniqueIds(r)
    ensures forall p :: p in r ==> 1 <= p.stock
  {
    [ Product("p1", "Margherita Pizza", "Classic cheese and tomato pizza.", 599, "Pizza", 20),
      Product("p2", "Veggie Burger", "Delicious vegetable patty with fresh salad.", 349, "Burgers", 15),
      Product("p3", "Caesar Salad", "Fresh lettuce with Caesar dressing.", 399, "Salads", 12),
      Product("p4", "Chicken Biryani", "Aromatic spiced chicken and rice.", 999, "Indian", 10),
      Product("p5", "Chocolate Cake", "Rich chocolate layered cake slice.", 500, "Desserts", 8) ]
  }
}
