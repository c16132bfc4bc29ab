/**
 * The derived totals of the cart: the item count is the sum of the line
 * quantities and the total price is the sum of the line prices. The cart is a
 * map, whose iteration order is arbitrary, so the sums are defined by picking
 * any key, and proved independent of the key picked.
 */
module CartTotals {
  import opened Catalog

  /** The sum of `f` over the lines of `m`. */
  ghost function SumBy(m: map<string, CartLine>, f: CartLine -> nat): nat
    decreases |m|
  {
    if m == map[] then 0
    else
      var id :| id in m;
      assert |m - {id}| < |m| by {
        assert (m - {id}).Keys == m.Keys - {id};
      }
      f(m[id]) + SumBy(m - {id}, f)
  }

  /** The sum does not depend on the order of the lines: any line may be taken out first. */
  lemma {:induction false} SumByRemove(m: map<string, CartLine>, f: CartLine -> nat, id: string)
    requires id in m
    ensures SumBy(m, f) == f(m[id]) + SumBy(m - {id}, f)
    decreases |m|
  {
    var picked :| picked in m && SumBy(m, f) == f(m[picked]) + SumBy(m - {picked}, f);
    if picked != id {
      assert (m - {picked}).Keys == m.Keys - {picked};
      assert (m - {id}).Keys == m.Keys - {id};
      SumByRemove(m - {picked}, f, id);
      SumByRemove(m - {id}, f, picked);
      assert m - {picked} - {id} == m - {id} - {picked};
    }
  }

  /** Replacing or adding the line under `id` changes the sum by the difference of the two lines. */
  lemma SumByUpdate(m: map<string, CartLine>, f: CartLine -> nat, id: string, line: CartLine)
    ensures SumBy(m[id := line], f) + (if id in m then f(m[id]) else 0) == SumBy(m, f) + f(line)
  {
    SumByRemove(m[id := line], f, id);
    if id in m {
      SumByRemove(m, f, id);
      assert m[id := line] - {id} == m - {id};
    } else {
      assert m[id := line] - {id} == m;
    }
  }

  /** The number of items in the cart: the sum of the line quantities. */
  ghost function ItemCount(m: map<string, CartLine>): (r: nat)
    ensures m == map[] ==> r == 0
  {
    SumBy(m, Quantity)
  }

  /** The price of the cart: the sum of the line prices. */
  ghost function TotalPrice(m: map<string, CartLine>): (r: nat)
    ensures m == map[] ==> r == 0
  {
    SumBy(m, LineTotal)
  }

  /** A cart whose lines all hold at least one item counts at least one item per line. */
  lemma {:induction false} ItemCountAtLeastLines(m: map<string, CartLine>)
    requires forall id :: id in m ==> 1 <= m[id].quantity
    ensures ItemCount(m) >= |m|
    ensures ItemCount(m) == 0 <==> m == map[]
    decreases |m|
  {
    if m != map[] {
      var id :| id in m;
      SumByRemove(m, Quantity, id);
      assert (m - {id}).Keys == m.Keys - {id};
      ItemCountAtLeastLines(m - {id});
    }
  }

  /** A cart of one line totals that line. */
  lemma SingleLineTotals(id: string, line: CartLine)
    ensures ItemCount(map[id := line]) == line.quantity
    ensures TotalPrice(map[id := line]) == LineTotal(line)
  {
    SumByRemove(map[id := line], Quantity, id);
    SumByRemove(map[id := line], LineTotal, id);
    assert map[id := line] - {id} == map[];
  }

  /**
   * Computes both totals in one pass over the cart, taking the lines in
   * whatever order the map yields them.
   */
  method ComputeTotals(m: map<string, CartLine>) returns (count: nat, total: nat)
    ensures count == ItemCount(m) && total == TotalPrice(m)
  {
    count, total := 0, 0;
    var rest := m;
    while rest != map[]
      invariant count + ItemCount(rest) == ItemCount(m)
      invariant total + TotalPrice(rest) == TotalPrice(m)
      decreases |rest|
    {
      var id :| id in rest;
      SumByRemove(rest, Quantity, id);
      SumByRemove(rest, LineTotal, id);
      count := count + rest[id].quantity;
      total := total + LineTotal(rest[id]);
      assert (rest - {id}).Keys == rest.Keys - {id};
      rest := rest - {id};
    }
  }
}
