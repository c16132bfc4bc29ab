/**
 * The sort half of the product grid: a stable sort of the filtered products
 * by price, ascending ("Low to High") or descending ("High to Low"). Products
 * of equal price keep their relative order.
 */
module PriceSort {
  import opened Catalog

  /** `a` may stand before `b` in the requested direction. */
  predicate InOrder(a: Product, b: Product, descending: bool)
  {
    if descending then a.price >= b.price else a.price <= b.price
  }

  /** Every pair of positions is in the requested price order. */
  ghost predicate Sorted(s: seq<Product>, descending: bool)
  {
    forall i, j :: 0 <= i < j < |s| ==> InOrder(s[i], s[j], descending)
  }

  /** The products of `s` priced at `price`, in their order in `s`. */
  function PriceClass(s: seq<Product>, price: nat): (r: seq<Product>)
    ensures |r| <= |s|
  {
    if s == [] then []
    else (if s[0].price == price then [s[0]] else []) + PriceClass(s[1..], price)
  }

  /**
   * `r` is a permutation of `s` that keeps, for every price, the relative
   * order of the products with that price: what a stable sort by price
   * produces.
   */
  ghost predicate StablePermutation(r: seq<Product>, s: seq<Product>)
  {
    && multiset(r) == multiset(s)
    && forall price :: PriceClass(r, price) == PriceClass(s, price)
  }

  /** A sequence with no product of a price has an empty class for it. */
  lemma {:induction false} PriceClassNone(s: seq<Product>, price: nat)
    requires forall k :: 0 <= k < |s| ==> s[k].price != price
    ensures PriceClass(s, price) == []
  {
    if s != [] {
      PriceClassNone(s[1..], price);
    }
  }

  lemma {:induction false} PriceClassAppend(a: seq<Product>, b: seq<Product>, price: nat)
    ensures PriceClass(a + b, price) == PriceClass(a, price) + PriceClass(b, price)
  {
    if a != [] {
      assert (a + b)[0] == a[0] && (a + b)[1..] == a[1..] + b;
      PriceClassAppend(a[1..], b, price);
      var head := if a[0].price == price then [a[0]] else [];
      assert PriceClass(a + b, price) == head + (PriceClass(a[1..], price) + PriceClass(b, price));
    } else {
      assert a + b == b;
    }
  }

  /** Placing `x` between a prefix it may follow and a suffix that must follow it keeps the order. */
  lemma InsertKeepsSorted(r: seq<Product>, j: nat, x: Product, descending: bool)
    requires j <= |r| && Sorted(r, descending)
    requires forall k :: 0 <= k < j ==> InOrder(r[k], x, descending)
    requires forall k :: j <= k < |r| ==> !InOrder(r[k], x, descending)
    ensures Sorted(r[..j] + [x] + r[j..], descending)
  {
  }

  /** Inserting `x` where no product of its price follows appends `x` to its price class. */
  lemma InsertExtendsClasses(r: seq<Product>, j: nat, x: Product, price: nat)
    requires j <= |r|
    requires forall k :: j <= k < |r| ==> r[k].price != x.price
    ensures PriceClass(r[..j] + [x] + r[j..], price) == PriceClass(r, price) + (if x.price == price then [x] else [])
  {
    assert r == r[..j] + r[j..];
    PriceClassAppend(r[..j] + [x], r[j..], price);
    PriceClassAppend(r[..j], [x], price);
    PriceClassAppend(r[..j], r[j..], price);
    if x.price == price {
      PriceClassNone(r[j..], price);
    }
  }

  /**
   * Inserts `x` into the sorted `r` after every product that may stand before
   * it, so that `x` follows the products of equal price already in `r`.
   */
  method InsertStable(r: seq<Product>, x: Product, descending: bool) returns (r': seq<Product>)
    requires Sorted(r, descending)
    ensures Sorted(r', descending)
    ensures multiset(r') == multiset(r) + multiset{x}
    ensures forall price :: PriceClass(r', price) == PriceClass(r, price) + (if x.price == price then [x] else [])
  {
    var j := |r|;
    while j > 0 && !InOrder(r[j - 1], x, descending)
      invariant 0 <= j <= |r|
      invariant forall k :: j <= k < |r| ==> !InOrder(r[k], x, descending)
    {
      j := j - 1;
    }
    InsertKeepsSorted(r, j, x, descending);
    r' := r[..j] + [x] + r[j..];
    assert r == r[..j] + r[j..];
    forall price
      ensures PriceClass(r', price) == PriceClass(r, price) + (if x.price == price then [x] else [])
    {
      InsertExtendsClasses(r, j, x, price);
    }
  }

  /**
   * Sorts products by price with a stable insertion sort: the result is in
   * the requested order and is a permutation of the input that keeps products
   * of equal price in their input order.
   */
  method SortByPrice(s: seq<Product>, descending: bool) returns (r: seq<Product>)
    ensures Sorted(r, descending)
    ensures StablePermutation(r, s)
  {
    r := [];
    var i := 0;
    while i < |s|
      invariant 0 <= i <= |s|
      invariant Sorted(r, descending)
      invariant multiset(r) == multiset(s[..i])
      invariant forall price :: PriceClass(r, price) == PriceClass(s[..i], price)
    {
      r := InsertStable(r, s[i], descending);
      assert s[..i + 1] == s[..i] + [s[i]];
      forall price
        ensures PriceClass(s[..i + 1], price) == PriceClass(s[..i], price) + (if s[i].price == price then [s[i]] else [])
      {
        PriceClassAppend(s[..i], [s[i]], price);
      }
      i := i + 1;
    }
    assert s[..i] == s;
  }
  /** Two sorted lists with the same products begin with the same price. */
  lemma SortedHeadsAgree(r1: seq<Product>, r2: seq<Product>, descending: bool)
    requires Sorted(r1, descending) && Sorted(r2, descending)
    requires multiset(r1) == multiset(r2) && r1 != []
    ensures r2 != [] && r1[0].price == r2[0].price
  {
    assert r1[0] in multiset(r2);
    var k :| 0 <= k < |r2| && r2[k] == r1[0];
    assert r2[0] in multiset(r1);
    var l :| 0 <= l < |r1| && r1[l] == r2[0];
    assert k == 0 || InOrder(r2[0], r2[k], descending);
    assert l == 0 || InOrder(r1[0], r1[l], descending);
  }

  /** Taking off the first product takes it off its own price class only. */
  lemma PriceClassTail(s: seq<Product>, price: nat)
    requires s != []
    ensures s[0].price == price ==> PriceClass(s, price) == [s[0]] + PriceClass(s[1..], price)
    ensures s[0].price != price ==> PriceClass(s, price) == PriceClass(s[1..], price)
  {
  }

  /** Two lists with equal classes for `price` and one first product have equal tail classes for it. */
  lemma TailClassesAgree(r1: seq<Product>, r2: seq<Product>, price: nat)
    requires r1 != [] && r2 != [] && r1[0] == r2[0]
    requires PriceClass(r1, price) == PriceClass(r2, price)
    ensures PriceClass(r1[1..], price) == PriceClass(r2[1..], price)
  {
    PriceClassTail(r1, price);
    PriceClassTail(r2, price);
    if price == r1[0].price {
      assert PriceClass(r1[1..], price) == PriceClass(r1, price)[1..];
      assert PriceClass(r2[1..], price) == PriceClass(r2, price)[1..];
    }
  }

  /** Two lists with the same products and one first product have tails with the same products. */
  lemma TailMultisetsAgree(r1: seq<Product>, r2: seq<Product>)
    requires r1 != [] && r2 != [] && r1[0] == r2[0]
    requires multiset(r1) == multiset(r2)
    ensures multiset(r1[1..]) == multiset(r2[1..])
  {
    assert r1 == [r1[0]] + r1[1..] && r2 == [r2[0]] + r2[1..];
    assert multiset(r1[1..]) == multiset(r1) - multiset{r1[0]};
    assert multiset(r2[1..]) == multiset(r2) - multiset{r2[0]};
  }

  /** Lists that agree on their first product and on their price classes agree on the classes of their tails. */
  lemma ClassesOfTails(r1: seq<Product>, r2: seq<Product>)
    requires r1 != [] && r2 != [] && r1[0] == r2[0]
    requires StablePermutation(r1, r2)
    ensures StablePermutation(r1[1..], r2[1..])
  {
    forall price
      ensures PriceClass(r1[1..], price) == PriceClass(r2[1..], price)
    {
      TailClassesAgree(r1, r2, price);
    }
    TailMultisetsAgree(r1, r2);
  }

  /**
   * The specification fixes the result: two sorted stable permutations of
   * one list are equal, so any stable sort by price yields what this one does.
   */
  lemma {:induction false} StableSortUnique(r1: seq<Product>, r2: seq<Product>, descending: bool)
    requires Sorted(r1, descending) && Sorted(r2, descending)
    requires StablePermutation(r1, r2)
    ensures r1 == r2
    decreases |r1|
  {
    if r1 == [] {
      assert |r2| == |multiset(r2)| == 0;
    } else {
      SortedHeadsAgree(r1, r2, descending);
      var v := r1[0].price;
      PriceClassTail(r1, v);
      PriceClassTail(r2, v);
      assert PriceClass(r1, v) == PriceClass(r2, v);
      assert r1[0] == PriceClass(r1, v)[0] == PriceClass(r2, v)[0] == r2[0];
      ClassesOfTails(r1, r2);
      StableSortUnique(r1[1..], r2[1..], descending);
      assert r1 == [r1[0]] + r1[1..] && r2 == [r2[0]] + r2[1..];
    }
  }
}
