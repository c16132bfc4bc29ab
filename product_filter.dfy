/**
 * The filter half of the product grid: a product is shown when the search
 * text matches its name or description (ignoring ASCII case) and the
 * selected category admits it. The filter keeps catalog order.
 */
module ProductFilter {
  import opened Wrappers
  import opened Catalog
  import opened Text

  /**
   * The text test: an absent or empty query matches every product; otherwise
   * the lower-cased name or the lower-cased description must contain the
   * lower-cased query.
   */
  predicate MatchesText(p: Product, filterText: Option<string>)
  {
    || filterText.None?
    || filterText.value == ""
    || Contains(Lower(p.name), Lower(filterText.value))
    || Contains(Lower(p.description), Lower(filterText.value))
  }

  /** The category test: no selection or "All" admits every product, otherwise categories must be equal. */
  predicate MatchesCategory(p: Product, category: Option<string>)
  {
    category.None? || category.value == "All" || p.category == category.value
  }

  /** Both tests, as the grid applies them. */
  predicate Shown(p: Product, filterText: Option<string>, category: Option<string>)
  {
    MatchesText(p, filterText) && MatchesCategory(p, category)
  }

  /** The products that pass both tests, in catalog order. */
  function Filter(products: seq<Product>, filterText: Option<string>, category: Option<string>): (r: seq<Product>)
    ensures |r| <= |products|
    ensures forall p :: p in r <==> p in products && Shown(p, filterText, category)
  {
    if products == [] then []
    else
      var rest := Filter(products[1..], filterText, category);
      if Shown(products[0], filterText, category) then [products[0]] + rest else rest
  }

  /**
   * `idx` lists, in increasing order, the positions of `s` that hold the
   * elements of `r`: `r` is the subsequence of `s` at those positions.
   */
  ghost predicate Embedding(idx: seq<int>, r: seq<Product>, s: seq<Product>)
  {
    && |idx| == |r|
    && (forall k :: 0 <= k < |idx| ==> 0 <= idx[k] < |s| && s[idx[k]] == r[k])
    && (forall k, l :: 0 <= k < l < |idx| ==> idx[k] < idx[l])
  }

  /** Every position of `idx`, one further on. */
  function Shift(idx: seq<int>): (r: seq<int>)
    ensures |r| == |idx|
    ensures forall k :: 0 <= k < |idx| ==> r[k] == idx[k] + 1
  {
    seq(|idx|, k requires 0 <= k < |idx| => idx[k] + 1)
  }

  /** An embedding into the tail of `s` shifts to one into `s`, optionally led by position 0. */
  lemma ShiftEmbedding(idx: seq<int>, r: seq<Product>, s: seq<Product>, keepHead: bool)
    requires s != []
    requires Embedding(idx, r, s[1..])
    ensures keepHead ==> Embedding([0] + Shift(idx), [s[0]] + r, s)
    ensures !keepHead ==> Embedding(Shift(idx), r, s)
    ensures 0 !in Shift(idx)
    ensures forall i :: 1 <= i < |s| ==> (i in Shift(idx) <==> i - 1 in idx)
  {
  }

  /**
   * The filter keeps catalog order and drops exactly the positions that fail:
   * its result is the subsequence of the catalog at the positions whose
   * product passes both tests.
   */
  lemma {:induction false} FilterIsSubsequence(products: seq<Product>, filterText: Option<string>, category: Option<string>)
    returns (idx: seq<int>)
    ensures Embedding(idx, Filter(products, filterText, category), products)
    ensures forall i :: 0 <= i < |products| ==> (i in idx <==> Shown(products[i], filterText, category))
  {
    if products == [] {
      idx := [];
    } else {
      var tail := FilterIsSubsequence(products[1..], filterText, category);
      var keep := Shown(products[0], filterText, category);
      ShiftEmbedding(tail, Filter(products[1..], filterText, category), products, keep);
      idx := if keep then [0] + Shift(tail) else Shift(tail);
      forall i | 0 <= i < |products|
        ensures i in idx <==> Shown(products[i], filterText, category)
      {
        if i > 0 {
          assert products[1..][i - 1] == products[i];
        }
      }
    }
  }

  /** Filtering an already filtered list with the same criteria changes nothing. */
  lemma {:induction false} FilterIdempotent(products: seq<Product>, filterText: Option<string>, category: Option<string>)
    ensures Filter(Filter(products, filterText, category), filterText, category) == Filter(products, filterText, category)
  {
    if products != [] {
      FilterIdempotent(products[1..], filterText, category);
      var rest := Filter(products[1..], filterText, category);
      if Shown(products[0], filterText, category) {
        assert ([products[0]] + rest)[1..] == rest;
      }
    }
  }
}
