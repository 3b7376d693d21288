/** The search results page: the catalog filtered by the `q` query parameter. */
module SearchResults {
  import opened Types
  import opened Text
  import opened Lists

  /** The lowercased query occurs in the product's lowercased title, description or category. */
  predicate Matches(p: Product, lowerQuery: string) {
    Contains(LowerStr(p.title), lowerQuery) ||
    Contains(LowerStr(p.description), lowerQuery) ||
    Contains(LowerStr(p.category), lowerQuery)
  }

  /**
   * The results shown for `query` (an absent parameter is the empty query): nothing
   * for an empty query or an empty catalog, otherwise the matching products in
   * catalog order.
   */
  function Search(query: string, products: seq<Product>): (r: seq<Product>)
    ensures query == "" ==> r == []
    ensures products == [] ==> r == []
    ensures query != "" ==> forall p :: p in r <==> p in products && Matches(p, LowerStr(query))
    ensures IsSubsequence(r, products)
  {
    if query != "" && |products| > 0 then
      FilterIsSubsequence(products, p => Matches(p, LowerStr(query)));
      Filter(products, p => Matches(p, LowerStr(query)))
    else
      assert IsSubsequence([], products);
      []
  }

  /** Each product appears in the results as often as in the catalog, or not at all. */
  lemma SearchMultiplicity(query: string, products: seq<Product>, p: Product)
    requires query != ""
    ensures multiset(Search(query, products))[p] ==
      if Matches(p, LowerStr(query)) then multiset(products)[p] else 0
  {
    if |products| > 0 {
      FilterMultiset(products, p => Matches(p, LowerStr(query)), p);
    }
  }

  /** Two queries that differ only in letter case give the same results. */
  lemma SearchIgnoresCase(q1: string, q2: string, products: seq<Product>)
    requires LowerStr(q1) == LowerStr(q2)
    ensures Search(q1, products) == Search(q2, products)
  {
    assert |q1| == |LowerStr(q1)| == |LowerStr(q2)| == |q2|;
    if q1 != "" && |products| > 0 {
      FilterCongruent(products, p => Matches(p, LowerStr(q1)), p => Matches(p, LowerStr(q2)));
    }
  }

  /** A query that is `toLowerCase` of any part of a product's title finds the product. */
  lemma TitleFragmentFinds(p: Product, products: seq<Product>, i: nat, j: nat)
    requires p in products
    requires i < j <= |p.title|
    ensures p in Search(p.title[i..j], products)
  {
    var q := p.title[i..j];
    var lt := LowerStr(p.title);
    assert lt[i..j] == LowerStr(q);
    assert OccursAt(lt, LowerStr(q), i);
  }
}
