/** The product list of the administration screen (src/pages/Products.tsx):
    its search filter and the colour of the stock badge. */
module Catalog {
  import opened Types
  import Strings
  import Sequences

  /** The table's search test: the term occurs in the lower-cased name or the
      lower-cased reference (compared with the lower-cased term), or, exactly as
      typed, in the bar code. */
  predicate CatalogMatches(p: Product, searchTerm: string)
  {
    var term := Strings.ToLower(searchTerm);
    Strings.Includes(Strings.ToLower(p.name), term) ||
    Strings.Includes(p.codeBar, searchTerm) ||
    Strings.Includes(Strings.ToLower(p.referance), term)
  }

  function Matcher(searchTerm: string): Product -> bool
  {
    (p: Product) => CatalogMatches(p, searchTerm)
  }

  /** `products?.filter(...) || []`: the matching products in catalog order,
      and nothing while the catalog is still `null`. */
  function FilteredProducts(products: Option<seq<Product>>, searchTerm: string): (r: seq<Product>)
    ensures products.None? ==> r == []
    ensures products.Some? ==>
      Sequences.Subseq(r, products.value) &&
      forall p :: multiset(r)[p] == if CatalogMatches(p, searchTerm) then multiset(products.value)[p] else 0
  {
    Sequences.FilterPresent(products, Matcher(searchTerm))
  }

  /** An empty search term lists the whole catalog. */
  lemma EmptySearchListsAll(products: seq<Product>)
    ensures FilteredProducts(Some(products), "") == products
  {
    forall i | 0 <= i < |products|
      ensures Matcher("")(products[i])
    {
      Strings.IncludesEmpty(products[i].codeBar);
    }
    Sequences.FilterPresentKeepsAll(products, Matcher(""));
  }

  /** Changing the letter case of the name or the reference never changes the
      outcome of the search. */
  lemma NameAndReferenceCaseBlind(p: Product, name: string, referance: string, searchTerm: string)
    requires Strings.ToLower(name) == Strings.ToLower(p.name)
    requires Strings.ToLower(referance) == Strings.ToLower(p.referance)
    ensures CatalogMatches(p.(name := name, referance := referance), searchTerm) == CatalogMatches(p, searchTerm)
  {
  }

  /** The bar code, in contrast, is compared as typed: "ABC" finds a bar code
      "ABC" but "abc" does not. */
  lemma BarCodeCaseSensitive(p: Product)
    requires p.codeBar == "ABC" && p.name == "x" && p.referance == "y"
    ensures CatalogMatches(p, "ABC")
    ensures !CatalogMatches(p, "abc")
  {
    assert Strings.ToLower("x") == "x";
    assert Strings.ToLower("y") == "y";
    assert Strings.ToLower("abc") == "abc";
    assert "ABC" <= p.codeBar;
    assert "ABC"[0] != "abc"[0];
    Strings.IncludesLonger("ABC"[1..], "abc");
    Strings.IncludesLonger("x", "abc");
    Strings.IncludesLonger("y", "abc");
  }

  datatype Badge = Green | Yellow | Red

  /** The stock badge: green above 10, yellow above 5, red otherwise. */
  function StockBadge(quantite: int): (b: Badge)
    ensures b == Green <==> quantite > 10
    ensures b == Yellow <==> 5 < quantite <= 10
    ensures b == Red <==> quantite <= 5
  {
    if quantite > 10 then Green else if quantite > 5 then Yellow else Red
  }
}
