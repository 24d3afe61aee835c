/** The products page: the product list filtered by the search box. */
module ProductsPage {
  import opened Types
  import Seqs
  import Text

  /** `products.filter(p => name or SKU, lowercased, includes the lowercased search)`. */
  function FilteredProducts(products: seq<Product>, search: string): (r: seq<Product>)
    ensures forall i :: 0 <= i < |r| ==> r[i] in products && Text.Matches(r[i].name, r[i].sku, search)
    ensures forall i :: 0 <= i < |products| && Text.Matches(products[i].name, products[i].sku, search) ==>
      products[i] in r
    ensures Seqs.IsSublist(r, products)
  {
    Seqs.Filter(products, (p: Product) => Text.Matches(p.name, p.sku, search))
  }

  /** An empty search lists every product, in order. */
  lemma EmptySearchKeepsAll(products: seq<Product>)
    ensures FilteredProducts(products, "") == products
  {
    forall i | 0 <= i < |products| ensures Text.Matches(products[i].name, products[i].sku, "") {
      Text.EmptyQueryMatches(products[i].name, products[i].sku);
    }
    Seqs.FilterKeepsAll(products, (p: Product) => Text.Matches(p.name, p.sku, ""));
  }

  /** Lower-casing the search text lists the same products as the text as typed. */
  lemma SearchIgnoresCase(products: seq<Product>, search: string)
    ensures FilteredProducts(products, Text.Lower(search)) == FilteredProducts(products, search)
  {
    forall i | 0 <= i < |products|
      ensures Text.Matches(products[i].name, products[i].sku, Text.Lower(search)) ==
        Text.Matches(products[i].name, products[i].sku, search)
    {
      Text.MatchesIgnoresCase(products[i].name, products[i].sku, search);
    }
    Seqs.FilterCongruent(products,
      (p: Product) => Text.Matches(p.name, p.sku, Text.Lower(search)),
      (p: Product) => Text.Matches(p.name, p.sku, search));
  }
}
