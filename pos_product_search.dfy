/**
 * The POS product search box: typing filters the loaded products by name
 * or SKU, case-insensitively, with the same condition as the products page,
 * keeping at most eight suggestions; choosing one hands it to the page and
 * resets the box.
 */
module PosProductSearch {
  import opened Types
  import Text
  import ProductsPage

  const MaxSuggestions := 8

  /** The suggestions for a typed value: none for an empty value, else the first eight matches. */
  function Suggestions(products: seq<Product>, value: string): (r: seq<Product>)
    ensures |value| == 0 ==> r == []
    ensures |r| <= MaxSuggestions
    ensures |value| > 0 ==> |r| == if |ProductsPage.FilteredProducts(products, value)| < MaxSuggestions then |ProductsPage.FilteredProducts(products, value)| else MaxSuggestions
    ensures |value| > 0 ==> r == ProductsPage.FilteredProducts(products, value)[..|r|]
  {
    if |value| > 0 then
      var filtered := ProductsPage.FilteredProducts(products, value);
      if |filtered| <= MaxSuggestions then filtered else filtered[..MaxSuggestions]
    else []
  }

  /** Every suggestion is a loaded product that matches the value. */
  lemma SuggestionsMatch(products: seq<Product>, value: string)
    ensures forall i :: 0 <= i < |Suggestions(products, value)| ==>
      Suggestions(products, value)[i] in products &&
      Text.Matches(Suggestions(products, value)[i].name, Suggestions(products, value)[i].sku, value)
  {
    var r := Suggestions(products, value);
    if |value| > 0 {
      forall i | 0 <= i < |r| ensures r[i] in products && Text.Matches(r[i].name, r[i].sku, value) {
        assert r[i] == ProductsPage.FilteredProducts(products, value)[i];
      }
    }
  }

  /** The case of the typed value does not change the suggestions. */
  lemma SuggestionsIgnoreCase(products: seq<Product>, value: string)
    ensures Suggestions(products, Text.Lower(value)) == Suggestions(products, value)
  {
    ProductsPage.SearchIgnoresCase(products, value);
  }

  class ProductSearchBox {
    var search: string
    var products: seq<Product>
    var suggestions: seq<Product>
    var showSuggestions: bool
    /** The products handed to `onSelect`, in order. */
    var selected: seq<Product>

    ghost predicate Valid()
      reads this
    {
      && |suggestions| <= MaxSuggestions
      && (search == "" ==> suggestions == [] && !showSuggestions)
    }

    constructor ()
      ensures Valid()
      ensures search == "" && products == [] && suggestions == [] && !showSuggestions && selected == []
    {
      search, products, suggestions, showSuggestions, selected := "", [], [], false, [];
    }

    /** The product list fetched on mount (`data.data || []`). */
    method ProductsLoaded(data: seq<Product>)
      modifies this
      ensures products == data
      ensures search == old(search) && suggestions == old(suggestions)
      ensures showSuggestions == old(showSuggestions) && selected == old(selected)
    {
      products := data;
    }

    method HandleSearch(value: string)
      requires Valid()
      modifies this
      ensures Valid()
      ensures search == value && suggestions == Suggestions(products, value)
      ensures showSuggestions <==> |value| > 0
      ensures products == old(products) && selected == old(selected)
    {
      search := value;
      if |value| > 0 {
        var filtered := ProductsPage.FilteredProducts(products, value);
        suggestions := if |filtered| <= MaxSuggestions then filtered else filtered[..MaxSuggestions];
        showSuggestions := true;
      } else {
        suggestions := [];
        showSuggestions := false;
      }
    }

    method HandleSelect(product: Product)
      modifies this
      ensures Valid()
      ensures selected == old(selected) + [product]
      ensures search == "" && suggestions == [] && !showSuggestions && products == old(products)
    {
      selected := selected + [product];
      search := "";
      suggestions := [];
      showSuggestions := false;
    }

    /** The clear button: like a selection, but nothing is handed on. */
    method Clear()
      modifies this
      ensures Valid()
      ensures search == "" && suggestions == [] && !showSuggestions
      ensures products == old(products) && selected == old(selected)
    {
      search := "";
      suggestions := [];
      showSuggestions := false;
    }

    method OnFocus()
      requires Valid()
      modifies this
      ensures Valid()
      ensures showSuggestions == (old(showSuggestions) || search != "")
      ensures search == old(search) && suggestions == old(suggestions)
      ensures products == old(products) && selected == old(selected)
    {
      if search != "" {
        showSuggestions := true;
      }
    }
  }
}
