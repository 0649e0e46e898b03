/** The product list: the category dropdown, the search and category filter, the stock badge
    and the "showing X of Y" counter. Nothing here changes state. */
module ProductTable {
  import opened Wrappers
  import opened Text
  import Seqs

  datatype Product = Product(
    id: string, name: string, description: Option<string>, price: int, quantity: int,
    barCode: Option<string>, sku: Option<string>, category: string)

  // ---------------------------------------------------------------------------
  // Categories: `Array.from(new Set(products.map(p => p.category))).sort()`

  /** The order of the default `Array.prototype.sort` on strings: lexicographic on characters. */
  predicate Less(a: string, b: string)
    decreases |a|
  {
    if a == [] then b != []
    else if b == [] then false
    else if a[0] != b[0] then a[0] < b[0]
    else Less(a[1..], b[1..])
  }

  lemma {:induction false} LessIrreflexive(a: string)
    ensures !Less(a, a)
  {
    if a != [] { LessIrreflexive(a[1..]); }
  }

  lemma {:induction false} LessTransitive(a: string, b: string, c: string)
    requires Less(a, b) && Less(b, c)
    ensures Less(a, c)
    decreases |a|
  {
    if a != [] && b != [] && c != [] && a[0] == b[0] && b[0] == c[0] {
      LessTransitive(a[1..], b[1..], c[1..]);
    }
  }

  lemma {:induction false} LessTotal(a: string, b: string)
    ensures a == b || Less(a, b) || Less(b, a)
    decreases |a|
  {
    if a != [] && b != [] && a[0] == b[0] {
      LessTotal(a[1..], b[1..]);
      if a[1..] == b[1..] {
        assert a == [a[0]] + a[1..] && b == [b[0]] + b[1..];
      }
    }
  }

  /** Sorted with no repeats. */
  predicate StrictlySorted(s: seq<string>) {
    forall i, j :: 0 <= i < j < |s| ==> Less(s[i], s[j])
  }

  /** Inserts `x` into a strictly sorted list unless it is already there. */
  function Insert(s: seq<string>, x: string): (r: seq<string>)
    requires StrictlySorted(s)
    ensures StrictlySorted(r)
    ensures forall y :: y in r <==> y in s || y == x
  {
    if s == [] then [x]
    else if x == s[0] then s
    else
      LessTotal(x, s[0]);
      if Less(x, s[0]) then
        assert forall j :: 0 <= j < |s| ==> Less(x, s[j]) by {
          forall j | 0 < j < |s| ensures Less(x, s[j]) { LessTransitive(x, s[0], s[j]); }
        }
        [x] + s
      else
        var rest := Insert(s[1..], x);
        assert forall y :: y in rest ==> Less(s[0], y);
        [s[0]] + rest
  }

  /** The category dropdown: the distinct categories of the products, sorted. */
  function Categories(products: seq<Product>): (r: seq<string>)
    ensures StrictlySorted(r)
    ensures forall c :: c in r <==> exists p :: p in products && p.category == c
  {
    if products == [] then []
    else
      var rest := Categories(products[1..]);
      assert forall p :: p in products <==> p == products[0] || p in products[1..];
      Insert(rest, products[0].category)
  }

  // ---------------------------------------------------------------------------
  // The filter

  /** `field?.toLowerCase().includes(term)`: a null field never matches. */
  predicate FieldContains(field: Option<string>, term: string) {
    field.Some? && Contains(Lower(field.value), term)
  }

  predicate MatchesSearch(p: Product, searchTerm: string) {
    var t := Lower(searchTerm);
    Contains(Lower(p.name), t) || FieldContains(p.description, t) || FieldContains(p.barCode, t) || FieldContains(p.sku, t)
  }

  predicate MatchesCategory(p: Product, filterCategory: string) {
    filterCategory == "" || p.category == filterCategory
  }

  function FilteredProducts(products: seq<Product>, searchTerm: string, filterCategory: string): (r: seq<Product>)
    ensures |r| <= |products|
    ensures forall p :: p in r ==> p in products && MatchesSearch(p, searchTerm) && MatchesCategory(p, filterCategory)
    ensures searchTerm == "" && filterCategory == "" ==> forall p :: p in products ==> p in r
  {
    Seqs.Filter(products, (p: Product) => MatchesSearch(p, searchTerm) && MatchesCategory(p, filterCategory))
  }

  /** The shown list keeps the order of `products`, and a listed product is shown iff it matches
      the search (on name, description, bar code or SKU) and the category filter. */
  lemma FilteredProductsSpec(products: seq<Product>, searchTerm: string, filterCategory: string, p: Product)
    ensures Seqs.IsSubsequence(FilteredProducts(products, searchTerm, filterCategory), products)
    ensures p in FilteredProducts(products, searchTerm, filterCategory) <==>
      p in products && MatchesSearch(p, searchTerm) && MatchesCategory(p, filterCategory)
  {
    Seqs.FilterIsSubsequence(products, (q: Product) => MatchesSearch(q, searchTerm) && MatchesCategory(q, filterCategory));
    if p in products {
      var i :| 0 <= i < |products| && products[i] == p;
    }
  }

  /** With an empty search box and no category chosen, every product is shown, in order. */
  lemma NoFilterShowsAll(products: seq<Product>)
    ensures FilteredProducts(products, "", "") == products
  {
    forall p | p in products ensures MatchesSearch(p, "") && MatchesCategory(p, "") {
      assert Lower(p.name)[0..] == Lower(p.name);
    }
    Seqs.FilterAll(products, (q: Product) => MatchesSearch(q, "") && MatchesCategory(q, ""));
  }

  /** "Mostrando X de Y productos": X is the number shown, Y the number loaded, and X <= Y. */
  function ResultCounter(products: seq<Product>, searchTerm: string, filterCategory: string): (r: (nat, nat))
    ensures r.0 <= r.1 && r.1 == |products|
    ensures r.0 == |FilteredProducts(products, searchTerm, filterCategory)|
  {
    (|FilteredProducts(products, searchTerm, filterCategory)|, |products|)
  }

  // ---------------------------------------------------------------------------
  // The stock badge

  datatype Badge = Green | Yellow | Red

  /** More than 10 units is green, 1 to 10 yellow, none or negative red. */
  function StockBadge(quantity: int): (b: Badge)
    ensures b == Green <==> quantity > 10
    ensures b == Yellow <==> 1 <= quantity <= 10
    ensures b == Red <==> quantity <= 0
  {
    if quantity > 10 then Green else if quantity > 0 then Yellow else Red
  }
}
