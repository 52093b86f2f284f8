/** The product catalogue (src/services/product-service.ts): a constant list of ten products
    and the lookups the shop screens use over it. */
module Products {
  import opened Common

  /** A catalogue entry; `image` is an emoji. */
  datatype Product = Product(
    id: string,
    name: string,
    price: real,
    image: string,
    category: string,
    description: string,
    rating: real)

  /** `PRODUCTS`. */
  const Catalogue: seq<Product> := [
    Product("1", "iPhone 15 Pro", 999.99, "\U{1F4F1}", "Electronics", "128GB, Titanium Blue", 4.8),
    Product("2", "MacBook Pro M3", 1999.99, "\U{1F4BB}", "Electronics", "14-inch, 16GB RAM", 4.9),
    Product("3", "AirPods Pro", 249.99, "\U{1F3A7}", "Electronics", "USB-C, Noise Cancelling", 4.7),
    Product("4", "Apple Watch Series 9", 399.99, "\U{231A}", "Electronics", "45mm, GPS + Cellular", 4.6),
    Product("5", "iPad Air", 599.99, "\U{1F4F2}", "Electronics", "11-inch, 256GB", 4.8),
    Product("6", "Sony Camera", 1499.99, "\U{1F4F7}", "Electronics", "Alpha 7 IV, Full Frame", 4.9),
    Product("7", "Gaming Console", 499.99, "\U{1F3AE}", "Gaming", "PlayStation 5", 4.8),
    Product("8", "Headphones", 349.99, "\U{1F3B5}", "Audio", "Sony WH-1000XM5", 4.7),
    Product("9", "Smart TV", 899.99, "\U{1F4FA}", "Electronics", "55\" 4K OLED", 4.6),
    Product("10", "Drone", 799.99, "\U{1F681}", "Electronics", "DJI Mini 4 Pro", 4.8)
  ]

  /** No two products share an id. */
  predicate UniqueIds(products: seq<Product>)
  {
    forall i, j :: 0 <= i < j < |products| ==> products[i].id != products[j].id
  }

  /** `getAllProducts`: the whole catalogue, ten products with distinct ids. */
  function GetAllProducts(): (r: seq<Product>)
    ensures |r| == 10
    ensures UniqueIds(r)
    ensures forall i :: 0 <= i < |r| ==> r[i].price > 0.0 && 0.0 <= r[i].rating <= 5.0
  {
    Catalogue
  }

  /** `getProductById`: the first product with that id, if any. */
  function GetProductById(id: string): (r: Option<Product>)
    ensures r.Some? ==> r.value in Catalogue && r.value.id == id
    ensures r.None? <==> forall i :: 0 <= i < |Catalogue| ==> Catalogue[i].id != id
  {
    match FirstMatch(Catalogue, (p: Product) => p.id == id)
    case None => None
    case Some(i) => Some(Catalogue[i])
  }

  /** Every catalogue product is found by its own id. */
  lemma GetProductByIdFindsEach(i: nat)
    requires i < |Catalogue|
    ensures GetProductById(Catalogue[i].id) == Some(Catalogue[i])
  {
    assert UniqueIds(GetAllProducts());
    var k := FirstMatch(Catalogue, (p: Product) => p.id == Catalogue[i].id);
    assert k.Some? && k.value <= i;
  }

  /** The search condition: the lower-cased name or category contains the lower-cased query. */
  predicate MatchesQuery(p: Product, query: string)
  {
    Contains(ToLower(p.name), ToLower(query)) || Contains(ToLower(p.category), ToLower(query))
  }

  /** `searchProducts`: the catalogue products matching the query, in catalogue order. */
  function SearchProducts(query: string): (r: seq<Product>)
    ensures forall i :: 0 <= i < |r| ==> r[i] in Catalogue && MatchesQuery(r[i], query)
    ensures forall i :: 0 <= i < |Catalogue| && MatchesQuery(Catalogue[i], query) ==> Catalogue[i] in r
  {
    Filter(Catalogue, (p: Product) => MatchesQuery(p, query))
  }

  /** The empty query matches every product. */
  lemma SearchEmptyQuery()
    ensures SearchProducts("") == Catalogue
  {
    forall i | 0 <= i < |Catalogue|
      ensures MatchesQuery(Catalogue[i], "")
    {
      ContainsEmpty(ToLower(Catalogue[i].name));
    }
    FilterAll(Catalogue, (p: Product) => MatchesQuery(p, ""));
  }

  /** `getProductsByCategory`: the catalogue products whose category is exactly the argument,
      in catalogue order. */
  function GetProductsByCategory(category: string): (r: seq<Product>)
    ensures forall i :: 0 <= i < |r| ==> r[i] in Catalogue && r[i].category == category
    ensures forall i :: 0 <= i < |Catalogue| && Catalogue[i].category == category ==> Catalogue[i] in r
  {
    Filter(Catalogue, (p: Product) => p.category == category)
  }

  /** Searching for a category finds every product listed under it. */
  lemma CategoryProductsAreSearchResults(category: string)
    ensures forall p :: p in GetProductsByCategory(category) ==> p in SearchProducts(category)
  {
    FilterWeaker(Catalogue, (p: Product) => p.category == category, (p: Product) => MatchesQuery(p, category));
  }

  /** Filtering by a condition keeps a subset of what a weaker condition keeps. */
  lemma FilterWeaker(products: seq<Product>, p: Product -> bool, q: Product -> bool)
    requires forall x :: p(x) ==> q(x)
    ensures forall x :: x in Filter(products, p) ==> x in Filter(products, q)
  {
    forall x | x in Filter(products, p)
      ensures x in Filter(products, q)
    {
      var i :| 0 <= i < |Filter(products, p)| && Filter(products, p)[i] == x;
      var k :| 0 <= k < |products| && products[k] == x;
    }
  }
}
