/** The product catalog (backend/controllers/product.controller.js): toggling the
    featured flag, creating and deleting products, and the featured and category
    queries. The product collection is a sequence in store order. */
module Products {
  import opened Common

  /** A product document; `price` is in cents. */
  datatype Product = Product(
    id: string,
    name: string,
    description: string,
    price: int,
    image: string,
    category: string,
    isFeatured: bool)

  datatype CatalogError = NotFound | ServerError(message: string)

  /** The index `Product.findById(id)` answers with: the first product carrying `id`. */
  function FindById(products: seq<Product>, id: string): (r: Option<nat>)
    ensures r.None? <==> forall i :: 0 <= i < |products| ==> products[i].id != id
    ensures r.Some? ==> r.value < |products| && products[r.value].id == id
    ensures r.Some? ==> forall i :: 0 <= i < r.value ==> products[i].id != id
  {
    FindFirst(products, (p: Product) => p.id == id)
  }

  /** No two products share an id. */
  ghost predicate UniqueIds(products: seq<Product>) {
    forall i, j :: 0 <= i < j < |products| ==> products[i].id != products[j].id
  }

  /** The catalog after `toggleFeaturedProduct(id)`: the found product's `isFeatured`
      is negated; nothing else changes, and a missing id changes nothing. */
  function Toggled(products: seq<Product>, id: string): (r: seq<Product>)
    ensures |r| == |products|
    ensures forall j :: 0 <= j < |products| ==>
      r[j].(isFeatured := products[j].isFeatured) == products[j]
    ensures forall j :: 0 <= j < |products| ==>
      (r[j].isFeatured != products[j].isFeatured <==> FindById(products, id) == Some(j))
  {
    match FindById(products, id)
    case None => products
    case Some(i) => products[i := products[i].(isFeatured := !products[i].isFeatured)]
  }

  /** Toggling the same product twice restores the catalog. */
  lemma ToggleTwice(products: seq<Product>, id: string)
    ensures Toggled(Toggled(products, id), id) == products
  {
    var once := Toggled(products, id);
    // Toggling changes no id, so the second lookup finds the same product.
    assert forall j :: 0 <= j < |products| ==> once[j].id == products[j].id;
    assert FindById(once, id) == FindById(products, id);
  }

  /** The catalog after `findByIdAndDelete(id)`: the product with that id is gone. */
  function Removed(products: seq<Product>, id: string): (r: seq<Product>)
    ensures FindById(products, id).None? ==> r == products
    ensures FindById(products, id).Some? ==>
      |r| == |products| - 1 &&
      multiset(r) + multiset{products[FindById(products, id).value]} == multiset(products)
  {
    match FindById(products, id)
    case None => products
    case Some(i) =>
      assert products == products[..i] + [products[i]] + products[i + 1..];
      products[..i] + products[i + 1..]
  }

  /** With unique ids, deleting a product leaves no product with its id, and the
      remaining ids stay unique. */
  lemma DeleteLeavesNoTrace(products: seq<Product>, id: string)
    requires UniqueIds(products)
    ensures FindById(Removed(products, id), id).None?
    ensures UniqueIds(Removed(products, id))
  {
    match FindById(products, id)
    case None =>
    case Some(i) =>
      var r := Removed(products, id);
      assert forall j :: 0 <= j < |r| ==> r[j] == (if j < i then products[j] else products[j + 1]);
  }

  /** With unique ids, deleting a product keeps every other product, in store order. */
  lemma DeleteKeepsOthersInOrder(products: seq<Product>, id: string)
    requires UniqueIds(products)
    ensures Removed(products, id) == Filter(products, (p: Product) => p.id != id)
  {
    var keep := (p: Product) => p.id != id;
    match FindById(products, id)
    case None =>
      FilterKeepsAll(products, keep);
    case Some(i) =>
      var before, after := products[..i], products[i + 1..];
      OthersKept(products, i, keep);
      calc {
        Filter(products, keep);
        { assert products == (before + [products[i]]) + after; }
        Filter((before + [products[i]]) + after, keep);
        { FilterConcat(before + [products[i]], after, keep); }
        Filter(before + [products[i]], keep) + Filter(after, keep);
        { FilterConcat(before, [products[i]], keep); }
        Filter(before, keep) + Filter([products[i]], keep) + Filter(after, keep);
        { FilterKeepsAll(before, keep); FilterKeepsAll(after, keep); }
        before + Filter([products[i]], keep) + after;
        { assert Filter([products[i]], keep) == []; }
        before + after;
      }
  }

  /** Under unique ids, only the product at `i` fails a filter on its own id. */
  lemma OthersKept(products: seq<Product>, i: nat, keep: Product -> bool)
    requires UniqueIds(products)
    requires i < |products|
    requires forall p :: keep(p) <==> p.id != products[i].id
    ensures forall p :: p in products[..i] ==> keep(p)
    ensures forall p :: p in products[i + 1..] ==> keep(p)
  {
    forall p | p in products[..i] ensures keep(p) {
      var k :| 0 <= k < i && products[k] == p;
    }
    forall p | p in products[i + 1..] ensures keep(p) {
      var k :| i < k < |products| && products[k] == p;
    }
  }

  /** The `image` of a created product: the upload's `secure_url` when an image was sent
      and the upload answered with one, otherwise the empty string. `secureUrl` stands
      for the image host's answer, which is only asked for when `image` is non-empty. */
  function ChooseImage(image: string, secureUrl: Option<string>): (r: string)
    ensures r != "" <==> image != "" && Present(secureUrl)
    ensures r != "" ==> secureUrl == Some(r)
  {
    if image != "" && Present(secureUrl) then secureUrl.value else ""
  }

  /** The text after the last '/' of `s` (`s.split("/").pop()`). */
  function LastSegment(s: string): (r: string)
    ensures '/' !in r
    ensures |r| <= |s| && r == s[|s| - |r|..]
    ensures |r| == |s| || s[|s| - |r| - 1] == '/'
  {
    if s == [] || s[|s| - 1] == '/' then []
    else LastSegment(s[..|s| - 1]) + [s[|s| - 1]]
  }

  /** The text before the first '.' of `s` (`s.split(".")[0]`). */
  function BeforeFirstDot(s: string): (r: string)
    ensures '.' !in r
    ensures |r| <= |s| && r == s[..|r|]
    ensures |r| == |s| || s[|r|] == '.'
  {
    if s == [] || s[0] == '.' then []
    else [s[0]] + BeforeFirstDot(s[1..])
  }

  /** The image host's public id of an image URL: its last path segment cut at the first '.'. */
  function PublicId(url: string): (r: string)
    ensures '/' !in r && '.' !in r
    ensures |r| <= |LastSegment(url)| && r == LastSegment(url)[..|r|]
  {
    BeforeFirstDot(LastSegment(url))
  }

  /** A last segment without a '.' is the public id as a whole. */
  lemma PublicIdOfPlainSegment(url: string)
    requires '.' !in LastSegment(url)
    ensures PublicId(url) == LastSegment(url)
  {
    var seg := LastSegment(url);
    var id := BeforeFirstDot(seg);
    assert forall k :: 0 <= k < |seg| ==> seg[k] != '.';
  }

  /** The asset `deleteProduct` asks the image host to destroy. */
  function DestroyTarget(image: string): (r: string)
    ensures |r| >= 9 && r[..9] == "products/"
    ensures r[9..] == PublicId(image)
  {
    "products/" + PublicId(image)
  }

  /** `Product.find({ isFeatured: true })`: the featured products in store order. */
  function Featured(products: seq<Product>): (r: seq<Product>)
    ensures forall p :: p in r <==> p in products && p.isFeatured
    ensures forall p: Product :: p.isFeatured ==> multiset(r)[p] == multiset(products)[p]
  {
    FilterCounts(products, (p: Product) => p.isFeatured);
    Filter(products, (p: Product) => p.isFeatured)
  }

  /** `getFeaturedProducts` with the cache write left out: the fallback to the first five
      products is computed but overwritten by the second featured query. */
  function GetFeaturedProducts(products: seq<Product>): (r: seq<Product>)
    ensures forall p :: p in r <==> p in products && p.isFeatured
    ensures (forall p :: p in products ==> !p.isFeatured) ==> r == []
    ensures r == Featured(products)
  {
    var featured := Featured(products);
    var withFallback := if featured == [] then products[..if |products| < 5 then |products| else 5] else featured;
    var r := Featured(products);
    assert r != [] ==> r[0] in r;
    r
  }

  /** `getFeaturedProducts` as written: the cache write names `redit`, an undeclared
      identifier, so every call ends in the error handler. */
  function GetFeaturedProductsAsWritten(products: seq<Product>): (r: Result<seq<Product>, CatalogError>)
    ensures r.Err? && r.error.ServerError?
  {
    Err(ServerError("redit is not defined"))
  }

  /** `Product.find({ category })`: exactly the products of that category, in store order. */
  function InCategory(products: seq<Product>, category: string): (r: seq<Product>)
    ensures forall p :: p in r <==> p in products && p.category == category
    ensures forall p: Product :: p.category == category ==> multiset(r)[p] == multiset(products)[p]
  {
    FilterCounts(products, (p: Product) => p.category == category);
    Filter(products, (p: Product) => p.category == category)
  }

  /** `createProduct` as written: the module never imports `cloudinary`, so a request with
      an image ends in the error handler and nothing is stored; without an image the
      product is created with an empty image. Returns the answer and the catalog afterwards. */
  function CreateProductAsWritten(products: seq<Product>, id: string, name: string, description: string,
                                  price: int, image: string, category: string): (r: (Result<Product, CatalogError>, seq<Product>))
    ensures image != "" ==> r.0 == Err(ServerError("cloudinary is not defined")) && r.1 == products
    ensures image == "" ==> r.0.Ok? && r.0.value.image == "" && r.1 == products + [r.0.value]
  {
    if image != "" then (Err(ServerError("cloudinary is not defined")), products)
    else
      var p := Product(id, name, description, price, "", category, false);
      (Ok(p), products + [p])
  }

  /** `deleteProduct` as written: the destroy call names the never-imported `cloudinary`,
      and its error is caught and logged, so no image is destroyed; then
      `product.findByIdAndDelete` is called on the document, which has no such method, so
      the handler fails and the product stays in the catalog. Returns the answer and the
      catalog afterwards. */
  function DeleteProductAsWritten(products: seq<Product>, id: string): (r: (Result<Option<string>, CatalogError>, seq<Product>))
    ensures r.1 == products
    ensures r.0.Err?
    ensures FindById(products, id).Some? ==> r.0 == Err(ServerError("product.findByIdAndDelete is not a function"))
  {
    match FindById(products, id)
    case None => (Err(NotFound), products)
    case Some(_) => (Err(ServerError("product.findByIdAndDelete is not a function")), products)
  }

  /** The product collection, updated in place by the admin handlers. */
  class Catalog {
    var products: seq<Product>

    constructor (products: seq<Product>)
      ensures this.products == products
    {
      this.products := products;
    }

    /** `toggleFeaturedProduct`: negate the found product's `isFeatured` and save it. */
    method ToggleFeaturedProduct(id: string) returns (r: Result<Product, CatalogError>)
      modifies this
      ensures products == Toggled(old(products), id)
      ensures r.Err? <==> FindById(old(products), id).None?
      ensures r.Err? ==> r.error == NotFound
      ensures r.Ok? ==> r.value.id == id && r.value in products
      ensures r.Ok? ==> var before := old(products)[FindById(old(products), id).value];
        r.value == before.(isFeatured := !before.isFeatured)
    {
      match FindById(products, id)
      case None =>
        r := Err(NotFound);
      case Some(i) =>
        var product := products[i];
        product := product.(isFeatured := !product.isFeatured);
        products := products[i := product];
        r := Ok(product);
    }

    /** `createProduct`: store a new product whose image is chosen by `ChooseImage`.
        `id` is the identifier the database assigns; `isFeatured` starts false. */
    method CreateProduct(id: string, name: string, description: string, price: int,
                         image: string, category: string, secureUrl: Option<string>)
      returns (p: Product)
      modifies this
      ensures products == old(products) + [p]
      ensures p == Product(id, name, description, price, ChooseImage(image, secureUrl), category, false)
    {
      p := Product(id, name, description, price, ChooseImage(image, secureUrl), category, false);
      products := products + [p];
    }

    /** `deleteProduct`: a missing id answers NotFound; otherwise the image (if any) is
        destroyed at `DestroyTarget` and the product is removed. The answer carries the
        destroy target that was asked for. */
    method DeleteProduct(id: string) returns (r: Result<Option<string>, CatalogError>)
      modifies this
      ensures products == Removed(old(products), id)
      ensures r.Err? <==> FindById(old(products), id).None?
      ensures r.Err? ==> r.error == NotFound
      ensures r.Ok? ==> var image := old(products)[FindById(old(products), id).value].image;
        r.value == if image != "" then Some(DestroyTarget(image)) else None
    {
      match FindById(products, id)
      case None =>
        r := Err(NotFound);
      case Some(i) =>
        var product := products[i];
        var destroyed := None;
        if product.image != "" {
          destroyed := Some(DestroyTarget(product.image));
        }
        products := Removed(products, id);
        r := Ok(destroyed);
    }
  }
}
