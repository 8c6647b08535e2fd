/** The shopping cart (backend/controllers/cart.controller.js): a user's `cartItems`
    list, changed in place by add, remove-all and set-quantity, and joined with the
    catalog for display. */
module Cart {
  import opened Common
  import opened Products

  datatype CartItem = CartItem(productId: string, quantity: int)

  /** The entry `cartItems.find(item => item.productId === productId)` picks. */
  function Lookup(items: seq<CartItem>, productId: string): (r: Option<nat>)
    ensures r.None? <==> forall i :: 0 <= i < |items| ==> items[i].productId != productId
    ensures r.Some? ==> r.value < |items| && items[r.value].productId == productId
    ensures r.Some? ==> forall i :: 0 <= i < r.value ==> items[i].productId != productId
  {
    FindFirst(items, (item: CartItem) => item.productId == productId)
  }

  predicate InCart(items: seq<CartItem>, productId: string) {
    Lookup(items, productId).Some?
  }

  /** No product has two entries. */
  ghost predicate UniqueProducts(items: seq<CartItem>) {
    forall i, j :: 0 <= i < j < |items| ==> items[i].productId != items[j].productId
  }

  /** The number of units of `productId` in the cart: the quantities of its entries, summed. */
  function UnitsOf(items: seq<CartItem>, productId: string): int {
    if items == [] then 0
    else (if items[0].productId == productId then items[0].quantity else 0) + UnitsOf(items[1..], productId)
  }

  /** The cart after `addToCart(productId)`. */
  function Added(items: seq<CartItem>, productId: string): (r: seq<CartItem>)
    ensures InCart(items, productId) ==> (
      var i := Lookup(items, productId).value;
      |r| == |items| && r[i] == items[i].(quantity := items[i].quantity + 1) &&
      forall j :: 0 <= j < |items| && j != i ==> r[j] == items[j])
    ensures !InCart(items, productId) ==> r == items + [CartItem(productId, 1)]
  {
    match Lookup(items, productId)
    case Some(i) => items[i := items[i].(quantity := items[i].quantity + 1)]
    case None => items + [CartItem(productId, 1)]
  }

  /** `cartItems.filter(item => item.productId !== productId)`. */
  function Without(items: seq<CartItem>, productId: string): (r: seq<CartItem>)
    ensures !InCart(r, productId)
    ensures forall x :: x in r <==> x in items && x.productId != productId
  {
    var r := Filter(items, (item: CartItem) => item.productId != productId);
    assert forall i :: 0 <= i < |r| ==> r[i] in r;
    r
  }

  /** The cart after `removeAllFromCart(productId)`: empty when no id is given. */
  function RemovedAll(items: seq<CartItem>, productId: Option<string>): (r: seq<CartItem>)
    ensures !Present(productId) ==> r == []
    ensures Present(productId) ==> !InCart(r, productId.value) && |r| <= |items|
  {
    if Present(productId) then Without(items, productId.value) else []
  }

  /** The cart after `updateQuantity(productId, quantity)`: quantity 0 drops every entry
      of the product, any other quantity replaces the first entry's quantity, and a
      product that is not in the cart changes nothing. */
  function Updated(items: seq<CartItem>, productId: string, quantity: int): (r: seq<CartItem>)
    ensures !InCart(items, productId) ==> r == items
    ensures InCart(items, productId) && quantity == 0 ==>
      !InCart(r, productId) && forall x :: x in r <==> x in items && x.productId != productId
    ensures InCart(items, productId) && quantity != 0 ==> (
      var i := Lookup(items, productId).value;
      |r| == |items| && r[i] == items[i].(quantity := quantity) &&
      forall j :: 0 <= j < |items| && j != i ==> r[j] == items[j])
  {
    match Lookup(items, productId)
    case None => items
    case Some(i) =>
      if quantity == 0 then Without(items, productId)
      else items[i := items[i].(quantity := quantity)]
  }

  // ---- Units of a product ----

  lemma {:induction false} UnitsOfAppend(items: seq<CartItem>, x: CartItem, productId: string)
    ensures UnitsOf(items + [x], productId)
         == UnitsOf(items, productId) + (if x.productId == productId then x.quantity else 0)
  {
    if items != [] {
      assert (items + [x])[1..] == items[1..] + [x];
      UnitsOfAppend(items[1..], x, productId);
    }
  }

  lemma {:induction false} UnitsOfReplace(items: seq<CartItem>, i: nat, x: CartItem, productId: string)
    requires i < |items|
    ensures UnitsOf(items[i := x], productId)
         == UnitsOf(items, productId)
          - (if items[i].productId == productId then items[i].quantity else 0)
          + (if x.productId == productId then x.quantity else 0)
  {
    if i > 0 {
      assert items[i := x][1..] == items[1..][i - 1 := x];
      UnitsOfReplace(items[1..], i - 1, x, productId);
    }
  }

  /** With one entry per product, the units of a product are that entry's quantity. */
  lemma {:induction false} UnitsOfUnique(items: seq<CartItem>, j: nat)
    requires UniqueProducts(items)
    requires j < |items|
    ensures UnitsOf(items, items[j].productId) == items[j].quantity
  {
    var p := items[j].productId;
    if j == 0 {
      NoUnitsWhenAbsent(items[1..], p);
    } else {
      UnitsOfUnique(items[1..], j - 1);
    }
  }

  lemma {:induction false} NoUnitsWhenAbsent(items: seq<CartItem>, productId: string)
    requires forall i :: 0 <= i < |items| ==> items[i].productId != productId
    ensures UnitsOf(items, productId) == 0
  {
    if items != [] {
      NoUnitsWhenAbsent(items[1..], productId);
    }
  }

  lemma {:induction false} UnitsOfWithout(items: seq<CartItem>, productId: string, other: string)
    ensures UnitsOf(Without(items, productId), productId) == 0
    ensures other != productId ==> UnitsOf(Without(items, productId), other) == UnitsOf(items, other)
  {
    var keep := (item: CartItem) => item.productId != productId;
    if items != [] {
      assert items == [items[0]] + items[1..];
      FilterConcat([items[0]], items[1..], keep);
      UnitsOfWithout(items[1..], productId, other);
      var rest := Without(items[1..], productId);
      if keep(items[0]) {
        assert Without(items, productId) == [items[0]] + rest;
        assert ([items[0]] + rest)[1..] == rest;
      } else {
        assert Without(items, productId) == rest;
      }
    }
  }

  // ---- What each operation does to the units of each product ----

  /** Adding a product raises its units by exactly one and leaves every other product's
      units unchanged. */
  lemma AddCountsOneUnit(items: seq<CartItem>, productId: string, other: string)
    ensures UnitsOf(Added(items, productId), productId) == UnitsOf(items, productId) + 1
    ensures other != productId ==> UnitsOf(Added(items, productId), other) == UnitsOf(items, other)
  {
    match Lookup(items, productId)
    case Some(i) =>
      UnitsOfReplace(items, i, items[i].(quantity := items[i].quantity + 1), productId);
      UnitsOfReplace(items, i, items[i].(quantity := items[i].quantity + 1), other);
    case None =>
      UnitsOfAppend(items, CartItem(productId, 1), productId);
      UnitsOfAppend(items, CartItem(productId, 1), other);
  }

  /** Removing a product leaves none of its units and every other product's units. */
  lemma RemoveAllCounts(items: seq<CartItem>, productId: Option<string>, other: string)
    ensures !Present(productId) ==> UnitsOf(RemovedAll(items, productId), other) == 0
    ensures Present(productId) ==> UnitsOf(RemovedAll(items, productId), productId.value) == 0
    ensures Present(productId) && other != productId.value ==>
      UnitsOf(RemovedAll(items, productId), other) == UnitsOf(items, other)
  {
    if Present(productId) {
      UnitsOfWithout(items, productId.value, other);
    }
  }

  /** Removing a product keeps the other entries in their original order. */
  lemma RemoveKeepsOrder(a: seq<CartItem>, b: seq<CartItem>, productId: string)
    ensures Without(a + b, productId) == Without(a, productId) + Without(b, productId)
  {
    FilterConcat(a, b, (item: CartItem) => item.productId != productId);
  }

  /** With one entry per product, setting a non-zero quantity makes that the product's
      units; quantity 0 leaves none; other products keep their units. */
  lemma UpdateSetsUnits(items: seq<CartItem>, productId: string, quantity: int, other: string)
    requires UniqueProducts(items)
    requires InCart(items, productId)
    ensures UnitsOf(Updated(items, productId, quantity), productId) == quantity
    ensures other != productId ==>
      UnitsOf(Updated(items, productId, quantity), other) == UnitsOf(items, other)
  {
    var i := Lookup(items, productId).value;
    if quantity == 0 {
      UnitsOfWithout(items, productId, other);
    } else {
      var x := items[i].(quantity := quantity);
      UnitsOfReplace(items, i, x, productId);
      UnitsOfReplace(items, i, x, other);
      UnitsOfUnique(items, i);
    }
  }

  // ---- One entry per product is preserved ----

  lemma {:induction false} WithoutKeepsUnique(items: seq<CartItem>, productId: string)
    requires UniqueProducts(items)
    ensures UniqueProducts(Without(items, productId))
  {
    if items != [] {
      var tail := items[1..];
      assert UniqueProducts(tail) by {
        forall i, j | 0 <= i < j < |tail| ensures tail[i].productId != tail[j].productId {
          assert tail[i] == items[i + 1] && tail[j] == items[j + 1];
        }
      }
      WithoutKeepsUnique(tail, productId);
      var rest := Without(tail, productId);
      if items[0].productId != productId {
        assert Without(items, productId) == [items[0]] + rest;
        forall x | x in rest ensures x.productId != items[0].productId {
          var k :| 0 <= k < |tail| && tail[k] == x;
          assert items[k + 1] == x;
        }
        ConsKeepsUnique(items[0], rest);
      } else {
        assert Without(items, productId) == rest;
      }
    }
  }

  /** An entry for a product the rest does not hold keeps one entry per product. */
  lemma ConsKeepsUnique(x: CartItem, rest: seq<CartItem>)
    requires UniqueProducts(rest)
    requires forall y :: y in rest ==> y.productId != x.productId
    ensures UniqueProducts([x] + rest)
  {
    var r := [x] + rest;
    forall i, j | 0 <= i < j < |r| ensures r[i].productId != r[j].productId {
      assert r[j] == rest[j - 1];
      if i > 0 { assert r[i] == rest[i - 1]; } else { assert rest[j - 1] in rest; }
    }
  }

  /** Adding a product keeps one entry per product: an existing entry only changes its
      quantity, and a new entry is for a product the cart did not hold. */
  lemma AddKeepsUnique(items: seq<CartItem>, productId: string)
    requires UniqueProducts(items)
    ensures UniqueProducts(Added(items, productId))
  {
    var r := Added(items, productId);
    match Lookup(items, productId)
    case Some(i) =>
      assert forall j :: 0 <= j < |items| ==> r[j].productId == items[j].productId;
    case None =>
      assert r == items + [CartItem(productId, 1)];
      assert forall j :: 0 <= j < |items| ==> r[j] == items[j];
  }

  /** Setting a quantity keeps one entry per product. */
  lemma UpdateKeepsUnique(items: seq<CartItem>, productId: string, quantity: int)
    requires UniqueProducts(items)
    ensures UniqueProducts(Updated(items, productId, quantity))
  {
    var r := Updated(items, productId, quantity);
    match Lookup(items, productId)
    case None =>
    case Some(i) =>
      if quantity == 0 {
        WithoutKeepsUnique(items, productId);
      } else {
        assert forall j :: 0 <= j < |items| ==> r[j].productId == items[j].productId;
      }
  }

  /** Every cart operation keeps one entry per product. */
  lemma OperationsKeepUnique(items: seq<CartItem>, productId: string, quantity: int, target: Option<string>)
    requires UniqueProducts(items)
    ensures UniqueProducts(Added(items, productId))
    ensures UniqueProducts(RemovedAll(items, target))
    ensures UniqueProducts(Updated(items, productId, quantity))
  {
    AddKeepsUnique(items, productId);
    UpdateKeepsUnique(items, productId, quantity);
    if Present(target) {
      WithoutKeepsUnique(items, target.value);
    }
  }

  // ---- The join with the catalog ----

  datatype CartProduct = CartProduct(product: Product, quantity: int)

  /** `getCartProducts`: the catalog products that have a cart entry, in store order,
      each with the quantity of its first cart entry. */
  function GetCartProducts(catalog: seq<Product>, items: seq<CartItem>): (r: seq<CartProduct>)
    ensures |r| <= |catalog|
    ensures forall k :: 0 <= k < |r| ==>
      r[k].product in catalog && InCart(items, r[k].product.id) &&
      r[k].quantity == items[Lookup(items, r[k].product.id).value].quantity
  {
    if catalog == [] then []
    else
      var p := catalog[0];
      var head := if InCart(items, p.id) then [CartProduct(p, items[Lookup(items, p.id).value].quantity)] else [];
      head + GetCartProducts(catalog[1..], items)
  }

  /** Every catalog product that has a cart entry is displayed, with that entry's quantity. */
  lemma {:induction false} CartProductsComplete(catalog: seq<Product>, items: seq<CartItem>, q: Product)
    requires q in catalog && InCart(items, q.id)
    ensures CartProduct(q, items[Lookup(items, q.id).value].quantity) in GetCartProducts(catalog, items)
  {
    var p := catalog[0];
    if q != p {
      assert q in catalog[1..] by { assert catalog == [p] + catalog[1..]; }
      CartProductsComplete(catalog[1..], items, q);
    }
  }

  /** With one entry per product, each displayed quantity is all the units of that
      product in the cart. */
  lemma CartProductsShowUnits(catalog: seq<Product>, items: seq<CartItem>, k: nat)
    requires UniqueProducts(items)
    requires k < |GetCartProducts(catalog, items)|
    ensures var cp := GetCartProducts(catalog, items)[k];
      cp.quantity == UnitsOf(items, cp.product.id)
  {
    var cp := GetCartProducts(catalog, items)[k];
    UnitsOfUnique(items, Lookup(items, cp.product.id).value);
  }

  // ---- addToCart as written ----

  /** What `cartItems` holds once the bare id pushed by `addToCart` is stored beside the
      item records: an entry with neither `productId` nor `quantity`. */
  datatype StoredEntry = Entry(item: CartItem) | BareId(id: string)

  /** `addToCart` as written: the `find` only matches item records, and a new product is
      pushed as its bare id. */
  function AddToCartAsWritten(entries: seq<StoredEntry>, productId: string): (r: seq<StoredEntry>)
    ensures |r| >= |entries|
    ensures FindFirst(entries, (e: StoredEntry) => e.Entry? && e.item.productId == productId).None? ==>
      r == entries + [BareId(productId)]
    ensures FindFirst(entries, (e: StoredEntry) => e.Entry? && e.item.productId == productId).Some? ==>
      var i := FindFirst(entries, (e: StoredEntry) => e.Entry? && e.item.productId == productId).value;
      |r| == |entries| && r[i] == Entry(entries[i].item.(quantity := entries[i].item.quantity + 1)) &&
      forall j :: 0 <= j < |entries| && j != i ==> r[j] == entries[j]
  {
    match FindFirst(entries, (e: StoredEntry) => e.Entry? && e.item.productId == productId)
    case Some(i) => entries[i := Entry(entries[i].item.(quantity := entries[i].item.quantity + 1))]
    case None => entries + [BareId(productId)]
  }

  /** As written, adding the same product twice to an empty cart stores two bare ids and
      no quantity; the corrected `Added` stores one entry with quantity 2. */
  lemma AddTwiceAsWritten(productId: string)
    ensures AddToCartAsWritten(AddToCartAsWritten([], productId), productId) == [BareId(productId), BareId(productId)]
    ensures Added(Added([], productId), productId) == [CartItem(productId, 2)]
  {
    var once := AddToCartAsWritten([], productId);
    assert once == [BareId(productId)];
    var m := (e: StoredEntry) => e.Entry? && e.item.productId == productId;
    assert !m(once[0]);
    assert FindFirst(once, m).None?;
    assert Added([], productId) == [CartItem(productId, 1)];
  }

  /** The user document whose `cartItems` the handlers change in place. */
  class User {
    var cartItems: seq<CartItem>

    constructor (cartItems: seq<CartItem>)
      ensures this.cartItems == cartItems
    {
      this.cartItems := cartItems;
    }

    /** `addToCart`: one more unit of an existing entry, or a new entry of quantity 1 at the end. */
    method AddToCart(productId: string)
      modifies this
      ensures cartItems == Added(old(cartItems), productId)
      ensures UnitsOf(cartItems, productId) == UnitsOf(old(cartItems), productId) + 1
      ensures UniqueProducts(old(cartItems)) ==> UniqueProducts(cartItems)
    {
      ghost var before := cartItems;
      var existing := Lookup(cartItems, productId);
      if existing.Some? {
        var i := existing.value;
        cartItems := cartItems[i := cartItems[i].(quantity := cartItems[i].quantity + 1)];
      } else {
        cartItems := cartItems + [CartItem(productId, 1)];
      }
      assert cartItems == Added(before, productId);
      AddCountsOneUnit(before, productId, productId);
      if UniqueProducts(before) {
        OperationsKeepUnique(before, productId, 0, None);
      }
    }

    /** `removeAllFromCart`: with no product id the cart is emptied, otherwise every entry
        of that product is dropped. */
    method RemoveAllFromCart(productId: Option<string>)
      modifies this
      ensures cartItems == RemovedAll(old(cartItems), productId)
      ensures UniqueProducts(old(cartItems)) ==> UniqueProducts(cartItems)
    {
      ghost var before := cartItems;
      if !Present(productId) {
        cartItems := [];
      } else {
        cartItems := Filter(cartItems, (item: CartItem) => item.productId != productId.value);
      }
      if UniqueProducts(before) {
        OperationsKeepUnique(before, "", 1, productId);
      }
    }

    /** `updateQuantity`: the answer says which of the three branches ran. */
    method UpdateQuantity(productId: string, quantity: int) returns (r: UpdateOutcome)
      modifies this
      ensures cartItems == Updated(old(cartItems), productId, quantity)
      ensures r == if !InCart(old(cartItems), productId) then NotInCart
                   else if quantity == 0 then RemovedFromCart
                   else QuantityUpdated
      ensures UniqueProducts(old(cartItems)) ==> UniqueProducts(cartItems)
    {
      ghost var before := cartItems;
      var existing := Lookup(cartItems, productId);
      if existing.Some? {
        if quantity == 0 {
          cartItems := Filter(cartItems, (item: CartItem) => item.productId != productId);
          r := RemovedFromCart;
        } else {
          var i := existing.value;
          cartItems := cartItems[i := cartItems[i].(quantity := quantity)];
          r := QuantityUpdated;
        }
      } else {
        r := NotInCart;
      }
      if UniqueProducts(before) {
        OperationsKeepUnique(before, productId, quantity, None);
      }
    }
  }

  datatype UpdateOutcome = RemovedFromCart | QuantityUpdated | NotInCart
}
