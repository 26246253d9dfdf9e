/** The cart page: the effect that loads the cart's products and attaches quantities, and
    the subtotal and per-line totals it shows. */
module Cart {
  import opened Wrappers
  import opened Tally
  import opened Token
  import opened Products

  const LoadErrorMessage: string := "Failed to load products."

  /** The part of the cart page's state that the effect sets. */
  datatype CartView = CartView(cartItems: seq<CartItem>, error: Option<string>)

  /** The `productMap` loop: a missing (or zero) entry is first set to 0, then incremented. */
  method BuildProductMap(productIds: seq<string>) returns (productMap: map<string, nat>)
    ensures productMap == TallyOf(productIds)
  {
    productMap := map[];
    for i := 0 to |productIds|
      invariant productMap == TallyOf(productIds[..i])
    {
      var id := productIds[i];
      if id !in productMap || productMap[id] == 0 {
        productMap := productMap[id := 0];
      }
      productMap := productMap[id := productMap[id] + 1];
      TallyOfSnoc(productIds[..i], id);
      assert productIds[..i + 1] == productIds[..i] + [id];
    }
    assert productIds[..|productIds|] == productIds;
  }

  /** The quantity attach as written: it reads `product.id`, a field the product records do
      not have (they carry `product_id`), so the dictionary is read at JavaScript's key for
      `undefined`, the string "undefined". */
  function CombineAsWritten(products: seq<Product>, productMap: map<string, nat>): (items: seq<CartItem>)
    ensures |items| == |products|
    ensures forall i :: 0 <= i < |products| ==> items[i].product == products[i]
    ensures forall i :: 0 <= i < |products| ==> items[i].quantity == Get(productMap, "undefined")
    decreases |products|
  {
    if products == [] then []
    else [CartItem(products[0], Get(productMap, "undefined"))] + CombineAsWritten(products[1..], productMap)
  }

  /** Unless the token holds the literal piece "undefined", the as-written attach leaves
      every quantity undefined, so the subtotal of a non-empty cart is NaN. */
  lemma {:induction false} AsWrittenQuantitiesUndefined(products: seq<Product>, productIds: seq<string>)
    requires "undefined" !in productIds
    ensures forall i :: 0 <= i < |products| ==>
      CombineAsWritten(products, TallyOf(productIds))[i].quantity == None
    ensures products != [] ==> SubTotal(CombineAsWritten(products, TallyOf(productIds))) == None
    decreases |products|
  {
    if products != [] {
      AsWrittenQuantitiesUndefined(products[1..], productIds);
      var items := CombineAsWritten(products, TallyOf(productIds));
      assert items[1..] == CombineAsWritten(products[1..], TallyOf(productIds));
      assert !QuantitiesKnown(items);
    }
  }

  /** The cart "5" with product 5 on the server: written as is, the line's quantity is
      undefined and the subtotal NaN; keyed by the product's id, the quantity is 1 and the
      subtotal is the product's cost. */
  lemma CartOfOneShowsNaN(p: Product)
    requires p.productId == 5
    ensures CombineAsWritten([p], TallyOf(Split("5")))[0].quantity == None
    ensures SubTotal(CombineAsWritten([p], TallyOf(Split("5")))) == None
    ensures Combine([p], TallyOf(Split("5")))[0].quantity == Some(1)
    ensures SubTotal(Combine([p], TallyOf(Split("5")))) == Some(p.cost)
  {
    var ids := Split("5");
    SplitSingle("5");
    assert Count(ids, "5") == 1 by {
      assert ids[..0] == [];
    }
    AsWrittenQuantitiesUndefined([p], ids);
    assert IdKey(5) == "5";
    CombinedQuantities([p], ids);
  }

  /** The quantity attach keyed by the product's own id: one entry per returned product, in
      the same order, each product unchanged apart from its quantity. */
  function Combine(products: seq<Product>, productMap: map<string, nat>): (items: seq<CartItem>)
    ensures |items| == |products|
    ensures forall i :: 0 <= i < |products| ==> items[i].product == products[i]
    decreases |products|
  {
    if products == [] then []
    else [CartItem(products[0], Get(productMap, IdKey(products[0].productId)))] + Combine(products[1..], productMap)
  }

  /** Against the token's tally, a product's quantity is its id's number of occurrences in
      the token, and undefined exactly when its id does not occur there. */
  lemma {:induction false} CombinedQuantities(products: seq<Product>, productIds: seq<string>)
    ensures forall i :: 0 <= i < |products| ==>
      && (IdKey(products[i].productId) in productIds ==>
            Combine(products, TallyOf(productIds))[i].quantity == Some(Count(productIds, IdKey(products[i].productId))))
      && (IdKey(products[i].productId) !in productIds <==>
            Combine(products, TallyOf(productIds))[i].quantity == None)
    decreases |products|
  {
    if products != [] {
      CombinedQuantities(products[1..], productIds);
      var items := Combine(products, TallyOf(productIds));
      forall i | 0 <= i < |products|
        ensures items[i].quantity == Get(TallyOf(productIds), IdKey(products[i].productId))
      {
        if i > 0 {
          assert items[i] == Combine(products[1..], TallyOf(productIds))[i - 1];
        }
      }
    }
  }

  /** The page state after the effect, from the state before it. `fetchProducts` stands for
      the request with the given `ids` query and its decoded answer; None is any failure. */
  function AfterLoad(view: CartView, cookie: Option<string>,
                     fetchProducts: string -> Option<seq<Product>>): (next: CartView)
    ensures !Present(cookie) ==> next == view
    ensures Present(cookie) && fetchProducts(cookie.value).None? ==>
      next == view.(error := Some(LoadErrorMessage))
    ensures Present(cookie) && fetchProducts(cookie.value).Some? ==>
      next == view.(cartItems := Combine(fetchProducts(cookie.value).value, TallyOf(Split(cookie.value))))
  {
    if !Present(cookie) then view
    else
      var productIds := Split(cookie.value);
      JoinSplit(cookie.value);
      match fetchProducts(Join(productIds))
      case None => view.(error := Some(LoadErrorMessage))
      case Some(products) => view.(cartItems := Combine(products, TallyOf(productIds)))
  }

  /** The effect with the quantity attach as written: the same request and error handling,
      the same products in the same order, every quantity read at the key "undefined". */
  function AfterLoadAsWritten(view: CartView, cookie: Option<string>,
                              fetchProducts: string -> Option<seq<Product>>): (next: CartView)
    ensures var fixed := AfterLoad(view, cookie, fetchProducts);
      && next.error == fixed.error
      && |next.cartItems| == |fixed.cartItems|
      && forall i :: 0 <= i < |next.cartItems| ==> next.cartItems[i].product == fixed.cartItems[i].product
    ensures Present(cookie) && fetchProducts(cookie.value).Some? ==>
      forall i :: 0 <= i < |next.cartItems| ==>
        next.cartItems[i].quantity == Get(TallyOf(Split(cookie.value)), "undefined")
    ensures !Present(cookie) || fetchProducts(cookie.value).None? ==>
      next == AfterLoad(view, cookie, fetchProducts)
  {
    if !Present(cookie) then view
    else
      var productIds := Split(cookie.value);
      JoinSplit(cookie.value);
      match fetchProducts(Join(productIds))
      case None => view.(error := Some(LoadErrorMessage))
      case Some(products) => view.(cartItems := CombineAsWritten(products, TallyOf(productIds)))
  }

  /** The effect body. It also returns the `ids` query it sent, None when it sent nothing. */
  method LoadCart(view: CartView, cookie: Option<string>,
                  fetchProducts: string -> Option<seq<Product>>)
    returns (next: CartView, query: Option<string>)
    ensures next == AfterLoad(view, cookie, fetchProducts)
    ensures !Present(cookie) ==> next == view && query == None
    ensures Present(cookie) ==> query == Some(cookie.value)
  {
    if !Present(cookie) {
      return view, None;
    }
    var productIds := Split(cookie.value);
    JoinSplit(cookie.value);
    query := Some(Join(productIds));
    match fetchProducts(query.value) {
      case None =>
        next := view.(error := Some(LoadErrorMessage));
      case Some(products) =>
        var productMap := BuildProductMap(productIds);
        next := view.(cartItems := Combine(products, productMap));
    }
  }

  /** `item.cost * item.quantity`; an undefined quantity gives NaN, here None. */
  function LineTotal(item: CartItem): (total: Option<int>)
    ensures total.Some? <==> item.quantity.Some?
    ensures total.Some? ==> total.value == item.product.cost * item.quantity.value
    ensures total.Some? && item.product.cost >= 0 ==> total.value >= 0
  {
    match item.quantity
    case None => None
    case Some(q) => Some(item.product.cost * q)
  }

  function AddTotals(a: Option<int>, b: Option<int>): Option<int>
  {
    if a.Some? && b.Some? then Some(a.value + b.value) else None
  }

  predicate QuantitiesKnown(items: seq<CartItem>)
  {
    forall i :: 0 <= i < |items| ==> items[i].quantity.Some?
  }

  /** The plain sum of cost times quantity over the items, summed from the right. */
  function LineSum(items: seq<CartItem>): int
    requires QuantitiesKnown(items)
    decreases |items|
  {
    if items == [] then 0 else items[0].product.cost * items[0].quantity.value + LineSum(items[1..])
  }

  /** The `reduce` of `subTotal`: a left fold from the given running sum. It adds the sum of
      cost times quantity, or is NaN once the running sum or a quantity is. */
  function SubTotalFrom(sum: Option<int>, items: seq<CartItem>): (total: Option<int>)
    ensures sum.Some? && QuantitiesKnown(items) ==> total == Some(sum.value + LineSum(items))
    ensures sum.None? || !QuantitiesKnown(items) ==> total == None
    decreases |items|
  {
    if items == [] then sum
    else
      assert QuantitiesKnown(items) <==> items[0].quantity.Some? && QuantitiesKnown(items[1..]);
      SubTotalFrom(AddTotals(sum, LineTotal(items[0])), items[1..])
  }

  /** `subTotal`: 0 for an empty cart, the sum of cost times quantity when every quantity is
      known, and NaN (None) as soon as one quantity is undefined. */
  function SubTotal(items: seq<CartItem>): (total: Option<int>)
    ensures items == [] ==> total == Some(0)
    ensures QuantitiesKnown(items) ==> total == Some(LineSum(items))
    ensures !QuantitiesKnown(items) ==> total == None
  {
    SubTotalFrom(Some(0), items)
  }

  /** The dictionary keys of the products' ids, in the order the products came. */
  function ProductKeys(products: seq<Product>): (keys: seq<string>)
    ensures |keys| == |products|
    ensures forall i :: 0 <= i < |products| ==> keys[i] == IdKey(products[i].productId)
    decreases |products|
  {
    if products == [] then [] else [IdKey(products[0].productId)] + ProductKeys(products[1..])
  }

  lemma {:induction false} LineSumOfCombine(products: seq<Product>, productIds: seq<string>,
                                            price: string -> int)
    requires forall i :: 0 <= i < |products| ==> IdKey(products[i].productId) in productIds
    requires forall i :: 0 <= i < |products| ==> products[i].cost == price(IdKey(products[i].productId))
    ensures QuantitiesKnown(Combine(products, TallyOf(productIds)))
    ensures LineSum(Combine(products, TallyOf(productIds)))
         == WeightedCount(ProductKeys(products), productIds, price)
    decreases |products|
  {
    CombinedQuantities(products, productIds);
    if products != [] {
      LineSumOfCombine(products[1..], productIds, price);
      assert Combine(products, TallyOf(productIds))[1..] == Combine(products[1..], TallyOf(productIds));
    }
  }

  /** When the server answers with one product per distinct id of the token, in any order,
      the subtotal charges every unit in the token once, at its product's cost. */
  lemma SubTotalChargesEveryUnit(token: string, products: seq<Product>, price: string -> int)
    requires multiset(ProductKeys(products)) == multiset(Dedup(Split(token)))
    requires forall i :: 0 <= i < |products| ==> products[i].cost == price(IdKey(products[i].productId))
    ensures SubTotal(Combine(products, TallyOf(Split(token)))) == Some(SumOver(Split(token), price))
  {
    var productIds := Split(token);
    var keys := ProductKeys(products);
    forall i | 0 <= i < |products|
      ensures IdKey(products[i].productId) in productIds
    {
      assert keys[i] in multiset(keys);
      assert keys[i] in Dedup(productIds);
    }
    LineSumOfCombine(products, productIds, price);
    WeightedCountPermutation(keys, Dedup(productIds), productIds, price);
    DedupWeightedCount(productIds, price);
  }
}
