/** The checkout page's cart fetch (`fetchCartItems`): parse the cart cookie, tally a
    quantity per id, look up each distinct id once, and attach the quantities. */
module Checkout {
  import opened Wrappers
  import opened Tally
  import opened Token
  import opened Products

  const FetchErrorMessage: string := "Error fetching cart items. Please try again."

  /** The part of the checkout page's state that the cart fetch sets. */
  datatype CheckoutView = CheckoutView(cartItems: seq<CartItem>, error: Option<string>, loading: bool)

  /** The cart's product ids: the pieces of the token, or none when there is no cart cookie. */
  function ParseCart(cookie: Option<string>): (productIds: seq<string>)
    ensures productIds == [] <==> !Present(cookie)
    ensures Present(cookie) ==> Join(productIds) == cookie.value
    ensures Present(cookie) ==> |productIds| == Count(cookie.value, ',') + 1
  {
    if Present(cookie) then
      JoinSplit(cookie.value);
      SplitLength(cookie.value);
      Split(cookie.value)
    else []
  }

  /** The `productCount` loop: one increment per entry, starting a missing key at 0. */
  method CountProducts(productIds: seq<string>) returns (productCount: map<string, nat>)
    ensures productCount == TallyOf(productIds)
  {
    productCount := map[];
    var i := 0;
    while i < |productIds|
      invariant 0 <= i <= |productIds|
      invariant productCount == TallyOf(productIds[..i])
    {
      var id := productIds[i];
      productCount := productCount[id := (if id in productCount then productCount[id] else 0) + 1];
      TallyOfSnoc(productIds[..i], id);
      assert productIds[..i + 1] == productIds[..i] + [id];
      i := i + 1;
    }
    assert productIds[..i] == productIds;
  }

  /** One lookup per distinct id, all or nothing as with `Promise.all`: None when any lookup
      fails. Each product found gets the quantity stored under its own `product_id`. */
  function Resolve(uniqueIds: seq<string>, productCount: map<string, nat>,
                   lookup: string -> Option<Product>): (items: Option<seq<CartItem>>)
    ensures items.Some? <==> forall i :: 0 <= i < |uniqueIds| ==> lookup(uniqueIds[i]).Some?
    ensures items.Some? ==> |items.value| == |uniqueIds|
    ensures items.Some? ==> forall i :: 0 <= i < |uniqueIds| ==>
      && items.value[i].product == lookup(uniqueIds[i]).value
      && items.value[i].quantity == Get(productCount, IdKey(items.value[i].product.productId))
    decreases |uniqueIds|
  {
    if uniqueIds == [] then Some([])
    else
      match lookup(uniqueIds[0])
      case None => None
      case Some(product) =>
        match Resolve(uniqueIds[1..], productCount, lookup)
        case None => None
        case Some(rest) => Some([CartItem(product, Get(productCount, IdKey(product.productId)))] + rest)
  }

  /** The page state after the fetch, from the state before it. Loading always ends; either
      the items are replaced and the error kept, or the error is set and the items kept. */
  function AfterFetch(view: CheckoutView, cookie: Option<string>,
                      lookup: string -> Option<Product>): (next: CheckoutView)
    ensures !next.loading
    ensures !Present(cookie) ==> next.cartItems == [] && next.error == view.error
    ensures next.error == view.error
         || (next.error == Some(FetchErrorMessage) && next.cartItems == view.cartItems)
  {
    var productIds := ParseCart(cookie);
    if |productIds| == 0 then view.(cartItems := [], loading := false)
    else
      match Resolve(Dedup(productIds), TallyOf(productIds), lookup)
      case None => view.(error := Some(FetchErrorMessage), loading := false)
      case Some(items) => view.(cartItems := items, loading := false)
  }

  /** `fetchCartItems`. Besides the new page state it returns the ids it requested. */
  method FetchCartItems(view: CheckoutView, cookie: Option<string>,
                        lookup: string -> Option<Product>)
    returns (next: CheckoutView, requested: seq<string>)
    ensures next == AfterFetch(view, cookie, lookup)
    ensures !next.loading
    ensures !Present(cookie) ==> next.cartItems == [] && requested == []
    ensures requested == Dedup(ParseCart(cookie))
    ensures NoDuplicates(requested)
    ensures forall id :: id in requested <==> id in ParseCart(cookie)
    ensures |requested| == |TallyOf(ParseCart(cookie)).Keys|
  {
    var productIds := ParseCart(cookie);
    if |productIds| == 0 {
      next, requested := view.(cartItems := [], loading := false), [];
      return;
    }
    var productCount := CountProducts(productIds);
    var uniqueProductIds := Dedup(productIds);
    DedupSizeIsKeyCount(productIds);
    requested := uniqueProductIds;
    var productsWithQuantities := Resolve(uniqueProductIds, productCount, lookup);
    match productsWithQuantities {
      case None =>
        next := view.(error := Some(FetchErrorMessage), loading := false);
      case Some(items) =>
        next := view.(cartItems := items, loading := false);
    }
  }

  /** A single failed lookup fails the whole fetch: the error is set and the previously
      stored items stay as they were, so no partial list is stored. */
  lemma OneFailedLookupFailsAll(view: CheckoutView, cookie: Option<string>,
                                lookup: string -> Option<Product>, id: string)
    requires id in ParseCart(cookie) && lookup(id).None?
    ensures AfterFetch(view, cookie, lookup).cartItems == view.cartItems
    ensures AfterFetch(view, cookie, lookup).error == Some(FetchErrorMessage)
  {
    var d := Dedup(ParseCart(cookie));
    assert id in d;
    var i :| 0 <= i < |d| && d[i] == id;
  }

  /** When every lookup succeeds, the stored items follow the distinct ids in order of first
      occurrence, keep each product's fields, and carry the quantity stored under the
      product's own id; the previous error, if any, is left in place. */
  lemma AllLookupsSucceed(view: CheckoutView, cookie: Option<string>,
                          lookup: string -> Option<Product>)
    requires Present(cookie)
    requires forall id :: id in ParseCart(cookie) ==> lookup(id).Some?
    ensures var next, ids := AfterFetch(view, cookie, lookup), ParseCart(cookie);
      && next.error == view.error
      && |next.cartItems| == |Dedup(ids)|
      && forall i :: 0 <= i < |Dedup(ids)| ==>
        && next.cartItems[i].product == lookup(Dedup(ids)[i]).value
        && next.cartItems[i].quantity == Get(TallyOf(ids), IdKey(next.cartItems[i].product.productId))
  {
  }

  /** Resolution over a token's ids when each lookup returns the product whose id spells the
      requested id: it succeeds, and each item's quantity is that id's occurrence count. */
  lemma ResolvedQuantities(ids: seq<string>, lookup: string -> Option<Product>)
    requires forall id :: id in ids ==> lookup(id).Some? && IdKey(lookup(id).value.productId) == id
    ensures Resolve(Dedup(ids), TallyOf(ids), lookup).Some?
    ensures forall i :: 0 <= i < |Dedup(ids)| ==>
      Resolve(Dedup(ids), TallyOf(ids), lookup).value[i].quantity == Some(Count(ids, Dedup(ids)[i]))
  {
    var d := Dedup(ids);
    forall i | 0 <= i < |d|
      ensures lookup(d[i]).Some? && IdKey(lookup(d[i]).value.productId) == d[i]
    {
      assert d[i] in ids;
    }
    var items := Resolve(d, TallyOf(ids), lookup).value;
    forall i | 0 <= i < |d|
      ensures items[i].quantity == Some(Count(ids, d[i]))
    {
      assert d[i] in ids;
      assert Get(TallyOf(ids), d[i]) == Some(Count(ids, d[i]));
    }
  }

  /** The number of units the items account for: the sum of their quantities. */
  function QuantitySum(items: seq<CartItem>): int
    decreases |items|
  {
    if items == [] then 0
    else (if items[0].quantity.Some? then items[0].quantity.value else 0) + QuantitySum(items[1..])
  }

  lemma {:induction false} QuantitySumOfCounts(items: seq<CartItem>, keys: seq<string>,
                                               productIds: seq<string>)
    requires |items| == |keys|
    requires forall i :: 0 <= i < |items| ==> items[i].quantity == Some(Count(productIds, keys[i]))
    ensures QuantitySum(items) == WeightedCount(keys, productIds, x => 1)
    decreases |items|
  {
    if items != [] {
      QuantitySumOfCounts(items[1..], keys[1..], productIds);
    }
  }

  /** When each lookup returns the product whose id spells the requested id, every item's
      quantity is that id's number of occurrences in the token, and the stored items'
      quantities add up to the number of entries in the token. */
  lemma QuantitiesAreOccurrenceCounts(view: CheckoutView, cookie: Option<string>,
                                      lookup: string -> Option<Product>)
    requires Present(cookie)
    requires forall id :: id in ParseCart(cookie) ==>
      lookup(id).Some? && IdKey(lookup(id).value.productId) == id
    ensures |AfterFetch(view, cookie, lookup).cartItems| == |Dedup(ParseCart(cookie))|
    ensures forall i :: 0 <= i < |Dedup(ParseCart(cookie))| ==>
      && AfterFetch(view, cookie, lookup).cartItems[i].quantity
           == Some(Count(ParseCart(cookie), Dedup(ParseCart(cookie))[i]))
      && Count(ParseCart(cookie), Dedup(ParseCart(cookie))[i]) >= 1
    ensures QuantitySum(AfterFetch(view, cookie, lookup).cartItems) == |ParseCart(cookie)|
  {
    var ids := ParseCart(cookie);
    var d := Dedup(ids);
    ResolvedQuantities(ids, lookup);
    var items := Resolve(d, TallyOf(ids), lookup).value;
    assert AfterFetch(view, cookie, lookup).cartItems == items;
    QuantitySumOfCounts(items, d, ids);
    CountsSumToLength(ids);
    forall i | 0 <= i < |d|
      ensures Count(ids, d[i]) >= 1
    {
      CountPositive(ids, d[i]);
    }
  }
}
