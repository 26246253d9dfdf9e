# Tech-store cart token: a Dafny model

The storefront keeps the shopping cart in a cookie, `cart`, whose value is a comma-separated
list of product ids with one entry per unit: `"5,5,7"` is two of product 5 and one of
product 7. Two pages turn that token into cart lines:

- the checkout page's `fetchCartItems` splits the token, tallies a quantity per id into a
  dictionary, deduplicates the ids in order of first occurrence, looks each distinct id up
  once (all lookups must succeed, as with `Promise.all`), and attaches to each product the
  quantity stored under its `product_id`;
- the cart page's effect splits the token, sends it back joined with commas as the `ids`
  query of one request, tallies the same dictionary (`productMap`), attaches quantities to
  the returned products, and shows per-line totals and a subtotal.

The model lifts these steps out of the React components:

- `Token`: `Split` and `Join` (JavaScript's `split(',')` and `join(',')`) with both
  round-trips, the segment count, and `Present`, the JavaScript truthiness of the cookie
  (unset and `""` both mean "no cart").
- `Tally`: occurrence counts, the quantity map `TallyOf`, first-occurrence deduplication
  `Dedup`, and sums over them.
- `Products`: the product record, the cart line `{ ...product, quantity }`, and `IdKey`,
  the spelling `String(id)` of a numeric id used as a dictionary key.
- `Checkout`: the tally loop `CountProducts`, the all-or-nothing lookup `Resolve`, and
  `FetchCartItems`, proved equal to the state function `AfterFetch`.
- `Cart`: the tally loop `BuildProductMap`, the quantity attach, the effect `LoadCart`,
  proved equal to `AfterLoad`, and the subtotal fold.

The product lookup and the product request are function parameters (`lookup`,
`fetchProducts`) that return `None` when the page's code fails. They fail in different
ways on the two pages. The checkout page's `lookup` fails on a network error, a non-ok
response (Checkout.jsx:59-60) or an undecodable body. The cart page's `fetchProducts` never
reads the response status. It fails on a network error, an undecodable body, a decoded
body without `map` (Cart.jsx:30), such as a non-array, or an array with a `null` or
`undefined` entry (reading `product.id` throws at Cart.jsx:32). A non-ok response whose body
decodes to an array of records is used as the product list. Page state set through React setters is
modelled as a value: each operation takes the page state before it and returns the state
after it. Money is held in integer cents.

## Model

| member | source | states |
|---|---|---|
| Token.Split | tech-store-ui/src/routes/Cart.jsx:13-15 | splitting any string on `,` yields at least one comma-free segment, so the length-zero guard can never be taken |
| Token.JoinSplit | tech-store-ui/src/routes/Cart.jsx:13-17 | joining the segments of a token with `,` gives the token back, duplicates and empty segments included |
| Token.Join | tech-store-ui/src/routes/Cart.jsx:17 | `join(',')` puts one comma between neighbouring pieces: joining one or more comma-free pieces gives a token with one comma fewer than pieces |
| Token.Present | tech-store-ui/src/routes/Cart.jsx:11 | the cookie's truthiness: a set cookie counts as a cart exactly when its split is more than the single empty piece, so unset and empty cookies both mean no cart |
| Token.SplitJoin | tech-store-ui/src/routes/Checkout.jsx:37 | splitting the join of one or more comma-free segments gives the segments back |
| Token.SplitLength | tech-store-ui/src/routes/Checkout.jsx:37 | a token has one more segment than it has commas |
| Checkout.ParseCart | tech-store-ui/src/routes/Checkout.jsx:37 | the id list is empty exactly when the cookie is unset or empty; otherwise it joins back to the token and has one entry more than the token has commas |
| Checkout.CountProducts | tech-store-ui/src/routes/Checkout.jsx:47-50 | the dictionary built by the loop maps each id that occurs to its number of occurrences and holds no other key |
| Tally.TallyOfSnoc | tech-store-ui/src/routes/Checkout.jsx:49 | visiting one more entry raises its count by one, starting from zero for a new key, and leaves the other keys alone |
| Tally.CountIsMultiplicity | tech-store-ui/src/routes/Checkout.jsx:47-50 | the recursive occurrence count equals the id's multiplicity in the multiset of entries |
| Tally.CountPositive | tech-store-ui/src/routes/Checkout.jsx:47-50 | an id has a positive count exactly when it occurs |
| Tally.TallyOfKeysAndCounts | tech-store-ui/src/routes/Checkout.jsx:47-50 | the keys of the quantity map are exactly the ids that occur, and each has a count of at least 1 |
| Tally.CountsSumToLength | tech-store-ui/src/routes/Checkout.jsx:47-53 | the occurrence counts of the distinct ids add up to the number of entries in the token |
| Tally.WeightedCountPermutation | tech-store-ui/src/routes/Cart.jsx:30-43 | a count-weighted sum over a list of ids does not depend on the order in which the ids are listed |
| Tally.Dedup | tech-store-ui/src/routes/Checkout.jsx:53 | the deduplicated list has no repeats and contains exactly the ids that occur |
| Tally.DedupKeepsFirstOccurrenceOrder | tech-store-ui/src/routes/Checkout.jsx:53 | the deduplicated ids appear in the order of their first occurrence in the token |
| Tally.FirstIndex | tech-store-ui/src/routes/Checkout.jsx:53 | the position returned holds the id and no earlier position does |
| Tally.DedupSizeIsKeyCount | tech-store-ui/src/routes/Checkout.jsx:47-53 | the deduplicated list is as long as the quantity map has keys |
| Tally.DedupWeightedCount | tech-store-ui/src/routes/Cart.jsx:43 | weighting each distinct id by its count equals summing the weight over every unit in the token |
| Products.IdKey | tech-store-ui/src/routes/Checkout.jsx:65 | the key spelling of a product id is `String(id)`: a minus sign first exactly when the id is negative and nowhere else, then decimal digits with no leading zero ("0" only for id 0), so never a comma |
| Products.IdKeyRoundTrip | tech-store-ui/src/routes/Checkout.jsx:65 | reading the key spelling back as a number gives the product id |
| Products.IdKeyInjective | tech-store-ui/src/routes/Checkout.jsx:65 | two product ids share a key exactly when they are equal |
| Checkout.Resolve | tech-store-ui/src/routes/Checkout.jsx:56-68 | resolution succeeds exactly when every lookup succeeds; then it has one item per distinct id in the same order, each keeping the looked-up product's fields, with the quantity stored under the product's own id |
| Checkout.AfterFetch | tech-store-ui/src/routes/Checkout.jsx:37-77 | the page state after the fetch: loading ends; with no cookie the items are emptied and the error kept; otherwise either the items are replaced and the error kept, or the error is set and the items kept |
| Checkout.FetchCartItems | tech-store-ui/src/routes/Checkout.jsx:34-81 | the new page state is `AfterFetch`; loading ends; with no cookie the cart is empty and no lookup is made; otherwise exactly one lookup per distinct id, issued in order of first occurrence in the token, as many as the quantity map has keys |
| Checkout.OneFailedLookupFailsAll | tech-store-ui/src/routes/Checkout.jsx:59-74 | one failed lookup sets the error and leaves the stored items as they were, so no partial list is stored |
| Checkout.AllLookupsSucceed | tech-store-ui/src/routes/Checkout.jsx:56-71 | when every lookup succeeds the items follow the distinct ids in order, keep the products' fields and carry the tallied quantity; an earlier error stays in place |
| Checkout.ResolvedQuantities | tech-store-ui/src/routes/Checkout.jsx:56-68 | over a token's distinct ids, when each lookup returns the product whose id spells the requested id, resolution succeeds and each item's quantity is that id's occurrence count |
| Checkout.QuantitiesAreOccurrenceCounts | tech-store-ui/src/routes/Checkout.jsx:62-66 | when each lookup returns the product whose id spells the requested id, each stored item's quantity is that id's occurrence count (at least 1), and the stored items' quantities add up to the number of entries in the token |
| Cart.BuildProductMap | tech-store-ui/src/routes/Cart.jsx:21-27 | the dictionary built by the loop maps each id that occurs to its number of occurrences and holds no other key |
| Cart.CombineAsWritten | tech-store-ui/src/routes/Cart.jsx:30-33 | one entry per returned product, in order, each product unchanged, every quantity read at the key "undefined", which is what `product.id` gives for records that carry `product_id` |
| Cart.AsWrittenQuantitiesUndefined | tech-store-ui/src/routes/Cart.jsx:30-33 | unless the token holds the piece "undefined", every quantity attached as written is undefined and a non-empty cart's subtotal is NaN |
| Cart.CartOfOneShowsNaN | tech-store-ui/src/routes/Cart.jsx:30-43 | for the token "5" and product 5, the as-written quantity is undefined and the subtotal NaN; keyed by the product id the quantity is 1 and the subtotal the product's cost |
| Cart.Combine | tech-store-ui/src/routes/Cart.jsx:30-33 | one entry per returned product, in the same order, each product unchanged apart from its quantity |
| Cart.CombinedQuantities | tech-store-ui/src/routes/Cart.jsx:21-33 | a product's quantity is its id's occurrence count in the token, and undefined exactly when its id does not occur |
| Cart.AfterLoad | tech-store-ui/src/routes/Cart.jsx:10-41 | the page state after the effect, with the quantity attach of line 32 corrected (see Findings): with no cookie the state is unchanged; a failed request sets the error; otherwise the items are the answer to the request for the token itself, with quantities from the token's tally |
| Cart.AfterLoadAsWritten | tech-store-ui/src/routes/Cart.jsx:10-41 | the effect as written: with no cookie or a failed request the state is exactly that of `AfterLoad` (unchanged, or the error set); otherwise the same error and the same products in the same order, with every quantity read at the key "undefined" |
| Cart.LoadCart | tech-store-ui/src/routes/Cart.jsx:10-41 | the new page state is `AfterLoad`, which uses the corrected attach of line 32; with no cookie nothing is requested and the state is unchanged; otherwise the request's `ids` query is the token itself |
| Cart.LineTotal | tech-store-ui/src/routes/Cart.jsx:72 | a line's total is cost times quantity, NaN when the quantity is undefined, and never negative for a non-negative cost |
| Cart.SubTotalFrom | tech-store-ui/src/routes/Cart.jsx:43 | the `reduce` from a running sum adds the right-to-left sum of cost times quantity when every quantity is known, and is NaN otherwise |
| Cart.SubTotal | tech-store-ui/src/routes/Cart.jsx:43 | the subtotal is 0 for an empty cart, the sum of cost times quantity over the lines when all quantities are known, and NaN once one is undefined |
| Cart.LineSumOfCombine | tech-store-ui/src/routes/Cart.jsx:30-43 | for products whose ids occur in the token, every quantity is known and the sum of line totals is the count-weighted sum of the products' prices |
| Cart.SubTotalChargesEveryUnit | tech-store-ui/src/routes/Cart.jsx:30-43 | when the server returns one product per distinct id of the token, in any order, the subtotal charges every unit in the token once at its product's cost |

## Findings

| source | as written | input that shows it | evidently intended | confidence | as-written member | corrected member |
|---|---|---|---|---|---|---|
| tech-store-ui/src/routes/Cart.jsx:32 | the quantity is read as `productMap[product.id]`, but product records carry `product_id` (routes/products.js:20 looks them up by it, and Checkout.jsx:65 reads it), so the key read is JavaScript's `undefined` | token `"5"` with product 5 returned: quantity undefined, line total and subtotal NaN | read the quantity under the product's own id, `productMap[product.product_id]`, giving quantity 1 and the product's cost as subtotal | medium: the database schema is not part of this model, but every use outside Cart.jsx reads `product_id` (routes/products.js:20, Checkout.jsx:65 and 132, Home.jsx:22 and 28), and Cart.jsx:53 reads `item.id` as well; not executed | Cart.CombineAsWritten | Cart.Combine |

`Cart.CartOfOneShowsNaN` exhibits the input and `Cart.AsWrittenQuantitiesUndefined` shows the
as-written quantity is undefined for every token without the piece "undefined".
`Cart.AfterLoadAsWritten` is the whole effect as written. `Cart.CombinedQuantities` and
`Cart.SubTotalChargesEveryUnit` prove the intended behaviour of `Cart.Combine`, which
`Cart.AfterLoad` and `Cart.LoadCart` use.

## Left out

- Cart.LoadCart: stores the cart lines built by the corrected `Combine`, which reads the
  quantity under the product's own id; the attach as written at Cart.jsx:32 is modelled by
  `CombineAsWritten` and `AfterLoadAsWritten` (see Findings).
- Network I/O, `fetch`, `Promise.all` concurrency and JSON decoding: the lookups are the
  parameters `lookup` and `fetchProducts`. A failed decode or request is their `None`.
- Cookie reading and removal, and React hooks and setters. Page state is passed in and
  returned. The `loading` flag set elsewhere (`onSubmit`) is not modelled.
- The cookie library's decoding of cookie values: the cookie value is taken as a string.
- Dictionary keys that name properties every JavaScript object inherits (`toString`,
  `constructor`, `__proto__`): the model treats them as ordinary ids. In JavaScript the
  dictionary differs from `TallyOf` at those keys: `toString` and `constructor` get a
  non-numeric entry, and `__proto__` gets no entry at all. No attached quantity reads such a
  key, since Checkout.jsx:65 reads a numeric `product_id` and Cart.jsx:32 reads "undefined".
- `String(id)` of integers beyond 10^21, which JavaScript spells in exponent notation:
  `IdKey` always spells plain decimal digits. Product ids are far below that bound.
- Floating-point money and its formatting (`toFixed`, `toLocaleString`): costs are integer
  cents, and NaN is `None`.
- The server side: routes/products.js and routes/users.js are thin database handlers, and the
  purchase route is a stub that returns a fixed message. The cart page's request
  `/products?ids=...` matches none of the product routes. That request is the
  `fetchProducts` parameter.
- Rendering, routing, login redirects, form validation by react-hook-form, and the checkout
  submission `onSubmit`, which forwards the raw cookie to the server.
- The login page's cart check (Login.jsx:53-58) uses the same split and guard as `ParseCart`.
- No tax is computed anywhere in these files, so none is modelled.
