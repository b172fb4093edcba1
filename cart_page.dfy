/**
 * The cart page (src/app/cart/page.tsx): the stored cart joined to catalogue
 * products at load time, quantity edits and removals, the subtotal and total
 * shown in the order summary, and the outcome of checkout.
 *
 * The page keeps its own `cartItems` and `cartProducts`, writes the browser's
 * "cart" entry directly, and reaches the store only through `setCart` on
 * removal; quantity edits and checkout leave the store's cart as it was.
 */
module CartPage {
  import opened Catalog
  import opened Store
  import opened ToastPricing

  /** A catalogue product with the cart line attached (`Product & { cartInfo }`). */
  datatype CartProduct = CartProduct(product: Product, cartInfo: CartItem)

  function ProductKey(cp: CartProduct): int { cp.product.id }

  /** The entries of a join: each carries the catalogue product of its own id. */
  ghost predicate Joined(cps: seq<CartProduct>, catalog: seq<Product>)
  {
    forall k :: 0 <= k < |cps| ==> FindProduct(catalog, cps[k].cartInfo.productId) == Some(cps[k].product)
  }

  /** The load-time join (page.tsx:30-33): each stored line is paired with the
      first catalogue product of its id, and lines with no product are dropped. */
  function JoinCatalog(items: seq<CartItem>, catalog: seq<Product>): (r: seq<CartProduct>)
    ensures |r| <= |items|
    ensures Joined(r, catalog)
    ensures forall k :: 0 <= k < |r| ==> r[k].cartInfo in items
  {
    if |items| == 0 then []
    else JoinLine(items[0], catalog) + JoinCatalog(items[1..], catalog)
  }

  /** One line of the join: the line with its product, or nothing. */
  function JoinLine(x: CartItem, catalog: seq<Product>): seq<CartProduct>
  {
    match FindProduct(catalog, x.productId)
    case Some(p) => [CartProduct(p, x)]
    case None => []
  }

  /** The join works line by line: joining a concatenation joins each part. */
  lemma {:induction false} JoinAppend(a: seq<CartItem>, b: seq<CartItem>, catalog: seq<Product>)
    ensures JoinCatalog(a + b, catalog) == JoinCatalog(a, catalog) + JoinCatalog(b, catalog)
  {
    if |a| > 0 {
      var head := JoinLine(a[0], catalog);
      assert (a + b)[0] == a[0] && (a + b)[1..] == a[1..] + b;
      JoinAppend(a[1..], b, catalog);
      calc {
        JoinCatalog(a + b, catalog);
        head + JoinCatalog((a + b)[1..], catalog);
        head + JoinCatalog(a[1..] + b, catalog);
        head + (JoinCatalog(a[1..], catalog) + JoinCatalog(b, catalog));
        (head + JoinCatalog(a[1..], catalog)) + JoinCatalog(b, catalog);
        JoinCatalog(a, catalog) + JoinCatalog(b, catalog);
      }
    } else {
      assert a + b == b;
    }
  }

  /** A line whose product is in the catalogue yields one entry; one whose
      product is not yields nothing. */
  lemma JoinSingle(x: CartItem, catalog: seq<Product>)
    ensures FindProduct(catalog, x.productId).None? ==> JoinCatalog([x], catalog) == []
    ensures FindProduct(catalog, x.productId).Some? ==>
              JoinCatalog([x], catalog) == [CartProduct(FindProduct(catalog, x.productId).value, x)]
  {
  }

  /** When every stored line has a product, the join keeps all lines, in order. */
  lemma {:induction false} JoinKeepsKnown(items: seq<CartItem>, catalog: seq<Product>)
    requires forall k :: 0 <= k < |items| ==> FindProduct(catalog, items[k].productId).Some?
    ensures |JoinCatalog(items, catalog)| == |items|
    ensures forall k :: 0 <= k < |items| ==> JoinCatalog(items, catalog)[k].cartInfo == items[k]
  {
    if |items| > 0 {
      JoinKeepsKnown(items[1..], catalog);
      var r := JoinCatalog(items, catalog);
      forall k | 0 <= k < |items| ensures r[k].cartInfo == items[k] {
        if k > 0 { assert r[k] == JoinCatalog(items[1..], catalog)[k - 1]; }
      }
    }
  }

  /** `cartItems.map(...)` in `updateQuantity`: every line with the id gets the new quantity. */
  function SetQuantity(items: seq<CartItem>, productId: int, quantity: int): (r: seq<CartItem>)
    ensures |r| == |items|
    ensures forall k :: 0 <= k < |r| ==>
              r[k] == if items[k].productId == productId then items[k].(quantity := quantity) else items[k]
  {
    if |items| == 0 then []
    else
      var rest := SetQuantity(items[1..], productId, quantity);
      assert forall k :: 1 <= k < |items| ==> items[k] == items[1..][k - 1];
      [if items[0].productId == productId then items[0].(quantity := quantity) else items[0]] + rest
  }

  /** `cartProducts.map(...)` in `updateQuantity`: every entry for the product
      gets the new quantity in its `cartInfo`. */
  function SetProductQuantity(cps: seq<CartProduct>, productId: int, quantity: int): (r: seq<CartProduct>)
    ensures |r| == |cps|
    ensures forall k :: 0 <= k < |r| ==>
              r[k] == if cps[k].product.id == productId
                      then cps[k].(cartInfo := cps[k].cartInfo.(quantity := quantity)) else cps[k]
  {
    if |cps| == 0 then []
    else
      var rest := SetProductQuantity(cps[1..], productId, quantity);
      assert forall k :: 1 <= k < |cps| ==> cps[k] == cps[1..][k - 1];
      [if cps[0].product.id == productId
       then cps[0].(cartInfo := cps[0].cartInfo.(quantity := quantity)) else cps[0]] + rest
  }

  /** The two maps of `updateQuantity` agree: editing the lines and then joining
      gives the joined list edited by product id. */
  lemma {:induction false} JoinSetQuantity(items: seq<CartItem>, catalog: seq<Product>, productId: int, quantity: int)
    ensures JoinCatalog(SetQuantity(items, productId, quantity), catalog)
            == SetProductQuantity(JoinCatalog(items, catalog), productId, quantity)
  {
    if |items| > 0 {
      var edited := SetQuantity(items, productId, quantity);
      assert edited[1..] == SetQuantity(items[1..], productId, quantity);
      JoinSetQuantity(items[1..], catalog, productId, quantity);
      JoinEditedHead(items[0], catalog, productId, quantity);
      assert items == [items[0]] + items[1..];
      assert edited == [edited[0]] + edited[1..];
      JoinAppend([items[0]], items[1..], catalog);
      JoinAppend([edited[0]], edited[1..], catalog);
      SetProductQuantityAppend(JoinCatalog([items[0]], catalog), JoinCatalog(items[1..], catalog), productId, quantity);
    }
  }

  /** The head case of `JoinSetQuantity`: one line, edited and then joined. */
  lemma JoinEditedHead(x: CartItem, catalog: seq<Product>, productId: int, quantity: int)
    ensures JoinCatalog([if x.productId == productId then x.(quantity := quantity) else x], catalog)
            == SetProductQuantity(JoinCatalog([x], catalog), productId, quantity)
  {
    var y := if x.productId == productId then x.(quantity := quantity) else x;
    JoinSingle(x, catalog);
    JoinSingle(y, catalog);
  }

  lemma {:induction false} SetProductQuantityAppend(a: seq<CartProduct>, b: seq<CartProduct>, productId: int, quantity: int)
    ensures SetProductQuantity(a + b, productId, quantity)
            == SetProductQuantity(a, productId, quantity) + SetProductQuantity(b, productId, quantity)
  {
  }

  /** The two filters of `removeFromCart` agree: removing the lines and then
      joining gives the joined list filtered by product id. */
  lemma {:induction false} JoinWithout(items: seq<CartItem>, catalog: seq<Product>, productId: int)
    ensures JoinCatalog(Without(items, CartKey, productId), catalog)
            == Without(JoinCatalog(items, catalog), ProductKey, productId)
  {
    if |items| > 0 {
      var rest := JoinCatalog(items[1..], catalog);
      var head := JoinCatalog([items[0]], catalog);
      JoinSingle(items[0], catalog);
      assert items == [items[0]] + items[1..];
      JoinAppend([items[0]], items[1..], catalog);
      JoinWithout(items[1..], catalog, productId);
      var kept := if items[0].productId == productId then [] else [items[0]];
      assert Without(items, CartKey, productId) == kept + Without(items[1..], CartKey, productId);
      JoinAppend(kept, Without(items[1..], CartKey, productId), catalog);
      assert kept == [] ==> JoinCatalog(kept, catalog) == [];
      WithoutAppend(head, rest, ProductKey, productId);
      assert head + rest == JoinCatalog(items, catalog);
    }
  }

  /** The unit price used by `calculateSubtotal` (page.tsx:72-74): for a bulk
      line, the first tier in LIST ORDER that the quantity reaches, with no sort;
      `?.price || value` also falls back to the base price for a tier priced 0.
      A non-bulk line uses the catalogue base price, with no sale discount,
      and never the price stored on the line. */
  function SubtotalUnitPrice(cp: CartProduct): real
  {
    if cp.cartInfo.bulkPrice then
      match cp.product.price.bulkPrices
      case None => cp.product.price.value
      case Some(tiers) =>
        match FindTier(tiers, cp.cartInfo.quantity)
        case Some(tier) => if tier.price != 0.0 then tier.price else cp.product.price.value
        case None => cp.product.price.value
    else cp.product.price.value
  }

  /** The subtotal's unit price in words: a non-bulk line, or a bulk line of a
      product without tiers, pays the base price; a bulk line pays the price of
      the first listed tier its quantity reaches, unless that price is 0 or no
      tier is reached, in which case it pays the base price. */
  lemma SubtotalPriceRule(cp: CartProduct)
    ensures !cp.cartInfo.bulkPrice || cp.product.price.bulkPrices.None? ==>
              SubtotalUnitPrice(cp) == cp.product.price.value
    ensures cp.cartInfo.bulkPrice && cp.product.price.bulkPrices.Some? ==>
      var tiers := cp.product.price.bulkPrices.value;
      var q := cp.cartInfo.quantity;
      && ((forall k :: 0 <= k < |tiers| ==> tiers[k].quantity > q) ==>
            SubtotalUnitPrice(cp) == cp.product.price.value)
      && (forall k ::
            (0 <= k < |tiers| && tiers[k].quantity <= q && forall j :: 0 <= j < k ==> tiers[j].quantity > q) ==>
            SubtotalUnitPrice(cp) == if tiers[k].price != 0.0 then tiers[k].price else cp.product.price.value)
  {
  }

  /** Sorting a list already sorted largest threshold first changes nothing. */
  lemma {:induction false} SortKeepsSorted(tiers: seq<BulkTier>)
    requires SortedDesc(tiers)
    ensures SortByThresholdDesc(tiers) == tiers
  {
    if |tiers| > 0 {
      assert SortedDesc(tiers[1..]);
      SortKeepsSorted(tiers[1..]);
      assert tiers == [tiers[0]] + tiers[1..];
    }
  }

  /** When the catalogue lists a product's tiers largest threshold first and no
      tier is priced 0, a bulk line's subtotal price is the price the
      add-to-cart notification showed for that quantity. */
  lemma SubtotalMatchesToastOnSortedTiers(cp: CartProduct)
    requires cp.cartInfo.bulkPrice && cp.product.price.bulkPrices.Some?
    requires SortedDesc(cp.product.price.bulkPrices.value)
    requires forall k :: 0 <= k < |cp.product.price.bulkPrices.value| ==> cp.product.price.bulkPrices.value[k].price != 0.0
    ensures SubtotalUnitPrice(cp) == CalculatePrice(cp.product, cp.cartInfo.quantity, true)
  {
    SortKeepsSorted(cp.product.price.bulkPrices.value);
    var t := FindTier(cp.product.price.bulkPrices.value, cp.cartInfo.quantity);
    if t.Some? {
      var k :| 0 <= k < |cp.product.price.bulkPrices.value| && cp.product.price.bulkPrices.value[k] == t.value;
    }
  }

  /** Product 1001 lists its tiers smallest threshold first, so at quantity 100
      the notification shows 340 (the 100-unit tier) while the subtotal charges
      360 (the first listed tier the quantity reaches). */
  lemma CementSubtotalDiffersFromToast()
    ensures CalculatePrice(Cement(), 100, true) == 340.0
    ensures SubtotalUnitPrice(CartProduct(Cement(), CartItem(1001, 100, 340.0, true))) == 360.0
  {
  }

  function LineAmount(cp: CartProduct): real
  {
    SubtotalUnitPrice(cp) * cp.cartInfo.quantity as real
  }

  /** `calculateSubtotal` (page.tsx:70-77): the `reduce` from the left, starting at 0. */
  function Subtotal(cps: seq<CartProduct>): real
  {
    if |cps| == 0 then 0.0 else Subtotal(cps[..|cps| - 1]) + LineAmount(cps[|cps| - 1])
  }

  /** The subtotal adds up over a concatenation. */
  lemma {:induction false} SubtotalAppend(a: seq<CartProduct>, b: seq<CartProduct>)
    ensures Subtotal(a + b) == Subtotal(a) + Subtotal(b)
  {
    if |b| > 0 {
      assert (a + b)[..|a + b| - 1] == a + b[..|b| - 1];
      SubtotalAppend(a, b[..|b| - 1]);
    } else {
      assert a + b == a;
    }
  }

  /** The subtotal never reads the price stored on a cart line: two carts that
      differ only in those prices have the same subtotal. */
  lemma {:induction false} SubtotalIgnoresStoredPrice(cps: seq<CartProduct>, prices: seq<real>)
    requires |prices| == |cps|
    ensures Subtotal(WithStoredPrices(cps, prices)) == Subtotal(cps)
  {
    if |cps| > 0 {
      var n := |cps| - 1;
      assert WithStoredPrices(cps, prices)[..n] == WithStoredPrices(cps[..n], prices[..n]);
      SubtotalIgnoresStoredPrice(cps[..n], prices[..n]);
    }
  }

  /** The cart with line k's stored price replaced by prices[k]. */
  function WithStoredPrices(cps: seq<CartProduct>, prices: seq<real>): seq<CartProduct>
    requires |prices| == |cps|
  {
    seq(|cps|, k requires 0 <= k < |cps| => cps[k].(cartInfo := cps[k].cartInfo.(price := prices[k])))
  }

  /** With non-negative catalogue prices and quantities the subtotal is non-negative. */
  lemma {:induction false} SubtotalNonNegative(cps: seq<CartProduct>)
    requires forall k :: 0 <= k < |cps| ==> PricesNonNegative(cps[k].product) && cps[k].cartInfo.quantity >= 0
    ensures Subtotal(cps) >= 0.0
  {
    if |cps| > 0 {
      var last := cps[|cps| - 1];
      SubtotalNonNegative(cps[..|cps| - 1]);
      assert SubtotalUnitPrice(last) >= 0.0 by {
        if last.cartInfo.bulkPrice && last.product.price.bulkPrices.Some? {
          var t := FindTier(last.product.price.bulkPrices.value, last.cartInfo.quantity);
          if t.Some? {
            var k :| 0 <= k < |last.product.price.bulkPrices.value|
                     && last.product.price.bulkPrices.value[k] == t.value;
          }
        }
      }
    }
  }

  ghost predicate PricesNonNegative(p: Product)
  {
    p.price.value >= 0.0 &&
    (p.price.bulkPrices.Some? ==>
       forall k :: 0 <= k < |p.price.bulkPrices.value| ==> p.price.bulkPrices.value[k].price >= 0.0)
  }

  const ShippingFee: real := 500.0
  const TaxRate: real := 0.20

  /** The shipping charge: the fixed fee when the cart is non-empty. */
  function Shipping(cps: seq<CartProduct>): real
  {
    if |cps| > 0 then ShippingFee else 0.0
  }

  /** `calculateTotal` (page.tsx:79-84). */
  function CalculateTotal(cps: seq<CartProduct>): real
  {
    var subtotal := Subtotal(cps);
    subtotal + Shipping(cps) + subtotal * TaxRate
  }

  datatype OrderSummary = OrderSummary(subtotal: real, shipping: real, tax: real, total: real)

  /** The order summary sent with checkout (page.tsx:93-98), whose total comes
      from `calculateTotal` on its own. */
  function BuildOrderSummary(cps: seq<CartProduct>): (s: OrderSummary)
    ensures s.subtotal == Subtotal(cps)
    ensures s.total == s.subtotal + s.shipping + s.tax
    ensures s.tax == s.subtotal * TaxRate
    ensures |cps| == 0 ==> s == OrderSummary(0.0, 0.0, 0.0, 0.0)
    ensures |cps| > 0 ==> s.shipping == ShippingFee
  {
    OrderSummary(Subtotal(cps), Shipping(cps), Subtotal(cps) * TaxRate, CalculateTotal(cps))
  }

  /** One bulk line of product 1001 at quantity 10: subtotal 3600, shipping 500,
      tax 720, total 4820. */
  lemma CementScenario()
    ensures BuildOrderSummary([CartProduct(Cement(), CartItem(1001, 10, 360.0, true))])
            == OrderSummary(3600.0, 500.0, 720.0, 4820.0)
  {
  }

  /** The page's own state and the shared browser storage, whose "cart" entry
      lives in the store object. */
  class Page {
    const store: AppStore
    const catalog: seq<Product>
    var isProcessing: bool
    var cartItems: seq<CartItem>
    var cartProducts: seq<CartProduct>

    /** The displayed entries are the stored lines joined to the catalogue. */
    ghost predicate Consistent()
      reads this
    {
      cartProducts == JoinCatalog(cartItems, catalog)
    }

    /** The checkout button is enabled (page.tsx:291): items shown, nothing in flight. */
    predicate CheckoutEnabled()
      reads this
    {
      |cartProducts| > 0 && !isProcessing
    }

    constructor (store: AppStore, catalog: seq<Product>)
      ensures this.store == store && this.catalog == catalog
      ensures !isProcessing && cartItems == [] && cartProducts == []
      ensures Consistent()
    {
      this.store := store;
      this.catalog := catalog;
      isProcessing := false;
      cartItems := [];
      cartProducts := [];
    }

    /** The mount effect (page.tsx:24-37): when the "cart" entry is present, the
        lines are taken from it and joined to the catalogue. */
    method Load()
      modifies this
      ensures store.storedCart.Some? ==>
                cartItems == store.storedCart.value && cartProducts == JoinCatalog(cartItems, catalog)
      ensures store.storedCart.None? ==>
                cartItems == old(cartItems) && cartProducts == old(cartProducts)
      ensures isProcessing == old(isProcessing)
      ensures old(Consistent()) || store.storedCart.Some? ==> Consistent()
    {
      if store.storedCart.Some? {
        cartItems := store.storedCart.value;
        cartProducts := JoinCatalog(cartItems, catalog);
      }
    }

    /** `updateQuantity` (page.tsx:39-56): below 1 nothing happens; otherwise the
        lines and the joined entries for the id take the new quantity and the
        lines are written to storage, while the store's cart is not touched. */
    method UpdateQuantity(productId: int, newQuantity: int)
      modifies this, store`storedCart
      ensures newQuantity < 1 ==>
                cartItems == old(cartItems) && cartProducts == old(cartProducts)
                && store.storedCart == old(store.storedCart)
      ensures newQuantity >= 1 ==>
                cartItems == SetQuantity(old(cartItems), productId, newQuantity)
                && cartProducts == SetProductQuantity(old(cartProducts), productId, newQuantity)
                && store.storedCart == Some(cartItems)
      ensures store.cart == old(store.cart) && store.favorites == old(store.favorites)
      ensures store.storedFavorites == old(store.storedFavorites)
      ensures isProcessing == old(isProcessing)
      ensures old(Consistent()) ==> Consistent()
    {
      if newQuantity < 1 {
        return;
      }
      var updatedCart := SetQuantity(cartItems, productId, newQuantity);
      JoinSetQuantity(cartItems, catalog, productId, newQuantity);
      cartItems := updatedCart;
      store.storedCart := Some(updatedCart);
      cartProducts := SetProductQuantity(cartProducts, productId, newQuantity);
    }

    /** `removeFromCart` (page.tsx:58-68): the id is dropped from the lines, the
        displayed entries, the store (via `setCart`) and storage. */
    method RemoveFromCart(productId: int)
      modifies this, store
      ensures cartItems == Without(old(cartItems), CartKey, productId)
      ensures cartProducts == Without(old(cartProducts), ProductKey, productId)
      ensures store.cart == cartItems && store.storedCart == Some(cartItems)
      ensures store.favorites == old(store.favorites) && store.storedFavorites == old(store.storedFavorites)
      ensures isProcessing == old(isProcessing)
      ensures old(Consistent()) ==> Consistent()
    {
      var updatedCart := Without(cartItems, CartKey, productId);
      JoinWithout(cartItems, catalog, productId);
      cartItems := updatedCart;
      store.SetCart(updatedCart);
      store.storedCart := Some(updatedCart);
      cartProducts := Without(cartProducts, ProductKey, productId);
    }

    /** `handleCheckout` (page.tsx:87-144) with the response abstracted as an
        oracle. The request carries the displayed entries and their summary.
        Only a response with `success` clears storage and both page lists; the
        store's cart is left as it was either way. The processing flag is off
        again afterwards. */
    method Checkout(response: CheckoutResponse) returns (request: CheckoutRequest, notice: CheckoutNotice)
      modifies this, store`storedCart
      ensures request == CheckoutRequest(old(cartProducts), BuildOrderSummary(old(cartProducts)))
      ensures Succeeded(response) ==>
                store.storedCart.None? && cartItems == [] && cartProducts == [] && notice == OrderPlaced
      ensures !Succeeded(response) ==>
                store.storedCart == old(store.storedCart) && cartItems == old(cartItems)
                && cartProducts == old(cartProducts) && notice == CheckoutFailed(FailureMessage(response))
      ensures store.cart == old(store.cart) && store.favorites == old(store.favorites)
      ensures store.storedFavorites == old(store.storedFavorites)
      ensures !isProcessing
      ensures Succeeded(response) ==> !CheckoutEnabled()
      ensures !Succeeded(response) ==> (CheckoutEnabled() <==> |old(cartProducts)| > 0)
      ensures old(Consistent()) ==> Consistent()
    {
      isProcessing := true;
      var orderSummary := BuildOrderSummary(cartProducts);
      request := CheckoutRequest(cartProducts, orderSummary);
      if Succeeded(response) {
        store.storedCart := None;
        cartItems := [];
        cartProducts := [];
        notice := OrderPlaced;
      } else {
        notice := CheckoutFailed(FailureMessage(response));
      }
      isProcessing := false;
    }
  }

  /** What `fetch` and `response.json()` deliver: a body with `success` and an
      optional `error`, or a thrown error with its message. */
  datatype CheckoutResponse = Responded(success: bool, error: Option<string>) | Threw(message: string)

  /** The body posted to the checkout endpoint. */
  datatype CheckoutRequest = CheckoutRequest(cartProducts: seq<CartProduct>, orderSummary: OrderSummary)

  /** The toast shown once checkout ends. */
  datatype CheckoutNotice = OrderPlaced | CheckoutFailed(message: string)

  /** The fallback text, "an error occurred while placing the order" (page.tsx:114, 139). */
  const DefaultCheckoutError: string := "Произошла ошибка при оформлении заказа"

  predicate Succeeded(response: CheckoutResponse)
  {
    response.Responded? && response.success
  }

  /** `data.error || default` and `error.message || default`: an empty or
      missing message gives the default one. */
  function FailureMessage(response: CheckoutResponse): (m: string)
    ensures m != ""
    ensures response.Responded? && response.error.Some? && response.error.value != "" ==> m == response.error.value
    ensures response.Threw? && response.message != "" ==> m == response.message
    ensures response.Responded? && (response.error.None? || response.error.value == "") ==> m == DefaultCheckoutError
    ensures response.Threw? && response.message == "" ==> m == DefaultCheckoutError
  {
    match response
    case Responded(_, error) => if error.Some? && error.value != "" then error.value else DefaultCheckoutError
    case Threw(message) => if message != "" then message else DefaultCheckoutError
  }
}
