/**
 * The favourites page (src/app/favourites/page.tsx): stored favourite ids
 * resolved to catalogue products, removal through the store, and adding a
 * favourite to the cart, which either replaces the stored line (through
 * `setCart`) or goes through the store's `addToCart`.
 */
module FavouritesPage {
  import opened Catalog
  import opened Store

  /** `loadFavorites`' map and filter (page.tsx:38-41): each id becomes its
      first catalogue product, and ids with no product are dropped. */
  function ResolveFavorites(items: seq<FavoriteItem>, catalog: seq<Product>): (r: seq<Product>)
    ensures |r| <= |items|
    ensures forall k :: 0 <= k < |r| ==> FindProduct(catalog, r[k].id) == Some(r[k])
  {
    if |items| == 0 then []
    else ResolveOne(items[0], catalog) + ResolveFavorites(items[1..], catalog)
  }

  /** One id: its product, or nothing. */
  function ResolveOne(item: FavoriteItem, catalog: seq<Product>): seq<Product>
  {
    match FindProduct(catalog, item.productId)
    case Some(p) => [p]
    case None => []
  }

  /** Ids are resolved one at a time, in stored order. */
  lemma {:induction false} ResolveAppend(a: seq<FavoriteItem>, b: seq<FavoriteItem>, catalog: seq<Product>)
    ensures ResolveFavorites(a + b, catalog) == ResolveFavorites(a, catalog) + ResolveFavorites(b, catalog)
  {
    if |a| > 0 {
      assert (a + b)[0] == a[0] && (a + b)[1..] == a[1..] + b;
      ResolveAppend(a[1..], b, catalog);
      calc {
        ResolveFavorites(a + b, catalog);
        ResolveOne(a[0], catalog) + ResolveFavorites((a + b)[1..], catalog);
        ResolveOne(a[0], catalog) + (ResolveFavorites(a[1..], catalog) + ResolveFavorites(b, catalog));
        (ResolveOne(a[0], catalog) + ResolveFavorites(a[1..], catalog)) + ResolveFavorites(b, catalog);
      }
    } else {
      assert a + b == b;
    }
  }

  /** When every id is in the catalogue, each resolves to its product, in order. */
  lemma {:induction false} ResolveKnown(items: seq<FavoriteItem>, catalog: seq<Product>)
    requires forall k :: 0 <= k < |items| ==> FindProduct(catalog, items[k].productId).Some?
    ensures |ResolveFavorites(items, catalog)| == |items|
    ensures forall k :: 0 <= k < |items| ==>
              ResolveFavorites(items, catalog)[k] == FindProduct(catalog, items[k].productId).value
  {
    if |items| > 0 {
      ResolveKnown(items[1..], catalog);
      var r := ResolveFavorites(items, catalog);
      forall k | 0 <= k < |items| ensures r[k] == FindProduct(catalog, items[k].productId).value {
        if k > 0 { assert r[k] == ResolveFavorites(items[1..], catalog)[k - 1]; }
      }
    }
  }

  /** An id missing from the catalogue contributes nothing. */
  lemma ResolveDropsUnknown(items: seq<FavoriteItem>, x: FavoriteItem, catalog: seq<Product>)
    requires FindProduct(catalog, x.productId).None?
    ensures ResolveFavorites(items + [x], catalog) == ResolveFavorites(items, catalog)
  {
    ResolveAppend(items, [x], catalog);
    assert [x][1..] == [];
  }

  function ProductId(p: Product): int { p.id }

  /** Removing an id and then resolving drops exactly that product from the
      resolved list. */
  lemma {:induction false} ResolveWithout(items: seq<FavoriteItem>, catalog: seq<Product>, productId: int)
    ensures ResolveFavorites(Without(items, FavoriteKey, productId), catalog)
            == Without(ResolveFavorites(items, catalog), ProductId, productId)
  {
    if |items| > 0 {
      var head := ResolveOne(items[0], catalog);
      var rest := ResolveFavorites(items[1..], catalog);
      ResolveWithout(items[1..], catalog, productId);
      var kept := if items[0].productId == productId then [] else [items[0]];
      assert Without(items, FavoriteKey, productId) == kept + Without(items[1..], FavoriteKey, productId);
      ResolveAppend(kept, Without(items[1..], FavoriteKey, productId), catalog);
      assert kept == [] ==> ResolveFavorites(kept, catalog) == [];
      assert kept != [] ==> ResolveFavorites(kept, catalog) == head by {
        if kept != [] { assert kept[1..] == []; }
      }
      WithoutAppend(head, rest, ProductId, productId);
    }
  }

  /** The line `handleAddCart` builds (page.tsx:81-86): one unit at the
      catalogue base price, not bulk-priced. */
  function FreshCartItem(product: Product): (c: CartItem)
    ensures c.productId == product.id && c.quantity == 1
    ensures c.price == product.price.value && !c.bulkPrice
  {
    CartItem(product.id, 1, product.price.value, false)
  }

  /** The page's notification line; its timed clearing is not modelled. */
  datatype Notification = NoNotification | AddedToCart | AddToCartFailed | RemovedFromFavorites

  class Page {
    const store: AppStore
    const catalog: seq<Product>
    var favorites: seq<Product>
    var isLoading: bool
    var notification: Notification

    constructor (store: AppStore, catalog: seq<Product>)
      ensures this.store == store && this.catalog == catalog
      ensures favorites == [] && isLoading && notification == NoNotification
    {
      this.store := store;
      this.catalog := catalog;
      favorites := [];
      isLoading := true;
      notification := NoNotification;
    }

    /** `loadFavorites` (page.tsx:29-54): when the "favorites" entry is present
        the list shown is its ids resolved to products; loading ends either way. */
    method LoadFavorites()
      modifies this
      ensures store.storedFavorites.Some? ==> favorites == ResolveFavorites(store.storedFavorites.value, catalog)
      ensures store.storedFavorites.None? ==> favorites == old(favorites)
      ensures !isLoading && notification == old(notification)
    {
      if store.storedFavorites.Some? {
        favorites := ResolveFavorites(store.storedFavorites.value, catalog);
      }
      isLoading := false;
    }

    /** `removeFavorite` (page.tsx:61-72): the store drops the id and writes
        storage, and the reload shows the remaining favourites resolved. */
    method RemoveFavorite(productId: int)
      modifies this, store
      ensures store.favorites == Without(old(store.favorites), FavoriteKey, productId)
      ensures store.storedFavorites == Some(store.favorites)
      ensures favorites == ResolveFavorites(store.favorites, catalog)
      ensures old(store.storedFavorites) == Some(old(store.favorites))
              && old(favorites) == ResolveFavorites(old(store.favorites), catalog) ==>
                favorites == Without(old(favorites), ProductId, productId)
      ensures store.cart == old(store.cart) && store.storedCart == old(store.storedCart)
      ensures !isLoading && notification == RemovedFromFavorites
    {
      ResolveWithout(store.favorites, catalog, productId);
      store.RemoveFromFavorites(productId);
      LoadFavorites();
      notification := RemovedFromFavorites;
    }

    /** `handleAddCart` (page.tsx:74-106). An id missing from the catalogue
        makes the price lookup throw: nothing is dispatched and the error is
        shown. Otherwise a fresh one-unit line is built; when the STORED cart
        already has the id, the store's cart becomes the stored cart with that
        line replaced (the quantity is reset, not added); when it has not, the
        line goes through the store's `addToCart`. */
    method HandleAddCart(productId: int)
      modifies this, store
      ensures FindProduct(catalog, productId).None? ==>
                store.cart == old(store.cart) && store.storedCart == old(store.storedCart)
                && notification == AddToCartFailed
      ensures FindProduct(catalog, productId).Some? ==>
        var item := FreshCartItem(FindProduct(catalog, productId).value);
        var stored := if old(store.storedCart).Some? then old(store.storedCart).value else [];
        var i := FindIndex(stored, CartKey, productId);
        var j := FindIndex(old(store.cart), CartKey, productId);
        && (i != -1 ==> store.cart == stored[i := item])
        && (i == -1 && j == -1 ==> store.cart == old(store.cart) + [item])
        && (i == -1 && j != -1 ==>
              store.cart == old(store.cart)[j := item.(quantity := old(store.cart)[j].quantity + 1)])
        && store.storedCart == Some(store.cart)
        && notification == AddedToCart
      ensures store.favorites == old(store.favorites) && store.storedFavorites == old(store.storedFavorites)
      ensures favorites == old(favorites) && isLoading == old(isLoading)
    {
      var cartItems := if store.storedCart.Some? then store.storedCart.value else [];
      var found := FindProduct(catalog, productId);
      if found.None? {
        notification := AddToCartFailed;
        return;
      }
      var newItem := FreshCartItem(found.value);
      var existingItemIndex := FindIndex(cartItems, CartKey, productId);
      if existingItemIndex > -1 {
        store.SetCart(cartItems[existingItemIndex := newItem]);
      } else {
        store.AddToCart(newItem);
      }
      notification := AddedToCart;
    }
  }
}
