/**
 * The application store of src/store/reducers/appReducer.ts: a cart list and a
 * favourites list, updated in place by eight reducers, each of which also
 * writes the new list to browser storage under the key "cart" or "favorites".
 *
 * `AppStore.cart` and `AppStore.favorites` are the store's state;
 * `storedCart` and `storedFavorites` are the two browser-storage entries,
 * `None` when the key is absent. The pages read and write those entries
 * directly, so they are kept apart from the store's own lists.
 */
module Store {
  import opened Catalog

  /** A cart line (appReducer.ts:4-9); an absent `bulkPrice` reads as false. */
  datatype CartItem = CartItem(productId: int, quantity: int, price: real, bulkPrice: bool)

  /** A favourites entry (appReducer.ts:12-14). */
  datatype FavoriteItem = FavoriteItem(productId: int)

  function CartKey(item: CartItem): int { item.productId }

  function FavoriteKey(item: FavoriteItem): int { item.productId }

  /** At most one entry per product id. */
  ghost predicate Unique<T>(s: seq<T>, key: T -> int)
  {
    forall i, j :: 0 <= i < j < |s| ==> key(s[i]) != key(s[j])
  }

  /** `Array.prototype.findIndex` on the product id: the first match, or -1. */
  function FindIndex<T>(s: seq<T>, key: T -> int, id: int): (r: int)
    ensures -1 <= r < |s|
    ensures r == -1 <==> forall k :: 0 <= k < |s| ==> key(s[k]) != id
    ensures r != -1 ==> key(s[r]) == id && forall k :: 0 <= k < r ==> key(s[k]) != id
  {
    if |s| == 0 then -1
    else if key(s[0]) == id then 0
    else
      var r := FindIndex(s[1..], key, id);
      assert forall k :: 1 <= k < |s| ==> s[k] == s[1..][k - 1];
      if r == -1 then -1 else r + 1
  }

  /** `Array.prototype.some` on the product id. */
  function Contains<T>(s: seq<T>, key: T -> int, id: int): (r: bool)
    ensures r <==> exists k :: 0 <= k < |s| && key(s[k]) == id
  {
    if |s| == 0 then false
    else
      assert forall k :: 1 <= k < |s| ==> s[k] == s[1..][k - 1];
      key(s[0]) == id || Contains(s[1..], key, id)
  }

  /** `s.filter(item => item.productId !== id)`. */
  function Without<T>(s: seq<T>, key: T -> int, id: int): (r: seq<T>)
    ensures |r| <= |s|
    ensures forall k :: 0 <= k < |r| ==> r[k] in s && key(r[k]) != id
    ensures forall k :: 0 <= k < |s| && key(s[k]) != id ==> s[k] in r
  {
    if |s| == 0 then []
    else (if key(s[0]) == id then [] else [s[0]]) + Without(s[1..], key, id)
  }

  /** The filter keeps a one-entry list exactly when its id differs. */
  lemma WithoutSingle<T>(x: T, key: T -> int, id: int)
    ensures Without([x], key, id) == if key(x) == id then [] else [x]
  {
    assert [x][1..] == [];
  }

  /** The filter works entry by entry, in order: filtering a concatenation
      concatenates the filtered parts. With `WithoutSingle` and the empty
      list this determines the result completely, order and repeats included. */
  lemma {:induction false} WithoutAppend<T>(a: seq<T>, b: seq<T>, key: T -> int, id: int)
    ensures Without(a + b, key, id) == Without(a, key, id) + Without(b, key, id)
  {
    if |a| > 0 {
      assert (a + b)[0] == a[0] && (a + b)[1..] == a[1..] + b;
      WithoutAppend(a[1..], b, key, id);
    } else {
      assert a + b == b;
    }
  }

  /** Filtering out an id that is absent gives the list back unchanged. */
  lemma {:induction false} WithoutAbsent<T>(s: seq<T>, key: T -> int, id: int)
    requires forall k :: 0 <= k < |s| ==> key(s[k]) != id
    ensures Without(s, key, id) == s
  {
    if |s| > 0 {
      WithoutAbsent(s[1..], key, id);
      assert [s[0]] + s[1..] == s;
    }
  }

  /** On a list with unique ids, filtering out the id at index i drops exactly
      that entry and keeps the others in order. */
  lemma {:induction false} WithoutUniqueAt<T>(s: seq<T>, key: T -> int, i: int)
    requires Unique(s, key) && 0 <= i < |s|
    ensures Without(s, key, key(s[i])) == s[..i] + s[i + 1..]
  {
    var id := key(s[i]);
    if i == 0 {
      WithoutAbsent(s[1..], key, id);
    } else {
      assert Unique(s[1..], key);
      WithoutUniqueAt(s[1..], key, i - 1);
      assert s[1..][i - 1] == s[i];
      assert s[1..][..i - 1] == s[1..i];
      assert s[1..][i..] == s[i + 1..];
      assert [s[0]] + s[1..i] == s[..i];
    }
  }

  /** Filtering keeps uniqueness. */
  lemma {:induction false} WithoutKeepsUnique<T>(s: seq<T>, key: T -> int, id: int)
    requires Unique(s, key)
    ensures Unique(Without(s, key, id), key)
  {
    if |s| > 0 {
      assert Unique(s[1..], key);
      WithoutKeepsUnique(s[1..], key, id);
      var rest := Without(s[1..], key, id);
      forall k | 0 <= k < |rest| ensures key(rest[k]) != key(s[0]) {
        var j :| 0 <= j < |s[1..]| && s[1..][j] == rest[k];
        assert s[j + 1] == rest[k];
      }
    }
  }

  /** Replacing an entry by one with the same id keeps uniqueness. */
  lemma UpdateKeepsUnique<T>(s: seq<T>, key: T -> int, i: int, x: T)
    requires Unique(s, key) && 0 <= i < |s| && key(x) == key(s[i])
    ensures Unique(s[i := x], key)
  {
  }

  /** Appending an entry whose id is absent keeps uniqueness. */
  lemma AppendKeepsUnique<T>(s: seq<T>, key: T -> int, x: T)
    requires Unique(s, key) && forall k :: 0 <= k < |s| ==> key(s[k]) != key(x)
    ensures Unique(s + [x], key)
  {
  }

  class AppStore {
    var cart: seq<CartItem>
    var favorites: seq<FavoriteItem>
    var storedCart: Option<seq<CartItem>>
    var storedFavorites: Option<seq<FavoriteItem>>

    /** `getInitialState` (appReducer.ts:28-38) in the browser: each list is
        rehydrated from its storage entry, or empty when the key is absent. */
    constructor (savedCart: Option<seq<CartItem>>, savedFavorites: Option<seq<FavoriteItem>>)
      ensures cart == (if savedCart.Some? then savedCart.value else [])
      ensures favorites == (if savedFavorites.Some? then savedFavorites.value else [])
      ensures storedCart == savedCart && storedFavorites == savedFavorites
    {
      cart := if savedCart.Some? then savedCart.value else [];
      favorites := if savedFavorites.Some? then savedFavorites.value else [];
      storedCart := savedCart;
      storedFavorites := savedFavorites;
    }

    /** `saveToLocalStorage('cart', state.cart)` (appReducer.ts:41-45). */
    method SaveCart()
      modifies this`storedCart
      ensures storedCart == Some(cart)
    {
      storedCart := Some(cart);
    }

    /** `saveToLocalStorage('favorites', state.favorites)` (appReducer.ts:41-45). */
    method SaveFavorites()
      modifies this`storedFavorites
      ensures storedFavorites == Some(favorites)
    {
      storedFavorites := Some(favorites);
    }

    /** `setCart`: replace the whole cart. */
    method SetCart(payload: seq<CartItem>)
      modifies this
      ensures cart == payload && storedCart == Some(payload)
      ensures favorites == old(favorites) && storedFavorites == old(storedFavorites)
    {
      cart := payload;
      SaveCart();
    }

    /** `addToCart`: an entry already present takes the payload's fields and the
        summed quantity, in its own position; a new id is appended. */
    method AddToCart(item: CartItem)
      modifies this
      ensures var i := FindIndex(old(cart), CartKey, item.productId);
        if i == -1 then cart == old(cart) + [item]
        else cart == old(cart)[i := item.(quantity := old(cart)[i].quantity + item.quantity)]
      ensures Unique(old(cart), CartKey) ==> Unique(cart, CartKey)
      ensures storedCart == Some(cart)
      ensures favorites == old(favorites) && storedFavorites == old(storedFavorites)
    {
      var i := FindIndex(cart, CartKey, item.productId);
      if i != -1 {
        var merged := item.(quantity := cart[i].quantity + item.quantity);
        if Unique(cart, CartKey) { UpdateKeepsUnique(cart, CartKey, i, merged); }
        cart := cart[i := merged];
      } else {
        if Unique(cart, CartKey) { AppendKeepsUnique(cart, CartKey, item); }
        cart := cart + [item];
      }
      SaveCart();
    }

    /** `updateCartItemQuantity`: the first entry with the id gets `old + quantity`
        when incremental, `quantity` otherwise; when that is zero or less every
        entry with the id is filtered out. A missing id leaves the list as it is,
        but the list is written to storage in every case. */
    method UpdateCartItemQuantity(productId: int, quantity: int, incremental: bool)
      modifies this
      ensures var i := FindIndex(old(cart), CartKey, productId);
        if i == -1 then cart == old(cart)
        else
          var q := if incremental then old(cart)[i].quantity + quantity else quantity;
          if q <= 0 then cart == Without(old(cart), CartKey, productId)
          else cart == old(cart)[i := old(cart)[i].(quantity := q)]
      ensures Unique(old(cart), CartKey) ==> Unique(cart, CartKey)
      ensures storedCart == Some(cart)
      ensures favorites == old(favorites) && storedFavorites == old(storedFavorites)
    {
      var i := FindIndex(cart, CartKey, productId);
      if i != -1 {
        var newQuantity := if incremental then cart[i].quantity + quantity else quantity;
        var updated := cart[i].(quantity := newQuantity);
        if Unique(cart, CartKey) { UpdateKeepsUnique(cart, CartKey, i, updated); }
        cart := cart[i := updated];
        if cart[i].quantity <= 0 {
          ghost var before := cart;
          cart := Without(cart, CartKey, productId);
          WithoutSameOnOthers(old(cart), before, i, productId);
          if Unique(before, CartKey) { WithoutKeepsUnique(before, CartKey, productId); }
        }
      }
      SaveCart();
    }

    /** `replaceCartItem`: an entry already present is replaced by the payload
        exactly, with no accumulation; a new id is appended. */
    method ReplaceCartItem(item: CartItem)
      modifies this
      ensures var i := FindIndex(old(cart), CartKey, item.productId);
        if i == -1 then cart == old(cart) + [item] else cart == old(cart)[i := item]
      ensures Unique(old(cart), CartKey) ==> Unique(cart, CartKey)
      ensures storedCart == Some(cart)
      ensures favorites == old(favorites) && storedFavorites == old(storedFavorites)
    {
      var i := FindIndex(cart, CartKey, item.productId);
      if i != -1 {
        if Unique(cart, CartKey) { UpdateKeepsUnique(cart, CartKey, i, item); }
        cart := cart[i := item];
      } else {
        if Unique(cart, CartKey) { AppendKeepsUnique(cart, CartKey, item); }
        cart := cart + [item];
      }
      SaveCart();
    }

    /** `removeFromCart`: drop every entry with the id. */
    method RemoveFromCart(productId: int)
      modifies this
      ensures cart == Without(old(cart), CartKey, productId)
      ensures !Contains(old(cart), CartKey, productId) ==> cart == old(cart)
      ensures Unique(old(cart), CartKey) ==> Unique(cart, CartKey)
      ensures storedCart == Some(cart)
      ensures favorites == old(favorites) && storedFavorites == old(storedFavorites)
    {
      if !Contains(cart, CartKey, productId) { WithoutAbsent(cart, CartKey, productId); }
      if Unique(cart, CartKey) { WithoutKeepsUnique(cart, CartKey, productId); }
      cart := Without(cart, CartKey, productId);
      SaveCart();
    }

    /** `setFavorites`: replace the whole favourites list. */
    method SetFavorites(payload: seq<FavoriteItem>)
      modifies this
      ensures favorites == payload && storedFavorites == Some(payload)
      ensures cart == old(cart) && storedCart == old(storedCart)
    {
      favorites := payload;
      SaveFavorites();
    }

    /** `addToFavorites`: append the id only when absent, and write storage only
        then; adding an id already present changes nothing at all. */
    method AddToFavorites(productId: int)
      modifies this
      ensures Contains(old(favorites), FavoriteKey, productId) ==>
                favorites == old(favorites) && storedFavorites == old(storedFavorites)
      ensures !Contains(old(favorites), FavoriteKey, productId) ==>
                favorites == old(favorites) + [FavoriteItem(productId)] && storedFavorites == Some(favorites)
      ensures Unique(old(favorites), FavoriteKey) ==> Unique(favorites, FavoriteKey)
      ensures Contains(favorites, FavoriteKey, productId)
      ensures cart == old(cart) && storedCart == old(storedCart)
    {
      if !Contains(favorites, FavoriteKey, productId) {
        if Unique(favorites, FavoriteKey) {
          AppendKeepsUnique(favorites, FavoriteKey, FavoriteItem(productId));
        }
        favorites := favorites + [FavoriteItem(productId)];
        assert FavoriteKey(favorites[|favorites| - 1]) == productId;
        SaveFavorites();
      }
    }

    /** `removeFromFavorites`: drop every entry with the id. */
    method RemoveFromFavorites(productId: int)
      modifies this
      ensures favorites == Without(old(favorites), FavoriteKey, productId)
      ensures !Contains(old(favorites), FavoriteKey, productId) ==> favorites == old(favorites)
      ensures Unique(old(favorites), FavoriteKey) ==> Unique(favorites, FavoriteKey)
      ensures storedFavorites == Some(favorites)
      ensures cart == old(cart) && storedCart == old(storedCart)
    {
      if !Contains(favorites, FavoriteKey, productId) {
        WithoutAbsent(favorites, FavoriteKey, productId);
      }
      if Unique(favorites, FavoriteKey) { WithoutKeepsUnique(favorites, FavoriteKey, productId); }
      favorites := Without(favorites, FavoriteKey, productId);
      SaveFavorites();
    }
  }

  /** Replacing entry i by one with the same id does not change what the
      filter on that id keeps. */
  lemma {:induction false} WithoutSameOnOthers(s: seq<CartItem>, t: seq<CartItem>, i: int, id: int)
    requires |s| == |t| && 0 <= i < |s|
    requires s[i].productId == id && t[i].productId == id
    requires forall k :: 0 <= k < |s| && k != i ==> s[k] == t[k]
    ensures Without(s, CartKey, id) == Without(t, CartKey, id)
  {
    if i > 0 {
      WithoutSameOnOthers(s[1..], t[1..], i - 1, id);
    } else {
      assert s[1..] == t[1..];
    }
  }
}
