/**
 * The product shape the cart, favourites and checkout logic reads
 * (src/data/fakeData.ts:1-124), reduced to the fields that logic uses,
 * and the lookup `FAKE_PRODUCTS.find(p => p.id === id)` that every page
 * performs against the static catalogue.
 */
module Catalog {

  datatype Option<+T> = None | Some(value: T)

  /** One bulk tier: from `quantity` units on, the unit price is `price`. */
  datatype BulkTier = BulkTier(quantity: int, price: real)

  /** `price`: base unit price, unit of measure and the optional tier list. */
  datatype Price = Price(value: real, unit: string, bulkPrices: Option<seq<BulkTier>>)

  /** `status.onSale`: only the discount percentage takes part in pricing. */
  datatype Sale = Sale(discountPercent: real)

  /** A catalogue product; `onSale` stands for `status?.onSale`. */
  datatype Product = Product(id: int, name: string, price: Price, onSale: Option<Sale>)

  /** The first catalogue product with the given id, as `Array.prototype.find` returns it. */
  function FindProduct(catalog: seq<Product>, id: int): (r: Option<Product>)
    ensures r.None? <==> forall k :: 0 <= k < |catalog| ==> catalog[k].id != id
    ensures r.Some? ==> exists k :: 0 <= k < |catalog| && catalog[k] == r.value
                          && forall j :: 0 <= j < k ==> catalog[j].id != id
    ensures r.Some? ==> r.value.id == id
  {
    if |catalog| == 0 then None
    else if catalog[0].id == id then Some(catalog[0])
    else
      var r := FindProduct(catalog[1..], id);
      assert r.Some? ==> exists k :: 0 <= k < |catalog| && catalog[k] == r.value
                          && forall j :: 0 <= j < k ==> catalog[j].id != id by {
        if r.Some? {
          var k :| 0 <= k < |catalog[1..]| && catalog[1..][k] == r.value
                   && forall j :: 0 <= j < k ==> catalog[1..][j].id != id;
          assert catalog[k + 1] == r.value;
          forall j | 0 <= j < k + 1 ensures catalog[j].id != id {
            if j > 0 { assert catalog[j] == catalog[1..][j - 1]; }
          }
        }
      }
      r
  }

  /** `tiers.find(t => t.quantity <= quantity)`: the first tier, in list order,
      whose threshold the quantity reaches. */
  function FindTier(tiers: seq<BulkTier>, quantity: int): (r: Option<BulkTier>)
    ensures r.None? <==> forall k :: 0 <= k < |tiers| ==> tiers[k].quantity > quantity
    ensures r.Some? ==> exists k :: 0 <= k < |tiers| && tiers[k] == r.value
                          && forall j :: 0 <= j < k ==> tiers[j].quantity > quantity
    ensures r.Some? ==> r.value.quantity <= quantity
  {
    if |tiers| == 0 then None
    else if tiers[0].quantity <= quantity then Some(tiers[0])
    else
      var r := FindTier(tiers[1..], quantity);
      assert forall k :: 1 <= k < |tiers| ==> tiers[k] == tiers[1..][k - 1];
      assert r.Some? ==> exists k :: 0 <= k < |tiers| && tiers[k] == r.value
                          && forall j :: 0 <= j < k ==> tiers[j].quantity > quantity by {
        if r.Some? {
          var k :| 0 <= k < |tiers[1..]| && tiers[1..][k] == r.value
                   && forall j :: 0 <= j < k ==> tiers[1..][j].quantity > quantity;
          assert tiers[k + 1] == r.value;
        }
      }
      r
  }

  /** Cement, product 1001 of the sample catalogue (src/data/fakeData.ts:135-218). */
  function Cement(): Product
  {
    Product(1001, "Портландцемент ЦЕМ I 42,5Н",
            Price(380.0, "bag", Some([BulkTier(10, 360.0), BulkTier(100, 340.0)])),
            Some(Sale(5.0)))
  }
}
