/**
 * The unit-price rule of the add-to-cart notification
 * (`calculatePrice` and `renderPrice`, src/components/ToastBody.tsx:23-41).
 *
 * With the bulk flag set and a tier list present, a copy of the tiers is
 * sorted by threshold, largest first, and the first tier the quantity reaches
 * gives the price, falling back to the base price. Otherwise an active sale
 * discounts the base price, and failing that the base price is used.
 * Prices are exact reals; the source's doubles are not modelled.
 */
module ToastPricing {
  import opened Catalog

  /** Thresholds never increase along the list. */
  ghost predicate SortedDesc(s: seq<BulkTier>)
  {
    forall i, j :: 0 <= i < j < |s| ==> s[i].quantity >= s[j].quantity
  }

  /** Puts `t` in front of the first tier whose threshold is not larger. */
  function Insert(t: BulkTier, s: seq<BulkTier>): (r: seq<BulkTier>)
    ensures multiset(r) == multiset(s) + multiset{t}
    ensures SortedDesc(s) ==> SortedDesc(r)
  {
    if |s| == 0 || s[0].quantity <= t.quantity then
      assert SortedDesc(s) ==> SortedDesc([t] + s) by {
        if SortedDesc(s) { ConsSorted(t, s); }
      }
      [t] + s
    else
      var rest := Insert(t, s[1..]);
      assert s == [s[0]] + s[1..];
      assert SortedDesc(s) ==> SortedDesc([s[0]] + rest) by {
        if SortedDesc(s) {
          HeadAboveRest(t, s, rest);
          ConsSorted(s[0], rest);
        }
      }
      [s[0]] + rest
  }

  /** A tier put in front of a sorted list whose head is not above it keeps it sorted. */
  lemma ConsSorted(t: BulkTier, s: seq<BulkTier>)
    requires SortedDesc(s) && (|s| > 0 ==> t.quantity >= s[0].quantity)
    ensures SortedDesc([t] + s)
  {
  }

  /** The head of a sorted list whose threshold is above `t` is above
      everything in the rest with `t` inserted. */
  lemma HeadAboveRest(t: BulkTier, s: seq<BulkTier>, rest: seq<BulkTier>)
    requires SortedDesc(s) && |s| > 0 && s[0].quantity > t.quantity
    requires multiset(rest) == multiset(s[1..]) + multiset{t}
    ensures forall k :: 0 <= k < |rest| ==> s[0].quantity >= rest[k].quantity
  {
    forall k | 0 <= k < |rest| ensures s[0].quantity >= rest[k].quantity {
      assert rest[k] in multiset(rest);
      if rest[k] != t {
        assert rest[k] in multiset(s[1..]);
        assert rest[k] in s[1..];
      }
    }
  }

  /** `[...tiers].sort((a, b) => b.quantity - a.quantity)`: a stable insertion
      sort, largest threshold first, on a copy of the list. */
  function SortByThresholdDesc(tiers: seq<BulkTier>): (r: seq<BulkTier>)
    ensures multiset(r) == multiset(tiers)
    ensures SortedDesc(r)
  {
    if |tiers| == 0 then []
    else
      assert tiers == [tiers[0]] + tiers[1..];
      Insert(tiers[0], SortByThresholdDesc(tiers[1..]))
  }

  /** `calculatePrice` (ToastBody.tsx:23-37). An empty tier list is still a
      present list, so with the flag set it takes the bulk branch. */
  function CalculatePrice(product: Product, quantity: int, isBulkPrice: bool): real
  {
    if isBulkPrice && product.price.bulkPrices.Some? then
      match FindTier(SortByThresholdDesc(product.price.bulkPrices.value), quantity)
      case Some(tier) => tier.price
      case None => product.price.value
    else if product.onSale.Some? then
      product.price.value * (1.0 - product.onSale.value.discountPercent / 100.0)
    else
      product.price.value
  }

  /** The total shown by `renderPrice` (ToastBody.tsx:39-41). */
  function ToastTotal(product: Product, quantity: int, isBulkPrice: bool): real
  {
    CalculatePrice(product, quantity, isBulkPrice) * quantity as real
  }

  /** Tier k is reached by the quantity and has the largest threshold of all reached tiers. */
  ghost predicate IsBestTier(tiers: seq<BulkTier>, quantity: int, k: int)
  {
    0 <= k < |tiers| && tiers[k].quantity <= quantity &&
    forall j :: 0 <= j < |tiers| && tiers[j].quantity <= quantity ==> tiers[j].quantity <= tiers[k].quantity
  }

  /** No two tiers share a threshold. */
  ghost predicate DistinctThresholds(tiers: seq<BulkTier>)
  {
    forall i, j :: 0 <= i < j < |tiers| ==> tiers[i].quantity != tiers[j].quantity
  }

  /** On a list sorted largest threshold first, the first reached tier is one
      with the largest reached threshold. */
  lemma FindTierInSorted(s: seq<BulkTier>, quantity: int)
    requires SortedDesc(s)
    ensures FindTier(s, quantity).Some? ==>
              exists k :: IsBestTier(s, quantity, k) && s[k] == FindTier(s, quantity).value
  {
  }

  /** The bulk branch of the toast's rule: the price of a tier with the largest
      threshold the quantity reaches, or the base price (not the sale price)
      when no tier is reached or the list is empty. */
  lemma BulkBranchPrice(product: Product, quantity: int)
    requires product.price.bulkPrices.Some?
    ensures var tiers := product.price.bulkPrices.value;
      (forall k :: 0 <= k < |tiers| ==> tiers[k].quantity > quantity) ==>
        CalculatePrice(product, quantity, true) == product.price.value
    ensures var tiers := product.price.bulkPrices.value;
      (exists k :: 0 <= k < |tiers| && tiers[k].quantity <= quantity) ==>
        exists k :: IsBestTier(tiers, quantity, k) && CalculatePrice(product, quantity, true) == tiers[k].price
  {
    var tiers := product.price.bulkPrices.value;
    var sorted := SortByThresholdDesc(tiers);
    if forall k :: 0 <= k < |tiers| ==> tiers[k].quantity > quantity {
      NoneReachedInSorted(tiers, quantity);
    } else {
      var i :| 0 <= i < |tiers| && tiers[i].quantity <= quantity;
      assert tiers[i] in multiset(sorted);
      FindTierInSorted(sorted, quantity);
      var k :| IsBestTier(sorted, quantity, k) && sorted[k] == FindTier(sorted, quantity).value;
      BestOfSortedIsBest(tiers, quantity, k);
    }
  }

  /** When no tier is reached, the sorted copy finds none either. */
  lemma NoneReachedInSorted(tiers: seq<BulkTier>, quantity: int)
    requires forall k :: 0 <= k < |tiers| ==> tiers[k].quantity > quantity
    ensures FindTier(SortByThresholdDesc(tiers), quantity).None?
  {
    var sorted := SortByThresholdDesc(tiers);
    forall k | 0 <= k < |sorted| ensures sorted[k].quantity > quantity {
      assert sorted[k] in multiset(tiers);
    }
  }

  /** A best tier of the sorted copy is a best tier of the list as given. */
  lemma BestOfSortedIsBest(tiers: seq<BulkTier>, quantity: int, k: int)
    requires IsBestTier(SortByThresholdDesc(tiers), quantity, k)
    ensures exists m :: IsBestTier(tiers, quantity, m) && tiers[m] == SortByThresholdDesc(tiers)[k]
  {
    var sorted := SortByThresholdDesc(tiers);
    assert sorted[k] in multiset(tiers);
    var m :| 0 <= m < |tiers| && tiers[m] == sorted[k];
    forall j | 0 <= j < |tiers| && tiers[j].quantity <= quantity ensures tiers[j].quantity <= tiers[m].quantity {
      assert tiers[j] in multiset(sorted);
    }
    assert IsBestTier(tiers, quantity, m);
  }

  /** The whole of `calculatePrice`: the bulk branch as above; without the flag
      or without a tier list, the sale price when on sale, else the base price. */
  lemma ToastPriceRule(product: Product, quantity: int, isBulkPrice: bool)
    ensures isBulkPrice && product.price.bulkPrices.Some? ==>
      var tiers := product.price.bulkPrices.value;
      ((forall k :: 0 <= k < |tiers| ==> tiers[k].quantity > quantity) ==>
         CalculatePrice(product, quantity, isBulkPrice) == product.price.value) &&
      ((exists k :: 0 <= k < |tiers| && tiers[k].quantity <= quantity) ==>
         exists k :: IsBestTier(tiers, quantity, k) && CalculatePrice(product, quantity, isBulkPrice) == tiers[k].price)
    ensures !(isBulkPrice && product.price.bulkPrices.Some?) && product.onSale.Some? ==>
      CalculatePrice(product, quantity, isBulkPrice)
        == product.price.value * (1.0 - product.onSale.value.discountPercent / 100.0)
    ensures !(isBulkPrice && product.price.bulkPrices.Some?) && product.onSale.None? ==>
      CalculatePrice(product, quantity, isBulkPrice) == product.price.value
  {
    if isBulkPrice && product.price.bulkPrices.Some? {
      BulkBranchPrice(product, quantity);
    }
  }

  /** A quantity exactly at a threshold gets that tier's price (the comparison
      is `>=`), and the toast shows that price times the quantity. */
  lemma PriceAtThreshold(product: Product, k: int)
    requires product.price.bulkPrices.Some?
    requires DistinctThresholds(product.price.bulkPrices.value)
    requires 0 <= k < |product.price.bulkPrices.value|
    ensures var tier := product.price.bulkPrices.value[k];
      CalculatePrice(product, tier.quantity, true) == tier.price &&
      ToastTotal(product, tier.quantity, true) == tier.price * tier.quantity as real
  {
    var tiers := product.price.bulkPrices.value;
    BulkBranchPrice(product, tiers[k].quantity);
    var m :| IsBestTier(tiers, tiers[k].quantity, m)
             && CalculatePrice(product, tiers[k].quantity, true) == tiers[m].price;
    assert tiers[m].quantity == tiers[k].quantity;
    assert m == k;
  }

  /** Two lists holding the same tiers, one with distinct thresholds, have the
      same best tier. */
  lemma BestTiersAgree(xs: seq<BulkTier>, ys: seq<BulkTier>, quantity: int, a: int, b: int)
    requires multiset(xs) == multiset(ys) && DistinctThresholds(xs)
    requires IsBestTier(xs, quantity, a) && IsBestTier(ys, quantity, b)
    ensures xs[a] == ys[b]
  {
    assert xs[a] in multiset(ys);
    assert ys[b] in multiset(xs);
    var ia :| 0 <= ia < |ys| && ys[ia] == xs[a];
    var ib :| 0 <= ib < |xs| && xs[ib] == ys[b];
    assert xs[a].quantity == xs[ib].quantity;
    assert ib == a;
  }

  /** Finding in a sorted list after inserting `t`: `t` is found when it is
      reached and no tier found before the insertion has a larger threshold;
      otherwise the insertion does not change what is found. Ties go to `t`,
      which is inserted in front of the tiers with its threshold. */
  lemma {:induction false} FindAfterInsert(t: BulkTier, s: seq<BulkTier>, quantity: int)
    requires SortedDesc(s)
    ensures FindTier(Insert(t, s), quantity) ==
              if t.quantity <= quantity
                 && (FindTier(s, quantity).None? || FindTier(s, quantity).value.quantity <= t.quantity)
              then Some(t) else FindTier(s, quantity)
  {
    if |s| == 0 || s[0].quantity <= t.quantity {
      assert Insert(t, s) == [t] + s;
      assert ([t] + s)[1..] == s;
      if |s| > 0 && FindTier(s, quantity).Some? {
        var k :| 0 <= k < |s| && s[k] == FindTier(s, quantity).value;
        assert s[k].quantity <= s[0].quantity;
      }
    } else {
      var rest := Insert(t, s[1..]);
      assert Insert(t, s) == [s[0]] + rest;
      assert ([s[0]] + rest)[1..] == rest;
      assert SortedDesc(s[1..]);
      FindAfterInsert(t, s[1..], quantity);
    }
  }

  /** A tier found in the sorted copy of a list is reached and no larger than
      any bound on the list's reached thresholds. */
  lemma FoundWithinBound(tiers: seq<BulkTier>, quantity: int, bound: int)
    requires forall k :: 0 <= k < |tiers| && tiers[k].quantity <= quantity ==> tiers[k].quantity <= bound
    ensures FindTier(SortByThresholdDesc(tiers), quantity).Some? ==>
              FindTier(SortByThresholdDesc(tiers), quantity).value.quantity <= bound
  {
    var sorted := SortByThresholdDesc(tiers);
    var found := FindTier(sorted, quantity);
    if found.Some? {
      var k :| 0 <= k < |sorted| && sorted[k] == found.value;
      assert sorted[k] in multiset(tiers);
    }
  }

  /** Ties go to the tier listed first: when tier m has the largest threshold
      the quantity reaches and no earlier reached tier shares it, the sorted
      copy finds tier m. */
  lemma {:induction false} SortedFindsFirstBest(tiers: seq<BulkTier>, quantity: int, m: int)
    requires IsBestTier(tiers, quantity, m)
    requires forall j :: 0 <= j < m && tiers[j].quantity <= quantity ==> tiers[j].quantity < tiers[m].quantity
    ensures FindTier(SortByThresholdDesc(tiers), quantity) == Some(tiers[m])
  {
    var rest := tiers[1..];
    var sortedRest := SortByThresholdDesc(rest);
    assert SortByThresholdDesc(tiers) == Insert(tiers[0], sortedRest);
    FindAfterInsert(tiers[0], sortedRest, quantity);
    if m == 0 {
      assert forall k :: 0 <= k < |rest| && rest[k].quantity <= quantity ==> rest[k].quantity <= tiers[0].quantity by {
        forall k | 0 <= k < |rest| && rest[k].quantity <= quantity ensures rest[k].quantity <= tiers[0].quantity {
          assert rest[k] == tiers[k + 1];
        }
      }
      FoundWithinBound(rest, quantity, tiers[0].quantity);
    } else {
      RestKeepsFirstBest(tiers, quantity, m);
      SortedFindsFirstBest(rest, quantity, m - 1);
    }
  }

  /** Dropping the head, which is not the first best tier, keeps tier m the
      first best one, one position earlier. */
  lemma RestKeepsFirstBest(tiers: seq<BulkTier>, quantity: int, m: int)
    requires 0 < m && IsBestTier(tiers, quantity, m)
    requires forall j :: 0 <= j < m && tiers[j].quantity <= quantity ==> tiers[j].quantity < tiers[m].quantity
    ensures IsBestTier(tiers[1..], quantity, m - 1)
    ensures forall j :: 0 <= j < m - 1 && tiers[1..][j].quantity <= quantity ==> tiers[1..][j].quantity < tiers[1..][m - 1].quantity
  {
    var rest := tiers[1..];
    assert rest[m - 1] == tiers[m];
    forall j | 0 <= j < |rest| ensures rest[j] == tiers[j + 1] {
    }
  }

  /** With the flag set, among tied best tiers the one listed first prices the toast. */
  lemma TiesPickFirstListed(product: Product, quantity: int, m: int)
    requires product.price.bulkPrices.Some?
    requires IsBestTier(product.price.bulkPrices.value, quantity, m)
    requires forall j :: 0 <= j < m && product.price.bulkPrices.value[j].quantity <= quantity ==>
               product.price.bulkPrices.value[j].quantity < product.price.bulkPrices.value[m].quantity
    ensures CalculatePrice(product, quantity, true) == product.price.bulkPrices.value[m].price
  {
    SortedFindsFirstBest(product.price.bulkPrices.value, quantity, m);
  }

  /** With distinct thresholds, the price does not depend on the order in which
      the tiers are listed. */
  lemma PriceIgnoresTierOrder(product: Product, reordered: seq<BulkTier>, quantity: int)
    requires product.price.bulkPrices.Some?
    requires multiset(reordered) == multiset(product.price.bulkPrices.value)
    requires DistinctThresholds(product.price.bulkPrices.value)
    ensures CalculatePrice(product.(price := product.price.(bulkPrices := Some(reordered))), quantity, true)
            == CalculatePrice(product, quantity, true)
  {
    var tiers := product.price.bulkPrices.value;
    var other := product.(price := product.price.(bulkPrices := Some(reordered)));
    BulkBranchPrice(product, quantity);
    BulkBranchPrice(other, quantity);
    if i :| 0 <= i < |tiers| && tiers[i].quantity <= quantity {
      assert tiers[i] in multiset(reordered);
      var a :| IsBestTier(tiers, quantity, a) && CalculatePrice(product, quantity, true) == tiers[a].price;
      var b :| IsBestTier(reordered, quantity, b) && CalculatePrice(other, quantity, true) == reordered[b].price;
      BestTiersAgree(tiers, reordered, quantity, a, b);
    } else {
      forall k | 0 <= k < |reordered| ensures reordered[k].quantity > quantity {
        assert reordered[k] in multiset(tiers);
      }
    }
  }
}
