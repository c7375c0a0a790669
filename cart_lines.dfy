/** The list work the cart handlers do on a cart's `items`: the search for an
    existing entry and the merge-or-append of `add_to_cart`, the filtering
    comprehension of `remove_from_cart`, and the product join of `get_cart`. */
module CartLines {
  import opened ServerModels

  /** No two entries of a cart name the same product. */
  predicate DistinctProducts(items: seq<CartItem>) {
    forall i, j :: 0 <= i < j < |items| ==> items[i].productId != items[j].productId
  }

  /** The index of the first entry for `pid`, or -1: the generator search
      `next((i for i in items if ...), None)` of `add_to_cart`. */
  method FindLine(items: seq<CartItem>, pid: ProductId) returns (k: int)
    ensures -1 <= k < |items|
    ensures 0 <= k ==> items[k].productId == pid
    ensures 0 <= k ==> forall j :: 0 <= j < k ==> items[j].productId != pid
    ensures k == -1 <==> forall j :: 0 <= j < |items| ==> items[j].productId != pid
  {
    k := 0;
    while k < |items|
      invariant 0 <= k <= |items|
      invariant forall j :: 0 <= j < k ==> items[j].productId != pid
    {
      if items[k].productId == pid {
        return;
      }
      k := k + 1;
    }
    k := -1;
  }

  /** Reference definition of adding `item` to a cart: the first entry for the
      same product has its quantity raised, otherwise the item goes last. */
  function AddLine(items: seq<CartItem>, item: CartItem): seq<CartItem> {
    if items == [] then [item]
    else if items[0].productId == item.productId then
      [items[0].(quantite := items[0].quantite + item.quantite)] + items[1..]
    else
      [items[0]] + AddLine(items[1..], item)
  }

  /** Adding a product already in the cart raises exactly the first matching
      entry's quantity by the added amount; no entry is created, none other changes. */
  lemma {:induction false} AddLineMerges(items: seq<CartItem>, item: CartItem, k: nat)
    requires k < |items| && items[k].productId == item.productId
    requires forall j :: 0 <= j < k ==> items[j].productId != item.productId
    ensures AddLine(items, item) == items[k := items[k].(quantite := items[k].quantite + item.quantite)]
  {
    if k > 0 {
      AddLineMerges(items[1..], item, k - 1);
      assert items[k := items[k].(quantite := items[k].quantite + item.quantite)]
          == [items[0]] + items[1..][k - 1 := items[k].(quantite := items[k].quantite + item.quantite)];
    }
  }

  /** Adding a product not yet in the cart appends it at the end. */
  lemma {:induction false} AddLineAppends(items: seq<CartItem>, item: CartItem)
    requires forall j :: 0 <= j < |items| ==> items[j].productId != item.productId
    ensures AddLine(items, item) == items + [item]
  {
    if items != [] {
      AddLineAppends(items[1..], item);
      assert items + [item] == [items[0]] + (items[1..] + [item]);
    }
  }

  /** Merging keeps a cart free of duplicate products. */
  lemma AddLineKeepsDistinct(items: seq<CartItem>, item: CartItem)
    requires DistinctProducts(items)
    ensures DistinctProducts(AddLine(items, item))
  {
    if k :| 0 <= k < |items| && items[k].productId == item.productId {
      AddLineMerges(items, item, k);
    } else {
      AddLineAppends(items, item);
    }
  }

  /** The comprehension `[i for i in items if i['product_id'] != product_id]`. */
  function WithoutProduct(items: seq<CartItem>, pid: ProductId): (r: seq<CartItem>)
    ensures |r| <= |items|
    ensures forall i :: 0 <= i < |r| ==> r[i].productId != pid
  {
    if items == [] then []
    else if items[0].productId == pid then WithoutProduct(items[1..], pid)
    else [items[0]] + WithoutProduct(items[1..], pid)
  }

  /** Removal drops every entry for `pid` and keeps every other entry as often as it occurred. */
  lemma {:induction false} WithoutProductCounts(items: seq<CartItem>, pid: ProductId)
    ensures forall x :: multiset(WithoutProduct(items, pid))[x] == if x.productId == pid then 0 else multiset(items)[x]
  {
    if items != [] {
      WithoutProductCounts(items[1..], pid);
      assert items == [items[0]] + items[1..];
    }
  }

  /** Removal works entry by entry, so the kept entries stay in cart order. */
  lemma {:induction false} WithoutProductConcat(a: seq<CartItem>, b: seq<CartItem>, pid: ProductId)
    ensures WithoutProduct(a + b, pid) == WithoutProduct(a, pid) + WithoutProduct(b, pid)
  {
    if a != [] {
      WithoutProductConcat(a[1..], b, pid);
      assert (a + b)[1..] == a[1..] + b;
    } else {
      assert a + b == b;
    }
  }

  /** A cart without `pid` is left as it is. */
  lemma {:induction false} WithoutAbsentProduct(items: seq<CartItem>, pid: ProductId)
    requires forall i :: 0 <= i < |items| ==> items[i].productId != pid
    ensures WithoutProduct(items, pid) == items
  {
    if items != [] {
      WithoutAbsentProduct(items[1..], pid);
    }
  }

  /** Removing the same product twice is the same as removing it once. */
  lemma WithoutProductIdempotent(items: seq<CartItem>, pid: ProductId)
    ensures WithoutProduct(WithoutProduct(items, pid), pid) == WithoutProduct(items, pid)
  {
    WithoutAbsentProduct(WithoutProduct(items, pid), pid);
  }

  /** Removal keeps a cart free of duplicate products. */
  lemma {:induction false} WithoutProductKeepsDistinct(items: seq<CartItem>, pid: ProductId)
    requires DistinctProducts(items)
    ensures DistinctProducts(WithoutProduct(items, pid))
  {
    if items != [] {
      var rest := WithoutProduct(items[1..], pid);
      WithoutProductKeepsDistinct(items[1..], pid);
      if items[0].productId != pid {
        WithoutProductCounts(items[1..], pid);
        forall j | 0 <= j < |rest| ensures rest[j].productId != items[0].productId {
          assert multiset(rest)[rest[j]] > 0;
          assert rest[j] in items[1..];
        }
      }
    }
  }

  /** An entry of `get_cart`'s answer: the cart entry with its product's details. */
  datatype CartLine = CartLine(item: CartItem, product: Product)

  /** The cart entries whose product still exists, in cart order. */
  function KnownItems(items: seq<CartItem>, products: map<ProductId, Product>): (r: seq<CartItem>)
    ensures |r| <= |items|
    ensures forall i :: 0 <= i < |r| ==> r[i].productId in products
  {
    if items == [] then []
    else
      var last := items[|items| - 1];
      var init := KnownItems(items[..|items| - 1], products);
      if last.productId in products then init + [last] else init
  }

  /** Each entry whose product exists is kept as often as it occurs; the others are dropped. */
  lemma {:induction false} KnownItemsCounts(items: seq<CartItem>, products: map<ProductId, Product>)
    ensures forall x :: multiset(KnownItems(items, products))[x] == if x.productId in products then multiset(items)[x] else 0
  {
    if items != [] {
      KnownItemsCounts(items[..|items| - 1], products);
      assert items == items[..|items| - 1] + [items[|items| - 1]];
    }
  }

  /** The filter works entry by entry, so the kept entries stay in cart order. */
  lemma {:induction false} KnownItemsConcat(a: seq<CartItem>, b: seq<CartItem>, products: map<ProductId, Product>)
    ensures KnownItems(a + b, products) == KnownItems(a, products) + KnownItems(b, products)
  {
    if b != [] {
      KnownItemsConcat(a, b[..|b| - 1], products);
      assert (a + b)[..|a + b| - 1] == a + b[..|b| - 1];
    } else {
      assert a + b == a;
    }
  }

  /** With every product present, nothing is dropped. */
  lemma {:induction false} KnownItemsAllKnown(items: seq<CartItem>, products: map<ProductId, Product>)
    requires forall i :: 0 <= i < |items| ==> items[i].productId in products
    ensures KnownItems(items, products) == items
  {
    if items != [] {
      KnownItemsAllKnown(items[..|items| - 1], products);
    }
  }

  /** The filtering loop of `get_cart`: every entry whose product exists, joined with that product. */
  function CartView(items: seq<CartItem>, products: map<ProductId, Product>): seq<CartLine> {
    if items == [] then []
    else
      var last := items[|items| - 1];
      var init := CartView(items[..|items| - 1], products);
      if last.productId in products then init + [CartLine(last, products[last.productId])] else init
  }

  /** The cart page lists exactly the entries whose product exists, in cart
      order, each with its product's current record. */
  lemma {:induction false} CartViewLists(items: seq<CartItem>, products: map<ProductId, Product>)
    ensures |CartView(items, products)| == |KnownItems(items, products)|
    ensures forall i :: 0 <= i < |CartView(items, products)| ==>
      CartView(items, products)[i] == CartLine(KnownItems(items, products)[i], products[KnownItems(items, products)[i].productId])
  {
    if items != [] {
      CartViewLists(items[..|items| - 1], products);
    }
  }
}
