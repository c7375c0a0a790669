/** The pricing loop of `create_checkout_session`: every cart entry whose
    product exists becomes an order line carrying the product's current price,
    title and download address, and the total is the sum of price times
    quantity over those lines. Amounts are integer cents. */
module Pricing {
  import opened ServerModels
  import opened CartLines

  /** The order line snapshotting product `p` for cart entry `item`. */
  function LineFor(item: CartItem, p: Product): OrderItem {
    OrderItem(p.id, p.titre, p.prix, item.quantite, p.audioFileUrl)
  }

  /** Reference definition of the order lines checkout builds from a cart. */
  function PricedLines(items: seq<CartItem>, products: map<ProductId, Product>): seq<OrderItem> {
    if items == [] then []
    else
      var last := items[|items| - 1];
      var init := PricedLines(items[..|items| - 1], products);
      if last.productId in products then init + [LineFor(last, products[last.productId])] else init
  }

  /** Sum of `prix * quantite` over the lines. */
  function LinesTotal(lines: seq<OrderItem>): int {
    if lines == [] then 0
    else LinesTotal(lines[..|lines| - 1]) + lines[|lines| - 1].prix * lines[|lines| - 1].quantite
  }

  /** The loop at the heart of checkout, accumulating `total` and `order_items`. */
  method PriceCart(items: seq<CartItem>, products: map<ProductId, Product>) returns (lines: seq<OrderItem>, total: int)
    ensures lines == PricedLines(items, products)
    ensures total == LinesTotal(lines)
  {
    lines, total := [], 0;
    var i := 0;
    while i < |items|
      invariant 0 <= i <= |items|
      invariant lines == PricedLines(items[..i], products)
      invariant total == LinesTotal(lines)
    {
      var item := items[i];
      if item.productId in products {
        var product := products[item.productId];
        var line := LineFor(item, product);
        assert (lines + [line])[..|lines|] == lines;
        total := total + product.prix * item.quantite;
        lines := lines + [line];
      }
      assert items[..i + 1][..i] == items[..i];
      i := i + 1;
    }
    assert items[..i] == items;
  }

  /** Checkout makes one line per cart entry whose product exists, in cart
      order, each carrying that product's current price, title and file
      address and the entry's quantity; entries of vanished products are skipped. */
  lemma {:induction false} PricedLinesSnapshot(items: seq<CartItem>, products: map<ProductId, Product>)
    ensures |PricedLines(items, products)| == |KnownItems(items, products)|
    ensures forall i :: 0 <= i < |PricedLines(items, products)| ==>
      PricedLines(items, products)[i] == LineFor(KnownItems(items, products)[i], products[KnownItems(items, products)[i].productId])
  {
    if items != [] {
      PricedLinesSnapshot(items[..|items| - 1], products);
    }
  }

  /** The order lines and the cart page's lines describe the same entries, one for one. */
  lemma PricedLinesMatchCartView(items: seq<CartItem>, products: map<ProductId, Product>)
    ensures |PricedLines(items, products)| == |CartView(items, products)|
    ensures forall i :: 0 <= i < |CartView(items, products)| ==>
      PricedLines(items, products)[i] == LineFor(CartView(items, products)[i].item, CartView(items, products)[i].product)
  {
    PricedLinesSnapshot(items, products);
    CartViewLists(items, products);
  }

  /** The total is additive over lines. */
  lemma {:induction false} LinesTotalConcat(a: seq<OrderItem>, b: seq<OrderItem>)
    ensures LinesTotal(a + b) == LinesTotal(a) + LinesTotal(b)
  {
    if b == [] {
      assert a + b == a;
    } else {
      LinesTotalConcat(a, b[..|b| - 1]);
      assert (a + b)[..|a + b| - 1] == a + b[..|b| - 1];
    }
  }

  /** With positive prices and quantities, every non-empty order has a positive total. */
  lemma {:induction false} LinesTotalPositive(lines: seq<OrderItem>)
    requires forall i :: 0 <= i < |lines| ==> lines[i].prix > 0 && lines[i].quantite > 0
    ensures lines == [] <==> LinesTotal(lines) == 0
    ensures lines != [] ==> LinesTotal(lines) > 0
  {
    if lines != [] {
      LinesTotalPositive(lines[..|lines| - 1]);
      var last := lines[|lines| - 1];
      assert last.prix * last.quantite >= last.prix;
    }
  }

  /** With positive prices and quantities, checkout's `total == 0` test fails
      exactly when no cart entry names an existing product. */
  lemma ZeroTotalIffNoKnownItem(items: seq<CartItem>, products: map<ProductId, Product>)
    requires forall p :: p in products ==> products[p].prix > 0
    requires forall i :: 0 <= i < |items| ==> items[i].quantite > 0
    ensures LinesTotal(PricedLines(items, products)) == 0 <==> KnownItems(items, products) == []
  {
    var lines := PricedLines(items, products);
    var known := KnownItems(items, products);
    PricedLinesSnapshot(items, products);
    KnownItemsCounts(items, products);
    forall i | 0 <= i < |lines| ensures lines[i].prix > 0 && lines[i].quantite > 0 {
      assert multiset(known)[known[i]] > 0;
      assert known[i] in items;
    }
    LinesTotalPositive(lines);
  }
}
