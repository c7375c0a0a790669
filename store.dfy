/** The cart, checkout, payment-status, webhook and order routes of the
    store's server, as methods of one object holding the four collections
    they touch. The identity of the caller (`current_user.id`) is a parameter;
    so are the answers of the payment library, the new order's id and the
    current time. */
module Shop {
  import opened ServerModels
  import opened CartLines
  import opened Pricing

  const Currency: string := "eur"
  /** `to_list(1000)` in `get_my_orders`. */
  const MaxListedOrders: nat := 1000

  /** The processor's `payment_status` of a paid session. */
  const PaidText: string := "paid"
  /** The `status` answered for a transaction already paid. */
  const CompleteText: string := "complete"
  /** The webhook's `{"status": "success"}`. */
  const WebhookAck: string := "success"

  const MsgProductNotFound: string := "Produit non trouvé"
  const MsgProductAdded: string := "Produit ajouté au panier"
  const MsgEmptyCart: string := "Panier vide"
  const MsgProductRemoved: string := "Produit retiré du panier"
  const MsgCartCleared: string := "Panier vidé"
  const MsgNoValidProduct: string := "Le panier ne contient aucun produit valide"
  const MsgTxNotFound: string := "Transaction non trouvée"
  const MsgOrderNotFound: string := "Commande non trouvée"

  /** What checkout asks the payment library for. */
  datatype SessionRequest = SessionRequest(
    amount: int,
    currency: string,
    successUrl: string,
    cancelUrl: string,
    webhookUrl: string,
    userId: UserId,
    orderId: OrderId)

  /** The request built from the caller's origin: the success address carries
      the literal text the f-string `{{{{CHECKOUT_SESSION_ID}}}}` produces. */
  function SessionRequestFor(originUrl: string, total: int, uid: UserId, oid: OrderId): SessionRequest {
    SessionRequest(
      total, Currency,
      originUrl + "/success?session_id={{CHECKOUT_SESSION_ID}}",
      originUrl + "/cart",
      originUrl + "/api/webhook/stripe",
      uid, oid)
  }

  datatype CheckoutResponse = CheckoutResponse(url: string, sessionId: SessionId)
  datatype StatusResponse = StatusResponse(status: string, paymentStatus: string, orderId: OrderId)

  /** The items of a user's cart; a missing cart reads as no items. */
  function CartOf(carts: map<UserId, seq<CartItem>>, uid: UserId): seq<CartItem> {
    if uid in carts then carts[uid] else []
  }

  /** `orders.update_one({"id": oid}, {"$set": {"payment_status": "paid"}})`: no match, no change. */
  function MarkOrderPaid(orders: map<OrderId, Order>, oid: OrderId): (r: map<OrderId, Order>)
    ensures r.Keys == orders.Keys
    ensures forall o :: o in r && o != oid ==> r[o] == orders[o]
    ensures oid in r ==> r[oid] == orders[oid].(paymentStatus := Paid)
  {
    if oid in orders then orders[oid := orders[oid].(paymentStatus := Paid)] else orders
  }

  /** Marking the same order paid twice is marking it once. */
  lemma MarkOrderPaidIdempotent(orders: map<OrderId, Order>, oid: OrderId)
    ensures MarkOrderPaid(MarkOrderPaid(orders, oid), oid) == MarkOrderPaid(orders, oid)
  {
    if oid in orders {
      assert MarkOrderPaid(orders, oid)[oid].(paymentStatus := Paid) == MarkOrderPaid(orders, oid)[oid];
    }
  }

  /** The transaction after `{"status": "completed", "payment_status": "paid"}`. */
  function Settled(tx: PaymentTransaction): PaymentTransaction {
    tx.(status := Completed, paymentStatus := TxPaid)
  }

  /** Orders are never removed, and an order's owner, lines, total and creation
      time never change; a paid order stays paid. */
  ghost predicate OrdersKept(before: map<OrderId, Order>, after: map<OrderId, Order>) {
    forall o :: o in before ==>
      && o in after
      && after[o].userId == before[o].userId
      && after[o].items == before[o].items
      && after[o].total == before[o].total
      && after[o].createdAt == before[o].createdAt
      && (before[o].paymentStatus == Paid ==> after[o].paymentStatus == Paid)
  }

  /** Transactions are never removed, their session, owner, order and amount
      never change, and a paid transaction stays paid. */
  ghost predicate TransactionsKept(before: map<SessionId, PaymentTransaction>, after: map<SessionId, PaymentTransaction>) {
    forall s :: s in before ==>
      && s in after
      && after[s].userId == before[s].userId
      && after[s].orderId == before[s].orderId
      && after[s].amount == before[s].amount
      && (before[s].paymentStatus == TxPaid ==> after[s].paymentStatus == TxPaid)
  }

  /** A transaction agrees with the order it pays for. */
  ghost predicate TxConsistent(s: SessionId, tx: PaymentTransaction, orders: map<OrderId, Order>) {
    && tx.sessionId == s
    && tx.orderId in orders
    && orders[tx.orderId].stripeSessionId == s
    && orders[tx.orderId].userId == tx.userId
    && tx.amount == orders[tx.orderId].total
    && (tx.status == Completed <==> tx.paymentStatus == TxPaid)
    && (tx.paymentStatus == TxPaid ==> orders[tx.orderId].paymentStatus == Paid)
  }

  ghost predicate CartsDistinct(carts: map<UserId, seq<CartItem>>) {
    forall u :: u in carts ==> DistinctProducts(carts[u])
  }

  /** Every order sits under its own id and its total is the sum of its lines. */
  ghost predicate OrdersTotalled(orders: map<OrderId, Order>) {
    forall o :: o in orders ==> orders[o].id == o && orders[o].total == LinesTotal(orders[o].items)
  }

  ghost predicate TransactionsConsistent(transactions: map<SessionId, PaymentTransaction>, orders: map<OrderId, Order>) {
    forall s :: s in transactions ==> TxConsistent(s, transactions[s], orders)
  }

  /** Inserting a new order disturbs no transaction and no existing order. */
  lemma InsertOrderKeeps(transactions: map<SessionId, PaymentTransaction>, orders: map<OrderId, Order>, order: Order)
    requires order.id !in orders
    requires TransactionsConsistent(transactions, orders)
    ensures TransactionsConsistent(transactions, orders[order.id := order])
    ensures OrdersKept(orders, orders[order.id := order])
    ensures OrdersTotalled(orders) && order.total == LinesTotal(order.items) ==> OrdersTotalled(orders[order.id := order])
  {
  }

  /** Giving an order no transaction pays for a new session id, keeping its
      owner, lines and total, disturbs no transaction and keeps every order. */
  lemma ReplaceOrderKeeps(transactions: map<SessionId, PaymentTransaction>, orders: map<OrderId, Order>, order: Order)
    requires order.id in orders && OrdersTotalled(orders)
    requires forall t :: t in transactions ==> transactions[t].orderId != order.id
    requires order.userId == orders[order.id].userId && order.items == orders[order.id].items
    requires order.total == orders[order.id].total && order.createdAt == orders[order.id].createdAt
    requires order.paymentStatus == orders[order.id].paymentStatus
    requires TransactionsConsistent(transactions, orders)
    ensures TransactionsConsistent(transactions, orders[order.id := order])
    ensures OrdersKept(orders, orders[order.id := order])
    ensures OrdersTotalled(orders[order.id := order])
  {
  }

  /** Recording the transaction of a fresh session for a pending order keeps
      every transaction consistent. */
  lemma RecordTransactionKeeps(transactions: map<SessionId, PaymentTransaction>, orders: map<OrderId, Order>, tx: PaymentTransaction)
    requires tx.sessionId !in transactions
    requires TransactionsConsistent(transactions, orders)
    requires tx.orderId in orders && orders[tx.orderId].stripeSessionId == tx.sessionId
    requires orders[tx.orderId].userId == tx.userId && orders[tx.orderId].total == tx.amount
    requires tx.status == TxPending && tx.paymentStatus == Unpaid
    ensures TransactionsConsistent(transactions[tx.sessionId := tx], orders)
    ensures TransactionsKept(transactions, transactions[tx.sessionId := tx])
  {
  }

  /** Settling a transaction and marking its order paid keeps every
      transaction consistent and every order and transaction record kept. */
  lemma SettleKeeps(transactions: map<SessionId, PaymentTransaction>, orders: map<OrderId, Order>, s: SessionId)
    requires s in transactions
    requires TransactionsConsistent(transactions, orders)
    ensures TransactionsConsistent(transactions[s := Settled(transactions[s])], MarkOrderPaid(orders, transactions[s].orderId))
    ensures OrdersKept(orders, MarkOrderPaid(orders, transactions[s].orderId))
    ensures OrdersTotalled(orders) ==> OrdersTotalled(MarkOrderPaid(orders, transactions[s].orderId))
    ensures TransactionsKept(transactions, transactions[s := Settled(transactions[s])])
  {
  }

  class Store {
    var carts: map<UserId, seq<CartItem>>
    var products: map<ProductId, Product>
    var orders: map<OrderId, Order>
    var transactions: map<SessionId, PaymentTransaction>

    /** The store's invariant: carts hold each product once, records sit under
        their own id, every order's total is the sum of its lines, and every
        transaction agrees with its order. */
    ghost predicate Valid()
      reads this
    {
      && CartsDistinct(carts)
      && (forall p :: p in products ==> products[p].id == p)
      && OrdersTotalled(orders)
      && TransactionsConsistent(transactions, orders)
    }

    constructor (catalogue: map<ProductId, Product>)
      requires forall p :: p in catalogue ==> catalogue[p].id == p
      ensures Valid()
      ensures products == catalogue && carts == map[] && orders == map[] && transactions == map[]
    {
      products := catalogue;
      carts, orders, transactions := map[], map[], map[];
    }

    /** `get_cart`: the caller's entries whose product exists, with their products. */
    function GetCart(uid: UserId): (view: seq<CartLine>)
      reads this
      ensures uid !in carts ==> view == []
      ensures |view| <= |CartOf(carts, uid)|
    {
      CartViewLists(CartOf(carts, uid), products);
      CartView(CartOf(carts, uid), products)
    }

    /** `add_to_cart`: an unknown product is refused; otherwise the item is
        merged into the caller's cart, which is created when missing. */
    method AddToCart(uid: UserId, item: CartItem) returns (r: Result<string>)
      requires Valid()
      modifies this
      ensures Valid()
      ensures products == old(products) && orders == old(orders) && transactions == old(transactions)
      ensures item.productId !in products ==> r == Err(NotFound(MsgProductNotFound)) && carts == old(carts)
      ensures item.productId in products ==>
        && r == Ok(MsgProductAdded)
        && carts == old(carts)[uid := AddLine(CartOf(old(carts), uid), item)]
    {
      if item.productId !in products {
        return Err(NotFound(MsgProductNotFound));
      }
      if uid !in carts {
        carts := carts[uid := [item]];
      } else {
        var items := carts[uid];
        AddLineKeepsDistinct(items, item);
        var k := FindLine(items, item.productId);
        if k >= 0 {
          AddLineMerges(items, item, k);
          items := items[k := items[k].(quantite := items[k].quantite + item.quantite)];
        } else {
          AddLineAppends(items, item);
          items := items + [item];
        }
        carts := carts[uid := items];
      }
      r := Ok(MsgProductAdded);
    }

    /** `remove_from_cart`: fails only when the caller has no cart; otherwise
        every entry for the product goes and the (possibly empty) cart stays. */
    method RemoveFromCart(uid: UserId, pid: ProductId) returns (r: Result<string>)
      requires Valid()
      modifies this
      ensures Valid()
      ensures products == old(products) && orders == old(orders) && transactions == old(transactions)
      ensures uid !in old(carts) ==> r == Err(NotFound(MsgEmptyCart)) && carts == old(carts)
      ensures uid in old(carts) ==>
        && r == Ok(MsgProductRemoved)
        && carts == old(carts)[uid := WithoutProduct(old(carts)[uid], pid)]
    {
      if uid !in carts {
        return Err(NotFound(MsgEmptyCart));
      }
      WithoutProductKeepsDistinct(carts[uid], pid);
      carts := carts[uid := WithoutProduct(carts[uid], pid)];
      r := Ok(MsgProductRemoved);
    }

    /** `clear_cart`: deletes the caller's cart, whether or not there is one. */
    method ClearCart(uid: UserId) returns (message: string)
      requires Valid()
      modifies this
      ensures Valid()
      ensures products == old(products) && orders == old(orders) && transactions == old(transactions)
      ensures carts == old(carts) - {uid} && uid !in carts
      ensures message == MsgCartCleared
    {
      carts := carts - {uid};
      message := MsgCartCleared;
    }

    /** `create_checkout_session`. An empty or missing cart, or a zero total,
        is refused with nothing written. Otherwise a `pending` order holding
        the priced snapshot is inserted, the payment library is asked for a
        session (`session` is its answer, `None` when it raised), and on
        success the order gets the session id and an `unpaid` transaction for
        the same amount is recorded. The cart is left as it is. */
    method CreateCheckoutSession(uid: UserId, originUrl: string, orderId: OrderId, now: int, session: Option<ProcessorSession>)
      returns (r: Result<CheckoutResponse>, sent: Option<SessionRequest>)
      requires Valid()
      requires orderId !in orders
      requires session.Some? ==> session.value.sessionId !in transactions
      modifies this
      ensures Valid()
      ensures carts == old(carts) && products == old(products)
      ensures OrdersKept(old(orders), orders) && TransactionsKept(old(transactions), transactions)
      ensures CartOf(old(carts), uid) == [] ==>
        && r == Err(BadRequest(MsgEmptyCart)) && sent == None
        && orders == old(orders) && transactions == old(transactions)
      ensures var lines := PricedLines(CartOf(old(carts), uid), products);
        CartOf(old(carts), uid) != [] && LinesTotal(lines) == 0 ==>
          && r == Err(BadRequest(MsgNoValidProduct)) && sent == None
          && orders == old(orders) && transactions == old(transactions)
      ensures var lines := PricedLines(CartOf(old(carts), uid), products);
        var total := LinesTotal(lines);
        CartOf(old(carts), uid) != [] && total != 0 ==>
          && sent == Some(SessionRequestFor(originUrl, total, uid, orderId))
          && orders == old(orders)[orderId := Order(orderId, uid, lines, total,
                                                    if session.Some? then session.value.sessionId else "",
                                                    Pending, now)]
          && (session.None? ==> r == Err(InternalError) && transactions == old(transactions))
          && (session.Some? ==>
                && r == Ok(CheckoutResponse(session.value.url, session.value.sessionId))
                && transactions == old(transactions)[session.value.sessionId :=
                     PaymentTransaction(session.value.sessionId, uid, orderId, total, Currency, TxPending, Unpaid, now)])
    {
      if uid !in carts || carts[uid] == [] {
        return Err(BadRequest(MsgEmptyCart)), None;
      }
      var lines, total := PriceCart(carts[uid], products);
      if total == 0 {
        return Err(BadRequest(MsgNoValidProduct)), None;
      }
      var order := Order(orderId, uid, lines, total, "", Pending, now);
      InsertOrder(order);
      sent := Some(SessionRequestFor(originUrl, total, uid, orderId));
      if session.None? {
        return Err(InternalError), sent;
      }
      var s := session.value;
      OpenSession(PaymentTransaction(s.sessionId, uid, orderId, total, Currency, TxPending, Unpaid, now));
      r := Ok(CheckoutResponse(s.url, s.sessionId));
    }

    /** `get_checkout_status`, the reconciler. An unknown session is refused;
        an already paid transaction is answered `complete`/`paid` without
        asking the processor. Otherwise `report` is the processor's answer
        (`None` when the library raised): a `paid` report settles the
        transaction, marks its order paid and deletes the CALLER's cart; any
        other report changes nothing and is passed back. */
    method GetCheckoutStatus(uid: UserId, sessionId: SessionId, report: Option<StatusReport>) returns (r: Result<StatusResponse>)
      requires Valid()
      modifies this
      ensures Valid()
      ensures products == old(products)
      ensures OrdersKept(old(orders), orders) && TransactionsKept(old(transactions), transactions)
      ensures sessionId !in old(transactions) ==>
        && r == Err(NotFound(MsgTxNotFound))
        && carts == old(carts) && orders == old(orders) && transactions == old(transactions)
      ensures sessionId in old(transactions) && old(transactions)[sessionId].paymentStatus == TxPaid ==>
        && r == Ok(StatusResponse(CompleteText, PaidText, old(transactions)[sessionId].orderId))
        && carts == old(carts) && orders == old(orders) && transactions == old(transactions)
      ensures sessionId in old(transactions) && old(transactions)[sessionId].paymentStatus != TxPaid && report.None? ==>
        && r == Err(InternalError)
        && carts == old(carts) && orders == old(orders) && transactions == old(transactions)
      ensures sessionId in old(transactions) && old(transactions)[sessionId].paymentStatus != TxPaid && report.Some? ==>
        && r == Ok(StatusResponse(report.value.status, report.value.paymentStatus, old(transactions)[sessionId].orderId))
        && (report.value.paymentStatus == PaidText ==>
              && transactions == old(transactions)[sessionId := Settled(old(transactions)[sessionId])]
              && orders == MarkOrderPaid(old(orders), old(transactions)[sessionId].orderId)
              && carts == old(carts) - {uid})
        && (report.value.paymentStatus != PaidText ==>
              carts == old(carts) && orders == old(orders) && transactions == old(transactions))
    {
      if sessionId !in transactions {
        return Err(NotFound(MsgTxNotFound));
      }
      var tx := transactions[sessionId];
      if tx.paymentStatus == TxPaid {
        return Ok(StatusResponse(CompleteText, PaidText, tx.orderId));
      }
      if report.None? {
        return Err(InternalError);
      }
      var checkout := report.value;
      if checkout.paymentStatus == PaidText && tx.paymentStatus != TxPaid {
        SettleSession(sessionId);
        var cleared := ClearCart(uid);
      }
      r := Ok(StatusResponse(checkout.status, checkout.paymentStatus, tx.orderId));
    }

    /** `stripe_webhook`. A rejected event answers 400 with the library's
        message. A verified `paid` event settles the session's transaction, if
        any, and marks its order paid, whatever their state; carts are never
        touched. */
    method Webhook(event: WebhookEvent) returns (r: Result<string>)
      requires Valid()
      modifies this
      ensures Valid()
      ensures products == old(products) && carts == old(carts)
      ensures OrdersKept(old(orders), orders) && TransactionsKept(old(transactions), transactions)
      ensures event.Rejected? ==>
        r == Err(BadRequest(event.reason)) && orders == old(orders) && transactions == old(transactions)
      ensures event.Verified? ==> r == Ok(WebhookAck)
      ensures event.Verified? && (event.paymentStatus != PaidText || event.sessionId !in old(transactions)) ==>
        orders == old(orders) && transactions == old(transactions)
      ensures event.Verified? && event.paymentStatus == PaidText && event.sessionId in old(transactions) ==>
        && transactions == old(transactions)[event.sessionId := Settled(old(transactions)[event.sessionId])]
        && orders == MarkOrderPaid(old(orders), old(transactions)[event.sessionId].orderId)
    {
      if event.Rejected? {
        return Err(BadRequest(event.reason));
      }
      if event.paymentStatus == PaidText {
        if event.sessionId in transactions {
          SettleSession(event.sessionId);
        }
      }
      r := Ok(WebhookAck);
    }

    /** `orders.insert_one` of a new order whose total is the sum of its lines. */
    method InsertOrder(order: Order)
      requires Valid() && order.id !in orders && order.total == LinesTotal(order.items)
      modifies this
      ensures Valid()
      ensures carts == old(carts) && products == old(products) && transactions == old(transactions)
      ensures orders == old(orders)[order.id := order]
      ensures OrdersKept(old(orders), orders)
    {
      InsertOrderKeeps(transactions, orders, order);
      orders := orders[order.id := order];
    }

    /** The end of a successful checkout: the order named by the pending,
        unpaid transaction `tx`, which no transaction pays for yet, gets the
        session id, and `tx` is recorded under it. */
    method OpenSession(tx: PaymentTransaction)
      requires Valid() && tx.sessionId !in transactions && tx.orderId in orders
      requires forall t :: t in transactions ==> transactions[t].orderId != tx.orderId
      requires orders[tx.orderId].userId == tx.userId && orders[tx.orderId].total == tx.amount
      requires tx.status == TxPending && tx.paymentStatus == Unpaid
      modifies this
      ensures Valid()
      ensures carts == old(carts) && products == old(products)
      ensures orders == old(orders)[tx.orderId := old(orders)[tx.orderId].(stripeSessionId := tx.sessionId)]
      ensures transactions == old(transactions)[tx.sessionId := tx]
      ensures OrdersKept(old(orders), orders) && TransactionsKept(old(transactions), transactions)
    {
      var placed := orders[tx.orderId].(stripeSessionId := tx.sessionId);
      ReplaceOrderKeeps(transactions, orders, placed);
      orders := orders[tx.orderId := placed];
      RecordTransactionKeeps(transactions, orders, tx);
      transactions := transactions[tx.sessionId := tx];
    }

    /** The two writes of a confirmed payment: the transaction becomes
        `completed`/`paid` and its order `paid`. Carts are not touched. */
    method SettleSession(sessionId: SessionId)
      requires Valid() && sessionId in transactions
      modifies this
      ensures Valid()
      ensures carts == old(carts) && products == old(products)
      ensures transactions == old(transactions)[sessionId := Settled(old(transactions)[sessionId])]
      ensures orders == MarkOrderPaid(old(orders), old(transactions)[sessionId].orderId)
      ensures OrdersKept(old(orders), orders) && TransactionsKept(old(transactions), transactions)
    {
      SettleKeeps(transactions, orders, sessionId);
      orders := MarkOrderPaid(orders, transactions[sessionId].orderId);
      transactions := transactions[sessionId := Settled(transactions[sessionId])];
    }

    /** `get_order`: the order with that id if it belongs to the caller;
        anyone else's order reads as missing. */
    function GetOrder(uid: UserId, oid: OrderId): (r: Result<Order>)
      reads this
      ensures r.Ok? <==> oid in orders && orders[oid].userId == uid
      ensures r.Ok? ==> r.value == orders[oid]
      ensures r.Err? ==> r.error == NotFound(MsgOrderNotFound)
    {
      if oid in orders && orders[oid].userId == uid then Ok(orders[oid]) else Err(NotFound(MsgOrderNotFound))
    }

    /** `get_my_orders`: the caller's orders, newest first, at most 1000 of them;
        when some are cut off, no listed order is older than a missing one. */
    method GetMyOrders(uid: UserId) returns (r: seq<Order>)
      requires Valid()
      ensures NewestFirst(r)
      ensures |r| == if |OrdersOf(orders, uid)| < MaxListedOrders then |OrdersOf(orders, uid)| else MaxListedOrders
      ensures forall x :: x in r ==> x.userId == uid && x.id in orders && orders[x.id] == x
      ensures DistinctIds(r)
      ensures |OrdersOf(orders, uid)| < MaxListedOrders ==> forall o :: o in OrdersOf(orders, uid) ==> orders[o] in r
      ensures forall o :: o in OrdersOf(orders, uid) ==>
        orders[o] in r || forall i :: 0 <= i < |r| ==> r[i].createdAt >= orders[o].createdAt
    {
      var all := SortOrdersOf(orders, uid);
      if |all| < MaxListedOrders {
        return all;
      }
      r := all[..MaxListedOrders];
      PrefixKeepsNewest(all, MaxListedOrders);
    }
  }

  /** The ids of a user's orders. */
  ghost function OrdersOf(orders: map<OrderId, Order>, uid: UserId): set<OrderId> {
    set o | o in orders && orders[o].userId == uid
  }

  /** The query `find({"user_id": uid}).sort("created_at", -1)`: every order of
      the user, each once, newest first. */
  method SortOrdersOf(orders: map<OrderId, Order>, uid: UserId) returns (all: seq<Order>)
    requires forall o :: o in orders ==> orders[o].id == o
    ensures NewestFirst(all) && DistinctIds(all)
    ensures |all| == |OrdersOf(orders, uid)|
    ensures forall x :: x in all ==> x.userId == uid && x.id in orders && orders[x.id] == x
    ensures forall o :: o in OrdersOf(orders, uid) ==> orders[o] in all
  {
    all := [];
    var todo := orders.Keys;
    ghost var done: set<OrderId> := {};
    while todo != {}
      invariant todo + done == orders.Keys && todo !! done
      invariant Listing(orders, uid, all, done)
      decreases todo
    {
      var k :| k in todo;
      ListingStep(orders, uid, all, done, k);
      if orders[k].userId == uid {
        all := InsertNewestFirst(orders[k], all);
      }
      todo, done := todo - {k}, done + {k};
    }
    assert done == orders.Keys;
    ListingComplete(orders, uid, all);
  }

  /** No two orders of the list share an id. */
  predicate DistinctIds(s: seq<Order>) {
    forall i, j :: 0 <= i < j < |s| ==> s[i].id != s[j].id
  }

  /** The ids of the orders of a list. */
  ghost function IdsOf(s: seq<Order>): set<OrderId> {
    set x | x in s :: x.id
  }

  /** What `SortOrdersOf` has built after scanning the ids in `done`: the
      user's orders among them, each listed once under its own id, newest
      first. */
  ghost predicate Listing(orders: map<OrderId, Order>, uid: UserId, all: seq<Order>, done: set<OrderId>) {
    && done <= orders.Keys
    && NewestFirst(all)
    && DistinctIds(all)
    && (forall x :: x in all ==> x.id in done && x.userId == uid && orders[x.id] == x)
    && (forall o :: o in done && orders[o].userId == uid ==> orders[o] in all)
  }

  /** Scanning one more id keeps the listing: the user's order is inserted in
      place, anyone else's is passed over. */
  lemma ListingStep(orders: map<OrderId, Order>, uid: UserId, all: seq<Order>, done: set<OrderId>, k: OrderId)
    requires forall o :: o in orders ==> orders[o].id == o
    requires Listing(orders, uid, all, done) && k in orders && k !in done
    ensures orders[k].userId == uid ==> Listing(orders, uid, InsertNewestFirst(orders[k], all), done + {k})
    ensures orders[k].userId != uid ==> Listing(orders, uid, all, done + {k})
  {
    if orders[k].userId == uid {
      InsertNewestFirstElements(orders[k], all);
      InsertNewestFirstSorted(orders[k], all);
      InsertNewestFirstDistinct(orders[k], all);
    }
  }

  /** Once every id is scanned, the listing holds exactly the user's orders. */
  lemma ListingComplete(orders: map<OrderId, Order>, uid: UserId, all: seq<Order>)
    requires forall o :: o in orders ==> orders[o].id == o
    requires Listing(orders, uid, all, orders.Keys)
    ensures NewestFirst(all) && DistinctIds(all)
    ensures |all| == |OrdersOf(orders, uid)|
    ensures forall x :: x in all ==> x.userId == uid && x.id in orders && orders[x.id] == x
    ensures forall o :: o in OrdersOf(orders, uid) ==> orders[o] in all
  {
    DistinctIdsCount(all);
    forall o | o in OrdersOf(orders, uid) ensures o in IdsOf(all) {
      assert orders[o] in all && orders[o].id == o;
    }
    assert IdsOf(all) == OrdersOf(orders, uid);
  }

  /** A list whose ids are distinct has as many ids as orders. */
  lemma {:induction false} DistinctIdsCount(s: seq<Order>)
    requires DistinctIds(s)
    ensures |IdsOf(s)| == |s|
  {
    if s != [] {
      var init := s[..|s| - 1];
      var last := s[|s| - 1];
      DistinctIdsCount(init);
      assert IdsOf(s) == IdsOf(init) + {last.id};
      assert last.id !in IdsOf(init);
    }
  }

  /** Inserting an order whose id is not yet listed keeps the ids distinct. */
  lemma {:induction false} InsertNewestFirstDistinct(o: Order, s: seq<Order>)
    requires DistinctIds(s)
    requires forall x :: x in s ==> x.id != o.id
    ensures DistinctIds(InsertNewestFirst(o, s))
  {
    if s != [] && s[0].createdAt > o.createdAt {
      var rest := InsertNewestFirst(o, s[1..]);
      InsertNewestFirstDistinct(o, s[1..]);
      InsertNewestFirstElements(o, s[1..]);
      forall j | 0 <= j < |rest| ensures s[0].id != rest[j].id {
        assert rest[j] in rest;
      }
    }
  }

  /** Most recent `created_at` first: `sort("created_at", -1)`. */
  predicate NewestFirst(s: seq<Order>) {
    forall i, j :: 0 <= i < j < |s| ==> s[i].createdAt >= s[j].createdAt
  }

  /** Places `o` before the first order not newer than it. */
  function InsertNewestFirst(o: Order, s: seq<Order>): seq<Order> {
    if s == [] || s[0].createdAt <= o.createdAt then [o] + s
    else [s[0]] + InsertNewestFirst(o, s[1..])
  }

  /** Insertion adds exactly `o` to the list. */
  lemma {:induction false} InsertNewestFirstElements(o: Order, s: seq<Order>)
    ensures multiset(InsertNewestFirst(o, s)) == multiset(s) + multiset{o}
    ensures |InsertNewestFirst(o, s)| == |s| + 1
    ensures forall x :: x in InsertNewestFirst(o, s) <==> x == o || x in s
  {
    if s != [] && s[0].createdAt > o.createdAt {
      InsertNewestFirstElements(o, s[1..]);
      assert s == [s[0]] + s[1..];
    }
    var r := InsertNewestFirst(o, s);
    forall x ensures x in r <==> x == o || x in s {
      assert x in r <==> x in multiset(r);
      assert x in s <==> x in multiset(s);
    }
  }

  /** Insertion keeps a newest-first list newest first. */
  lemma {:induction false} InsertNewestFirstSorted(o: Order, s: seq<Order>)
    requires NewestFirst(s)
    ensures NewestFirst(InsertNewestFirst(o, s))
  {
    if s != [] && s[0].createdAt > o.createdAt {
      var rest := InsertNewestFirst(o, s[1..]);
      InsertNewestFirstSorted(o, s[1..]);
      InsertNewestFirstElements(o, s[1..]);
      forall j | 0 <= j < |rest| ensures s[0].createdAt >= rest[j].createdAt {
        assert rest[j] in rest;
      }
    }
  }

  /** Cutting a newest-first list after its first `n` orders keeps it newest
      first, and every order cut off is no newer than any order kept. */
  lemma PrefixKeepsNewest(all: seq<Order>, n: nat)
    requires NewestFirst(all) && n <= |all|
    ensures NewestFirst(all[..n])
    ensures forall x :: x in all && x !in all[..n] ==> forall i :: 0 <= i < n ==> all[i].createdAt >= x.createdAt
  {
    forall x | x in all && x !in all[..n] ensures forall i :: 0 <= i < n ==> all[i].createdAt >= x.createdAt {
      var j :| 0 <= j < |all| && all[j] == x;
      assert j >= n;
    }
  }
}
