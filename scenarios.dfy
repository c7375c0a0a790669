/** Sequences of route calls and what the routes' contracts guarantee about
    them: the cart-to-paid-order run of the server's test script, repeated
    status polls, a webhook that arrives before the poll, repeated removal,
    and the life of an account. */
module Scenarios {
  import opened ServerModels
  import opened CartLines
  import opened Pricing
  import opened Shop
  import opened Auth

  /** The test script's steps: add a product, see it in the cart, remove it,
      add it back, check out, poll the status once and list the orders. The
      script never pays; here the processor reports the session paid at that
      poll. The order then holds one line snapshotting the product, is paid,
      is the only order listed, and the cart is gone. Beyond the script, a
      second poll answers `complete`/`paid` whatever the processor would now
      say, and fetching the order by id returns it. */
  method CartToPaidOrder(p: Product, uid: UserId, oid: OrderId, sid: SessionId, url: string, origin: string, now: int, later: Option<StatusReport>)
    returns (status: Result<StatusResponse>, repoll: Result<StatusResponse>, order: Result<Order>, listed: seq<Order>, cartAfter: seq<CartLine>)
    requires p.prix != 0
    ensures status == Ok(StatusResponse(CompleteText, PaidText, oid))
    ensures repoll == status
    ensures order == Ok(Order(oid, uid, [OrderItem(p.id, p.titre, p.prix, 1, p.audioFileUrl)], p.prix, sid, Paid, now))
    ensures listed == [order.value]
    ensures cartAfter == []
  {
    var store := new Store(map[p.id := p]);
    var item := CartItem(p.id, 1);
    FillCart(store, uid, item, p);
    var line := OrderItem(p.id, p.titre, p.prix, 1, p.audioFileUrl);
    CheckOutOne(store, uid, item, p, oid, sid, url, origin, now);
    status, repoll := PollPaidTwice(store, uid, Order(oid, uid, [line], p.prix, sid, Pending, now), later);
    order := store.GetOrder(uid, oid);
    assert OrdersOf(store.orders, uid) == {oid};
    listed := store.GetMyOrders(uid);
    assert |listed| == 1 && listed[0] in listed;
    assert listed[0].id in store.orders.Keys;
    cartAfter := store.GetCart(uid);
  }

  /** The test script's checkout of a one-entry cart: one pending order
      snapshotting the product, and one unpaid transaction for its price. */
  method CheckOutOne(store: Store, uid: UserId, item: CartItem, p: Product, oid: OrderId, sid: SessionId, url: string, origin: string, now: int)
    requires store.Valid() && store.products == map[p.id := p] && item == CartItem(p.id, 1) && p.prix != 0
    requires store.carts == map[uid := [item]] && store.orders == map[] && store.transactions == map[]
    modifies store
    ensures store.Valid() && store.products == old(store.products) && store.carts == old(store.carts)
    ensures store.orders == map[oid := Order(oid, uid, [OrderItem(p.id, p.titre, p.prix, 1, p.audioFileUrl)], p.prix, sid, Pending, now)]
    ensures store.transactions == map[sid := PaymentTransaction(sid, uid, oid, p.prix, Currency, TxPending, Unpaid, now)]
  {
    var line := OrderItem(p.id, p.titre, p.prix, 1, p.audioFileUrl);
    assert PricedLines([item], store.products) == [line];
    assert LinesTotal([line]) == p.prix;
    var checkout, sent := store.CreateCheckoutSession(uid, origin, oid, now, Some(ProcessorSession(sid, url)));
  }

  /** Two polls of a pending order's session while the processor first says
      `paid`, then anything at all (`later`, a failing call included): both
      answer `complete`/`paid`, the order is paid and the caller's cart is
      gone, because the second poll takes the early return for a paid
      transaction. */
  method PollPaidTwice(store: Store, uid: UserId, pending: Order, later: Option<StatusReport>)
    returns (status: Result<StatusResponse>, repoll: Result<StatusResponse>)
    requires store.Valid() && pending.paymentStatus == Pending
    requires store.carts.Keys == {uid} && store.orders == map[pending.id := pending]
    requires store.transactions == map[pending.stripeSessionId :=
      PaymentTransaction(pending.stripeSessionId, uid, pending.id, pending.total, Currency, TxPending, Unpaid, pending.createdAt)]
    modifies store
    ensures store.Valid() && store.products == old(store.products)
    ensures status == Ok(StatusResponse(CompleteText, PaidText, pending.id)) && repoll == status
    ensures store.orders == map[pending.id := pending.(paymentStatus := Paid)]
    ensures store.carts == map[]
  {
    status := store.GetCheckoutStatus(uid, pending.stripeSessionId, Some(StatusReport(CompleteText, PaidText)));
    assert store.orders == map[pending.id := pending.(paymentStatus := Paid)];
    repoll := store.GetCheckoutStatus(uid, pending.stripeSessionId, later);
  }

  /** The test script's cart steps on a fresh store: the cart reads empty,
      adding the product shows it, removing it leaves an empty cart, and
      adding it back leaves exactly that entry. */
  method FillCart(store: Store, uid: UserId, item: CartItem, p: Product)
    requires store.Valid() && store.products == map[p.id := p] && item.productId == p.id
    requires store.carts == map[] && store.orders == map[] && store.transactions == map[]
    modifies store
    ensures store.Valid() && store.products == old(store.products)
    ensures store.carts == map[uid := [item]] && store.orders == map[] && store.transactions == map[]
  {
    var empty := store.GetCart(uid);
    assert empty == [];
    var added := store.AddToCart(uid, item);
    var withItem := store.GetCart(uid);
    assert withItem == [CartLine(item, p)];
    var removed := store.RemoveFromCart(uid, p.id);
    assert store.carts[uid] == [];
    added := store.AddToCart(uid, item);
  }

  /** A `paid` report confirms once: the first poll settles the transaction,
      marks its order paid and deletes the caller's cart (unless the
      transaction was paid already); the next poll answers `complete`/`paid`
      and changes nothing, whatever the processor would report. */
  method ConfirmThenPoll(s: Store, uid: UserId, sid: SessionId, confirm: StatusReport, later: Option<StatusReport>)
    returns (first: Result<StatusResponse>, second: Result<StatusResponse>)
    requires s.Valid() && sid in s.transactions && confirm.paymentStatus == PaidText
    modifies s
    ensures s.Valid()
    ensures first.Ok? && first.value.orderId == old(s.transactions)[sid].orderId
    ensures second == Ok(StatusResponse(CompleteText, PaidText, first.value.orderId))
    ensures s.transactions == old(s.transactions)[sid := Settled(old(s.transactions)[sid])]
    ensures s.orders == MarkOrderPaid(old(s.orders), old(s.transactions)[sid].orderId)
    ensures s.orders[first.value.orderId].paymentStatus == Paid
    ensures old(s.transactions)[sid].paymentStatus != TxPaid ==> s.carts == old(s.carts) - {uid}
    ensures old(s.transactions)[sid].paymentStatus == TxPaid ==> s.carts == old(s.carts)
  {
    ghost var tx := s.transactions[sid];
    first := s.GetCheckoutStatus(uid, sid, Some(confirm));
    if tx.paymentStatus == TxPaid {
      assert s.orders == MarkOrderPaid(old(s.orders), tx.orderId);
      assert s.transactions == old(s.transactions)[sid := Settled(tx)];
    }
    ghost var afterFirst := s.carts;
    second := s.GetCheckoutStatus(uid, sid, later);
    assert s.carts == afterFirst;
  }

  /** When the processor's `paid` webhook lands before the client polls, the
      transaction and order become paid, the poll takes the early return, and
      the caller's cart is never deleted. */
  method WebhookThenPoll(s: Store, uid: UserId, sid: SessionId, report: Option<StatusReport>)
    returns (hook: Result<string>, status: Result<StatusResponse>)
    requires s.Valid() && sid in s.transactions
    modifies s
    ensures s.Valid()
    ensures hook == Ok(WebhookAck)
    ensures status == Ok(StatusResponse(CompleteText, PaidText, old(s.transactions)[sid].orderId))
    ensures old(s.transactions)[sid].orderId in s.orders
    ensures s.orders[old(s.transactions)[sid].orderId].paymentStatus == Paid
    ensures s.carts == old(s.carts)
  {
    assert TxConsistent(sid, s.transactions[sid], s.orders);
    hook := s.Webhook(Verified(sid, PaidText));
    status := s.GetCheckoutStatus(uid, sid, report);
  }

  /** A `paid` webhook delivered twice leaves the same state as one delivery:
      the session's transaction settled, its order paid, carts untouched. */
  method WebhookTwice(s: Store, sid: SessionId) returns (first: Result<string>, second: Result<string>)
    requires s.Valid()
    modifies s
    ensures s.Valid()
    ensures first == second == Ok(WebhookAck)
    ensures sid !in old(s.transactions) ==> s.orders == old(s.orders) && s.transactions == old(s.transactions)
    ensures sid in old(s.transactions) ==>
      && s.transactions == old(s.transactions)[sid := Settled(old(s.transactions)[sid])]
      && s.orders == MarkOrderPaid(old(s.orders), old(s.transactions)[sid].orderId)
    ensures s.carts == old(s.carts) && s.products == old(s.products)
  {
    first := s.Webhook(Verified(sid, PaidText));
    ghost var once, settled := s.orders, s.transactions;
    second := s.Webhook(Verified(sid, PaidText));
    if sid in old(s.transactions) {
      ghost var tx := old(s.transactions)[sid];
      assert settled[sid] == Settled(tx);
      MarkOrderPaidIdempotent(once, tx.orderId);
      assert s.transactions == settled;
    }
  }

  /** Removing a product a second time changes nothing more. */
  method RemoveTwice(s: Store, uid: UserId, pid: ProductId) returns (first: Result<string>, second: Result<string>)
    requires s.Valid() && uid in s.carts
    modifies s
    ensures s.Valid()
    ensures first == second == Ok(MsgProductRemoved)
    ensures s.carts == old(s.carts)[uid := WithoutProduct(old(s.carts)[uid], pid)]
    ensures s.orders == old(s.orders) && s.transactions == old(s.transactions)
  {
    first := s.RemoveFromCart(uid, pid);
    second := s.RemoveFromCart(uid, pid);
    WithoutProductIdempotent(old(s.carts)[uid], pid);
  }

  /** Register, try to log in unverified, verify, reuse the token, log in,
      register the same address again. */
  method AccountLifecycle(data: Registration, hash: string, checkPassword: (string, string) -> bool,
                          uid: UserId, token: Token, uid2: UserId, token2: Token, now: int)
    returns (early: Result<LoginResponse>, verified: Result<string>, reused: Result<string>,
             login: Result<LoginResponse>, duplicate: Result<RegisterResponse>)
    requires checkPassword(data.motDePasse, hash)
    requires uid2 != uid && token2 != token
    ensures early == Err(Forbidden(MsgUnverified))
    ensures verified == Ok(MsgVerified)
    ensures reused == Err(BadRequest(MsgInvalidToken))
    ensures login == Ok(LoginResponse(CreateAccessToken(uid, data.email, now), UserSummary(uid, data.prenom, data.nom, data.email)))
    ensures duplicate == Err(BadRequest(MsgEmailTaken))
  {
    var accounts := new Accounts();
    var registered := accounts.Register(data, hash, uid, token, now);
    assert accounts.users.Keys == {uid};
    early := accounts.Login(data.email, data.motDePasse, checkPassword, now);
    verified := accounts.VerifyEmail(token, now);
    reused := accounts.VerifyEmail(token, now);
    assert accounts.users.Keys == {uid} && accounts.users[uid].emailVerifie;
    login := accounts.Login(data.email, data.motDePasse, checkPassword, now);
    assert accounts.EmailTaken(data.email);
    duplicate := accounts.Register(data, hash, uid2, token2, now);
  }

  /** A token used after its 24 hours is refused and kept, and the account
      stays unverified, so login is still refused. */
  method LateVerification(data: Registration, hash: string, checkPassword: (string, string) -> bool,
                          uid: UserId, token: Token, now: int)
    returns (late: Result<string>, login: Result<LoginResponse>)
    requires checkPassword(data.motDePasse, hash)
    ensures late == Err(BadRequest(MsgTokenExpired))
    ensures login == Err(Forbidden(MsgUnverified))
  {
    var accounts := new Accounts();
    var registered := accounts.Register(data, hash, uid, token, now);
    late := accounts.VerifyEmail(token, now + VerificationLifetime + 1);
    assert accounts.users.Keys == {uid};
    login := accounts.Login(data.email, data.motDePasse, checkPassword, now);
  }
}
