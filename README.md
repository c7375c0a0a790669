# Music store: cart, checkout and payment confirmation

A Dafny model of the store core of the music shop's FastAPI server
(`backend/server.py`). The MongoDB collections become the fields of two
objects:

- `Shop.Store` holds `carts` (user id to the ordered list of cart entries),
  `products`, `orders` and `transactions` (keyed by the processor's session id).
- `Auth.Accounts` holds `users` and `verifications` (keyed by token).

Each route handler is a method or a function on those fields. The routes
with an error path answer a `Result`: the route's value, or the HTTP error
it raises, with the source's French detail text. The others answer their
value directly (a list of entries or orders, or a message).

The pure list work of the handlers has its own modules:

- `CartLines` covers the search and merge of `add_to_cart`, the filtering
  comprehension of `remove_from_cart` and the product join of `get_cart`.
- `Pricing` covers the pricing loop of `create_checkout_session`.

Both modules have reference functions and lemmas about them.

The store keeps an invariant, `Shop.Store.Valid`, which every route preserves:

- carts hold each product once;
- records sit under their own id;
- every order's total is the sum of its lines;
- every transaction agrees with its order on owner, amount and session;
- a paid transaction's order is paid.

The state-changing routes also promise that orders and transactions are
never removed, and that their owner, lines and amounts never change
(`OrdersKept`, `TransactionsKept`).

Everything the handlers get from outside is an input. This covers the
caller's identity, the payment library's answers (`None` when the library
raised), the new record ids, the current time, the password hash and the
password check.

`Scenarios` chains the routes the way the server's test script
`backend_test.py` and the payment flow do, and proves what comes out.

Money is in integer cents and times are in whole seconds.

## Model

| member | source | states |
|---|---|---|
| CartLines.FindLine | backend/server.py:309 | the index of the first cart entry for the product, or -1 exactly when no entry names it |
| CartLines.AddLineMerges | backend/server.py:307-312 | adding a product already in the cart raises the first matching entry's quantity by the added amount and changes nothing else |
| CartLines.AddLineAppends | backend/server.py:313-314 | adding a product not in the cart appends the item at the end |
| CartLines.AddLineKeepsDistinct | backend/server.py:307-319 | adding keeps a cart free of duplicate products |
| CartLines.WithoutProduct | backend/server.py:329 | the filtered cart is no longer than the cart and holds no entry for the product |
| CartLines.WithoutProductCounts | backend/server.py:329 | every entry for the product is dropped; every other entry is kept as often as it occurred |
| CartLines.WithoutProductConcat | backend/server.py:329 | the filter works entry by entry, so the kept entries stay in cart order |
| CartLines.WithoutAbsentProduct | backend/server.py:329 | a cart without the product is left as it is |
| CartLines.WithoutProductIdempotent | backend/server.py:323-336 | removing the same product twice is the same as removing it once |
| CartLines.WithoutProductKeepsDistinct | backend/server.py:329 | removal keeps a cart free of duplicate products |
| CartLines.KnownItems | backend/server.py:281-283 | the entries whose product exists, no more than the cart holds, each naming an existing product |
| CartLines.KnownItemsCounts | backend/server.py:281-283 | each entry whose product exists is kept as often as it occurs and the others are dropped |
| CartLines.KnownItemsConcat | backend/server.py:281-283 | the filter works entry by entry, so the kept entries stay in cart order |
| CartLines.KnownItemsAllKnown | backend/server.py:356-358 | when every product exists, no entry is dropped |
| CartLines.CartViewLists | backend/server.py:279-289 | the cart page lists exactly the entries whose product exists, in cart order, each joined with that product's record |
| Pricing.PriceCart | backend/server.py:352-367 | the loop builds exactly the reference order lines and their total |
| Pricing.PricedLinesSnapshot | backend/server.py:356-367 | one line per entry whose product exists, in cart order, carrying that product's id, title, price and file address and the entry's quantity |
| Pricing.PricedLinesMatchCartView | backend/server.py:279-289 | the order lines and the cart page describe the same entries, one for one |
| Pricing.LinesTotalConcat | backend/server.py:359-360 | the total is additive over lines |
| Pricing.LinesTotalPositive | backend/server.py:359-360 | with positive prices and quantities, the total is zero exactly when there are no lines, and positive otherwise |
| Pricing.ZeroTotalIffNoKnownItem | backend/server.py:369-370 | with positive prices and quantities, checkout's zero-total refusal happens exactly when no cart entry names an existing product |
| Shop.MarkOrderPaid | backend/server.py:460-464 | the same order ids remain; only that order changes, becoming paid with every other field kept; an unknown id changes nothing |
| Shop.MarkOrderPaidIdempotent | backend/server.py:518-523 | marking an order paid twice is marking it once |
| Shop.InsertOrderKeeps | backend/server.py:372-382 | inserting a new order whose total is its lines' sum keeps every transaction consistent and every order kept |
| Shop.ReplaceOrderKeeps | backend/server.py:406-409 | giving a fresh order its session id disturbs no transaction and no order's owner, lines or total |
| Shop.RecordTransactionKeeps | backend/server.py:411-424 | recording a pending, unpaid transaction for the order that carries its session keeps all transactions consistent |
| Shop.SettleKeeps | backend/server.py:450-464 | settling a transaction and marking its order paid keeps every transaction consistent and every record kept |
| Shop.Store.constructor | backend/server.py:20-23 | a store with the given catalogue and no carts, orders or transactions satisfies the invariant |
| Shop.Store.GetCart | backend/server.py:273-289 | a missing cart reads as no entries; the answer has no more entries than the cart |
| Shop.Store.AddToCart | backend/server.py:291-321 | an unknown product answers 404 and changes nothing; otherwise the item is merged into the caller's cart, a missing cart becoming exactly that one item, and nothing else changes |
| Shop.Store.RemoveFromCart | backend/server.py:323-336 | no cart answers 404 and changes nothing; otherwise every entry for the product goes and the rest stays in order |
| Shop.Store.ClearCart | backend/server.py:338-341 | the caller's cart is gone, whether or not it existed, and nothing else changes |
| Shop.Store.CreateCheckoutSession | backend/server.py:345-426 | an empty cart or a zero total answers 400 and writes nothing; otherwise one pending order with the priced snapshot and its total is inserted, the processor is asked for that amount in eur, and on success the order gets the session id and one pending, unpaid transaction for the same amount is recorded; the cart is untouched |
| Shop.Store.InsertOrder | backend/server.py:372-382 | the order is added under its id and nothing else changes |
| Shop.Store.OpenSession | backend/server.py:405-424 | the order gets the session id and the transaction is recorded under it; nothing else changes |
| Shop.Store.SettleSession | backend/server.py:450-464 | the transaction becomes completed and paid and its order paid; carts and products are untouched |
| Shop.Store.GetCheckoutStatus | backend/server.py:428-473 | an unknown session answers 404; a paid transaction answers complete/paid with no change; a failing processor call answers 500 with no change; a paid report settles the transaction, marks exactly its order paid and deletes the caller's cart; any other report changes nothing and is passed back |
| Shop.Store.Webhook | backend/server.py:496-528 | a rejected event answers 400 and changes nothing; a verified paid event settles the session's transaction, if any, and marks its order paid; carts are never touched |
| Shop.Store.GetOrder | backend/server.py:485-492 | the order is returned exactly when it exists and belongs to the caller; otherwise the answer is 404 |
| Shop.Store.GetMyOrders | backend/server.py:477-483 | the caller's orders, newest first, each an order stored under its id and none listed twice, as many as the caller has up to 1000 (all of them when fewer than 1000), and none left out that is newer than one listed |
| Shop.SortOrdersOf | backend/server.py:479 | every order of the user, each once, newest first, and nothing else |
| Shop.ListingStep | backend/server.py:479 | scanning one more order keeps the partial listing sorted, distinct and made of exactly the user's orders scanned so far |
| Shop.ListingComplete | backend/server.py:479 | once every order is scanned, the listing holds exactly the user's orders, as many as the user has |
| Shop.DistinctIdsCount | backend/server.py:479 | a list with distinct ids has as many ids as orders |
| Shop.InsertNewestFirstElements | backend/server.py:479 | inserting adds exactly the one order to the list |
| Shop.InsertNewestFirstSorted | backend/server.py:479 | inserting keeps a newest-first list newest first |
| Shop.InsertNewestFirstDistinct | backend/server.py:479 | inserting an order with a new id keeps the ids distinct |
| Shop.PrefixKeepsNewest | backend/server.py:479 | keeping the first n orders of a newest-first list leaves no cut-off order newer than a kept one |
| Auth.CreateAccessToken | backend/server.py:134-140 | the token names the user and the e-mail address and expires exactly 24 hours after the current time |
| Auth.MarkVerified | backend/server.py:208-212 | exactly that user becomes verified; an unknown id changes nothing |
| Auth.Accounts.constructor | backend/server.py:20-23 | no users and no tokens satisfy the invariant |
| Auth.Accounts.Register | backend/server.py:160-195 | a taken e-mail address answers 400 and changes nothing; otherwise one unverified user and one token valid for 24 hours are stored |
| Auth.Accounts.VerifyEmail | backend/server.py:197-217 | an unknown token or an expired token answers 400 and changes nothing; a valid token marks its user verified and is deleted, so it cannot be used again |
| Auth.Accounts.Login | backend/server.py:219-238 | 401 exactly when no user with the address has a matching password, 403 exactly when the match is unverified, and otherwise a 24-hour token and summary for that user |
| Scenarios.CartToPaidOrder | backend_test.py:169-245 | the test script's steps (add the product, remove it, add it again, check out, poll the status once, list the orders), with the processor reporting the session paid, end with one paid order holding the product's snapshot at quantity 1, listed alone, and no cart; a further poll with any report and a fetch by id, neither in the script, answer complete/paid and that order |
| Scenarios.FillCart | backend_test.py:169-203 | the script's cart steps leave the cart holding exactly the one item |
| Scenarios.CheckOutOne | backend_test.py:205-221 | checking out the one-item cart creates one pending order for the product's price and one unpaid transaction |
| Scenarios.PollPaidTwice | backend/server.py:436-441 | a paid report then any report, a failing call included: both polls answer complete/paid, the order is paid and the cart is gone |
| Scenarios.ConfirmThenPoll | backend/server.py:436-473 | a paid report confirms once: the second poll answers complete/paid and changes nothing, whatever the processor now says |
| Scenarios.WebhookThenPoll | backend/server.py:436-441 | a paid webhook before the poll makes the poll take the early return, so the order is paid and the caller's cart is never deleted |
| Scenarios.WebhookTwice | backend/server.py:507-523 | a paid webhook delivered twice leaves the same state as one delivery |
| Scenarios.RemoveTwice | backend/server.py:323-336 | removing a product twice answers success both times and leaves the cart as one removal does |
| Scenarios.AccountLifecycle | backend/server.py:160-238 | register, unverified login refused with 403, verify, token reuse refused, login succeeds, same address refused |
| Scenarios.LateVerification | backend/server.py:203-206 | a token used after 24 hours is refused and the account stays unverified, so login is still refused |

## Where the code and the design differ

The model follows the code in each of these cases.

- Quantities are never validated. An entry's `quantite` may be zero or
  negative, so an order total may be zero or negative. The positivity lemmas
  take positive prices and quantities as premises.
- A cart entry whose product has vanished is skipped at checkout. Checkout
  does not fail with an invalid-item error naming the product. Only a zero
  total is refused.
- Another user's order reads as 404, not 403.
- No order or transaction ever becomes `expired` or `failed`. Only
  `pending` and `paid` are written.
- The paid transition is a read followed by writes, with no compare-and-swap.
  The model covers sequential calls only.
- The cart is deleted when a poll confirms payment, not at checkout.
- The deleted cart is the caller's, whoever owns the transaction.
- A webhook that lands before the first poll settles the payment. The poll
  then takes the early return and the cart is never deleted
  (`Scenarios.WebhookThenPoll`).
- The success address carries the literal text `{{CHECKOUT_SESSION_ID}}`,
  which is what the doubled braces of the f-string produce.
- There is no separate download grant. Each order line copies the
  product's `audio_file_url` at checkout, and that copy is its download
  address.

## Left out

- The payment library (`StripeCheckout`): its three calls are inputs. A
  failing call is `None`, answered as status 500. A rejected webhook is
  `Rejected` with the exception's message.
- MongoDB and async I/O: the collections are maps held in fields, and each
  handler runs as one sequential step.
- Exceptions raised by database calls are not modelled. The webhook's
  `except` clause is modelled only for the library's rejection.
- `uuid4` ids and `datetime.now`: the ids and the time are inputs. The
  methods require new ids not to be in use already.
- Password hashing and checking (bcrypt) are not modelled: the hash and the
  check are inputs.
- JWT signing is not modelled: the token is the record of its claims.
- `decode_token` and `get_current_user` are not modelled: the caller's
  user id is an input.
- Floating-point money is modelled as integer cents, so the sum and the zero
  test are exact. The front end's `toFixed` display rounding is not
  modelled.
- Request validation (pydantic, `EmailStr`) and the 422 answers it produces
  are not modelled. E-mail addresses are compared as given.
- The transaction's own `id` and `metadata`, the cart's `id` and
  `created_at`, and the product fields the core never reads (`type`,
  `image_url`, `audio_preview_url`, `description`, `created_at`) are not
  modelled.
- `get_me`, `get_products`, `get_product`, `create_product` and
  `seed_products` are catalogue and profile reads and fixtures, outside the
  store core.
- The admin screens, the other front-end pages, and `create_admin.py`
  (an interactive script) are outside the model.
- Shop.Store.GetCart: its contract states only the missing-cart case and
  the length bound. The lemma `CartLines.CartViewLists` states the
  listing itself.
