/** The records the store's collections hold (server.py, MODELS section), the
    typed errors its route handlers raise, and the answers of the external
    payment processor that the handlers receive as inputs.

    Money is held in integer cents (the source uses floats), times are whole
    seconds, identifiers are strings. */
module ServerModels {

  type UserId = string
  type ProductId = string
  type OrderId = string
  type SessionId = string
  type Token = string

  datatype Option<T> = None | Some(value: T)

  /** The HTTP errors the handlers raise, with the source's detail text.
      `InternalError` stands for an exception escaping a handler (a failing
      payment-library call), which the web framework answers with status 500. */
  datatype ApiError =
    | NotFound(detail: string)        // 404
    | BadRequest(detail: string)      // 400
    | Unauthorized(detail: string)    // 401
    | Forbidden(detail: string)       // 403
    | InternalError                   // 500

  datatype Result<T> = Ok(value: T) | Err(error: ApiError)

  /** One entry of a cart: the source never validates `quantite`, so it is any integer. */
  datatype CartItem = CartItem(productId: ProductId, quantite: int)

  /** The catalogue fields the core reads; `prix` is in cents. */
  datatype Product = Product(id: ProductId, titre: string, artiste: string, prix: int, audioFileUrl: string)

  /** A line of an order: a snapshot of the product taken at checkout. */
  datatype OrderItem = OrderItem(productId: ProductId, titre: string, prix: int, quantite: int, downloadUrl: string)

  /** The only order states the code ever writes. */
  datatype OrderStatus = Pending | Paid

  datatype Order = Order(
    id: OrderId,
    userId: UserId,
    items: seq<OrderItem>,
    total: int,
    stripeSessionId: SessionId,
    paymentStatus: OrderStatus,
    createdAt: int)

  /** `status` of a payment transaction: "pending" or "completed". */
  datatype TxStatus = TxPending | Completed

  /** `payment_status` of a payment transaction: "unpaid" or "paid". */
  datatype TxPayment = Unpaid | TxPaid

  datatype PaymentTransaction = PaymentTransaction(
    sessionId: SessionId,
    userId: UserId,
    orderId: OrderId,
    amount: int,
    currency: string,
    status: TxStatus,
    paymentStatus: TxPayment,
    createdAt: int)

  /** A stored user; `passwordHash` is the bcrypt output, which the model does not interpret. */
  datatype UserRecord = UserRecord(
    id: UserId,
    prenom: string,
    nom: string,
    email: string,
    adresse: string,
    emailVerifie: bool,
    passwordHash: string,
    createdAt: int)

  datatype EmailVerification = EmailVerification(userId: UserId, token: Token, expiresAt: int)

  /** What the payment library returns when a hosted checkout session is created. */
  datatype ProcessorSession = ProcessorSession(sessionId: SessionId, url: string)

  /** What the payment library reports when asked for a session's status;
      `paymentStatus` is the processor's own text ("paid", "unpaid", ...). */
  datatype StatusReport = StatusReport(status: string, paymentStatus: string)

  /** The outcome of the payment library's webhook handling: a verified event,
      or the message of the exception it raised (bad signature, bad body). */
  datatype WebhookEvent = Verified(sessionId: SessionId, paymentStatus: string) | Rejected(reason: string)
}
