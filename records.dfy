/** Rows of the shop's relational store and the replies its route handlers send. */
module Records {

  datatype Option<T> = None | Some(value: T) {
    /** The value, or the default an omitted request field takes. */
    function GetOr(default: T): T {
      match this
      case Some(v) => v
      case None => default
    }
  }

  /** Order lifecycle: PENDING until one payment attempt moves it to PAID or CANCELLED. */
  datatype Status = PENDING | PAID | CANCELLED

  function StatusName(s: Status): string {
    match s
    case PENDING => "PENDING"
    case PAID => "PAID"
    case CANCELLED => "CANCELLED"
  }

  datatype Role = ADMIN | CUSTOMER

  /** The role as it is written into a session token. */
  function RoleName(r: Role): string {
    match r
    case ADMIN => "ADMIN"
    case CUSTOMER => "CUSTOMER"
  }

  /** A catalogue entry. Price is in whole cents; stock is a signed count,
      since neither create nor update validates it. */
  datatype Product = Product(id: int, title: string, price: int, stock: int)

  /** A row of the cart-item table; (cartId, productId) is its compound unique key. */
  datatype CartItem = CartItem(cartId: int, productId: int, quantity: int)

  /** A user's cart together with its items, as GET /api/cart returns it. */
  datatype CartView = CartView(id: int, userId: int, items: seq<CartItem>)

  /** The snapshot an order keeps of one cart item, with the unit price at checkout. */
  datatype OrderItem = OrderItem(productId: int, quantity: int, price: int)

  datatype Order = Order(id: int, userId: int, total: int, status: Status, items: seq<OrderItem>, createdAt: int)

  /** A user row; `password` holds the stored hash. */
  datatype User = User(id: int, email: string, password: string, name: Option<string>, role: Role)

  /** A user as the API returns it: every field except the password hash. */
  datatype PublicUser = PublicUser(id: int, email: string, name: Option<string>, role: Role)

  datatype Session = Session(user: PublicUser, token: string)

  /** What a verified session token decodes to. */
  datatype Payload = Payload(userId: int, role: string)

  datatype HttpError =
    | BadRequest(message: string)
    | Unauthorized(message: string)
    | Forbidden(message: string)
    | NotFound(message: string)
    | InternalError(message: string)
  {
    /** The reply's status: a 4xx client error, except for a store failure, which is the only 5xx. */
    function Code(): (code: int)
      ensures 400 <= code < 600
      ensures code >= 500 <==> this.InternalError?
    {
      match this
      case BadRequest(_) => 400
      case Unauthorized(_) => 401
      case Forbidden(_) => 403
      case NotFound(_) => 404
      case InternalError(_) => 500
    }
  }

  /** The outcome of one handler: a 200 or 201 body, an error reply, or an
      exception that escapes the handler, so that no 400 is sent. */
  datatype Response<T> =
    | Ok(value: T)
    | Created(value: T)
    | Error(error: HttpError)
    | Unhandled(reason: string)

  /** JavaScript truthiness of an optional string field: absent and "" are falsy. */
  predicate StringGiven(s: Option<string>) {
    s.Some? && s.value != ""
  }

  /** JavaScript truthiness of an optional number field: absent and 0 are falsy. */
  predicate NumberGiven(n: Option<int>) {
    n.Some? && n.value != 0
  }
}
