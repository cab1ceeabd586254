/**
 * The records of the studio storefront: service packages and their add-on
 * options, bookings (orders) and the signed-in user.
 *
 * Strings are `seq<char>`; prices and totals are whole VND amounts (`int`).
 * An optional field of the source (`deliveryLink?`, a nullable user) is an
 * `Option`.
 */
module Types {

  /** A value that may be absent: `undefined` or `null` in the source. */
  datatype Option<+T> = None | Some(value: T) {

    /** The value, or `default` when absent: how an object spread or `||` falls back. */
    function GetOr(default: T): T {
      match this
      case Some(v) => v
      case None => default
    }
  }

  /** The four states of a booking. */
  datatype OrderStatus = Pending | Deposited | Completed | Cancelled

  /** The string each status carries; the dashboard's status filter compares against it. */
  function Label(s: OrderStatus): string {
    match s
    case Pending => "Chờ xác nhận"
    case Deposited => "Đã cọc"
    case Completed => "Hoàn thành"
    case Cancelled => "Đã hủy"
  }

  /** A booking that holds its time slot: deposited or already shot. */
  predicate IsConfirmed(s: OrderStatus) {
    s == Deposited || s == Completed
  }

  /** An add-on to a package, with its additional price. */
  datatype ServiceOption = ServiceOption(name: string, price: int)

  /** A bookable package of the catalog. */
  datatype StudioService = StudioService(
    id: string,
    name: string,
    price: int,
    desc: string,
    options: seq<ServiceOption>)

  /** A booking. Name, options and total are copies taken when it was booked. */
  datatype Order = Order(
    id: string,
    uid: string,
    email: string,
    phone: string,
    date: string,
    time: string,
    location: string,
    svcName: string,
    opts: seq<ServiceOption>,
    total: int,
    status: OrderStatus,
    createdAt: string,
    deliveryLink: Option<string>,
    deliveryPass: Option<string>)

  datatype User = User(
    uid: string,
    email: string,
    displayName: string,
    photoURL: string,
    isAdmin: bool)

  /** `currentUser?.isAdmin`: false when nobody is signed in. */
  predicate IsAdmin(user: Option<User>) {
    user.Some? && user.value.isAdmin
  }

  /**
   * `Partial<Order>`: every field may be left out. Spreading a patch over
   * an object overrides exactly the fields the patch carries.
   */
  datatype OrderPatch = OrderPatch(
    id: Option<string>,
    uid: Option<string>,
    email: Option<string>,
    phone: Option<string>,
    date: Option<string>,
    time: Option<string>,
    location: Option<string>,
    svcName: Option<string>,
    opts: Option<seq<ServiceOption>>,
    total: Option<int>,
    status: Option<OrderStatus>,
    createdAt: Option<string>,
    deliveryLink: Option<string>,
    deliveryPass: Option<string>)

  /** Distinct statuses carry distinct labels, so filtering by label is filtering by status. */
  lemma LabelInjective(a: OrderStatus, b: OrderStatus)
    ensures Label(a) == Label(b) <==> a == b
  {}
}
