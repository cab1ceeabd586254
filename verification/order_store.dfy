/**
 * The controller's handlers over the list of bookings (App.tsx): creating a
 * booking, changing a booking's status with the double-booking warning, and
 * delivering the photos. Each handler maps the current list to the next one.
 *
 * Oracles: `confirm` is the answer to the browser's confirmation dialog;
 * `newId` and `now` stand for the id and timestamp made from the clock.
 */
module OrderStore {
  import opened Types
  import opened Lists

  /**
   * The fields `submitBooking` has no default for. The source casts the
   * spread result to `Order`, so it relies on the patch carrying them.
   */
  predicate Completes(p: OrderPatch) {
    && p.phone.Some? && p.date.Some? && p.time.Some? && p.location.Some?
    && p.svcName.Some? && p.opts.Some? && p.total.Some?
  }

  /**
   * `{ id, uid, email, createdAt, status: PENDING, ...data }`: the defaults,
   * each overridden by the patch when the patch carries that field.
   */
  function NewOrder(user: User, newId: string, now: string, data: OrderPatch): Order
    requires Completes(data)
  {
    Order(
      id := data.id.GetOr(newId),
      uid := data.uid.GetOr(user.uid),
      email := data.email.GetOr(user.email),
      phone := data.phone.value,
      date := data.date.value,
      time := data.time.value,
      location := data.location.value,
      svcName := data.svcName.value,
      opts := data.opts.value,
      total := data.total.value,
      status := data.status.GetOr(Pending),
      createdAt := data.createdAt.GetOr(now),
      deliveryLink := data.deliveryLink,
      deliveryPass := data.deliveryPass)
  }

  /**
   * `submitBooking`: with nobody signed in nothing happens; otherwise the new
   * booking goes in front of the existing ones (most recent first).
   */
  function SubmitBooking(orders: seq<Order>, user: Option<User>, newId: string, now: string, data: OrderPatch)
    : (r: seq<Order>)
    requires user.Some? ==> Completes(data)
    ensures user.None? ==> r == orders
    ensures user.Some? ==> |r| == |orders| + 1 && r[1..] == orders
    ensures user.Some? ==>
      && r[0].id == data.id.GetOr(newId)
      && r[0].uid == data.uid.GetOr(user.value.uid)
      && r[0].email == data.email.GetOr(user.value.email)
      && r[0].status == data.status.GetOr(Pending)
      && r[0].createdAt == data.createdAt.GetOr(now)
    ensures user.Some? ==>
      && Some(r[0].phone) == data.phone && Some(r[0].date) == data.date
      && Some(r[0].time) == data.time && Some(r[0].location) == data.location
      && Some(r[0].svcName) == data.svcName && Some(r[0].opts) == data.opts
      && Some(r[0].total) == data.total
      && r[0].deliveryLink == data.deliveryLink && r[0].deliveryPass == data.deliveryPass
  {
    match user
    case None => orders
    case Some(u) => [NewOrder(u, newId, now, data)] + orders
  }

  function HasId(id: string): Order -> bool {
    (o: Order) => o.id == id
  }

  /** `o` is another booking, already holding the slot (date, time, location) of `cur`. */
  function ClashesWith(orderId: string, cur: Order): Order -> bool {
    (o: Order) =>
      && o.id != orderId
      && o.date == cur.date && o.time == cur.time && o.location == cur.location
      && IsConfirmed(o.status)
  }

  /**
   * Whether `updateOrderStatus` must ask before committing: the new status
   * holds a slot, the booking exists, and the first booking with that id
   * shares its slot with some other deposited or completed booking.
   */
  function NeedsConfirmation(orders: seq<Order>, orderId: string, status: OrderStatus): bool {
    && IsConfirmed(status)
    && match Find(orders, HasId(orderId))
       case None => false
       case Some(cur) => Find(orders, ClashesWith(orderId, cur)).Some?
  }

  /**
   * Reference reading of a double booking: `j` is the first booking with id
   * `orderId`, and `k` is a different booking, deposited or completed, at
   * the same date, time and location.
   */
  ghost predicate DoubleBooked(orders: seq<Order>, orderId: string, j: int, k: int) {
    && 0 <= j < |orders| && orders[j].id == orderId
    && (forall m :: 0 <= m < j ==> orders[m].id != orderId)
    && 0 <= k < |orders| && orders[k].id != orderId
    && orders[k].date == orders[j].date
    && orders[k].time == orders[j].time
    && orders[k].location == orders[j].location
    && IsConfirmed(orders[k].status)
  }

  /** The committed update: every booking with id `orderId` gets `status`. */
  function SetStatus(orders: seq<Order>, orderId: string, status: OrderStatus): (r: seq<Order>)
    ensures |r| == |orders|
    ensures forall i :: 0 <= i < |r| && orders[i].id == orderId ==> r[i].status == status
    ensures forall i :: 0 <= i < |r| ==> r[i].(status := orders[i].status) == orders[i]
    ensures forall i :: 0 <= i < |r| && orders[i].id != orderId ==> r[i] == orders[i]
  {
    seq(|orders|, i requires 0 <= i < |orders| =>
      if orders[i].id == orderId then orders[i].(status := status) else orders[i])
  }

  /**
   * `updateOrderStatus`: ignored unless an admin is signed in; when the new
   * status holds a slot and the slot is already taken, it goes ahead only if
   * `confirm` (the admin's answer) is true. Going ahead does not touch the
   * other booking: both then hold the slot.
   */
  function UpdateOrderStatus(orders: seq<Order>, user: Option<User>, orderId: string, status: OrderStatus,
                             confirm: bool): (r: seq<Order>)
    ensures !IsAdmin(user) ==> r == orders
    ensures |r| == |orders|
    ensures forall i :: 0 <= i < |r| ==> r[i].(status := orders[i].status) == orders[i]
    ensures forall i :: 0 <= i < |r| && orders[i].id != orderId ==> r[i] == orders[i]
    ensures IsAdmin(user) && !NeedsConfirmation(orders, orderId, status) ==> r == SetStatus(orders, orderId, status)
  {
    if !IsAdmin(user) then orders
    else if NeedsConfirmation(orders, orderId, status) && !confirm then orders
    else SetStatus(orders, orderId, status)
  }

  /**
   * `deliverJob`: every booking with that id becomes completed and records
   * the gallery link and passcode, whatever its status was. This handler
   * itself checks no role; only the admin view offers the action.
   */
  function DeliverJob(orders: seq<Order>, orderId: string, link: string, pass: string): (r: seq<Order>)
    ensures |r| == |orders|
    ensures forall i :: 0 <= i < |r| && orders[i].id == orderId ==>
      && r[i].status == Completed
      && r[i].deliveryLink == Some(link)
      && r[i].deliveryPass == Some(pass)
    ensures forall i :: 0 <= i < |r| ==>
      r[i].(status := orders[i].status, deliveryLink := orders[i].deliveryLink,
            deliveryPass := orders[i].deliveryPass) == orders[i]
    ensures forall i :: 0 <= i < |r| && orders[i].id != orderId ==> r[i] == orders[i]
  {
    seq(|orders|, i requires 0 <= i < |orders| =>
      if orders[i].id == orderId
      then orders[i].(status := Completed, deliveryLink := Some(link), deliveryPass := Some(pass))
      else orders[i])
  }

  /** The confirmation check is exactly the reference reading of a double booking. */
  lemma NeedsConfirmationIff(orders: seq<Order>, orderId: string, status: OrderStatus)
    ensures NeedsConfirmation(orders, orderId, status) <==>
      IsConfirmed(status) && exists j, k :: DoubleBooked(orders, orderId, j, k)
  {
    var cur := Find(orders, HasId(orderId));
    if cur.Some? {
      var j :| IsFirst(orders, HasId(orderId), j) && orders[j] == cur.value;
      var clash := Find(orders, ClashesWith(orderId, cur.value));
      if clash.Some? {
        var k :| IsFirst(orders, ClashesWith(orderId, cur.value), k) && orders[k] == clash.value;
        assert DoubleBooked(orders, orderId, j, k);
      } else {
        forall j', k' ensures !DoubleBooked(orders, orderId, j', k') {
          if 0 <= j' < |orders| && orders[j'].id == orderId && forall m :: 0 <= m < j' ==> orders[m].id != orderId {
            assert j' == j;
            if 0 <= k' < |orders| {
              assert !ClashesWith(orderId, cur.value)(orders[k']);
            }
          }
        }
      }
    } else {
      forall j', k' ensures !DoubleBooked(orders, orderId, j', k') {
        if 0 <= j' < |orders| {
          assert !HasId(orderId)(orders[j']);
        }
      }
    }
  }

  /** Double booked and the admin declines: nothing changes. */
  lemma DeclinedConflictKeepsOrders(orders: seq<Order>, user: Option<User>, orderId: string,
                                     status: OrderStatus, j: int, k: int)
    requires IsConfirmed(status)
    requires DoubleBooked(orders, orderId, j, k)
    ensures UpdateOrderStatus(orders, user, orderId, status, false) == orders
  {
    NeedsConfirmationIff(orders, orderId, status);
  }

  /**
   * Double booked and the admin accepts: the update commits, and the booking
   * already holding the slot keeps its status and every other field.
   */
  lemma AcceptedConflictCommits(orders: seq<Order>, user: Option<User>, orderId: string,
                                status: OrderStatus, j: int, k: int)
    requires IsAdmin(user) && IsConfirmed(status)
    requires DoubleBooked(orders, orderId, j, k)
    ensures UpdateOrderStatus(orders, user, orderId, status, true) == SetStatus(orders, orderId, status)
    ensures UpdateOrderStatus(orders, user, orderId, status, true)[k] == orders[k]
    ensures UpdateOrderStatus(orders, user, orderId, status, true)[j].status == status
  {}

  /**
   * Without a double booking, or with a target of pending or cancelled, an
   * admin's update commits and the answer to the dialog plays no part.
   */
  lemma UnconflictedUpdateCommits(orders: seq<Order>, user: Option<User>, orderId: string,
                                  status: OrderStatus, confirm: bool)
    requires IsAdmin(user)
    requires !IsConfirmed(status) || forall j, k :: !DoubleBooked(orders, orderId, j, k)
    ensures UpdateOrderStatus(orders, user, orderId, status, confirm) == SetStatus(orders, orderId, status)
  {
    NeedsConfirmationIff(orders, orderId, status);
  }

  /** Setting the same status twice is the same as setting it once. */
  lemma SetStatusIdempotent(orders: seq<Order>, orderId: string, status: OrderStatus)
    ensures SetStatus(SetStatus(orders, orderId, status), orderId, status) == SetStatus(orders, orderId, status)
  {
    var once := SetStatus(orders, orderId, status);
    var twice := SetStatus(once, orderId, status);
    forall i | 0 <= i < |orders| ensures twice[i] == once[i] {
      assert once[i].id == orders[i].id;
    }
  }

  /** Delivering the same job twice with the same link is the same as delivering once. */
  lemma DeliverJobIdempotent(orders: seq<Order>, orderId: string, link: string, pass: string)
    ensures DeliverJob(DeliverJob(orders, orderId, link, pass), orderId, link, pass)
         == DeliverJob(orders, orderId, link, pass)
  {
    var once := DeliverJob(orders, orderId, link, pass);
    var twice := DeliverJob(once, orderId, link, pass);
    forall i | 0 <= i < |orders| ensures twice[i] == once[i] {
      assert once[i].id == orders[i].id;
    }
  }
}
