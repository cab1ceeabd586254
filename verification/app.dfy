/**
 * The top-level controller (App.tsx) as one state record and one transition
 * function. Each action is a handler of the source; its oracles (the answer
 * to a confirmation dialog, clock-made ids and timestamps) travel inside it.
 * The lemmas here follow a booking end to end and relate the handlers to
 * the dashboard's views.
 */
module App {
  import opened Types
  import ServiceGrid
  import BookingModal
  import OrderStore
  import Catalog
  import Dashboard
  import ServiceFormModal

  /**
   * What the controller holds: the signed-in user, the catalog, the
   * bookings, and the package of the open booking form (if it is open).
   */
  datatype Store = Store(
    user: Option<User>,
    services: seq<StudioService>,
    orders: seq<Order>,
    booking: Option<StudioService>)

  /** The identity the mock login assigns to a client. */
  const GuestClient: User := User("user-123", "client@example.com", "Guest User", "https://picsum.photos/100", false)

  const AdminEmail: string := "admin@luxstudio.vn"

  /** The identity the demo admin login assigns. */
  const DemoAdmin: User := User("VYIs9XHLR9RMStwtcdwMrOIo33w1", AdminEmail, "Lux Studio Admin", "https://picsum.photos/101", true)

  datatype Action =
    | Book(service: StudioService)                                  // handleBooking
    | SendBooking(form: BookingModal.BookingForm, newId: string, now: string)  // the form's submit
    | SetOrderStatus(orderId: string, status: OrderStatus, confirm: bool)       // updateOrderStatus
    | DeliverPhotos(orderId: string, link: string, pass: string)    // deliverJob
    | SavePackage(svc: StudioService)                               // saveService
    | DeletePackage(id: string, confirm: bool)                      // deleteService
    | CloseForm                                                     // the booking form's close button

  /** The booking form can only be submitted while it is open. */
  predicate Enabled(st: Store, a: Action) {
    a.SendBooking? ==> st.booking.Some?
  }

  /**
   * `handleBooking`: without a signed-in user it performs the mock login and
   * does not open the form (the client has to click again); otherwise it
   * opens the form for `svc`.
   */
  function HandleBooking(st: Store, svc: StudioService): (r: Store)
    ensures st.user.None? ==> r.user == Some(GuestClient) && r.booking == st.booking
    ensures st.user.Some? ==> r.user == st.user && r.booking == Some(svc)
    ensures r.orders == st.orders && r.services == st.services
  {
    if st.user.None? then st.(user := Some(GuestClient)) else st.(booking := Some(svc))
  }

  /**
   * The booking form's submit followed by `submitBooking`: a refused form or
   * a missing user changes nothing; otherwise the booking is stored in front
   * and the form closes.
   */
  function SendBookingForm(st: Store, form: BookingModal.BookingForm, newId: string, now: string): (r: Store)
    requires st.booking.Some?
    ensures r.user == st.user && r.services == st.services
    ensures st.user.None? || BookingModal.Submit(st.booking.value, form).None? ==> r == st
    ensures st.user.Some? && BookingModal.Submit(st.booking.value, form).Some? ==>
      && r.booking.None?
      && |r.orders| == |st.orders| + 1 && r.orders[1..] == st.orders
  {
    match BookingModal.Submit(st.booking.value, form)
    case None => st
    case Some(data) =>
      if st.user.None? then st
      else st.(orders := OrderStore.SubmitBooking(st.orders, st.user, newId, now, data), booking := None)
  }

  /** One handler run against the store. */
  function Step(st: Store, a: Action): (r: Store)
    requires Enabled(st, a)
    ensures a.Book? || a.SavePackage? || a.DeletePackage? || a.CloseForm? ==> r.orders == st.orders
    ensures a.CloseForm? ==> r == st.(booking := None)
    ensures a.SendBooking? || a.SetOrderStatus? || a.DeliverPhotos? ==> r.services == st.services
    ensures !(a.Book? && st.user.None?) ==> r.user == st.user
    ensures a.SetOrderStatus? && !IsAdmin(st.user) ==> r == st
    ensures a.DeletePackage? && !a.confirm ==> r == st
  {
    match a
    case Book(svc) => HandleBooking(st, svc)
    case SendBooking(form, newId, now) => SendBookingForm(st, form, newId, now)
    case SetOrderStatus(id, status, confirm) =>
      st.(orders := OrderStore.UpdateOrderStatus(st.orders, st.user, id, status, confirm))
    case DeliverPhotos(id, link, pass) => st.(orders := OrderStore.DeliverJob(st.orders, id, link, pass))
    case SavePackage(svc) => st.(services := Catalog.SaveService(st.services, svc))
    case DeletePackage(id, confirm) => st.(services := Catalog.DeleteService(st.services, id, confirm))
    case CloseForm => st.(booking := None)
  }

  /** A run of user actions; an action the interface could not offer at that point is skipped. */
  function Run(st: Store, acts: seq<Action>): Store
    decreases |acts|
  {
    if |acts| == 0 then st
    else Run(if Enabled(st, acts[0]) then Step(st, acts[0]) else st, acts[1..])
  }

  /** A booking as it was made: everything but its status and delivery fields. */
  function AsBooked(o: Order): Order {
    o.(status := Pending, deliveryLink := None, deliveryPass := None)
  }

  /**
   * Every booking of `before` is still in `after`, at the same distance from
   * the end, with everything fixed at booking time unchanged (in particular
   * its total, package name and options).
   */
  ghost predicate BookingsKept(before: seq<Order>, after: seq<Order>) {
    && |before| <= |after|
    && forall i :: 0 <= i < |before| ==> AsBooked(after[|after| - |before| + i]) == AsBooked(before[i])
  }

  /** No handler alters a stored booking's snapshot: new bookings only go in front. */
  lemma StepKeepsBookings(st: Store, a: Action)
    requires Enabled(st, a)
    ensures BookingsKept(st.orders, Step(st, a).orders)
  {
    var r := Step(st, a);
    match a
    case SetOrderStatus(id, status, confirm) => {
      forall i | 0 <= i < |st.orders| ensures AsBooked(r.orders[i]) == AsBooked(st.orders[i]) {
        assert r.orders[i].(status := st.orders[i].status) == st.orders[i];
      }
    }
    case DeliverPhotos(id, link, pass) => {
      forall i | 0 <= i < |st.orders| ensures AsBooked(r.orders[i]) == AsBooked(st.orders[i]) {
        assert r.orders[i].(status := st.orders[i].status, deliveryLink := st.orders[i].deliveryLink,
                            deliveryPass := st.orders[i].deliveryPass) == st.orders[i];
      }
    }
    case SendBooking(form, newId, now) => {
      if |r.orders| != |st.orders| {
        forall i | 0 <= i < |st.orders| ensures r.orders[|r.orders| - |st.orders| + i] == st.orders[i] {
          assert r.orders[1..][i] == st.orders[i];
        }
      }
    }
    case _ => {}
  }

  lemma BookingsKeptTransitive(a: seq<Order>, b: seq<Order>, c: seq<Order>)
    requires BookingsKept(a, b) && BookingsKept(b, c)
    ensures BookingsKept(a, c)
  {
    forall i | 0 <= i < |a| ensures AsBooked(c[|c| - |a| + i]) == AsBooked(a[i]) {
      assert AsBooked(c[|c| - |b| + (|b| - |a| + i)]) == AsBooked(b[|b| - |a| + i]);
    }
  }

  /** Whatever happens later, a booking's total, package and options stay as booked. */
  lemma {:induction false} RunKeepsBookings(st: Store, acts: seq<Action>)
    ensures BookingsKept(st.orders, Run(st, acts).orders)
    decreases |acts|
  {
    if |acts| > 0 {
      var next := if Enabled(st, acts[0]) then Step(st, acts[0]) else st;
      if Enabled(st, acts[0]) {
        StepKeepsBookings(st, acts[0]);
      }
      RunKeepsBookings(next, acts[1..]);
      BookingsKeptTransitive(st.orders, next.orders, Run(next, acts[1..]).orders);
    }
  }

  /**
   * End to end: a signed-in client ticks options on a package card, books
   * the card's variant and fills in the form. The new booking heads the
   * list, is pending, belongs to the client, and its total is the package's
   * base price plus the selected options.
   */
  lemma BookingTotalIsBasePlusOptions(st: Store, svc: StudioService, clicks: seq<ServiceOption>,
                                      form: BookingModal.BookingForm, newId: string, now: string)
    requires st.user.Some?
    requires form.phone != "" && form.date != "" && form.location != ""
    ensures
      var sel := ServiceGrid.ToggleAll([], clicks);
      var formOpen := Step(st, Book(ServiceGrid.BookedVariant(svc, sel)));
      && Enabled(formOpen, SendBooking(form, newId, now))
      && var booked := Step(formOpen, SendBooking(form, newId, now));
      && |booked.orders| == |st.orders| + 1
      && booked.orders[1..] == st.orders
      && booked.orders[0].total == svc.price + ServiceGrid.SumPrices(sel)
      && booked.orders[0].opts == sel
      && booked.orders[0].svcName == svc.name
      && booked.orders[0].status == Pending
      && booked.orders[0].uid == st.user.value.uid
      && booked.orders[0].email == st.user.value.email
      && booked.orders[0].id == newId
      && booked.orders[0].createdAt == now
      && booked.orders[0].deliveryLink.None?
  {}

  /** ... and no later action, catalog edits included, changes what was booked. */
  lemma LaterActionsKeepTotal(st: Store, acts: seq<Action>, i: int)
    requires 0 <= i < |st.orders|
    ensures var after := Run(st, acts).orders;
      && |after| - |st.orders| + i >= 0
      && after[|after| - |st.orders| + i].total == st.orders[i].total
      && after[|after| - |st.orders| + i].opts == st.orders[i].opts
      && after[|after| - |st.orders| + i].svcName == st.orders[i].svcName
  {
    RunKeepsBookings(st, acts);
    KeptFields(st.orders, Run(st, acts).orders, i);
  }

  /** A kept booking agrees with its original on what was booked. */
  lemma KeptFields(before: seq<Order>, after: seq<Order>, i: int)
    requires BookingsKept(before, after) && 0 <= i < |before|
    ensures |after| - |before| + i >= 0
    ensures after[|after| - |before| + i].total == before[i].total
    ensures after[|after| - |before| + i].opts == before[i].opts
    ensures after[|after| - |before| + i].svcName == before[i].svcName
  {
    assert AsBooked(after[|after| - |before| + i]) == AsBooked(before[i]);
  }

  /** A new booking shows up first in its owner's "my orders" tab and adds one to the pending count. */
  lemma NewBookingInMyOrders(st: Store, form: BookingModal.BookingForm, newId: string, now: string)
    requires st.booking.Some? && st.user.Some?
    requires form.phone != "" && form.date != "" && form.location != ""
    ensures var r := SendBookingForm(st, form, newId, now);
      && Dashboard.MyOrders(r.orders, st.user.value) == [r.orders[0]] + Dashboard.MyOrders(st.orders, st.user.value)
      && Dashboard.CountStatus(r.orders, Pending) == Dashboard.CountStatus(st.orders, Pending) + 1
  {
    var r := SendBookingForm(st, form, newId, now);
    assert r.orders == [r.orders[0]] + st.orders;
  }

  /**
   * After delivery, the admin table no longer offers delivery for the job;
   * outside the admin table the pickup link shows exactly when the link is
   * non-empty; and the job is on the schedule of its date.
   */
  lemma DeliveryShowsPickup(orders: seq<Order>, orderId: string, link: string, pass: string, i: int)
    requires 0 <= i < |orders| && orders[i].id == orderId
    ensures var r := OrderStore.DeliverJob(orders, orderId, link, pass);
      && !Dashboard.OffersDelivery(true, r[i])
      && (Dashboard.OffersPickup(false, r[i]) <==> link != "")
      && r[i] in Dashboard.ScheduleOrders(r, r[i].date)
  {
    var r := OrderStore.DeliverJob(orders, orderId, link, pass);
    assert r[i] in r;
  }

  /**
   * Editing a listed package through the form and saving it replaces it
   * where it stands; creating one under an unused fresh id appends it.
   */
  lemma FormSaveUpserts(services: seq<StudioService>, k: int, f: ServiceFormModal.ServiceForm, freshId: string)
    requires 0 <= k < |services| && services[k].id != ""
    requires !Catalog.Listed(services, freshId)
    ensures var edited := ServiceFormModal.SubmitForm(Some(services[k]), f, freshId);
      var r := Catalog.SaveService(services, edited);
      |r| == |services| && r[k] == edited
    ensures var created := ServiceFormModal.SubmitForm(None, f, freshId);
      Catalog.SaveService(services, created) == services + [created]
  {
    var edited := ServiceFormModal.SubmitForm(Some(services[k]), f, freshId);
    assert Catalog.Listed(services, edited.id);
  }
}
