/**
 * The management area: the admin's searchable list of all bookings, the
 * day's schedule of confirmed shoots, the status counters, the client's own
 * bookings, and which action each row of the booking table offers.
 *
 * Lower-casing is Unicode-aware in the source; here it is the parameter
 * `lower`, about which nothing is assumed.
 */
module Dashboard {
  import opened Types
  import opened Lists

  /**
   * The search box: an empty term matches every booking; otherwise the
   * lower-cased term must occur in the lower-cased email or location, or the
   * term itself in the phone number.
   */
  predicate MatchesSearch(o: Order, term: string, lower: string -> string) {
    || term == ""
    || Includes(lower(o.email), lower(term))
    || Includes(o.phone, term)
    || Includes(lower(o.location), lower(term))
  }

  /** The status selector: empty means every status, otherwise the status's label must equal it. */
  predicate MatchesStatus(o: Order, statusFilter: string) {
    statusFilter == "" || Label(o.status) == statusFilter
  }

  function Shown(term: string, statusFilter: string, lower: string -> string): Order -> bool {
    (o: Order) => MatchesSearch(o, term, lower) && MatchesStatus(o, statusFilter)
  }

  /** `filteredOrders`: the bookings matching both the search and the status selector, in order. */
  function FilteredOrders(orders: seq<Order>, term: string, statusFilter: string, lower: string -> string)
    : (r: seq<Order>)
    ensures IsSubseq(r, orders)
    ensures forall o :: o in r <==> o in orders && MatchesSearch(o, term, lower) && MatchesStatus(o, statusFilter)
    ensures forall o :: multiset(r)[o]
                     == if MatchesSearch(o, term, lower) && MatchesStatus(o, statusFilter) then multiset(orders)[o] else 0
    ensures term == "" && statusFilter == "" ==> r == orders
  {
    var p := Shown(term, statusFilter, lower);
    FilterIsSubseq(orders, p);
    forall o ensures multiset(Filter(orders, p))[o] == if p(o) then multiset(orders)[o] else 0 {
      FilterCounts(orders, p, o);
    }
    if term == "" && statusFilter == "" then
      FilterKeepsAll(orders, p);
      Filter(orders, p)
    else
      Filter(orders, p)
  }

  /** Choosing a status in the selector shows only bookings in that status. */
  lemma FilteredByStatus(orders: seq<Order>, term: string, s: OrderStatus, lower: string -> string)
    ensures forall o :: o in FilteredOrders(orders, term, Label(s), lower) ==> o.status == s
  {
    forall o | o in FilteredOrders(orders, term, Label(s), lower) ensures o.status == s {
      LabelInjective(o.status, s);
    }
  }

  function OnScheduleFor(date: string): Order -> bool {
    (o: Order) => o.date == date && IsConfirmed(o.status)
  }

  /** `scheduleOrders`: the deposited or completed bookings on `date`, in order. */
  function ScheduleOrders(orders: seq<Order>, date: string): (r: seq<Order>)
    ensures IsSubseq(r, orders)
    ensures forall o :: o in r <==> o in orders && o.date == date && IsConfirmed(o.status)
    ensures forall o :: multiset(r)[o] == if o.date == date && IsConfirmed(o.status) then multiset(orders)[o] else 0
  {
    var p := OnScheduleFor(date);
    FilterIsSubseq(orders, p);
    forall o ensures multiset(Filter(orders, p))[o] == if p(o) then multiset(orders)[o] else 0 {
      FilterCounts(orders, p, o);
    }
    Filter(orders, p)
  }

  function OwnedBy(uid: string): Order -> bool {
    (o: Order) => o.uid == uid
  }

  /** The "my orders" tab: the signed-in user's bookings, in order. */
  function MyOrders(orders: seq<Order>, user: User): (r: seq<Order>)
    ensures IsSubseq(r, orders)
    ensures forall o :: o in r <==> o in orders && o.uid == user.uid
    ensures forall o :: multiset(r)[o] == if o.uid == user.uid then multiset(orders)[o] else 0
  {
    var p := OwnedBy(user.uid);
    FilterIsSubseq(orders, p);
    forall o ensures multiset(Filter(orders, p))[o] == if p(o) then multiset(orders)[o] else 0 {
      FilterCounts(orders, p, o);
    }
    Filter(orders, p)
  }

  function InStatus(s: OrderStatus): Order -> bool {
    (o: Order) => o.status == s
  }

  /** How many bookings are in status `s`. */
  function CountStatus(orders: seq<Order>, s: OrderStatus): nat {
    |Filter(orders, InStatus(s))|
  }

  /** The status column of the booking list, one entry per booking. */
  function Statuses(orders: seq<Order>): seq<OrderStatus> {
    seq(|orders|, i requires 0 <= i < |orders| => orders[i].status)
  }

  /** A counter is the number of times its status occurs in the status column. */
  lemma {:induction false} CountStatusOccurrences(orders: seq<Order>, s: OrderStatus)
    ensures CountStatus(orders, s) == multiset(Statuses(orders))[s]
  {
    if |orders| > 0 {
      CountStatusOccurrences(orders[1..], s);
      assert Statuses(orders) == [orders[0].status] + Statuses(orders[1..]);
    }
  }

  /** The admin's counters. `cancelled` is computed by the source for the completion rate. */
  datatype Stats = Stats(total: nat, pending: nat, deposited: nat, completed: nat, cancelled: nat)

  /** `stats`: each counter counts the bookings in its status, and together they split the total. */
  function ComputeStats(orders: seq<Order>): (st: Stats)
    ensures st.total == |orders|
    ensures st.pending == multiset(Statuses(orders))[Pending]
    ensures st.deposited == multiset(Statuses(orders))[Deposited]
    ensures st.completed == multiset(Statuses(orders))[Completed]
    ensures st.cancelled == multiset(Statuses(orders))[Cancelled]
    ensures st.pending + st.deposited + st.completed + st.cancelled == st.total
    ensures st.completed <= st.total - st.cancelled
  {
    StatusCountsPartition(orders);
    CountStatusOccurrences(orders, Pending);
    CountStatusOccurrences(orders, Deposited);
    CountStatusOccurrences(orders, Completed);
    CountStatusOccurrences(orders, Cancelled);
    Stats(
      |orders|,
      CountStatus(orders, Pending),
      CountStatus(orders, Deposited),
      CountStatus(orders, Completed),
      CountStatus(orders, Cancelled))
  }

  /**
   * The completion rate as a fraction (completed, total - cancelled); the
   * source shows "0" instead when the denominator is zero. The percentage
   * formatting is not modelled.
   */
  function CompletionRatio(orders: seq<Order>): (r: Option<(nat, nat)>)
    ensures r.None? <==> ComputeStats(orders).total == ComputeStats(orders).cancelled
    ensures r.Some? ==> r.value.1 > 0 && r.value.0 <= r.value.1
    ensures r.Some? ==> r.value == (multiset(Statuses(orders))[Completed],
                                    |orders| - multiset(Statuses(orders))[Cancelled])
  {
    var st := ComputeStats(orders);
    if st.total - st.cancelled > 0 then Some((st.completed, st.total - st.cancelled)) else None
  }

  lemma {:induction false} StatusCountsPartition(orders: seq<Order>)
    ensures CountStatus(orders, Pending) + CountStatus(orders, Deposited)
          + CountStatus(orders, Completed) + CountStatus(orders, Cancelled) == |orders|
  {
    if |orders| > 0 {
      StatusCountsPartition(orders[1..]);
    }
  }

  /**
   * The deliver button. `isAdmin` is the booking table's own flag, set for the
   * admin table and unset for "my orders"; it is not the signed-in user's role.
   * The button shows only in the admin table and only for bookings not yet
   * completed.
   */
  predicate OffersDelivery(isAdmin: bool, o: Order) {
    isAdmin && o.status != Completed
  }

  /**
   * The pickup link: only outside the admin table, only for
   * completed bookings, and only when a non-empty link was stored.
   */
  predicate OffersPickup(isAdmin: bool, o: Order) {
    !isAdmin && o.status == Completed && o.deliveryLink.Some? && o.deliveryLink.value != ""
  }

  /**
   * No row offers both actions; delivery needs the admin table and a booking
   * that is not completed; pickup needs a table other than the admin one and a
   * completed booking with a non-empty link.
   */
  lemma ActionsExclusive(isAdmin: bool, o: Order)
    ensures !(OffersDelivery(isAdmin, o) && OffersPickup(isAdmin, o))
    ensures OffersDelivery(isAdmin, o) ==> isAdmin && o.status != Completed
    ensures OffersPickup(isAdmin, o) ==>
      && !isAdmin && o.status == Completed
      && o.deliveryLink.Some? && o.deliveryLink.value != ""
  {}
}
