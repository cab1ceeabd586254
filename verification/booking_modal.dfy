/**
 * The booking form. It collects date, time, location and phone, checks
 * that three of them are filled in, and hands the controller a partial
 * order copying the chosen package's name, price and options.
 */
module BookingModal {
  import opened Types

  datatype BookingForm = BookingForm(date: string, time: string, location: string, phone: string)

  /** The form as it opens: today's date (supplied by the caller), 09:00, nothing else. */
  function InitialForm(today: string): (f: BookingForm)
    ensures f.date == today && f.time == "09:00"
    ensures f.location == "" && f.phone == ""
  {
    BookingForm(today, "09:00", "", "")
  }

  /**
   * Submitting the form. `service` is the variant the package card booked,
   * so its `price` is already the total with options. An empty phone, date
   * or location is refused (the source shows an alert and sends nothing);
   * the time is not checked.
   */
  function Submit(service: StudioService, form: BookingForm): (r: Option<OrderPatch>)
    ensures r.None? <==> form.phone == "" || form.date == "" || form.location == ""
    ensures r.Some? ==>
      && r.value.date == Some(form.date) && r.value.time == Some(form.time)
      && r.value.location == Some(form.location) && r.value.phone == Some(form.phone)
    ensures r.Some? ==>
      && r.value.svcName == Some(service.name)
      && r.value.total == Some(service.price)
      && r.value.opts == Some(service.options)
    ensures r.Some? ==>
      && r.value.id.None? && r.value.uid.None? && r.value.email.None?
      && r.value.status.None? && r.value.createdAt.None?
      && r.value.deliveryLink.None? && r.value.deliveryPass.None?
  {
    if form.phone == "" || form.date == "" || form.location == "" then None
    else Some(OrderPatch(
      id := None, uid := None, email := None,
      phone := Some(form.phone), date := Some(form.date), time := Some(form.time),
      location := Some(form.location),
      svcName := Some(service.name), opts := Some(service.options), total := Some(service.price),
      status := None, createdAt := None, deliveryLink := None, deliveryPass := None))
  }

  /** The form as it opens can never be sent: location and phone start empty. */
  lemma InitialFormRefused(service: StudioService, today: string)
    ensures Submit(service, InitialForm(today)).None?
  {}
}
