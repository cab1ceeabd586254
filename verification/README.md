# Photography studio storefront: state transitions in Dafny

This project models the logic of a small React storefront for a photography
studio. Clients tick add-on options on a package card, book the package
through a form, and follow their bookings. Admins move bookings through
their statuses, deliver the photos and edit the package catalog.

Everything the application does to its state is a synchronous update of two
in-memory lists, the orders and the service catalog. The model writes each
update as a pure Dafny function from list to list. The controller is a
record `App.Store` with one transition function `App.Step`, and each
`App.Action` constructor stands for one handler of `App.tsx`. Whatever the
browser or the clock supplies is an explicit parameter:

- the answer to `window.confirm` is a `confirm: bool`;
- ids and timestamps made from `Date.now()` / `toISOString()` are `newId`, `now` and `freshId`;
- today's date for the booking form is `today`;
- the signed-in user is an `Option<User>`;
- `toLowerCase` is the parameter `lower: string -> string`, about which nothing is assumed.

Modules follow the source files:

| module | file | source |
|---|---|---|
| `Types` | types.dfy | types.ts; `Partial<Order>` becomes `OrderPatch`, with one `Option` per field |
| `Lists` | lists.dfy | `Array.filter`, `Array.find`, `String.includes` |
| `ServiceGrid` | service_grid.dfy | components/ServiceGrid.tsx |
| `BookingModal` | booking_modal.dfy | components/BookingModal.tsx |
| `OrderStore` | order_store.dfy | App.tsx: `submitBooking`, `updateOrderStatus`, `deliverJob` |
| `Catalog` | catalog.dfy | App.tsx: `saveService`, `deleteService` |
| `App` | app.dfy | App.tsx: the state, `handleBooking`, the handlers as one transition |
| `Dashboard` | dashboard.dfy | components/Dashboard.tsx |
| `ServiceFormModal` | service_form.dfy | components/ServiceFormModal.tsx |
| `Seed` | seed.dfy | constants.tsx |

Three behaviours of the code are easy to misread:

- `deliverJob` (App.tsx:114-122) has no role check, and `OrderStore.DeliverJob` has no guard either. The deliver button shows only in the admin booking table (components/Dashboard.tsx:286). That table is chosen by a tab whose initial value is fixed when the dashboard mounts (components/Dashboard.tsx:18), not by the current role. `Dashboard.ActionsExclusive` states the button's condition in terms of the table, not of the user.
- The conflict check (App.tsx:93-101) takes the slot from the first order with the given id. When ids repeat, only that first order's date, time and location count. `OrderStore.NeedsConfirmationIff` states this.
- `saveService` (App.tsx:129-134) is an upsert by id. The package form keeps an edited package's id only when it is non-empty (components/ServiceFormModal.tsx:50-56). `Catalog.SaveService` and `ServiceFormModal.SubmitForm` model both.

## Model

| member | source | states |
|---|---|---|
| `Types.LabelInjective` | types.ts:2-7 | the four statuses carry four distinct labels, so a label filter is a status filter |
| `Lists.Filter` | components/Dashboard.tsx:25-32 | `filter` keeps exactly the elements satisfying the predicate and never grows the list |
| `Lists.Find` | App.tsx:93-101 | `find` returns nothing iff no element satisfies the predicate; otherwise it returns the first element that does |
| `Lists.IncludesAt` | components/Dashboard.tsx:27-29 | `includes` holds iff the needle starts at some index of the haystack |
| `ServiceGrid.Toggle` | components/ServiceGrid.tsx:30-36 | if an option of that name is selected, every selected option with that name is removed, and every other option keeps its order and its number of copies; otherwise the option is appended |
| `ServiceGrid.ToggleTwice` | components/ServiceGrid.tsx:30-36 | ticking an option whose name is not selected and then unticking it restores the selection |
| `ServiceGrid.ToggleKeepsNamesUnique` | components/ServiceGrid.tsx:30-36 | a toggle never creates two selected options with the same name |
| `ServiceGrid.ToggleAllFromEmptyUnique` | components/ServiceGrid.tsx:28-36 | from the empty selection, no run of clicks yields two selected options with the same name |
| `ServiceGrid.TotalPrice` | components/ServiceGrid.tsx:38 | the left-to-right `reduce` gives the base price plus the sum of the selected prices, and the base price alone when nothing is selected |
| `ServiceGrid.ToggleOnAddsPrice` | components/ServiceGrid.tsx:30-38 | ticking an unselected option raises the sum by that option's price |
| `ServiceGrid.ToggleOffSubtractsPrice` | components/ServiceGrid.tsx:30-38 | unticking lowers the sum by the price of the selected option with that name, which may differ from the clicked option's price |
| `ServiceGrid.BookedVariant` | components/ServiceGrid.tsx:74 | the booked variant keeps the package's id, name and description; its options are the selection and its price is base plus options |
| `BookingModal.InitialForm` | components/BookingModal.tsx:12-17 | the form opens with today's date, 09:00, and an empty location and phone |
| `BookingModal.Submit` | components/BookingModal.tsx:19-31 | `handleSubmit` refuses the form iff phone, date or location is empty (it does not check the time); otherwise the payload is the four fields plus the package's name, price and options, and has no id, uid, email, status, timestamp or delivery fields |
| `BookingModal.InitialFormRefused` | components/BookingModal.tsx:12-24 | the form as it opens cannot be sent |
| `OrderStore.SubmitBooking` | App.tsx:73-84 | with no user, nothing changes; with a user, the new order comes first, followed by the old list; each default (id, uid, email, PENDING, timestamp) holds unless the payload overrides it |
| `OrderStore.SetStatus` | App.tsx:110 | a committed update keeps the length and order, gives every order with that id the new status, and changes no other field and no other order |
| `OrderStore.UpdateOrderStatus` | App.tsx:89-112 | without an admin the list is unchanged; only the status of orders with that id can change; without a needed confirmation it always commits |
| `OrderStore.NeedsConfirmationIff` | App.tsx:92-101 | confirmation is asked iff the target is DEPOSITED or COMPLETED, and some other order with a different id, DEPOSITED or COMPLETED, has the date, time and location of the first order with that id |
| `OrderStore.DeclinedConflictKeepsOrders` | App.tsx:92-106 | double booked and declined: the orders are unchanged |
| `OrderStore.AcceptedConflictCommits` | App.tsx:92-110 | double booked and accepted: the update commits and the conflicting order is left untouched |
| `OrderStore.UnconflictedUpdateCommits` | App.tsx:92-110 | for an admin, a PENDING or CANCELLED target, or any target with no double booking, commits whatever the dialog would answer |
| `OrderStore.SetStatusIdempotent` | App.tsx:110 | setting the same status twice equals setting it once |
| `OrderStore.DeliverJob` | App.tsx:114-120 | whatever their prior status, the orders with that id become COMPLETED and store the link and passcode; no other field or order changes |
| `OrderStore.DeliverJobIdempotent` | App.tsx:114-120 | delivering the same job twice equals delivering it once |
| `Catalog.SaveService` | App.tsx:129-134 | a listed id is replaced in place with length and positions kept; a new id is appended at the end; the saved package is always in the catalog |
| `Catalog.SaveServiceIdempotent` | App.tsx:129-134 | saving the same package twice equals saving it once |
| `Catalog.SaveServiceThenFind` | App.tsx:129-134 | after a save, the first package with that id is the saved one |
| `Catalog.DeleteService` | App.tsx:139-144 | when confirmed, every entry with that id is removed, and every other entry keeps its relative order and its number of copies; when declined, nothing changes |
| `Catalog.DeleteAfterSave` | App.tsx:129-144 | deleting the id just saved gives the same catalog as deleting it before the save |
| `ServiceFormModal.LoadForm` | components/ServiceFormModal.tsx:12-28 | editing loads name, price, description and options from the package; a new package starts blank |
| `ServiceFormModal.AddOption` | components/ServiceFormModal.tsx:30-35 | one blank row (empty name, price 0) is appended; prior rows and the other fields are unchanged |
| `ServiceFormModal.ChangeOption` | components/ServiceFormModal.tsx:37-41 | only the chosen field of row i changes; length and all other rows are kept; any name or price is accepted |
| `ServiceFormModal.DropIndex` | components/ServiceFormModal.tsx:43-48 | the index filter removes exactly row i when it is in range, and nothing otherwise |
| `ServiceFormModal.RemoveOption` | components/ServiceFormModal.tsx:43-48 | for an in-range i, the length drops by one; the rows before i stay, and the rows after i move up by one |
| `ServiceFormModal.SubmitForm` | components/ServiceFormModal.tsx:50-56 | an edited package keeps its non-empty id; otherwise the fresh id is used; every other field comes from the form |
| `ServiceFormModal.LoadSubmitRoundTrip` | components/ServiceFormModal.tsx:19-56 | opening a package with a non-empty id and submitting it untouched gives back the same package |
| `ServiceFormModal.AddThenRemove` | components/ServiceFormModal.tsx:30-48 | adding a row and then removing it restores the form |
| `ServiceFormModal.ChangeThenRestore` | components/ServiceFormModal.tsx:37-41 | editing a row and then writing back its old value restores the form |
| `Dashboard.FilteredOrders` | components/Dashboard.tsx:24-33 | the result is an order-preserving subsequence; a booking is in it iff it matches both the search and the status selector, and then it appears as often as in the list; with both empty it is the whole list |
| `Dashboard.FilteredByStatus` | components/Dashboard.tsx:30 | with a status chosen, every booking shown has that status |
| `Dashboard.ScheduleOrders` | components/Dashboard.tsx:35-37 | exactly the DEPOSITED or COMPLETED bookings on that date, each as often as in the list, in the original order |
| `Dashboard.MyOrders` | components/Dashboard.tsx:68 | exactly the bookings whose uid is the user's, in the original order |
| `Dashboard.StatusCountsPartition` | components/Dashboard.tsx:40-44 | the four status counts sum to the number of bookings |
| `Dashboard.CountStatusOccurrences` | components/Dashboard.tsx:41-44 | the filter-length counter of a status equals the number of times that status occurs in the list's status column |
| `Dashboard.ComputeStats` | components/Dashboard.tsx:39-47 | the total is the list length; each counter is the number of bookings in its own status; together they sum to the total; completed is at most total minus cancelled |
| `Dashboard.CompletionRatio` | components/Dashboard.tsx:45 | there is no fraction (the source shows "0") iff every booking is cancelled; otherwise the fraction is the completed count over the count of bookings not cancelled, between 0 and 1 |
| `Dashboard.ActionsExclusive` | components/Dashboard.tsx:286-302 | delivery is offered only in the admin table, and only for bookings that are not COMPLETED; pickup is offered only outside the admin table, for a COMPLETED booking with a non-empty link; no row offers both |
| `App.HandleBooking` | App.tsx:63-71 | with nobody signed in, it logs in as the demo client and does not open the form; otherwise it opens the form for the package; orders and catalog are untouched |
| `App.SendBookingForm` | App.tsx:73-85 | a refused form or a missing user changes nothing; otherwise one booking is added in front and the form closes |
| `App.Step` | App.tsx:63-196 | catalog actions never touch the orders and order actions never touch the catalog; a non-admin's status change and a declined delete change nothing; closing the booking form only closes it |
| `App.StepKeepsBookings` | App.tsx:73-144 | no handler alters a stored booking's snapshot (everything but status and delivery fields); new bookings only go in front |
| `App.RunKeepsBookings` | App.tsx:73-144 | across any run of actions, every earlier booking keeps its snapshot and its distance from the end of the list |
| `App.BookingTotalIsBasePlusOptions` | components/ServiceGrid.tsx:38-74 | a client's booking of a card after any clicks is PENDING, owned by the client, first in the list, and totals base price plus the selected options |
| `App.LaterActionsKeepTotal` | App.tsx:110-144 | no later action, catalog edits included, changes a booking's total, options or package name |
| `App.NewBookingInMyOrders` | components/Dashboard.tsx:41-68 | a new booking appears first in its owner's tab and raises the pending count by one |
| `App.DeliveryShowsPickup` | components/Dashboard.tsx:286-294 | after delivery, the admin table no longer offers delivery; outside the admin table, pickup shows iff the link is non-empty; the job is on its date's schedule |
| `App.FormSaveUpserts` | components/ServiceFormModal.tsx:50-56 | saving an edited listed package replaces it in place; saving a new one under an unused fresh id appends it |
| `Seed.StandardPortraitExample` | constants.tsx:6-62 | booking "Standard Portrait" with the make-up option gives a PENDING booking of 1,500,000 + 300,000 = 1,800,000, the seed booking's total |
| `Seed.DeleteSecondPackageExample` | constants.tsx:6-45 | confirmed deletion of "svc-2" leaves svc-1, svc-3 and svc-4 in order |
| `Seed.SeedStatsExample` | constants.tsx:47-62 | the seed has one booking, deposited, and it is on the 2024-12-25 schedule |
| `Seed.DoubleBookingExample` | App.tsx:92-110 | a second booking in the seed booking's slot: declining keeps the list, accepting leaves both deposited, and a client changes nothing |

## Left out

- Rendering, CSS and layout, and the header, hero and marquee components: presentation only.
- The browser's constraint validation. The booking form marks date, time, location and phone `required`, and the date input has `min={today}` (components/BookingModal.tsx:59-95). The package form marks name and price `required` (components/ServiceFormModal.tsx:71-83). The browser therefore never submits an empty time, a past date or an empty package name. `BookingModal.Submit` and `ServiceFormModal.SubmitForm` model only the handlers, which accept all three.
- Toast messages and their `setTimeout`: timer side effects with no effect on the lists.
- `window.confirm` and `alert` dialogs: replaced by the `confirm` parameter and by the `None` result of `BookingModal.Submit`.
- Id and timestamp generation: taken as parameters. Generated ids are not assumed to be unique, so every handler acts on all orders with a matching id.
- The demo login and logout actions, and view and tab routing. The only login modelled is the one `handleBooking` performs, which yields `App.GuestClient`. The tab is fixed when the dashboard mounts (components/Dashboard.tsx:18), and the footer's "Demo Client" button (App.tsx:189) changes the user without remounting it. A client can therefore be left in the admin booking table with its deliver button, and `deliverJob` would then act for them. The model does not track which table is on screen: `Dashboard.OffersDelivery` takes the table's flag as a parameter.
- Opening and closing the package form (`openServiceEdit`, `isServiceModalOpen`): this is modal visibility, and the form's contents are modelled in `ServiceFormModal`.
- Currency formatting with `Intl.NumberFormat`, and `Number(...)` parsing of price inputs: prices are whole VND amounts as unbounded `int`, so NaN, fractions and the loss of precision of JavaScript numbers above 2^53 are not modelled.
- The completion rate as a percentage string (floating-point division and `toFixed`): only the fraction and its zero-denominator guard are modelled.
- React's stale closures between the conflict check and the update: the model applies both to the same list.
- Dashboard.FilteredOrders: Unicode lower-casing is a parameter about which nothing is assumed, so the contract says nothing about case-insensitive matches beyond what `lower` gives.
- ServiceFormModal.ChangeOption: requires an in-range row index. The form only passes indices of rendered rows, and an out-of-range write in JavaScript leaves holes in the array that a sequence cannot hold.
- ServiceFormModal.LoadForm: the `service.options || []` fallback guards only against a package whose options field is missing. That cannot happen with the typed record modelled here.
- OrderStore.SubmitBooking: when a user is present, it requires that the payload carries every field that has no default. The source casts the merged object to `Order` and relies on the same thing. Fields set explicitly to `undefined` in a payload are not modelled.
