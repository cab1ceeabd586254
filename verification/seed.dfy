/**
 * The demo data the storefront starts from (constants.tsx), and concrete
 * runs of the handlers on it.
 */
module Seed {
  import opened Types
  import Lists
  import ServiceGrid
  import BookingModal
  import OrderStore
  import Catalog
  import Dashboard
  import App

  const Makeup: ServiceOption := ServiceOption("Make up chuyên nghiệp", 300000)

  const InitialServices: seq<StudioService> := [
    StudioService("svc-1", "Standard Portrait", 1500000,
      "Gói chân dung cơ bản dành cho cá nhân, sinh viên. Chụp tại Studio.",
      [Makeup, ServiceOption("In ảnh album (10 trang)", 500000)]),
    StudioService("svc-2", "Concept Fine-art", 3500000,
      "Gói nghệ thuật cao cấp với Concept thiết kế riêng. Stylist hỗ trợ toàn bộ.",
      [ServiceOption("Thuê trang phục thiết kế", 1000000), ServiceOption("Chụp thêm 1 Concept", 1500000)]),
    StudioService("svc-3", "Wedding Pre-shoot", 8000000,
      "Gói chụp ngoại cảnh dành cho các cặp đôi. Đã bao gồm xe di chuyển.",
      [ServiceOption("Quay phim Behind the Scenes", 2000000)]),
    StudioService("svc-4", "Commercial Lookbook", 5000000,
      "Dành cho thương hiệu thời trang. Chụp 20-30 bộ trang phục.",
      [ServiceOption("Người mẫu chuyên nghiệp", 2500000)])
  ]

  const MockOrders: seq<Order> := [
    Order("ord-1", "user-123", "client@example.com", "0901234567", "2024-12-25", "09:00", "Studio Quận 1",
      "Standard Portrait", [Makeup], 1800000, Deposited, "2024-11-20T10:00:00Z", None, None)
  ]

  /**
   * Booking "Standard Portrait" with the make-up option: the new booking is
   * pending at 1,500,000 + 300,000 = 1,800,000, the total the seed booking
   * carries.
   */
  lemma StandardPortraitExample(form: BookingModal.BookingForm, newId: string, now: string)
    requires form.phone != "" && form.date != "" && form.location != ""
    ensures
      var st := App.Store(Some(App.GuestClient), InitialServices, MockOrders, None);
      var formOpen := App.Step(st, App.Book(ServiceGrid.BookedVariant(InitialServices[0], [Makeup])));
      && App.Enabled(formOpen, App.SendBooking(form, newId, now))
      && var booked := App.Step(formOpen, App.SendBooking(form, newId, now));
      && |booked.orders| == 2
      && booked.orders[0].total == 1800000 == MockOrders[0].total
      && booked.orders[0].status == Pending
      && booked.orders[1..] == MockOrders
  {
    var st := App.Store(Some(App.GuestClient), InitialServices, MockOrders, None);
    var sel := [Makeup];
    assert ServiceGrid.ToggleAll([], [Makeup]) == sel by {
      assert !ServiceGrid.HasName([], Makeup.name);
    }
    assert ServiceGrid.SumPrices(sel) == 300000;
    App.BookingTotalIsBasePlusOptions(st, InitialServices[0], [Makeup], form, newId, now);
  }

  /** Deleting "svc-2" removes exactly that package; the others stay in order. */
  lemma DeleteSecondPackageExample()
    ensures Catalog.DeleteService(InitialServices, "svc-2", true)
         == [InitialServices[0], InitialServices[2], InitialServices[3]]
  {
    var s := InitialServices;
    var p := Catalog.OtherId("svc-2");
    assert Lists.Filter(s[3..], p) == [s[3]] by {
      assert s[3..][1..] == [];
    }
    assert Lists.Filter(s[2..], p) == [s[2], s[3]] by {
      assert s[2..][1..] == s[3..];
    }
    assert Lists.Filter(s[1..], p) == [s[2], s[3]] by {
      assert s[1..][1..] == s[2..];
    }
    assert Lists.Filter(s, p) == [s[0], s[2], s[3]];
  }

  /** The seed's counters: one booking, deposited. */
  lemma SeedStatsExample()
    ensures Dashboard.ComputeStats(MockOrders) == Dashboard.Stats(1, 0, 1, 0, 0)
    ensures Dashboard.ScheduleOrders(MockOrders, "2024-12-25") == MockOrders
  {
    assert MockOrders[1..] == [];
  }

  /**
   * A second booking for the seed booking's slot. Confirming it asks first:
   * declining keeps everything, accepting leaves both bookings deposited.
   * A client cannot change it at all.
   */
  lemma DoubleBookingExample()
    ensures
      var newer := MockOrders[0].(id := "ord-2", status := Pending);
      var orders := [newer] + MockOrders;
      && OrderStore.UpdateOrderStatus(orders, Some(App.DemoAdmin), "ord-2", Deposited, false) == orders
      && OrderStore.UpdateOrderStatus(orders, Some(App.DemoAdmin), "ord-2", Deposited, true)
         == [newer.(status := Deposited)] + MockOrders
      && OrderStore.UpdateOrderStatus(orders, Some(App.GuestClient), "ord-2", Deposited, true) == orders
  {
    var newer := MockOrders[0].(id := "ord-2", status := Pending);
    var orders := [newer] + MockOrders;
    assert OrderStore.DoubleBooked(orders, "ord-2", 0, 1);
    OrderStore.DeclinedConflictKeepsOrders(orders, Some(App.DemoAdmin), "ord-2", Deposited, 0, 1);
    var r := OrderStore.UpdateOrderStatus(orders, Some(App.DemoAdmin), "ord-2", Deposited, true);
    assert r[0] == newer.(status := Deposited);
    assert r[1] == MockOrders[0];
  }
}
