/**
 * A package card of the storefront: the client ticks add-on options, the
 * card shows the running total, and the booking button hands on a copy of
 * the package whose options are the ticked ones and whose price is that total.
 */
module ServiceGrid {
  import opened Types
  import opened Lists

  /** Some selected option carries this name. */
  predicate HasName(sel: seq<ServiceOption>, name: string) {
    exists o :: o in sel && o.name == name
  }

  /** The filter that drops every option called `name`. */
  function NotNamed(name: string): ServiceOption -> bool {
    (o: ServiceOption) => o.name != name
  }

  /**
   * Ticking or unticking a checkbox. When an option of that name is already
   * selected, every selected option of that name is dropped; otherwise the
   * option is appended. Options are matched by name only, not by price.
   */
  function Toggle(sel: seq<ServiceOption>, opt: ServiceOption): (r: seq<ServiceOption>)
    ensures HasName(sel, opt.name) ==>
      && !HasName(r, opt.name)
      && IsSubseq(r, sel)
      && (forall o :: o in r <==> o in sel && o.name != opt.name)
      && forall o :: multiset(r)[o] == if o.name != opt.name then multiset(sel)[o] else 0
    ensures !HasName(sel, opt.name) ==> r == sel + [opt]
  {
    if HasName(sel, opt.name) then
      var p := NotNamed(opt.name);
      FilterIsSubseq(sel, p);
      forall o ensures multiset(Filter(sel, p))[o] == if p(o) then multiset(sel)[o] else 0 {
        FilterCounts(sel, p, o);
      }
      Filter(sel, p)
    else
      sel + [opt]
  }

  /** The selection after a run of checkbox clicks, first click first. */
  function ToggleAll(sel: seq<ServiceOption>, clicks: seq<ServiceOption>): seq<ServiceOption>
    decreases |clicks|
  {
    if |clicks| == 0 then sel else ToggleAll(Toggle(sel, clicks[0]), clicks[1..])
  }

  /** No two selected options share a name. */
  ghost predicate NamesUnique(sel: seq<ServiceOption>) {
    forall i, j :: 0 <= i < j < |sel| ==> sel[i].name != sel[j].name
  }

  /** Reference sum of the selected options' prices. */
  function SumPrices(sel: seq<ServiceOption>): int {
    if |sel| == 0 then 0 else sel[0].price + SumPrices(sel[1..])
  }

  /**
   * The card's price: the base price plus the selected options, accumulated
   * from the left as `reduce((sum, o) => sum + o.price, 0)` does.
   */
  method TotalPrice(service: StudioService, sel: seq<ServiceOption>) returns (total: int)
    ensures total == service.price + SumPrices(sel)
    ensures sel == [] ==> total == service.price
  {
    var sum := 0;
    var k := 0;
    while k < |sel|
      invariant 0 <= k <= |sel|
      invariant sum == SumPrices(sel[..k])
    {
      SumPricesAppend(sel[..k], [sel[k]]);
      assert sel[..k + 1] == sel[..k] + [sel[k]];
      sum := sum + sel[k].price;
      k := k + 1;
    }
    assert sel[..k] == sel;
    total := service.price + sum;
  }

  /**
   * What the booking button passes on: the package with its option list
   * replaced by the selection and its price replaced by the card's total.
   */
  function BookedVariant(service: StudioService, sel: seq<ServiceOption>): (v: StudioService)
    ensures v.id == service.id && v.name == service.name && v.desc == service.desc
    ensures v.options == sel
    ensures v.price == service.price + SumPrices(sel)
  {
    service.(options := sel, price := service.price + SumPrices(sel))
  }

  lemma {:induction false} SumPricesAppend(a: seq<ServiceOption>, b: seq<ServiceOption>)
    ensures SumPrices(a + b) == SumPrices(a) + SumPrices(b)
  {
    if |a| == 0 {
      assert a + b == b;
    } else {
      SumPricesAppend(a[1..], b);
      assert (a + b)[1..] == a[1..] + b;
    }
  }

  /** Dropping the only option called `sel[k].name` lowers the sum by exactly its price. */
  lemma {:induction false} SumPricesWithout(sel: seq<ServiceOption>, k: int)
    requires NamesUnique(sel)
    requires 0 <= k < |sel|
    ensures SumPrices(Filter(sel, NotNamed(sel[k].name))) == SumPrices(sel) - sel[k].price
  {
    var n := sel[k].name;
    if k == 0 {
      FilterKeepsAll(sel[1..], NotNamed(n));
    } else {
      SumPricesWithout(sel[1..], k - 1);
      assert sel[1..][k - 1] == sel[k];
    }
  }

  /** Filtering keeps names unique. */
  lemma {:induction false} FilterKeepsNamesUnique(sel: seq<ServiceOption>, p: ServiceOption -> bool)
    requires NamesUnique(sel)
    ensures NamesUnique(Filter(sel, p))
  {
    if |sel| > 0 {
      var rest := Filter(sel[1..], p);
      FilterKeepsNamesUnique(sel[1..], p);
      if p(sel[0]) {
        var r := Filter(sel, p);
        forall i, j | 0 <= i < j < |r| ensures r[i].name != r[j].name {
          if i == 0 {
            assert r[j] == rest[j - 1];
            assert r[j] in sel[1..];
            var m :| 0 <= m < |sel[1..]| && sel[1..][m] == r[j];
            assert sel[m + 1] == r[j];
          } else {
            assert r[i] == rest[i - 1] && r[j] == rest[j - 1];
          }
        }
      }
    }
  }

  /** Toggling never creates two selected options with the same name. */
  lemma ToggleKeepsNamesUnique(sel: seq<ServiceOption>, opt: ServiceOption)
    requires NamesUnique(sel)
    ensures NamesUnique(Toggle(sel, opt))
  {
    if HasName(sel, opt.name) {
      FilterKeepsNamesUnique(sel, NotNamed(opt.name));
    } else {
      var r := sel + [opt];
      forall i, j | 0 <= i < j < |r| ensures r[i].name != r[j].name {
        if j == |sel| {
          assert r[i] in sel;
        }
      }
    }
  }

  /** From the empty selection, any run of clicks leaves the names unique. */
  lemma {:induction false} ToggleAllFromEmptyUnique(clicks: seq<ServiceOption>)
    ensures NamesUnique(ToggleAll([], clicks))
  {
    ToggleAllKeepsNamesUnique([], clicks);
  }

  lemma {:induction false} ToggleAllKeepsNamesUnique(sel: seq<ServiceOption>, clicks: seq<ServiceOption>)
    requires NamesUnique(sel)
    ensures NamesUnique(ToggleAll(sel, clicks))
    decreases |clicks|
  {
    if |clicks| > 0 {
      ToggleKeepsNamesUnique(sel, clicks[0]);
      ToggleAllKeepsNamesUnique(Toggle(sel, clicks[0]), clicks[1..]);
    }
  }

  /** Ticking a new option and unticking it again restores the selection. */
  lemma ToggleTwice(sel: seq<ServiceOption>, opt: ServiceOption)
    requires !HasName(sel, opt.name)
    ensures Toggle(Toggle(sel, opt), opt) == sel
  {
    var once := sel + [opt];
    assert opt in once;
    FilterAppend(sel, [opt], NotNamed(opt.name));
    FilterKeepsAll(sel, NotNamed(opt.name));
    assert Filter([opt], NotNamed(opt.name)) == [];
  }

  /** Ticking an option that is not selected adds its price to the total. */
  lemma ToggleOnAddsPrice(sel: seq<ServiceOption>, opt: ServiceOption)
    requires !HasName(sel, opt.name)
    ensures SumPrices(Toggle(sel, opt)) == SumPrices(sel) + opt.price
  {
    SumPricesAppend(sel, [opt]);
  }

  /**
   * Unticking takes off the price of the option that was selected, which is
   * not necessarily the clicked option's price: only names are compared.
   */
  lemma ToggleOffSubtractsPrice(sel: seq<ServiceOption>, opt: ServiceOption, k: int)
    requires NamesUnique(sel)
    requires 0 <= k < |sel| && sel[k].name == opt.name
    ensures SumPrices(Toggle(sel, opt)) == SumPrices(sel) - sel[k].price
  {
    assert sel[k] in sel;
    SumPricesWithout(sel, k);
  }
}
