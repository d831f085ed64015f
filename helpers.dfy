/** The pure helpers of the bot: cart totals, the courier's shopping checklist, the
    finance report arithmetic, input validators, the role ladder and name lookups. */
module Helpers {
  import opened Options
  import opened Tables
  import JsText

  // ---------------------------------------------------------------------------
  // formatCart
  // ---------------------------------------------------------------------------

  /** Sum of `price * quantity` over cart lines. */
  function CartTotal(cart: seq<CartLine>): int {
    if cart == [] then 0
    else CartTotal(cart[..|cart| - 1]) + cart[|cart| - 1].price * cart[|cart| - 1].quantity
  }

  /** The `total` that `formatCart` returns (its message text is not modelled). */
  method FormatCart(cart: seq<CartLine>) returns (total: int)
    ensures total == CartTotal(cart)
  {
    if |cart| == 0 {
      return 0;
    }
    total := 0;
    var i := 0;
    while i < |cart|
      invariant 0 <= i <= |cart|
      invariant total == CartTotal(cart[..i])
    {
      var itemTotal := cart[i].price * cart[i].quantity;
      total := total + itemTotal;
      assert cart[..i + 1][..i] == cart[..i];
      i := i + 1;
    }
    assert cart[..|cart|] == cart;
  }

  /** The total of two carts put together is the sum of their totals. */
  lemma {:induction false} CartTotalAppend(a: seq<CartLine>, b: seq<CartLine>)
    ensures CartTotal(a + b) == CartTotal(a) + CartTotal(b)
  {
    if b == [] {
      assert a + b == a;
    } else {
      assert (a + b)[..|a + b| - 1] == a + b[..|b| - 1];
      CartTotalAppend(a, b[..|b| - 1]);
    }
  }

  /** With non-negative prices and quantities the total is non-negative. */
  lemma {:induction false} CartTotalNonNegative(cart: seq<CartLine>)
    requires forall i :: 0 <= i < |cart| ==> cart[i].price >= 0 && cart[i].quantity >= 0
    ensures CartTotal(cart) >= 0
  {
    if cart != [] {
      CartTotalNonNegative(cart[..|cart| - 1]);
    }
  }

  // ---------------------------------------------------------------------------
  // createCourierChecklist / updateChecklistMessage
  // ---------------------------------------------------------------------------

  /** An entry of the `generalItems` Map: a product name and its summed quantity. The
      Map iterates in insertion order, which a sequence keeps. */
  datatype Tally = Tally(name: string, quantity: int)

  /** Position of `name` among the Map's keys. */
  function Find(ts: seq<Tally>, name: string): (r: Option<nat>)
    ensures r.Some? ==> r.value < |ts| && ts[r.value].name == name
    ensures r.None? <==> forall k :: 0 <= k < |ts| ==> ts[k].name != name
  {
    if ts == [] then None
    else if ts[0].name == name then Some(0)
    else match Find(ts[1..], name)
      case None => None
      case Some(k) => Some(k + 1)
  }

  /** `has(key) ? set(key, get(key) + q) : set(key, q)` */
  function Bump(ts: seq<Tally>, name: string, q: int): seq<Tally> {
    match Find(ts, name)
    case Some(k) => ts[k := Tally(name, ts[k].quantity + q)]
    case None => ts + [Tally(name, q)]
  }

  /** The Map after the first loop of `createCourierChecklist`. */
  function Tallied(items: seq<OrderItem>): seq<Tally> {
    if items == [] then []
    else Bump(Tallied(items[..|items| - 1]), items[|items| - 1].productName, items[|items| - 1].quantity)
  }

  predicate DistinctNames(ts: seq<Tally>) {
    forall a, b :: 0 <= a < b < |ts| ==> ts[a].name != ts[b].name
  }

  predicate Named(items: seq<OrderItem>, name: string) {
    exists j :: 0 <= j < |items| && items[j].productName == name
  }

  /** Sum of the quantities of the items called `name`. */
  function QuantityOf(items: seq<OrderItem>, name: string): int {
    if items == [] then 0
    else QuantityOf(items[..|items| - 1], name)
         + (if items[|items| - 1].productName == name then items[|items| - 1].quantity else 0)
  }

  function TotalQuantity(items: seq<OrderItem>): int {
    if items == [] then 0 else TotalQuantity(items[..|items| - 1]) + items[|items| - 1].quantity
  }

  function TallySum(ts: seq<Tally>): int {
    if ts == [] then 0 else TallySum(ts[..|ts| - 1]) + ts[|ts| - 1].quantity
  }

  /** How `Bump` changes the keys: existing keys stay in place, and a new name is
      appended at the end. */
  lemma BumpKeys(ts: seq<Tally>, name: string, q: int)
    ensures var u := Bump(ts, name, q);
            && |ts| <= |u| <= |ts| + 1
            && (forall k :: 0 <= k < |ts| ==> u[k].name == ts[k].name)
            && (|u| == |ts| + 1 <==> Find(ts, name).None?)
            && (|u| == |ts| + 1 ==> u[|ts|] == Tally(name, q))
            && Find(u, name).Some?
  {
  }

  /** Every key is a name that occurs among the items, and every such name is a key. */
  lemma TalliedKeys(items: seq<OrderItem>)
    ensures forall n :: Find(Tallied(items), n).Some? <==> Named(items, n)
  {
    forall n ensures Find(Tallied(items), n).Some? <==> Named(items, n) {
      TalliedKeysAt(items, n);
    }
  }

  lemma {:induction false} TalliedKeysAt(items: seq<OrderItem>, n: string)
    ensures Find(Tallied(items), n).Some? <==> Named(items, n)
  {
    if items != [] {
      var front := items[..|items| - 1];
      var last := items[|items| - 1];
      TalliedKeysAt(front, n);
      FindAfterBump(Tallied(front), last.productName, last.quantity, n);
      NamedSnoc(items, n);
    }
  }

  /** After `Bump`, the keys are the old ones and the bumped name. */
  lemma FindAfterBump(ts: seq<Tally>, name: string, q: int, n: string)
    ensures Find(Bump(ts, name, q), n).Some? <==> Find(ts, n).Some? || n == name
  {
    var u := Bump(ts, name, q);
    BumpKeys(ts, name, q);
    if n != name && Find(ts, n).None? {
      forall k | 0 <= k < |u| ensures u[k].name != n {
        if k < |ts| {
          assert u[k].name == ts[k].name;
        }
      }
    }
    if Find(ts, n).Some? {
      var k := Find(ts, n).value;
      assert u[k].name == n;
    }
  }

  /** A name occurs among the items when it occurs among all but the last, or is the
      last one's. */
  lemma NamedSnoc(items: seq<OrderItem>, n: string)
    requires items != []
    ensures Named(items, n) <==> Named(items[..|items| - 1], n) || items[|items| - 1].productName == n
  {
    var front := items[..|items| - 1];
    if Named(items, n) {
      var j :| 0 <= j < |items| && items[j].productName == n;
      if j < |front| {
        assert front[j] == items[j];
      }
    }
    if Named(front, n) {
      var j :| 0 <= j < |front| && front[j].productName == n;
      assert items[j] == front[j];
    }
  }

  /** No name is a key twice. */
  lemma {:induction false} TalliedDistinct(items: seq<OrderItem>)
    ensures DistinctNames(Tallied(items))
  {
    if items != [] {
      var front := items[..|items| - 1];
      var last := items[|items| - 1];
      TalliedDistinct(front);
      BumpKeys(Tallied(front), last.productName, last.quantity);
    }
  }

  lemma {:induction false} QuantityOfUnnamed(items: seq<OrderItem>, name: string)
    requires !Named(items, name)
    ensures QuantityOf(items, name) == 0
  {
    if items != [] {
      var front := items[..|items| - 1];
      assert !Named(front, name) by {
        forall j | 0 <= j < |front| ensures front[j].productName != name {
          assert front[j] == items[j];
        }
      }
      QuantityOfUnnamed(front, name);
    }
  }

  /** Each key holds the summed quantity of the items with that name. */
  lemma {:induction false} TalliedQuantities(items: seq<OrderItem>)
    ensures forall k :: 0 <= k < |Tallied(items)| ==>
              Tallied(items)[k].quantity == QuantityOf(items, Tallied(items)[k].name)
  {
    if items != [] {
      var front := items[..|items| - 1];
      var last := items[|items| - 1];
      var t0 := Tallied(front);
      var t := Tallied(items);
      TalliedQuantities(front);
      TalliedKeys(front);
      TalliedDistinct(front);
      BumpKeys(t0, last.productName, last.quantity);
      forall k | 0 <= k < |t| ensures t[k].quantity == QuantityOf(items, t[k].name) {
        if k == |t0| {
          QuantityOfUnnamed(front, last.productName);
          assert t[k] == Tally(last.productName, last.quantity);
        } else if t0[k].name == last.productName {
          assert Find(t0, last.productName) == Some(k);
          assert t[k] == Tally(last.productName, t0[k].quantity + last.quantity);
        } else {
          assert t[k] == t0[k];
        }
      }
    }
  }

  /** Index of the first item called `name`. */
  function FirstIndex(items: seq<OrderItem>, name: string): (r: nat)
    requires Named(items, name)
    ensures r < |items| && items[r].productName == name
    ensures forall j :: 0 <= j < r ==> items[j].productName != name
  {
    var front := items[..|items| - 1];
    if Named(front, name) then
      var r := FirstIndex(front, name);
      assert items[r] == front[r];
      assert forall j :: 0 <= j < r ==> items[j] == front[j];
      r
    else
      assert forall j :: 0 <= j < |front| ==> items[j] == front[j];
      |items| - 1
  }

  /** The keys are ordered by where their names first appear among the items. */
  lemma {:induction false} TalliedFirstAppearanceOrder(items: seq<OrderItem>)
    ensures forall k :: 0 <= k < |Tallied(items)| ==> Named(items, Tallied(items)[k].name)
    ensures forall k1, k2 :: 0 <= k1 < k2 < |Tallied(items)| ==>
              FirstIndex(items, Tallied(items)[k1].name) < FirstIndex(items, Tallied(items)[k2].name)
  {
    TalliedKeys(items);
    forall k | 0 <= k < |Tallied(items)| ensures Named(items, Tallied(items)[k].name) {
      assert Find(Tallied(items), Tallied(items)[k].name).Some?;
    }
    if items != [] {
      var front := items[..|items| - 1];
      var last := items[|items| - 1];
      var t0 := Tallied(front);
      var t := Tallied(items);
      TalliedFirstAppearanceOrder(front);
      TalliedKeys(front);
      BumpKeys(t0, last.productName, last.quantity);
      forall k1, k2 | 0 <= k1 < k2 < |t| ensures FirstIndex(items, t[k1].name) < FirstIndex(items, t[k2].name) {
        assert t[k1].name == t0[k1].name;
        assert FirstIndex(items, t[k1].name) == FirstIndex(front, t0[k1].name);
        if k2 < |t0| {
          assert t[k2].name == t0[k2].name;
        } else {
          assert !Named(front, last.productName);
        }
      }
    }
  }

  lemma {:induction false} TallySumUpdate(ts: seq<Tally>, k: nat, t: Tally)
    requires k < |ts|
    ensures TallySum(ts[k := t]) == TallySum(ts) - ts[k].quantity + t.quantity
  {
    var u := ts[k := t];
    if k < |ts| - 1 {
      assert u[..|u| - 1] == ts[..|ts| - 1][k := t];
      TallySumUpdate(ts[..|ts| - 1], k, t);
    } else {
      assert u[..|u| - 1] == ts[..|ts| - 1];
    }
  }

  lemma BumpSum(ts: seq<Tally>, name: string, q: int)
    ensures TallySum(Bump(ts, name, q)) == TallySum(ts) + q
  {
    var f := Find(ts, name);
    if f.Some? {
      TallySumUpdate(ts, f.value, Tally(name, ts[f.value].quantity + q));
    } else {
      var u := ts + [Tally(name, q)];
      assert u[..|u| - 1] == ts;
    }
  }

  /** The summed quantities add up to the items' total quantity. */
  lemma {:induction false} TalliedSum(items: seq<OrderItem>)
    ensures TallySum(Tallied(items)) == TotalQuantity(items)
  {
    if items != [] {
      var front := items[..|items| - 1];
      var last := items[|items| - 1];
      assert Tallied(items) == Bump(Tallied(front), last.productName, last.quantity);
      assert TotalQuantity(items) == TotalQuantity(front) + last.quantity;
      TalliedSum(front);
      BumpSum(Tallied(front), last.productName, last.quantity);
    }
  }

  /** An entry of the checklist sent to the courier. */
  datatype ChecklistEntry = ChecklistEntry(id: int, item: Tally, checked: bool) {
    /** The entry's `label` text, `${name} х${quantity}`. */
    function Label(): string {
      item.name + " х" + JsText.IntToString(item.quantity)
    }
  }

  /** One unchecked entry per key, numbered from 0 in key order. */
  function EntriesOf(ts: seq<Tally>): seq<ChecklistEntry> {
    seq(|ts|, k requires 0 <= k < |ts| => ChecklistEntry(k, ts[k], false))
  }

  const ChecklistHeader := "📝 Список покупок:\n\n" + "🛒 Общее:\n"

  function ChecklistLine(e: ChecklistEntry): string {
    (if e.checked then "✅" else "⬜") + " " + e.Label() + "\n"
  }

  function ChecklistLines(cs: seq<ChecklistEntry>): string {
    if cs == [] then "" else ChecklistLines(cs[..|cs| - 1]) + ChecklistLine(cs[|cs| - 1])
  }

  lemma AppendAssoc(a: string, b: string, c: string)
    ensures (a + b) + c == a + (b + c)
  {
  }

  /** `updateChecklistMessage(checklist)`: the header, then one line per entry with its
      tick. */
  method UpdateChecklistMessage(checklist: seq<ChecklistEntry>) returns (message: string)
    ensures message == ChecklistHeader + ChecklistLines(checklist)
  {
    message := "📝 Список покупок:\n\n";
    message := message + "🛒 Общее:\n";
    var i := 0;
    while i < |checklist|
      invariant 0 <= i <= |checklist|
      invariant message == ChecklistHeader + ChecklistLines(checklist[..i])
    {
      var icon := if checklist[i].checked then "✅" else "⬜";
      var line := icon + " " + checklist[i].Label() + "\n";
      assert line == ChecklistLine(checklist[i]);
      assert checklist[..i + 1][..i] == checklist[..i];
      assert ChecklistLines(checklist[..i + 1]) == ChecklistLines(checklist[..i]) + line;
      AppendAssoc(ChecklistHeader, ChecklistLines(checklist[..i]), line);
      message := message + line;
      i := i + 1;
    }
    assert checklist[..|checklist|] == checklist;
  }

  /** The first loop of `createCourierChecklist`, which fills the `generalItems` Map. */
  method TallyItems(items: seq<OrderItem>) returns (general: seq<Tally>)
    ensures general == Tallied(items)
  {
    general := [];
    var i := 0;
    while i < |items|
      invariant 0 <= i <= |items|
      invariant general == Tallied(items[..i])
    {
      var key := items[i].productName;
      var found := Find(general, key);
      if found.Some? {
        general := general[found.value := Tally(key, general[found.value].quantity + items[i].quantity)];
      } else {
        general := general + [Tally(key, items[i].quantity)];
      }
      assert items[..i + 1][..i] == items[..i];
      i := i + 1;
    }
    assert items[..|items|] == items;
  }

  /** `createCourierChecklist(items)`: one unchecked entry per distinct product name of
      the items (see `TalliedKeys`, `TalliedDistinct`, `TalliedQuantities` and
      `TalliedFirstAppearanceOrder`), and a message that is exactly what
      `updateChecklistMessage` renders for that checklist. */
  method CreateCourierChecklist(items: seq<OrderItem>) returns (message: string, checklist: seq<ChecklistEntry>)
    ensures checklist == EntriesOf(Tallied(items))
    ensures forall k :: 0 <= k < |checklist| ==> checklist[k].id == k && !checklist[k].checked
    ensures message == ChecklistHeader + ChecklistLines(checklist)
  {
    var general := TallyItems(items);
    message := "📝 Список покупок:\n\n";
    message := message + "🛒 Общее:\n";
    var id := 0;
    checklist := [];
    while id < |general|
      invariant 0 <= id <= |general|
      invariant |checklist| == id
      invariant forall k :: 0 <= k < id ==> checklist[k] == ChecklistEntry(k, general[k], false)
      invariant message == ChecklistHeader + ChecklistLines(checklist)
    {
      var entry := ChecklistEntry(id, general[id], false);
      var line := "⬜" + " " + entry.Label() + "\n";
      assert line == ChecklistLine(entry);
      AppendAssoc(ChecklistHeader, ChecklistLines(checklist), line);
      message := message + line;
      ghost var before := checklist;
      checklist := checklist + [entry];
      assert checklist[..|checklist| - 1] == before;
      assert ChecklistLines(checklist) == ChecklistLines(before) + ChecklistLine(entry);
      id := id + 1;
    }
    assert |checklist| == |EntriesOf(general)|;
    assert forall k :: 0 <= k < |checklist| ==> checklist[k] == EntriesOf(general)[k];
  }

  // ---------------------------------------------------------------------------
  // calculateFinances
  // ---------------------------------------------------------------------------

  /** `Math.floor(profit * 0.8)`, in exact arithmetic. */
  function CourierShare(profit: int): int {
    (4 * profit) / 5
  }

  function ItemProfit(it: OrderItem): int {
    it.productPrice * it.quantity - it.productCostPrice * it.quantity
  }

  /** A courier's entry of `courierPayments`; entries keep their insertion order. */
  datatype CourierPayment = CourierPayment(courier: string, costPrice: int, salary: int)

  function FindPayment(ps: seq<CourierPayment>, courier: string): (r: Option<nat>)
    ensures r.Some? ==> r.value < |ps| && ps[r.value].courier == courier
    ensures r.None? <==> forall k :: 0 <= k < |ps| ==> ps[k].courier != courier
  {
    if ps == [] then None
    else if ps[0].courier == courier then Some(0)
    else match FindPayment(ps[1..], courier)
      case None => None
      case Some(k) => Some(k + 1)
  }

  /** Adds an item's cost and salary to a courier's entry, creating it at zero first. */
  function Credit(ps: seq<CourierPayment>, courier: string, cost: int, salary: int): seq<CourierPayment> {
    match FindPayment(ps, courier)
    case Some(k) => ps[k := CourierPayment(courier, ps[k].costPrice + cost, ps[k].salary + salary)]
    case None => ps + [CourierPayment(courier, cost, salary)]
  }


  /** What the loop body does to `courierPayments` for a courier without an entry:
      create it at zero, then add. */
  lemma CreditNew(ps: seq<CourierPayment>, courier: string, cost: int, salary: int)
    requires FindPayment(ps, courier).None?
    ensures var qs := ps + [CourierPayment(courier, 0, 0)];
            qs[|ps| := CourierPayment(courier, qs[|ps|].costPrice + cost, qs[|ps|].salary + salary)]
            == Credit(ps, courier, cost, salary)
  {
    var entry := CourierPayment(courier, cost, salary);
    var qs := ps + [CourierPayment(courier, 0, 0)];
    assert qs[|ps|] == CourierPayment(courier, 0, 0);
    var us := qs[|ps| := entry];
    assert us[..|ps|] == qs[..|ps|] == ps;
    assert us == us[..|ps|] + [us[|ps|]];
    assert Credit(ps, courier, cost, salary) == ps + [entry];
  }

  /** ... and for a courier with an entry at `k`: add to it. */
  lemma CreditExisting(ps: seq<CourierPayment>, courier: string, k: nat, cost: int, salary: int)
    requires FindPayment(ps, courier) == Some(k)
    ensures ps[k := CourierPayment(courier, ps[k].costPrice + cost, ps[k].salary + salary)]
            == Credit(ps, courier, cost, salary)
  {
  }

  /** The inner loop of `calculateFinances` for one order's items. */
  function CreditItems(ps: seq<CourierPayment>, courier: Option<string>, its: seq<OrderItem>): seq<CourierPayment> {
    if its == [] then ps
    else
      var before := CreditItems(ps, courier, its[..|its| - 1]);
      var it := its[|its| - 1];
      if JsText.Truthy(courier) then Credit(before, courier.value, it.productCostPrice * it.quantity, CourierShare(ItemProfit(it)))
      else before
  }

  lemma CreditItemsStep(ps: seq<CourierPayment>, courier: Option<string>, its: seq<OrderItem>, j: nat)
    requires j < |its|
    ensures CreditItems(ps, courier, its[..j + 1]) ==
              if JsText.Truthy(courier)
              then Credit(CreditItems(ps, courier, its[..j]), courier.value,
                          its[j].productCostPrice * its[j].quantity, CourierShare(ItemProfit(its[j])))
              else CreditItems(ps, courier, its[..j])
  {
    assert its[..j + 1][..j] == its[..j];
  }

  /** `courierPayments` after the outer loop. */
  function PaymentsOf(orders: seq<Order>, items: seq<OrderItem>): seq<CourierPayment> {
    if orders == [] then []
    else
      var o := orders[|orders| - 1];
      CreditItems(PaymentsOf(orders[..|orders| - 1], items), o.courierUsername, ItemsOfOrder(items, o.id))
  }

  function IncomeOf(orders: seq<Order>, items: seq<OrderItem>): int {
    if orders == [] then 0
    else IncomeOf(orders[..|orders| - 1], items) + ItemsPrice(ItemsOfOrder(items, orders[|orders| - 1].id))
  }

  function CostOf(orders: seq<Order>, items: seq<OrderItem>): int {
    if orders == [] then 0
    else CostOf(orders[..|orders| - 1], items) + ItemsCost(ItemsOfOrder(items, orders[|orders| - 1].id))
  }

  /** Sum of `totalProfit - salary` over the entries of `courierPayments`. */
  function OrgSum(ps: seq<CourierPayment>, profit: int): int {
    if ps == [] then 0 else OrgSum(ps[..|ps| - 1], profit) + (profit - ps[|ps| - 1].salary)
  }

  /** `organizationShare`, with its fallback `Math.floor(totalProfit * 0.2)` when the sum
      is 0. */
  function OrganizationShare(ps: seq<CourierPayment>, profit: int): int {
    var s := OrgSum(ps, profit);
    if s == 0 then profit / 5 else s
  }

  /** `config.finance?.commissionPercent || 5` */
  function CommissionPercent(configured: Option<int>): int {
    if configured.None? || configured.value == 0 then 5 else configured.value
  }

  /** `Math.floor(organizationShare * (percent / 100))`, in exact arithmetic. */
  function Commission(organizationShare: int, percent: int): int {
    (organizationShare * percent) / 100
  }

  datatype Finances = Finances(
    totalIncome: int,
    totalCost: int,
    profit: int,
    organizationShare: int,
    commission: int,
    netProfit: int,
    courierPayments: seq<CourierPayment>)

  /** `calculateFinances(orders, items, config)`; `commissionPercent` is the configured
      percentage, if any. */
  method CalculateFinances(orders: seq<Order>, items: seq<OrderItem>, commissionPercent: Option<int>) returns (f: Finances)
    ensures f.totalIncome == IncomeOf(orders, items)
    ensures f.totalCost == CostOf(orders, items)
    ensures f.profit == f.totalIncome - f.totalCost
    ensures f.courierPayments == PaymentsOf(orders, items)
    ensures f.organizationShare == OrganizationShare(f.courierPayments, f.profit)
    ensures f.commission == Commission(f.organizationShare, CommissionPercent(commissionPercent))
    ensures f.netProfit == f.organizationShare - f.commission
  {
    var totalIncome := 0;
    var totalCost := 0;
    var payments: seq<CourierPayment> := [];
    var i := 0;
    while i < |orders|
      invariant 0 <= i <= |orders|
      invariant totalIncome == IncomeOf(orders[..i], items)
      invariant totalCost == CostOf(orders[..i], items)
      invariant payments == PaymentsOf(orders[..i], items)
    {
      var order := orders[i];
      var orderItems := ItemsOfOrder(items, order.id);
      totalIncome, totalCost, payments := AddOrderItems(order.courierUsername, orderItems, totalIncome, totalCost, payments);
      assert orders[..i + 1][..i] == orders[..i];
      i := i + 1;
    }
    assert orders[..|orders|] == orders;
    var totalProfit := totalIncome - totalCost;
    var organizationShare := SumOrganizationShares(payments, totalProfit);
    if organizationShare == 0 {
      organizationShare := totalProfit / 5;
    }
    var percent := CommissionPercent(commissionPercent);
    var commission := (organizationShare * percent) / 100;
    var netProfit := organizationShare - commission;
    f := Finances(totalIncome, totalCost, totalProfit, organizationShare, commission, netProfit, payments);
  }

  /** The inner loop of `calculateFinances`: one order's items are added to the totals
      and, when the order has a courier, to that courier's entry. */
  method AddOrderItems(courier: Option<string>, orderItems: seq<OrderItem>, income0: int, cost0: int, payments0: seq<CourierPayment>)
    returns (income: int, cost: int, payments: seq<CourierPayment>)
    ensures income == income0 + ItemsPrice(orderItems)
    ensures cost == cost0 + ItemsCost(orderItems)
    ensures payments == CreditItems(payments0, courier, orderItems)
  {
    income, cost, payments := income0, cost0, payments0;
    var j := 0;
    while j < |orderItems|
      invariant 0 <= j <= |orderItems|
      invariant income == income0 + ItemsPrice(orderItems[..j])
      invariant cost == cost0 + ItemsCost(orderItems[..j])
      invariant payments == CreditItems(payments0, courier, orderItems[..j])
    {
      var item := orderItems[j];
      var itemPrice := item.productPrice * item.quantity;
      var itemCost := item.productCostPrice * item.quantity;
      var itemProfit := itemPrice - itemCost;
      var courierShare := CourierShare(itemProfit);
      income := income + itemPrice;
      cost := cost + itemCost;
      ItemsTotalsStep(orderItems, j);
      CreditItemsStep(payments0, courier, orderItems, j);
      assert courierShare == CourierShare(ItemProfit(item));
      if JsText.Truthy(courier) {
        payments := CreditCourier(payments, courier.value, itemCost, courierShare);
      }
      j := j + 1;
    }
    assert orderItems[..|orderItems|] == orderItems;
  }

  /** One item credited to a courier's `courierPayments` entry, which is created at
      zero first when missing. */
  method CreditCourier(ps: seq<CourierPayment>, name: string, cost: int, salary: int) returns (payments: seq<CourierPayment>)
    ensures payments == Credit(ps, name, cost, salary)
  {
    payments := ps;
    var k := FindPayment(payments, name);
    if k.None? {
      CreditNew(payments, name, cost, salary);
      payments := payments + [CourierPayment(name, 0, 0)];
      k := Some(|payments| - 1);
    } else {
      CreditExisting(payments, name, k.value, cost, salary);
    }
    var entry := payments[k.value];
    payments := payments[k.value := CourierPayment(name, entry.costPrice + cost, entry.salary + salary)];
  }

  /** The loop of `calculateFinances` over `courierPayments` that sums
      `totalProfit - salary`. */
  method SumOrganizationShares(payments: seq<CourierPayment>, totalProfit: int) returns (organizationShare: int)
    ensures organizationShare == OrgSum(payments, totalProfit)
  {
    organizationShare := 0;
    var p := 0;
    while p < |payments|
      invariant 0 <= p <= |payments|
      invariant organizationShare == OrgSum(payments[..p], totalProfit)
    {
      organizationShare := organizationShare + (totalProfit - payments[p].salary);
      assert payments[..p + 1][..p] == payments[..p];
      p := p + 1;
    }
    assert payments[..|payments|] == payments;
  }

  /** What a courier's entry holds, 0 when there is none. */
  function SalaryIn(ps: seq<CourierPayment>, courier: string): int {
    match FindPayment(ps, courier)
    case Some(k) => ps[k].salary
    case None => 0
  }

  function CostPriceIn(ps: seq<CourierPayment>, courier: string): int {
    match FindPayment(ps, courier)
    case Some(k) => ps[k].costPrice
    case None => 0
  }

  function ItemsSalary(its: seq<OrderItem>): int {
    if its == [] then 0 else ItemsSalary(its[..|its| - 1]) + CourierShare(ItemProfit(its[|its| - 1]))
  }

  /** Reference definition of a courier's salary: floor(0.8 * item profit) summed over
      the items of the orders whose courier username is that (non-empty) name. */
  function CourierSalary(orders: seq<Order>, items: seq<OrderItem>, courier: string): int {
    if orders == [] then 0
    else
      var o := orders[|orders| - 1];
      CourierSalary(orders[..|orders| - 1], items, courier)
      + (if courier != "" && o.courierUsername == Some(courier) then ItemsSalary(ItemsOfOrder(items, o.id)) else 0)
  }

  /** Reference definition of the cost price owed to a courier. */
  function CourierCost(orders: seq<Order>, items: seq<OrderItem>, courier: string): int {
    if orders == [] then 0
    else
      var o := orders[|orders| - 1];
      CourierCost(orders[..|orders| - 1], items, courier)
      + (if courier != "" && o.courierUsername == Some(courier) then ItemsCost(ItemsOfOrder(items, o.id)) else 0)
  }

  lemma CreditEffect(ps: seq<CourierPayment>, courier: string, cost: int, salary: int, m: string)
    ensures SalaryIn(Credit(ps, courier, cost, salary), m) == SalaryIn(ps, m) + (if m == courier then salary else 0)
    ensures CostPriceIn(Credit(ps, courier, cost, salary), m) == CostPriceIn(ps, m) + (if m == courier then cost else 0)
    ensures FindPayment(Credit(ps, courier, cost, salary), m).Some? <==> FindPayment(ps, m).Some? || m == courier
  {
    var qs := Credit(ps, courier, cost, salary);
    match FindPayment(ps, courier)
    case Some(k) =>
      SameCouriersSameFind(ps, qs, m);
    case None =>
      FindPaymentAppend(ps, CourierPayment(courier, cost, salary), m);
  }

  lemma {:induction false} SameCouriersSameFind(ps: seq<CourierPayment>, qs: seq<CourierPayment>, m: string)
    requires |ps| == |qs| && forall k :: 0 <= k < |ps| ==> ps[k].courier == qs[k].courier
    ensures FindPayment(ps, m) == FindPayment(qs, m)
  {
    if ps != [] {
      SameCouriersSameFind(ps[1..], qs[1..], m);
    }
  }

  lemma {:induction false} FindPaymentAppend(ps: seq<CourierPayment>, x: CourierPayment, m: string)
    ensures FindPayment(ps + [x], m) ==
              if FindPayment(ps, m).Some? then FindPayment(ps, m)
              else if x.courier == m then Some(|ps|) else None
  {
    if ps != [] {
      assert (ps + [x])[1..] == ps[1..] + [x];
      FindPaymentAppend(ps[1..], x, m);
    }
  }

  lemma {:induction false} CreditItemsEffect(ps: seq<CourierPayment>, courier: Option<string>, its: seq<OrderItem>, m: string)
    ensures SalaryIn(CreditItems(ps, courier, its), m)
            == SalaryIn(ps, m) + (if JsText.Truthy(courier) && courier.value == m then ItemsSalary(its) else 0)
    ensures CostPriceIn(CreditItems(ps, courier, its), m)
            == CostPriceIn(ps, m) + (if JsText.Truthy(courier) && courier.value == m then ItemsCost(its) else 0)
  {
    if its != [] {
      var front := its[..|its| - 1];
      var it := its[|its| - 1];
      CreditItemsEffect(ps, courier, front, m);
      if JsText.Truthy(courier) {
        CreditEffect(CreditItems(ps, courier, front), courier.value, it.productCostPrice * it.quantity, CourierShare(ItemProfit(it)), m);
      }
    }
  }

  /** Each courier's entry holds exactly the salary and cost price of the reference
      definitions: salaries are credited only to that courier's items. */
  lemma {:induction false} PaymentsArePerCourier(orders: seq<Order>, items: seq<OrderItem>, m: string)
    ensures SalaryIn(PaymentsOf(orders, items), m) == CourierSalary(orders, items, m)
    ensures CostPriceIn(PaymentsOf(orders, items), m) == CourierCost(orders, items, m)
  {
    if orders != [] {
      var o := orders[|orders| - 1];
      PaymentsArePerCourier(orders[..|orders| - 1], items, m);
      CreditItemsEffect(PaymentsOf(orders[..|orders| - 1], items), o.courierUsername, ItemsOfOrder(items, o.id), m);
    }
  }

  function TotalSalary(ps: seq<CourierPayment>): int {
    if ps == [] then 0 else TotalSalary(ps[..|ps| - 1]) + ps[|ps| - 1].salary
  }

  /** The per-courier sum counts the whole profit once per courier entry: with k
      couriers it is k * profit minus all salaries (so with two or more couriers it
      exceeds the profit that remains after salaries). */
  lemma {:induction false} OrgSumCountsProfitPerCourier(ps: seq<CourierPayment>, profit: int)
    ensures OrgSum(ps, profit) == |ps| * profit - TotalSalary(ps)
  {
    if ps != [] {
      var front := ps[..|ps| - 1];
      OrgSumCountsProfitPerCourier(front, profit);
      assert |ps| * profit == |front| * profit + profit;
    }
  }

  /** With a percentage between 0 and 100 and a non-negative organisation share, the
      commission is between 0 and that share, and so the net profit is non-negative. */
  lemma CommissionBounds(organizationShare: int, percent: int)
    requires organizationShare >= 0 && 0 <= percent <= 100
    ensures 0 <= Commission(organizationShare, percent) <= organizationShare
    ensures organizationShare - Commission(organizationShare, percent) >= 0
  {
    assert organizationShare * percent <= organizationShare * 100;
    assert organizationShare * percent >= 0;
  }

  /** The configured percentage is used unless it is missing or 0, which give 5. */
  lemma CommissionPercentDefault(configured: Option<int>)
    ensures CommissionPercent(configured) != 0
    ensures configured.Some? && configured.value != 0 ==> CommissionPercent(configured) == configured.value
  {
  }

  // ---------------------------------------------------------------------------
  // Validators
  // ---------------------------------------------------------------------------

  datatype Validation = Valid | Invalid(error: string)

  /** The shared shape of `validateUsername` and `validateLocation`: `!s` or a blank
      trim gives `emptyError`, more than `limit` characters gives `longError`. */
  function ValidateText(s: Option<string>, limit: nat, emptyError: string, longError: string): (r: Validation)
    ensures r == Invalid(emptyError) <== s.None? || JsText.AllSpace(s.value)
    ensures r == Valid <==> s.Some? && !JsText.AllSpace(s.value) && |s.value| <= limit
    ensures s.Some? && !JsText.AllSpace(s.value) && |s.value| > limit ==> r == Invalid(longError)
  {
    if s.None? || s.value == "" then Invalid(emptyError)
    else
      JsText.TrimEmptyIffAllSpace(s.value);
      if |JsText.Trim(s.value)| == 0 then Invalid(emptyError)
      else if |s.value| > limit then Invalid(longError)
      else Valid
  }

  /** `validateUsername`: at most 100 characters, not blank. */
  function ValidateUsername(username: Option<string>): (r: Validation)
    ensures r.Valid? <==> username.Some? && !JsText.AllSpace(username.value) && |username.value| <= 100
  {
    ValidateText(username, 100, "Никнейм не может быть пустым", "Никнейм слишком длинный")
  }

  /** `validateLocation`: at most 200 characters, not blank. */
  function ValidateLocation(location: Option<string>): (r: Validation)
    ensures r.Valid? <==> location.Some? && !JsText.AllSpace(location.value) && |location.value| <= 200
  {
    ValidateText(location, 200, "Адрес не может быть пустым", "Адрес слишком длинный")
  }

  datatype ProductCheck = Rejected(error: string) | Accepted(price: int, costPrice: int)

  /** `parseInt(x)` of an argument that may be `undefined` (which parses to NaN). */
  function ParseArg(x: Option<string>): Option<int> {
    if x.None? then None else JsText.ParseInt(x.value)
  }

  /** `validateProductData(name, price, costPrice)`. */
  function ValidateProductData(name: Option<string>, price: Option<string>, costPrice: Option<string>): (r: ProductCheck)
    ensures r.Accepted? <==>
              && name.Some? && !JsText.AllSpace(name.value)
              && ParseArg(price).Some? && ParseArg(price).value > 0
              && ParseArg(costPrice).Some? && 0 <= ParseArg(costPrice).value <= ParseArg(price).value
    ensures r.Accepted? ==> r.price == ParseArg(price).value && r.costPrice == ParseArg(costPrice).value
  {
    if name.None? || name.value == "" then Rejected("Название не может быть пустым")
    else
      JsText.TrimEmptyIffAllSpace(name.value);
      if |JsText.Trim(name.value)| == 0 then Rejected("Название не может быть пустым")
      else
        var priceNum := ParseArg(price);
        var costPriceNum := ParseArg(costPrice);
        if priceNum.None? || priceNum.value <= 0 then Rejected("Цена должна быть положительным числом")
        else if costPriceNum.None? || costPriceNum.value < 0 then Rejected("Себестоимость должна быть неотрицательным числом")
        else if costPriceNum.value > priceNum.value then Rejected("Себестоимость не может быть больше цены")
        else Accepted(priceNum.value, costPriceNum.value)
  }

  /** Prices written out in decimal are read back: a valid product's numbers survive
      being printed and validated again. */
  lemma ProductDataRoundTrip(name: string, price: int, costPrice: int)
    requires !JsText.AllSpace(name) && 0 < price && 0 <= costPrice <= price
    ensures ValidateProductData(Some(name), Some(JsText.IntToString(price)), Some(JsText.IntToString(costPrice)))
            == Accepted(price, costPrice)
  {
    JsText.ParseIntRoundTrip(price);
    JsText.ParseIntRoundTrip(costPrice);
  }

  // ---------------------------------------------------------------------------
  // parseEstimatedTime
  // ---------------------------------------------------------------------------

  /** `parseEstimatedTime(text)`: the first run of digits followed by " минут", or the
      text itself when it has no digit. */
  function ParseEstimatedTime(text: string): (r: string)
    ensures !JsText.HasDigit(text) ==> r == text
    ensures JsText.HasDigit(text) ==>
              exists i, j ::
                && 0 <= i < j <= |text| && r == text[i..j] + " минут" && JsText.AllDigits(text[i..j])
                && (forall k :: 0 <= k < i ==> !JsText.IsDigit(text[k]))
                && (j == |text| || !JsText.IsDigit(text[j]))
  {
    if JsText.HasDigit(text) then JsText.FirstDigitRun(text) + " минут" else text
  }

  // ---------------------------------------------------------------------------
  // Roles
  // ---------------------------------------------------------------------------

  /** The role ladder, lowest first. */
  const Roles: seq<string> := ["client", "trainee", "courier", "senior", "management"]

  /** `roles.indexOf(role)` */
  function RoleLevel(role: string): (l: int)
    ensures -1 <= l < |Roles|
    ensures l >= 0 ==> Roles[l] == role
    ensures l == -1 <==> role !in Roles
  {
    if role == "client" then 0
    else if role == "trainee" then 1
    else if role == "courier" then 2
    else if role == "senior" then 3
    else if role == "management" then 4
    else -1
  }

  /** `hasPermission(userRole, requiredRole)` */
  predicate HasPermission(userRole: string, requiredRole: string) {
    RoleLevel(userRole) >= RoleLevel(requiredRole)
  }

  /** Between known roles, permission follows the ladder. */
  lemma PermissionFollowsLadder(i: nat, j: nat)
    requires i < |Roles| && j < |Roles|
    ensures HasPermission(Roles[i], Roles[j]) <==> i >= j
  {
  }

  lemma PermissionReflexive(role: string)
    requires role in Roles
    ensures HasPermission(role, role)
  {
  }

  /** A user whose role is not on the ladder fails every requirement that is. */
  lemma UnknownUserRoleFails(userRole: string, requiredRole: string)
    requires userRole !in Roles && requiredRole in Roles
    ensures !HasPermission(userRole, requiredRole)
  {
  }

  /** A requirement that is not on the ladder is met by every role. */
  lemma UnknownRequiredRoleHolds(userRole: string, requiredRole: string)
    requires requiredRole !in Roles
    ensures HasPermission(userRole, requiredRole)
  {
  }

  lemma PermissionTransitive(a: string, b: string, c: string)
    requires HasPermission(a, b) && HasPermission(b, c)
    ensures HasPermission(a, c)
  {
  }

  /** `getRoleName(role)`: Russian name, or "Неизвестно" for a role off the ladder. */
  function GetRoleName(role: string): (name: string)
    ensures role in Roles <==> name != "Неизвестно"
  {
    if role == "client" then "Клиент"
    else if role == "trainee" then "Стажёр"
    else if role == "courier" then "Курьер"
    else if role == "senior" then "Старший состав"
    else if role == "management" then "Руководство"
    else "Неизвестно"
  }

  // ---------------------------------------------------------------------------
  // Chats
  // ---------------------------------------------------------------------------

  /** The chat types a chat can be registered under. */
  const ChatTypes: seq<string> := ["management", "senior_staff", "flood", "dispatch", "announcements", "training", "activity_log"]

  /** `getChatTypeName(chatType)`: Russian name, or "Неизвестный тип". */
  function GetChatTypeName(chatType: string): (name: string)
    ensures chatType in ChatTypes <==> name != "Неизвестный тип"
  {
    if chatType == "management" then "Руководство"
    else if chatType == "senior_staff" then "Старший состав"
    else if chatType == "flood" then "Флудилка"
    else if chatType == "dispatch" then "Диспетчерская"
    else if chatType == "announcements" then "Доска объявлений"
    else if chatType == "training" then "Учебный центр"
    else if chatType == "activity_log" then "Журнал активности"
    else "Неизвестный тип"
  }

  /** The configured chat ids, in the configuration's key order. */
  datatype ChatIds = ChatIds(training: int, flood: int, dispatch: int, board: int, management: int, senior: int, activity: int)

  function ChatIdValues(c: ChatIds): seq<int> {
    [c.training, c.flood, c.dispatch, c.board, c.management, c.senior, c.activity]
  }

  /** `ids.filter(id => id > 0)` */
  function PositiveIds(ids: seq<int>): (r: seq<int>)
    ensures forall x :: x in r <==> x in ids && x > 0
    ensures |r| <= |ids|
  {
    if ids == [] then []
    else if ids[0] > 0 then [ids[0]] + PositiveIds(ids[1..])
    else PositiveIds(ids[1..])
  }

  /** `getChatsForRole(role, chats)` */
  function GetChatsForRole(role: string, chats: ChatIds): seq<int> {
    if role == "trainee" then [chats.training, chats.board, chats.dispatch]
    else if role == "courier" then [chats.flood, chats.dispatch, chats.board, chats.activity]
    else if role == "senior" then [chats.flood, chats.dispatch, chats.board, chats.activity, chats.senior]
    else if role == "management" then PositiveIds(ChatIdValues(chats))
    else []
  }

  /** Access widens up the ladder from courier: a courier's chats are the first of a
      senior's, and a senior's configured (positive) chats are all management's.
      Clients and roles off the ladder get none. */
  lemma ChatsForRoleNested(chats: ChatIds)
    ensures GetChatsForRole("courier", chats) <= GetChatsForRole("senior", chats)
    ensures forall x :: x in GetChatsForRole("senior", chats) && x > 0 ==> x in GetChatsForRole("management", chats)
    ensures forall x :: x in GetChatsForRole("trainee", chats) && x > 0 ==> x in GetChatsForRole("management", chats)
    ensures forall x :: x in GetChatsForRole("management", chats) ==> x > 0
    ensures forall role :: role !in Roles || role == "client" ==> GetChatsForRole(role, chats) == []
  {
  }
}
