/**
 * The reusable-packaging deposit processor: for an order whose restaurant
 * takes deposits and whose customer chose reusable packaging, it replaces
 * every deposit and give-back adjustment of the order and of its items by
 * freshly computed ones: one deposit adjustment per item whose product uses
 * reusable packaging, and one order-level deposit adjustment for their sum.
 *
 * Amounts are integers in minor currency units. A product's packaging unit
 * is fractional in the source (0.5, 1, ...) and is counted here in halves.
 * How many minor units an item's deposit costs is a parameter, the
 * `ItemRule`, constrained by the cases the processor's tests fix.
 */
module DepositRefund {
  import opened Values

  datatype AdjustmentType = ReusablePackaging | GiveBack | OtherAdjustment(name: string)

  /** An adjustment as the adjustment factory creates it: type, label (a translation key here), amount and the "neutral" flag. */
  datatype Adjustment = Adjustment(kind: AdjustmentType, labelKey: string, amount: int, neutral: bool)

  /** A product's packaging settings; the unit is a count of half packagings. */
  datatype Product = Product(reusablePackagingEnabled: bool, reusablePackagingUnitHalves: nat)

  datatype Restaurant = Restaurant(depositRefundEnabled: bool)

  /** Whether the customer holds packagings returnable against this order. */
  datatype Customer = Customer(hasReusablePackagingUnitsForOrder: bool)

  /** The deposit in minor units for an item of a given quantity and unit (in halves). */
  type ItemRule = (nat, nat) -> nat

  const ItemLabel := "order_item.adjustment_type.reusable_packaging"
  const OrderLabel := "order.adjustment_type.reusable_packaging"
  const GiveBackLabel := "order.adjustment_type.give_back"

  class OrderItem {
    const quantity: nat
    const product: Product
    var adjustments: seq<Adjustment>

    constructor (quantity: nat, product: Product)
      ensures this.quantity == quantity && this.product == product && adjustments == []
    {
      this.quantity := quantity;
      this.product := product;
      adjustments := [];
    }

    method AddAdjustment(a: Adjustment)
      modifies this`adjustments
      ensures adjustments == old(adjustments) + [a]
    {
      adjustments := adjustments + [a];
    }
  }

  class Order {
    const restaurant: Option<Restaurant>
    const customer: Customer
    const reusablePackagingEnabled: bool
    const items: seq<OrderItem>
    var adjustments: seq<Adjustment>

    /** Each item object appears once in the order. */
    ghost predicate Valid()
    {
      forall i, j :: 0 <= i < j < |items| ==> items[i] != items[j]
    }

    constructor (restaurant: Option<Restaurant>, customer: Customer, reusablePackagingEnabled: bool, items: seq<OrderItem>)
      requires forall i, j :: 0 <= i < j < |items| ==> items[i] != items[j]
      ensures Valid()
      ensures this.restaurant == restaurant && this.customer == customer
      ensures this.reusablePackagingEnabled == reusablePackagingEnabled && this.items == items
      ensures adjustments == []
    {
      this.restaurant := restaurant;
      this.customer := customer;
      this.reusablePackagingEnabled := reusablePackagingEnabled;
      this.items := items;
      adjustments := [];
    }

    method AddAdjustment(a: Adjustment)
      modifies this`adjustments
      ensures adjustments == old(adjustments) + [a]
    {
      adjustments := adjustments + [a];
    }

    /** Removes the adjustments of one type from the order and from each of its items. */
    method RemoveAdjustmentsRecursively(kind: AdjustmentType)
      requires Valid()
      modifies this, set i | i in items
      ensures adjustments == WithoutKind(old(adjustments), kind)
      ensures forall k :: 0 <= k < |items| ==> items[k].adjustments == WithoutKind(old(items[k].adjustments), kind)
    {
      adjustments := WithoutKind(adjustments, kind);
      var n := 0;
      while n < |items|
        invariant 0 <= n <= |items|
        invariant adjustments == WithoutKind(old(adjustments), kind)
        invariant forall k :: 0 <= k < n ==> items[k].adjustments == WithoutKind(old(items[k].adjustments), kind)
        invariant forall k :: n <= k < |items| ==> items[k].adjustments == old(items[k].adjustments)
      {
        items[n].adjustments := WithoutKind(items[n].adjustments, kind);
        n := n + 1;
      }
    }

    /** The processor's two removals: deposits first, then give-backs, from the order and each item. */
    method RemoveDeposits()
      requires Valid()
      modifies this, set i | i in items
      ensures adjustments == WithoutDeposits(old(adjustments))
      ensures forall k :: 0 <= k < |items| ==> items[k].adjustments == WithoutDeposits(old(items[k].adjustments))
    {
      RemoveAdjustmentsRecursively(ReusablePackaging);
      RemoveAdjustmentsRecursively(GiveBack);
    }
  }

  // ---------------------------------------------------------------------
  // Specification of the processor on values
  // ---------------------------------------------------------------------

  /** The adjustments that are not of the given type, in their order. */
  function WithoutKind(adjustments: seq<Adjustment>, kind: AdjustmentType): (r: seq<Adjustment>)
    ensures |r| <= |adjustments|
  {
    if adjustments == [] then []
    else (if adjustments[0].kind == kind then [] else [adjustments[0]]) + WithoutKind(adjustments[1..], kind)
  }

  /** Removal keeps exactly the adjustments of the other types. */
  lemma {:induction false} WithoutKindMembers(a: seq<Adjustment>, kind: AdjustmentType)
    ensures forall x :: x in WithoutKind(a, kind) <==> x in a && x.kind != kind
  {
    if a != [] {
      WithoutKindMembers(a[1..], kind);
      assert a == [a[0]] + a[1..];
    }
  }

  /** Both removals the processor performs before recomputing. */
  function WithoutDeposits(adjustments: seq<Adjustment>): seq<Adjustment>
  {
    WithoutKind(WithoutKind(adjustments, ReusablePackaging), GiveBack)
  }

  /** The sum of the amounts of the adjustments of one type. */
  function KindTotal(adjustments: seq<Adjustment>, kind: AdjustmentType): int
  {
    if adjustments == [] then 0
    else (if adjustments[0].kind == kind then adjustments[0].amount else 0) + KindTotal(adjustments[1..], kind)
  }

  /** The processor does anything only for a restaurant taking deposits and an order with reusable packaging. */
  predicate Applies(restaurant: Option<Restaurant>, reusablePackagingEnabled: bool)
  {
    restaurant.Some? && restaurant.value.depositRefundEnabled && reusablePackagingEnabled
  }

  /** The deposit adjustments an item receives: one, when its product uses reusable packaging. */
  function ItemDeposit(quantity: nat, product: Product, rule: ItemRule): seq<Adjustment>
  {
    if product.reusablePackagingEnabled
    then [Adjustment(ReusablePackaging, ItemLabel, rule(quantity, product.reusablePackagingUnitHalves), false)]
    else []
  }

  function ItemAmount(item: OrderItem, rule: ItemRule): nat
  {
    if item.product.reusablePackagingEnabled then rule(item.quantity, item.product.reusablePackagingUnitHalves) else 0
  }

  /** The sum of the item deposits: the order-level deposit amount. */
  function DepositTotal(items: seq<OrderItem>, rule: ItemRule): nat
  {
    if items == [] then 0 else ItemAmount(items[0], rule) + DepositTotal(items[1..], rule)
  }

  /** The give-back credit: the customer's credit, capped by the deposits charged on this order. */
  function GiveBackAdjustments(customer: Customer, credit: nat, depositTotal: nat): seq<Adjustment>
  {
    if customer.hasReusablePackagingUnitsForOrder
    then [Adjustment(GiveBack, GiveBackLabel, -(if credit < depositTotal then credit else depositTotal), false)]
    else []
  }

  /** An item's adjustments after processing. */
  function ProcessedItem(adjustments: seq<Adjustment>, quantity: nat, product: Product, rule: ItemRule): seq<Adjustment>
  {
    WithoutDeposits(adjustments) + ItemDeposit(quantity, product, rule)
  }

  /** The order's own adjustments after processing, for a given deposit total. */
  function ProcessedOrder(adjustments: seq<Adjustment>, depositTotal: nat, customer: Customer, credit: nat): seq<Adjustment>
  {
    WithoutDeposits(adjustments) + [Adjustment(ReusablePackaging, OrderLabel, depositTotal, false)]
      + GiveBackAdjustments(customer, credit, depositTotal)
  }

  /** The summed amounts of one type, over the items' current adjustments. */
  ghost function ItemsKindTotal(items: seq<OrderItem>, kind: AdjustmentType): int
    reads set i | i in items
    decreases |items|
  {
    if items == [] then 0 else KindTotal(items[0].adjustments, kind) + ItemsKindTotal(items[1..], kind)
  }

  // ---------------------------------------------------------------------
  // Lemmas
  // ---------------------------------------------------------------------

  lemma {:induction false} WithoutKindAppend(a: seq<Adjustment>, b: seq<Adjustment>, kind: AdjustmentType)
    ensures WithoutKind(a + b, kind) == WithoutKind(a, kind) + WithoutKind(b, kind)
  {
    if a == [] {
      assert a + b == b;
    } else {
      assert (a + b)[0] == a[0];
      assert (a + b)[1..] == a[1..] + b;
      WithoutKindAppend(a[1..], b, kind);
    }
  }

  lemma {:induction false} WithoutKindIdempotent(a: seq<Adjustment>, kind: AdjustmentType)
    ensures WithoutKind(WithoutKind(a, kind), kind) == WithoutKind(a, kind)
  {
    if a != [] {
      WithoutKindIdempotent(a[1..], kind);
      WithoutKindAppend(if a[0].kind == kind then [] else [a[0]], WithoutKind(a[1..], kind), kind);
    }
  }

  lemma {:induction false} WithoutKindCommutes(a: seq<Adjustment>, k1: AdjustmentType, k2: AdjustmentType)
    ensures WithoutKind(WithoutKind(a, k1), k2) == WithoutKind(WithoutKind(a, k2), k1)
  {
    if a != [] {
      WithoutKindCommutes(a[1..], k1, k2);
      WithoutKindAppend(if a[0].kind == k1 then [] else [a[0]], WithoutKind(a[1..], k1), k2);
      WithoutKindAppend(if a[0].kind == k2 then [] else [a[0]], WithoutKind(a[1..], k2), k1);
    }
  }

  /** Removal of a type leaves no adjustment of it, so the type's total is then zero. */
  lemma {:induction false} KindTotalWithout(a: seq<Adjustment>, kind: AdjustmentType)
    ensures KindTotal(WithoutKind(a, kind), kind) == 0
  {
    if a != [] {
      KindTotalWithout(a[1..], kind);
      KindTotalAppend(if a[0].kind == kind then [] else [a[0]], WithoutKind(a[1..], kind), kind);
    }
  }

  lemma {:induction false} KindTotalAppend(a: seq<Adjustment>, b: seq<Adjustment>, kind: AdjustmentType)
    ensures KindTotal(a + b, kind) == KindTotal(a, kind) + KindTotal(b, kind)
  {
    if a == [] {
      assert a + b == b;
    } else {
      assert (a + b)[0] == a[0];
      assert (a + b)[1..] == a[1..] + b;
      KindTotalAppend(a[1..], b, kind);
    }
  }

  /** Removing deposits and give-backs removes every adjustment of those two types. */
  lemma DepositKindsGone(a: seq<Adjustment>)
    ensures KindTotal(WithoutDeposits(a), ReusablePackaging) == 0
    ensures forall x :: x in WithoutDeposits(a) ==> x.kind != ReusablePackaging && x.kind != GiveBack
  {
    WithoutKindMembers(a, ReusablePackaging);
    WithoutKindMembers(WithoutKind(a, ReusablePackaging), GiveBack);
    WithoutKindCommutes(a, ReusablePackaging, GiveBack);
    KindTotalWithout(WithoutKind(a, GiveBack), ReusablePackaging);
  }

  /** After processing, an item's deposit adjustments add up to the item's deposit amount. */
  lemma ProcessedItemDeposit(a: seq<Adjustment>, item: OrderItem, rule: ItemRule)
    ensures KindTotal(ProcessedItem(a, item.quantity, item.product, rule), ReusablePackaging) == ItemAmount(item, rule)
  {
    DepositKindsGone(a);
    var deposit := ItemDeposit(item.quantity, item.product, rule);
    KindTotalAppend(WithoutDeposits(a), deposit, ReusablePackaging);
    if deposit != [] {
      assert deposit[1..] == [];
    }
  }

  /** After processing, the order's own deposit adjustments add up to the deposit total. */
  lemma ProcessedOrderDeposit(a: seq<Adjustment>, depositTotal: nat, customer: Customer, credit: nat)
    ensures KindTotal(ProcessedOrder(a, depositTotal, customer, credit), ReusablePackaging) == depositTotal
  {
    DepositKindsGone(a);
    var orderDeposit := [Adjustment(ReusablePackaging, OrderLabel, depositTotal, false)];
    var giveBack := GiveBackAdjustments(customer, credit, depositTotal);
    KindTotalAppend(WithoutDeposits(a), orderDeposit, ReusablePackaging);
    KindTotalAppend(WithoutDeposits(a) + orderDeposit, giveBack, ReusablePackaging);
    assert orderDeposit[1..] == [];
    if giveBack != [] {
      assert giveBack[1..] == [];
    }
  }

  /** When every item holds exactly its deposit, the items' deposits add up to the deposit total. */
  lemma {:induction false} ItemsKindTotalIsDepositTotal(items: seq<OrderItem>, rule: ItemRule)
    requires forall k :: 0 <= k < |items| ==> KindTotal(items[k].adjustments, ReusablePackaging) == ItemAmount(items[k], rule)
    ensures ItemsKindTotal(items, ReusablePackaging) == DepositTotal(items, rule)
  {
    if items != [] {
      ItemsKindTotalIsDepositTotal(items[1..], rule);
    }
  }

  lemma WithoutDepositsOfDeposits(a: seq<Adjustment>, b: seq<Adjustment>)
    requires forall x :: x in b ==> x.kind == ReusablePackaging || x.kind == GiveBack
    ensures WithoutDeposits(WithoutDeposits(a) + b) == WithoutDeposits(a)
  {
    var inner := WithoutDeposits(a);
    DepositKindsGone(a);
    WithoutKindNone(inner, ReusablePackaging);
    WithoutKindNone(inner, GiveBack);
    var giveBacks := WithoutKind(b, ReusablePackaging);
    WithoutKindMembers(b, ReusablePackaging);
    WithoutKindAll(giveBacks, GiveBack);
    WithoutKindAppend(inner, b, ReusablePackaging);
    WithoutKindAppend(inner, giveBacks, GiveBack);
    assert inner + [] == inner;
  }

  lemma {:induction false} WithoutKindAll(a: seq<Adjustment>, kind: AdjustmentType)
    requires forall x :: x in a ==> x.kind == kind
    ensures WithoutKind(a, kind) == []
  {
    if a != [] {
      assert a[0] in a;
      assert forall x :: x in a[1..] ==> x in a;
      WithoutKindAll(a[1..], kind);
    }
  }

  lemma {:induction false} WithoutKindNone(a: seq<Adjustment>, kind: AdjustmentType)
    requires forall x :: x in a ==> x.kind != kind
    ensures WithoutKind(a, kind) == a
  {
    if a != [] {
      assert a[0] in a;
      WithoutKindNone(a[1..], kind);
    }
  }

  /** Processing an item twice gives the same adjustments as processing it once. */
  lemma ProcessedItemIdempotent(a: seq<Adjustment>, quantity: nat, product: Product, rule: ItemRule)
    ensures ProcessedItem(ProcessedItem(a, quantity, product, rule), quantity, product, rule)
            == ProcessedItem(a, quantity, product, rule)
  {
    WithoutDepositsOfDeposits(a, ItemDeposit(quantity, product, rule));
  }

  /** Processing the order twice gives the same order-level adjustments as processing it once. */
  lemma ProcessedOrderIdempotent(a: seq<Adjustment>, depositTotal: nat, customer: Customer, credit: nat)
    ensures ProcessedOrder(ProcessedOrder(a, depositTotal, customer, credit), depositTotal, customer, credit)
            == ProcessedOrder(a, depositTotal, customer, credit)
  {
    var added := [Adjustment(ReusablePackaging, OrderLabel, depositTotal, false)]
                 + GiveBackAdjustments(customer, credit, depositTotal);
    assert ProcessedOrder(a, depositTotal, customer, credit) == WithoutDeposits(a) + added;
    WithoutDepositsOfDeposits(a, added);
  }

  /** The give-back never takes back more than the deposits charged. */
  lemma GiveBackIsCapped(customer: Customer, credit: nat, depositTotal: nat)
    ensures depositTotal + KindTotal(GiveBackAdjustments(customer, credit, depositTotal), GiveBack) >= 0
    ensures KindTotal(GiveBackAdjustments(customer, credit, depositTotal), GiveBack) <= 0
    ensures !customer.hasReusablePackagingUnitsForOrder ==> GiveBackAdjustments(customer, credit, depositTotal) == []
  {
    var g := GiveBackAdjustments(customer, credit, depositTotal);
    if g != [] {
      assert g[1..] == [];
    }
  }

  // ---------------------------------------------------------------------
  // The processor
  // ---------------------------------------------------------------------

  /**
   * `OrderDepositRefundProcessor::process`. `rule` prices an item's
   * deposit; `credit` is what the customer's returnable packagings are
   * worth, as reported by the packaging ledger.
   */
  method Process(order: Order, rule: ItemRule, credit: nat)
    requires order.Valid()
    modifies order, set i | i in order.items
    ensures !Applies(order.restaurant, order.reusablePackagingEnabled) ==>
              && order.adjustments == old(order.adjustments)
              && forall k :: 0 <= k < |order.items| ==> order.items[k].adjustments == old(order.items[k].adjustments)
    ensures Applies(order.restaurant, order.reusablePackagingEnabled) ==>
              && (forall k :: 0 <= k < |order.items| ==>
                    order.items[k].adjustments
                      == ProcessedItem(old(order.items[k].adjustments), order.items[k].quantity, order.items[k].product, rule))
              && order.adjustments
                   == ProcessedOrder(old(order.adjustments), DepositTotal(order.items, rule), order.customer, credit)
    // the order-level deposit is the sum of the item-level deposits
    ensures Applies(order.restaurant, order.reusablePackagingEnabled) ==>
              KindTotal(order.adjustments, ReusablePackaging) == ItemsKindTotal(order.items, ReusablePackaging)
  {
    ghost var itemsBefore := seq(|order.items|, k requires 0 <= k < |order.items| reads order.items => order.items[k].adjustments);
    if order.restaurant.None? {
      return;
    }
    if !order.restaurant.value.depositRefundEnabled {
      return;
    }
    if !order.reusablePackagingEnabled {
      return;
    }
    ApplyDeposits(order, rule, credit);
    DepositsAddUp(order.items, itemsBefore, old(order.adjustments), order.adjustments, rule, credit, order.customer);
  }

  /** The work of `Process` once its guards have passed. */
  method ApplyDeposits(order: Order, rule: ItemRule, credit: nat)
    requires order.Valid()
    modifies order, set i | i in order.items
    ensures forall k :: 0 <= k < |order.items| ==>
              order.items[k].adjustments
                == ProcessedItem(old(order.items[k].adjustments), order.items[k].quantity, order.items[k].product, rule)
    ensures order.adjustments
              == ProcessedOrder(old(order.adjustments), DepositTotal(order.items, rule), order.customer, credit)
  {
    var items := order.items;
    order.RemoveDeposits();
    var total := AddItemDeposits(items, rule);
    order.AddAdjustment(Adjustment(ReusablePackaging, OrderLabel, total, false));
    if order.customer.hasReusablePackagingUnitsForOrder {
      var giveBack := if credit < total then credit else total;
      order.AddAdjustment(Adjustment(GiveBack, GiveBackLabel, -giveBack, false));
    }
  }

  /** Adds each item's deposit adjustment and returns their sum. */
  method AddItemDeposits(items: seq<OrderItem>, rule: ItemRule) returns (total: nat)
    requires forall i, j :: 0 <= i < j < |items| ==> items[i] != items[j]
    modifies set i | i in items
    ensures total == DepositTotal(items, rule)
    ensures forall k :: 0 <= k < |items| ==>
              items[k].adjustments == old(items[k].adjustments) + ItemDeposit(items[k].quantity, items[k].product, rule)
  {
    total := 0;
    var n := 0;
    while n < |items|
      invariant 0 <= n <= |items|
      invariant total + DepositTotal(items[n..], rule) == DepositTotal(items, rule)
      invariant forall k :: 0 <= k < n ==>
                  items[k].adjustments == old(items[k].adjustments) + ItemDeposit(items[k].quantity, items[k].product, rule)
      invariant forall k :: n <= k < |items| ==> items[k].adjustments == old(items[k].adjustments)
    {
      var item := items[n];
      assert items[n..][1..] == items[n + 1..];
      if item.product.reusablePackagingEnabled {
        var amount := rule(item.quantity, item.product.reusablePackagingUnitHalves);
        item.AddAdjustment(Adjustment(ReusablePackaging, ItemLabel, amount, false));
        total := total + amount;
      } else {
        assert item.adjustments == old(item.adjustments) + [];
      }
      n := n + 1;
    }
  }

  /** The sum property of `Process`, from its description of the new adjustments. */
  lemma DepositsAddUp(items: seq<OrderItem>, itemsBefore: seq<seq<Adjustment>>, before: seq<Adjustment>, after: seq<Adjustment>,
                      rule: ItemRule, credit: nat, customer: Customer)
    requires |itemsBefore| == |items|
    requires forall k :: 0 <= k < |items| ==>
               items[k].adjustments == ProcessedItem(itemsBefore[k], items[k].quantity, items[k].product, rule)
    requires after == ProcessedOrder(before, DepositTotal(items, rule), customer, credit)
    ensures KindTotal(after, ReusablePackaging) == ItemsKindTotal(items, ReusablePackaging)
  {
    forall k | 0 <= k < |items|
      ensures KindTotal(items[k].adjustments, ReusablePackaging) == ItemAmount(items[k], rule)
    {
      ProcessedItemDeposit(itemsBefore[k], items[k], rule);
    }
    ItemsKindTotalIsDepositTotal(items, rule);
    ProcessedOrderDeposit(before, DepositTotal(items, rule), customer, credit);
  }

  // ---------------------------------------------------------------------
  // The cases fixed by the processor's tests
  // ---------------------------------------------------------------------

  /** The tests' two items: quantity 1 of a half packaging costs 100, quantity 2 of one packaging costs 200. */
  predicate FitsTests(rule: ItemRule)
  {
    rule(1, 1) == 100 && rule(2, 2) == 200
  }

  /** 100 per packaging, the item's packagings rounded up: 100 × ⌈quantity × unit⌉. */
  function CeilUnitsRule(quantity: nat, halves: nat): nat
  {
    100 * ((quantity * halves + 1) / 2)
  }

  /** 100 per packaging, each unit rounded up: 100 × quantity × ⌈unit⌉. */
  function CeilPerItemRule(quantity: nat, halves: nat): nat
  {
    100 * quantity * ((halves + 1) / 2)
  }

  lemma RoundedRulesFitTests()
    ensures FitsTests(CeilUnitsRule) && FitsTests(CeilPerItemRule)
  {
  }

  /**
   * No price per packaging, proportional to quantity × unit, fits both test
   * items: not even a rational price `num / den` whose amount is rounded down.
   * A price that gives 100 for half a packaging gives at least 400 for two.
   */
  lemma NoProportionalRuleFitsTests(num: int, den: int)
    requires den > 0
    ensures !FitsTests((quantity: nat, halves: nat) =>
                         if num * quantity * halves >= 0 then (num * quantity * halves) / (2 * den) else 0)
  {
    var d := 2 * den;
    if num * 1 * 1 >= 0 && (num * 1 * 1) / d == 100 {
      assert num == d * (num / d) + num % d;
      assert num >= 100 * d;
      assert num * 2 * 2 >= 400 * d;
      DivAtLeast(num * 2 * 2, d, 400);
    }
  }

  /** Euclidean division by a positive divisor: `a >= k × d` gives `a / d >= k`. */
  lemma DivAtLeast(a: int, d: int, k: int)
    requires d > 0 && a >= k * d
    ensures a / d >= k
  {
    var q := a / d;
    assert a == d * q + a % d && a % d < d;
    MulBelow(d, q, k);
  }

  /** Multiplying by a positive factor keeps `q < k`, in the form `d × (q + 1) <= d × k`. */
  lemma MulBelow(d: int, q: int, k: int)
    requires d > 0
    ensures q < k ==> d * (q + 1) <= d * k
  {
    if q < k {
      assert d * k - d * (q + 1) == d * (k - q - 1);
    }
  }

  /** With both test items, the order-level deposit is 300. */
  method TwoItemOrderScenario(rule: ItemRule) returns (order: Order)
    requires FitsTests(rule)
    ensures |order.items| == 2
    ensures KindTotal(order.adjustments, ReusablePackaging) == 300
    ensures KindTotal(order.items[0].adjustments, ReusablePackaging) == 100
    ensures KindTotal(order.items[1].adjustments, ReusablePackaging) == 200
    ensures KindTotal(order.adjustments, GiveBack) == 0
  {
    var item1 := new OrderItem(1, Product(true, 1));
    var item2 := new OrderItem(2, Product(true, 2));
    order := new Order(Some(Restaurant(true)), Customer(false), true, [item1, item2]);
    assert order.Valid();
    Process(order, rule, 0);
    assert DepositTotal([item1, item2], rule) == 300 by {
      assert [item1, item2][1..] == [item2];
      assert [item2][1..] == [];
      assert DepositTotal([item2], rule) == 200;
    }
    ProcessedItemDeposit([], item1, rule);
    ProcessedItemDeposit([], item2, rule);
    var added := [Adjustment(ReusablePackaging, OrderLabel, 300, false)];
    assert order.adjustments == WithoutDeposits([]) + added;
    assert WithoutDeposits([]) == [];
    assert added[1..] == [];
  }
}
