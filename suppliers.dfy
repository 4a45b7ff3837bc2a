/** Suppliers and their purchase orders: sequential identifiers, order totals,
    the closed set of order statuses and the per-supplier performance report.
    Timestamps are whole seconds on one clock; the current time is a parameter. */
module Suppliers {
  import opened Basics
  import opened Text
  import opened Values

  type Timestamp = int

  /** A supplier; payment terms "30 days", rating 5.0 and active by default. */
  datatype Supplier = Supplier(
    id: string,
    name: string,
    contactPerson: string,
    email: string,
    phone: string,
    address: string,
    paymentTerms: string,
    rating: real,
    active: bool,
    notes: string,
    createdAt: Timestamp,
    updatedAt: Timestamp)

  /** A purchase order; each item is a dictionary that may carry `quantity`
      and `unit_price`. */
  datatype PurchaseOrder = PurchaseOrder(
    id: string,
    supplierId: string,
    orderDate: Timestamp,
    expectedDelivery: Timestamp,
    items: seq<Value>,
    status: string,
    totalAmount: real,
    paymentStatus: string,
    notes: string,
    createdAt: Timestamp,
    updatedAt: Timestamp)

  /** The statuses `update_po_status` accepts. */
  const ValidStatuses: set<string> := {"pending", "confirmed", "shipped", "delivered", "cancelled"}

  /** `f"SUP{n:04d}"` */
  function SupplierId(n: nat): string {
    "SUP" + ZeroPad(n, 4)
  }

  /** `f"PO{n:06d}"` */
  function OrderId(n: nat): string {
    "PO" + ZeroPad(n, 6)
  }

  /** The keys are the generated identifiers 1, 2, ... in insertion order, as
      they are when every entry came from the add operation. */
  ghost predicate SequentialIds<V>(d: Entries<V>, id: nat -> string) {
    forall i :: 0 <= i < |d| ==> d[i].0 == id(i + 1)
  }

  /** Generated identifiers of different numbers differ. */
  lemma SupplierIdInjective(a: nat, b: nat)
    requires SupplierId(a) == SupplierId(b)
    ensures a == b
  {
    assert ZeroPad(a, 4) == SupplierId(a)[3..];
    assert ZeroPad(b, 4) == SupplierId(b)[3..];
    ZeroPadInjective(a, b, 4);
  }

  lemma OrderIdInjective(a: nat, b: nat)
    requires OrderId(a) == OrderId(b)
    ensures a == b
  {
    assert ZeroPad(a, 6) == OrderId(a)[2..];
    assert ZeroPad(b, 6) == OrderId(b)[2..];
    ZeroPadInjective(a, b, 6);
  }

  /** The next identifier is not yet a key, so storing under it appends, and
      the keys stay sequential and distinct. */
  lemma NextIdFresh<V>(d: Entries<V>, id: nat -> string, v: V)
    requires SequentialIds(d, id)
    requires forall a: nat, b: nat :: id(a) == id(b) ==> a == b
    ensures !HasKey(d, id(|d| + 1))
    ensures Put(d, id(|d| + 1), v) == d + [(id(|d| + 1), v)]
    ensures SequentialIds(Put(d, id(|d| + 1), v), id)
    ensures UniqueKeys(d)
  {
    var k := id(|d| + 1);
    assert forall i :: 0 <= i < |d| ==> d[i].0 != k;
    assert IndexOf(d, k) == |d|;
  }

  lemma SupplierIdsInjective()
    ensures forall a: nat, b: nat :: SupplierId(a) == SupplierId(b) ==> a == b
  {
    forall a: nat, b: nat | SupplierId(a) == SupplierId(b)
      ensures a == b
    {
      SupplierIdInjective(a, b);
    }
  }

  lemma OrderIdsInjective()
    ensures forall a: nat, b: nat :: OrderId(a) == OrderId(b) ==> a == b
  {
    forall a: nat, b: nat | OrderId(a) == OrderId(b)
      ensures a == b
    {
      OrderIdInjective(a, b);
    }
  }

  /** One keyword argument of `update_supplier`: a field of the supplier, or
      a keyword that names no field (ignored). */
  datatype SupplierUpdate =
    | SetId(id: string)
    | SetName(name: string)
    | SetContactPerson(contactPerson: string)
    | SetEmail(email: string)
    | SetPhone(phone: string)
    | SetAddress(address: string)
    | SetPaymentTerms(paymentTerms: string)
    | SetRating(rating: real)
    | SetActive(active: bool)
    | SetNotes(notes: string)
    | SetCreatedAt(createdAt: Timestamp)
    | SetUpdatedAt(updatedAt: Timestamp)
    | OtherKey(key: string)

  function ApplyUpdate(s: Supplier, u: SupplierUpdate): Supplier {
    match u
    case SetId(v) => s.(id := v)
    case SetName(v) => s.(name := v)
    case SetContactPerson(v) => s.(contactPerson := v)
    case SetEmail(v) => s.(email := v)
    case SetPhone(v) => s.(phone := v)
    case SetAddress(v) => s.(address := v)
    case SetPaymentTerms(v) => s.(paymentTerms := v)
    case SetRating(v) => s.(rating := v)
    case SetActive(v) => s.(active := v)
    case SetNotes(v) => s.(notes := v)
    case SetCreatedAt(v) => s.(createdAt := v)
    case SetUpdatedAt(v) => s.(updatedAt := v)
    case OtherKey(_) => s
  }

  /** The keyword arguments applied in order; a later one wins. */
  function ApplyUpdates(s: Supplier, us: seq<SupplierUpdate>): Supplier {
    if us == [] then s else ApplyUpdate(ApplyUpdates(s, us[..|us| - 1]), us[|us| - 1])
  }

  /** Keywords that name no field change nothing; the rating and the active
      flag change only through their own keywords. */
  lemma {:induction false} UpdatesTouchOnlyNamed(s: Supplier, us: seq<SupplierUpdate>)
    ensures (forall k :: 0 <= k < |us| ==> us[k].OtherKey?) ==> ApplyUpdates(s, us) == s
    ensures (forall k :: 0 <= k < |us| ==> !us[k].SetRating?) ==> ApplyUpdates(s, us).rating == s.rating
    ensures (forall k :: 0 <= k < |us| ==> !us[k].SetActive?) ==> ApplyUpdates(s, us).active == s.active
  {
    if us != [] {
      UpdatesTouchOnlyNamed(s, us[..|us| - 1]);
    }
  }

  /** A number as arithmetic sees it: `bool` counts as 0 or 1. */
  function Number(v: Value): Option<real> {
    match v
    case VBool(b) => Some(if b then 1.0 else 0.0)
    case VInt(i) => Some(i as real)
    case VFloat(r) => Some(r)
    case _ => None
  }

  /** `item.get('quantity', 0) * item.get('unit_price', 0)`: a missing key
      counts as 0; an item that is not a dictionary, or a factor that is not a
      number, makes the sum fail. */
  function LineAmount(item: Value): (r: Result<real>)
    ensures (item.VDict? && !HasKey(item.entries, "quantity")
             && Number(GetOr(item.entries, "unit_price", VInt(0))).Some?) ==> r == Ok(0.0)
    ensures (item.VDict? && !HasKey(item.entries, "unit_price")
             && Number(GetOr(item.entries, "quantity", VInt(0))).Some?) ==> r == Ok(0.0)
    ensures r.Ok? <==> item.VDict? && Number(GetOr(item.entries, "quantity", VInt(0))).Some?
                                    && Number(GetOr(item.entries, "unit_price", VInt(0))).Some?
  {
    if !item.VDict? then Err("item is not a dictionary")
    else
      var q := Number(GetOr(item.entries, "quantity", VInt(0)));
      var u := Number(GetOr(item.entries, "unit_price", VInt(0)));
      if q.None? || u.None? then Err("unsupported operand type")
      else Ok(q.value * u.value)
  }

  /** `sum(...)` of the line amounts, failing at the first line that fails. */
  function OrderTotal(items: seq<Value>): Result<real> {
    if items == [] then Ok(0.0)
    else
      var init := OrderTotal(items[..|items| - 1]);
      var last := LineAmount(items[|items| - 1]);
      if init.Err? then init
      else if last.Err? then last
      else Ok(init.value + last.value)
  }

  /** The total exists exactly when every line's amount does, and then it is
      their sum: appending a line adds its amount. */
  lemma {:induction false} OrderTotalOk(items: seq<Value>)
    ensures OrderTotal(items).Ok? <==> forall i :: 0 <= i < |items| ==> LineAmount(items[i]).Ok?
  {
    if items != [] {
      var init := items[..|items| - 1];
      OrderTotalOk(init);
      assert forall i :: 0 <= i < |init| ==> init[i] == items[i];
    }
  }

  /** Lines whose factors are all non-negative give a non-negative total. */
  lemma {:induction false} OrderTotalNonNegative(items: seq<Value>)
    requires forall i :: 0 <= i < |items| ==> LineAmount(items[i]).Ok? ==> LineAmount(items[i]).value >= 0.0
    ensures OrderTotal(items).Ok? ==> OrderTotal(items).value >= 0.0
  {
    if items != [] {
      var init := items[..|items| - 1];
      assert forall i :: 0 <= i < |init| ==> init[i] == items[i];
      OrderTotalNonNegative(init);
    }
  }

  /** Items without quantities (or without prices) total 0. */
  lemma {:induction false} OrderTotalOfUnpricedItems(items: seq<Value>)
    requires forall i :: 0 <= i < |items| ==> LineAmount(items[i]) == Ok(0.0)
    ensures OrderTotal(items) == Ok(0.0)
  {
    if items != [] {
      var init := items[..|items| - 1];
      assert forall i :: 0 <= i < |init| ==> init[i] == items[i];
      OrderTotalOfUnpricedItems(init);
    }
  }

  /** `get_supplier_order_history`: the orders of one supplier, in order. */
  function OrderHistory(orders: seq<PurchaseOrder>, supplierId: string): (r: seq<PurchaseOrder>)
    ensures forall po :: po in r <==> po in orders && po.supplierId == supplierId
    ensures |r| <= |orders|
  {
    Keep(orders, (po: PurchaseOrder) => po.supplierId == supplierId)
  }

  /** `get_pending_orders`: the orders whose status is "pending". */
  function PendingOrders(orders: seq<PurchaseOrder>): (r: seq<PurchaseOrder>)
    ensures forall po :: po in r <==> po in orders && po.status == "pending"
    ensures |r| <= |orders|
  {
    Keep(orders, (po: PurchaseOrder) => po.status == "pending")
  }

  /** `search_suppliers`: a case-insensitive substring of the name or of the
      contact person. */
  function SearchSuppliers(suppliers: seq<Supplier>, query: string): (r: seq<Supplier>)
    ensures forall s :: s in r <==> (s in suppliers
      && (IsSubstring(Lower(query), Lower(s.name)) || IsSubstring(Lower(query), Lower(s.contactPerson))))
  {
    var q := Lower(query);
    Keep(suppliers, (s: Supplier) => IsSubstring(q, Lower(s.name)) || IsSubstring(q, Lower(s.contactPerson)))
  }

  /** The empty query finds every supplier. */
  lemma SearchEmptyQuery(suppliers: seq<Supplier>)
    ensures forall s :: s in SearchSuppliers(suppliers, "") <==> s in suppliers
  {
    forall s | s in suppliers
      ensures IsSubstring(Lower(""), Lower(s.name))
    {
      EmptyIsSubstring(Lower(s.name));
    }
  }

  /** `(actual - expected).days`: whole days, rounded down, so a delivery a few
      hours late counts as 0 days and one a few hours early as -1. */
  function DelayDays(po: PurchaseOrder): int {
    (po.updatedAt - po.expectedDelivery) / 86400
  }

  lemma DelayDaysSign(po: PurchaseOrder)
    ensures DelayDays(po) <= 0 <==> po.updatedAt < po.expectedDelivery + 86400
  {
  }

  predicate OnTime(po: PurchaseOrder) {
    DelayDays(po) <= 0
  }

  /** How many of the orders arrived on time. */
  function OnTimeCount(ds: seq<PurchaseOrder>): (n: nat)
    ensures n <= |ds|
  {
    if ds == [] then 0
    else OnTimeCount(ds[..|ds| - 1]) + (if OnTime(ds[|ds| - 1]) then 1 else 0)
  }

  /** The days the late orders were late, summed. */
  function TotalDelay(ds: seq<PurchaseOrder>): nat {
    if ds == [] then 0
    else
      var last := ds[|ds| - 1];
      TotalDelay(ds[..|ds| - 1]) + (if OnTime(last) then 0 else DelayDays(last))
  }

  /** No delay accumulates exactly when every order was on time. */
  lemma {:induction false} NoDelayIffAllOnTime(ds: seq<PurchaseOrder>)
    ensures TotalDelay(ds) == 0 <==> OnTimeCount(ds) == |ds|
    ensures OnTimeCount(ds) == |ds| <==> forall i :: 0 <= i < |ds| ==> OnTime(ds[i])
  {
    if ds != [] {
      var init := ds[..|ds| - 1];
      NoDelayIffAllOnTime(init);
      assert forall i :: 0 <= i < |init| ==> init[i] == ds[i];
    }
  }

  /** Every late order adds at least one day. */
  lemma {:induction false} DelayCoversLateOrders(ds: seq<PurchaseOrder>)
    ensures TotalDelay(ds) >= |ds| - OnTimeCount(ds)
  {
    if ds != [] {
      DelayCoversLateOrders(ds[..|ds| - 1]);
    }
  }

  function SumAmounts(pos: seq<PurchaseOrder>): real {
    if pos == [] then 0.0 else SumAmounts(pos[..|pos| - 1]) + pos[|pos| - 1].totalAmount
  }

  function CountStatus(pos: seq<PurchaseOrder>, status: string): (n: nat)
    ensures n <= |pos|
  {
    if pos == [] then 0
    else CountStatus(pos[..|pos| - 1], status) + (if pos[|pos| - 1].status == status then 1 else 0)
  }

  /** The supplier's delivered orders, in order. */
  function Delivered(orders: seq<PurchaseOrder>, supplierId: string): (r: seq<PurchaseOrder>)
    ensures forall po :: po in r <==> po in orders && po.supplierId == supplierId && po.status == "delivered"
  {
    Keep(OrderHistory(orders, supplierId), (po: PurchaseOrder) => po.status == "delivered")
  }

  /** `k / n * 100` is a percentage, and a full one exactly when `k == n`. */
  lemma Percentage(k: nat, n: nat)
    requires 0 < n && k <= n
    ensures 0.0 <= k as real / n as real * 100.0 <= 100.0
    ensures k as real / n as real * 100.0 == 100.0 <==> k == n
  {
    var q := k as real / n as real;
    assert q * n as real == k as real;
    if q >= 1.0 {
      assert q * n as real >= 1.0 * n as real;
    }
  }

  /** The report of `get_supplier_performance`. */
  datatype Performance = Performance(
    supplierId: string,
    totalOrders: nat,
    totalValue: real,
    onTimeDeliveryRate: real,
    averageDelayDays: real,
    cancelledOrders: nat)

  /** The report for the supplier's orders: the rate is the percentage of
      delivered orders that were on time and the average spreads the late days
      over all delivered orders; both are 0 when nothing was delivered. */
  function PerformanceOf(orders: seq<PurchaseOrder>, supplierId: string): Performance {
    var mine := OrderHistory(orders, supplierId);
    var delivered := Delivered(orders, supplierId);
    var n := |delivered|;
    Performance(
      supplierId,
      |mine|,
      SumAmounts(mine),
      if n > 0 then OnTimeCount(delivered) as real / n as real * 100.0 else 0.0,
      if n > 0 then TotalDelay(delivered) as real / n as real else 0.0,
      CountStatus(mine, "cancelled"))
  }

  /** The rate is a percentage, the average delay is not negative, cancelled
      orders are among the supplier's orders, and a supplier without orders
      gets an all-zero report. */
  lemma PerformanceBounds(orders: seq<PurchaseOrder>, supplierId: string)
    ensures var r := PerformanceOf(orders, supplierId);
      0.0 <= r.onTimeDeliveryRate <= 100.0 && r.averageDelayDays >= 0.0
      && r.cancelledOrders <= r.totalOrders
      && r.totalOrders == |OrderHistory(orders, supplierId)|
    ensures OrderHistory(orders, supplierId) == [] ==>
      PerformanceOf(orders, supplierId) == Performance(supplierId, 0, 0.0, 0.0, 0.0, 0)
  {
    var delivered := Delivered(orders, supplierId);
    if |delivered| > 0 {
      Percentage(OnTimeCount(delivered), |delivered|);
    }
  }

  /** A full rate means every delivered order was on time, and then the
      average delay is 0. */
  lemma PerfectRate(orders: seq<PurchaseOrder>, supplierId: string)
    ensures PerformanceOf(orders, supplierId).onTimeDeliveryRate == 100.0 <==>
      (Delivered(orders, supplierId) != []
       && forall po :: po in Delivered(orders, supplierId) ==> OnTime(po))
    ensures PerformanceOf(orders, supplierId).onTimeDeliveryRate == 100.0 ==>
      PerformanceOf(orders, supplierId).averageDelayDays == 0.0
  {
    var delivered := Delivered(orders, supplierId);
    NoDelayIffAllOnTime(delivered);
    if |delivered| > 0 {
      Percentage(OnTimeCount(delivered), |delivered|);
    }
  }

  /** The `for` loop over the delivered orders: counts the on-time ones and
      adds up the days the others were late. */
  method DeliveryLoop(delivered: seq<PurchaseOrder>) returns (onTime: nat, totalDelay: nat)
    ensures onTime == OnTimeCount(delivered) && totalDelay == TotalDelay(delivered)
    ensures onTime <= |delivered|
  {
    onTime, totalDelay := 0, 0;
    var i := 0;
    while i < |delivered|
      invariant 0 <= i <= |delivered|
      invariant onTime == OnTimeCount(delivered[..i])
      invariant totalDelay == TotalDelay(delivered[..i])
    {
      var delay := DelayDays(delivered[i]);
      assert delivered[..i + 1][..i] == delivered[..i];
      if delay <= 0 {
        onTime := onTime + 1;
      } else {
        totalDelay := totalDelay + delay;
      }
      i := i + 1;
    }
    assert delivered[..i] == delivered;
  }

  class SupplierManager {
    var suppliers: Entries<Supplier>
    var purchaseOrders: Entries<PurchaseOrder>

    /** Keys are the generated identifiers, in order, and every order's status
        is one of the valid ones. */
    ghost predicate Valid()
      reads this
    {
      SequentialIds(suppliers, SupplierId) && SequentialIds(purchaseOrders, OrderId)
      && (forall i :: 0 <= i < |purchaseOrders| ==> purchaseOrders[i].1.status in ValidStatuses)
    }

    constructor ()
      ensures Valid() && suppliers == [] && purchaseOrders == []
    {
      suppliers := [];
      purchaseOrders := [];
    }

    /** `add_supplier`: the next `SUPnnnn` identifier, which no supplier has
        yet; rating 5.0, active and no notes, as the record's defaults;
        both timestamps are the current time. */
    method AddSupplier(name: string, contactPerson: string, email: string, phone: string, address: string,
                       paymentTerms: string, now: Timestamp)
      returns (id: string)
      requires Valid()
      modifies this
      ensures Valid()
      ensures id == SupplierId(|old(suppliers)| + 1) && !HasKey(old(suppliers), id)
      ensures suppliers == old(suppliers) + [(id, Supplier(id, name, contactPerson, email, phone, address,
                                                            paymentTerms, 5.0, true, "", now, now))]
      ensures Lookup(suppliers, id).Some? && Lookup(suppliers, id).value.rating == 5.0
      ensures Lookup(suppliers, id).value.active && Lookup(suppliers, id).value.notes == ""
      ensures purchaseOrders == old(purchaseOrders)
    {
      id := SupplierId(|suppliers| + 1);
      var s := Supplier(id, name, contactPerson, email, phone, address, paymentTerms, 5.0, true, "", now, now);
      SupplierIdsInjective();
      NextIdFresh(suppliers, SupplierId, s);
      LookupPut(suppliers, id, s, id);
      suppliers := Put(suppliers, id, s);
    }

    /** `update_supplier`: false for an unknown id; otherwise the keyword
        updates in order, then `updated_at` becomes the current time. The
        dictionary keys do not change. */
    method UpdateSupplier(id: string, updates: seq<SupplierUpdate>, now: Timestamp) returns (ok: bool)
      requires Valid()
      modifies this
      ensures Valid()
      ensures ok == HasKey(old(suppliers), id)
      ensures !ok ==> suppliers == old(suppliers)
      ensures ok ==> suppliers == Put(old(suppliers), id,
        ApplyUpdates(Lookup(old(suppliers), id).value, updates).(updatedAt := now))
      ensures KeysOf(suppliers) == KeysOf(old(suppliers))
      ensures purchaseOrders == old(purchaseOrders)
    {
      if !HasKey(suppliers, id) {
        return false;
      }
      var s0 := Lookup(suppliers, id).value;
      var s := s0;
      var i := 0;
      while i < |updates|
        invariant 0 <= i <= |updates|
        invariant s == ApplyUpdates(s0, updates[..i])
      {
        s := ApplyUpdate(s, updates[i]);
        assert updates[..i + 1][..i] == updates[..i];
        i := i + 1;
      }
      assert updates[..i] == updates;
      s := s.(updatedAt := now);
      var j := IndexOf(suppliers, id);
      suppliers := Put(suppliers, id, s);
      assert suppliers == old(suppliers)[j := (id, s)];
      return true;
    }

    /** `create_purchase_order`: an unknown supplier or an item whose amount
        cannot be computed fails and stores nothing; otherwise the order gets
        the next `POnnnnnn` identifier, status "pending", payment "unpaid", the
        items' total, and the current time as order date and both timestamps. */
    method CreatePurchaseOrder(supplierId: string, items: seq<Value>, expectedDelivery: Timestamp, now: Timestamp)
      returns (r: Result<string>)
      requires Valid()
      modifies this
      ensures Valid()
      ensures !HasKey(suppliers, supplierId) ==> r == Err("Invalid supplier ID")
      ensures r.Ok? <==> HasKey(suppliers, supplierId) && OrderTotal(items).Ok?
      ensures r.Err? ==> purchaseOrders == old(purchaseOrders)
      ensures r.Ok? ==> r.value == OrderId(|old(purchaseOrders)| + 1) && !HasKey(old(purchaseOrders), r.value)
      ensures r.Ok? ==> purchaseOrders == old(purchaseOrders) + [(r.value,
        PurchaseOrder(r.value, supplierId, now, expectedDelivery, items, "pending", OrderTotal(items).value,
                      "unpaid", "", now, now))]
      ensures suppliers == old(suppliers)
    {
      if !HasKey(suppliers, supplierId) {
        return Err("Invalid supplier ID");
      }
      var id := OrderId(|purchaseOrders| + 1);
      var total := OrderTotal(items);
      if total.Err? {
        return Err(total.message);
      }
      var po := PurchaseOrder(id, supplierId, now, expectedDelivery, items, "pending", total.value,
                              "unpaid", "", now, now);
      OrderIdsInjective();
      NextIdFresh(purchaseOrders, OrderId, po);
      purchaseOrders := Put(purchaseOrders, id, po);
      return Ok(id);
    }

    /** `update_po_status`: false for an unknown order; a status outside the
        valid set fails and changes nothing; otherwise the status is set, the
        notes are replaced only by non-empty notes, and `updated_at` becomes
        the current time. */
    method UpdatePoStatus(poId: string, status: string, notes: string, now: Timestamp) returns (r: Result<bool>)
      requires Valid()
      modifies this
      ensures Valid()
      ensures r == (if !HasKey(old(purchaseOrders), poId) then Ok(false)
                    else if status !in ValidStatuses then Err("Invalid status")
                    else Ok(true))
      ensures r != Ok(true) ==> purchaseOrders == old(purchaseOrders)
      ensures r == Ok(true) ==>
        var po := Lookup(old(purchaseOrders), poId).value;
        purchaseOrders == Put(old(purchaseOrders), poId,
          po.(status := status, notes := if notes != "" then notes else po.notes, updatedAt := now))
      ensures KeysOf(purchaseOrders) == KeysOf(old(purchaseOrders))
      ensures suppliers == old(suppliers)
    {
      if !HasKey(purchaseOrders, poId) {
        return Ok(false);
      }
      if status !in ValidStatuses {
        return Err("Invalid status");
      }
      var po := Lookup(purchaseOrders, poId).value;
      po := po.(status := status);
      if notes != "" {
        po := po.(notes := notes);
      }
      po := po.(updatedAt := now);
      var j := IndexOf(purchaseOrders, poId);
      purchaseOrders := Put(purchaseOrders, poId, po);
      assert purchaseOrders == old(purchaseOrders)[j := (poId, po)];
      return Ok(true);
    }

    /** `get_supplier_performance`: fails for an unknown supplier; otherwise
        the report over that supplier's orders. */
    method GetSupplierPerformance(supplierId: string) returns (r: Result<Performance>)
      ensures r == if HasKey(suppliers, supplierId) then Ok(PerformanceOf(ValuesOf(purchaseOrders), supplierId))
                   else Err("Invalid supplier ID")
    {
      if !HasKey(suppliers, supplierId) {
        return Err("Invalid supplier ID");
      }
      var mine := OrderHistory(ValuesOf(purchaseOrders), supplierId);
      if |mine| == 0 {
        PerformanceBounds(ValuesOf(purchaseOrders), supplierId);
        return Ok(Performance(supplierId, 0, 0.0, 0.0, 0.0, 0));
      }
      var totalValue := SumAmounts(mine);
      var cancelled := CountStatus(mine, "cancelled");
      var delivered := Delivered(ValuesOf(purchaseOrders), supplierId);
      var onTime, totalDelay := DeliveryLoop(delivered);
      var n := |delivered|;
      var rate := if n > 0 then onTime as real / n as real * 100.0 else 0.0;
      var average := if n > 0 then totalDelay as real / n as real else 0.0;
      return Ok(Performance(supplierId, |mine|, totalValue, rate, average, cancelled));
    }
  }
}
