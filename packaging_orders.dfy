/**
  The packaging team's order list: every order that is PAYMENT_VERIFIED or
  PACKING, highest id first, with its items priced for the export invoice.
  An item's INR unit price is the rate of the product's purchase line with
  the highest id (its "latest" rate) plus 15 %,
  rounded to paise; its amount is that unit price times the quantity, also
  rounded; the order's INR total adds the amounts up, counting a missing
  amount as 0. Money is exact here: `Math.round(x * 100) / 100` is rounding
  half up to two decimals on real numbers.
 */
module PackagingOrders {
  import opened Common
  import opened Db

  // ---------------------------------------------------------------- rounding

  /** `Math.round(x * 100) / 100`: to two decimals, halves rounded up. */
  function Round2(x: real): real
  {
    (x * 100.0 + 0.5).Floor as real / 100.0
  }

  /** Rounding moves a value by at most half a paisa: down by less than 0.005, up by at most 0.005. */
  lemma Round2Bounds(x: real)
    ensures x - 0.005 < Round2(x) <= x + 0.005
  {
    var f := (x * 100.0 + 0.5).Floor;
    assert f as real <= x * 100.0 + 0.5 < f as real + 1.0;
  }

  /** A value already in whole paise is left alone, so rounding twice is rounding once. */
  lemma Round2Idempotent(x: real)
    ensures Round2(Round2(x)) == Round2(x)
  {
    var f := (x * 100.0 + 0.5).Floor;
    assert Round2(x) * 100.0 == f as real;
    assert (f as real + 0.5).Floor == f;
  }

  // ---------------------------------------------------------------- item rows

  /** One line of the export invoice, as the packaging page receives it. */
  datatype ItemRow = ItemRow(
    productId: Id, productName: string,
    composition: Option<string>, manufacturer: Option<string>, hsn: Option<string>, pack: Option<string>,
    gstPercent: Option<real>, batchNo: Option<string>, mfgDate: Option<string>, expDate: Option<string>,
    quantity: real, sellingPrice: real,
    latestRate: Option<real>, inrUnit: Option<real>, amount: Option<real>)

  /** The product's purchase line with the highest id (`orderBy: { id: "desc" }, take: 1`). */
  function LatestPurchase(purchaseItems: seq<PurchaseItem>, pid: Id): (r: Option<nat>)
    ensures r.Some? ==> r.value < |purchaseItems| && purchaseItems[r.value].productId == pid
    ensures r.Some? ==> forall j :: r.value < j < |purchaseItems| ==> purchaseItems[j].productId != pid
    ensures r.None? ==> forall j :: 0 <= j < |purchaseItems| ==> purchaseItems[j].productId != pid
  {
    if purchaseItems == [] then None
    else if purchaseItems[|purchaseItems| - 1].productId == pid then Some(|purchaseItems| - 1)
    else LatestPurchase(purchaseItems[..|purchaseItems| - 1], pid)
  }

  /** `PurchaseItems[0]?.rate ?? null`. */
  function LatestRate(purchaseItems: seq<PurchaseItem>, pid: Id): Option<real>
  {
    match LatestPurchase(purchaseItems, pid)
    case None => None
    case Some(i) => Some(purchaseItems[i].rate)
  }

  /** `rate ? Math.round(rate * 1.15 * 100) / 100 : null`. */
  function InrUnit(rate: Option<real>): Option<real>
  {
    if TruthyNum(rate) then Some(Round2(rate.value * 1.15)) else None
  }

  /** `inrUnit ? Math.round(inrUnit * quantity * 100) / 100 : null`. */
  function Amount(inrUnit: Option<real>, quantity: real): Option<real>
  {
    if TruthyNum(inrUnit) then Some(Round2(inrUnit.value * quantity)) else None
  }

  /**
    The INR unit price is missing exactly when the product was never bought
    or its latest rate is 0; otherwise it is the rate plus 15 %, to within
    half a paisa.
   */
  lemma InrUnitRule(purchaseItems: seq<PurchaseItem>, pid: Id)
    ensures var rate := LatestRate(purchaseItems, pid); var u := InrUnit(rate);
      && (u.None? <==> (forall j :: 0 <= j < |purchaseItems| ==> purchaseItems[j].productId != pid) || rate == Some(0.0))
      && (u.Some? ==> rate.value * 1.15 - 0.005 < u.value <= rate.value * 1.15 + 0.005)
  {
    var rate := LatestRate(purchaseItems, pid);
    if TruthyNum(rate) {
      Round2Bounds(rate.value * 1.15);
    }
  }

  /**
    The amount is missing exactly when the unit price is missing or 0. So a
    missing unit price always gives a missing amount, but a unit price that
    rounds to 0 (a latest rate below 0.005 / 1.15) gives a unit price of 0
    with no amount.
   */
  lemma AmountRule(inrUnit: Option<real>, quantity: real)
    ensures Amount(inrUnit, quantity).None? <==> inrUnit.None? || inrUnit.value == 0.0
    ensures inrUnit.None? ==> Amount(inrUnit, quantity).None?
    ensures Amount(inrUnit, quantity).Some? ==>
      inrUnit.value * quantity - 0.005 < Amount(inrUnit, quantity).value <= inrUnit.value * quantity + 0.005
  {
    if TruthyNum(inrUnit) {
      Round2Bounds(inrUnit.value * quantity);
    }
  }

  /** A latest rate of 0.004 gives a unit price of exactly 0 and no amount. */
  lemma TinyRateExample()
    ensures InrUnit(Some(0.004)) == Some(0.0)
    ensures Amount(InrUnit(Some(0.004)), 10.0).None?
  {
    assert (0.004 * 1.15 * 100.0 + 0.5).Floor == 0;
  }

  /** The row for one entry item; the product is the one the item refers to. */
  function ItemRowOf(item: EntryItem, products: seq<Product>, purchaseItems: seq<PurchaseItem>): (row: ItemRow)
    requires item.productId < |products|
    ensures row.productId == item.productId && row.quantity == item.quantity && row.sellingPrice == item.sellingPrice
    ensures row.latestRate == LatestRate(purchaseItems, item.productId)
    ensures row.inrUnit == InrUnit(row.latestRate) && row.amount == Amount(row.inrUnit, row.quantity)
  {
    var p := products[item.productId];
    var rate := LatestRate(purchaseItems, item.productId);
    var inrUnit := InrUnit(rate);
    ItemRow(item.productId, p.name, p.composition, p.manufacturer, p.hsn, p.pack, p.gstPercent,
            p.batchNo, p.mfgDate, p.expDate, item.quantity, item.sellingPrice,
            rate, inrUnit, Amount(inrUnit, item.quantity))
  }

  /** `entry?.items.map(...) ?? []`. */
  function ItemRows(entry: Option<OrderEntry>, products: seq<Product>, purchaseItems: seq<PurchaseItem>): (rows: seq<ItemRow>)
    requires entry.Some? ==> forall j :: 0 <= j < |entry.value.items| ==> entry.value.items[j].productId < |products|
    ensures entry.None? ==> rows == []
    ensures entry.Some? ==> |rows| == |entry.value.items|
    ensures entry.Some? ==> forall j :: 0 <= j < |rows| ==> rows[j] == ItemRowOf(entry.value.items[j], products, purchaseItems)
  {
    match entry
    case None => []
    case Some(e) => seq(|e.items|, j requires 0 <= j < |e.items| => ItemRowOf(e.items[j], products, purchaseItems))
  }

  /** `amount ?? 0`. */
  function AmountOrZero(row: ItemRow): real
  {
    row.amount.GetOr(0.0)
  }

  /** `items.reduce((s, i) => s + (i.amount ?? 0), 0)`: a left fold. */
  function SumAmounts(rows: seq<ItemRow>): real
  {
    if rows == [] then 0.0 else SumAmounts(rows[..|rows| - 1]) + AmountOrZero(rows[|rows| - 1])
  }

  /** The sum over two runs of rows is the sum of the sums. */
  lemma {:induction false} SumAmountsAppend(a: seq<ItemRow>, b: seq<ItemRow>)
    ensures SumAmounts(a + b) == SumAmounts(a) + SumAmounts(b)
    decreases |b|
  {
    if b == [] {
      assert a + b == a;
    } else {
      assert (a + b)[..|a + b| - 1] == a + b[..|b| - 1];
      SumAmountsAppend(a, b[..|b| - 1]);
    }
  }

  /** Rows without an amount add nothing; with all amounts missing the total is 0. */
  lemma {:induction false} SumOfMissingAmounts(rows: seq<ItemRow>)
    requires forall j :: 0 <= j < |rows| ==> rows[j].amount.None?
    ensures SumAmounts(rows) == 0.0
  {
    if rows != [] {
      SumOfMissingAmounts(rows[..|rows| - 1]);
    }
  }

  // ---------------------------------------------------------------- order rows

  /** One order as the packaging page receives it. */
  datatype OrderRow = OrderRow(
    id: Id, invoiceNo: Option<string>, invoiceGeneratedAt: Option<Time>, status: OrderStatus,
    contact: Contact, remitterName: Option<string>, amountPaid: real, currency: string,
    exchangeRate: real, dollarAmount: Option<real>, inrAmount: Option<real>, createdAt: Time,
    shipmentMode: Option<string>, shippingPrice: real, items: seq<ItemRow>,
    totalInr: real, totalUsd: Option<real>)

  predicate EntryRefsValid(entry: Option<OrderEntry>, nProducts: nat)
  {
    entry.Some? ==> forall j :: 0 <= j < |entry.value.items| ==> entry.value.items[j].productId < nProducts
  }

  /** The row for one order and its entry, if it has one. */
  function OrderRowOf(id: Id, o: Order, entry: Option<OrderEntry>, products: seq<Product>,
                      purchaseItems: seq<PurchaseItem>): OrderRow
    requires EntryRefsValid(entry, |products|)
  {
    var items := ItemRows(entry, products, purchaseItems);
    OrderRow(
      id, o.invoiceNo, o.invoiceGeneratedAt, o.status, o.contact, o.remitterName, o.amountPaid, o.currency,
      NumOr(o.exchangeRate, 84.0), NumOrNull(o.dollarAmount), NumOrNull(o.inrAmount), o.createdAt,
      if entry.Some? then Some(entry.value.shipmentMode) else None,
      if entry.Some? then entry.value.shippingPrice else 0.0,
      items, Round2(SumAmounts(items)), NumOrNull(o.dollarAmount))
  }

  /**
    The defaults of an order row: exchange rate 84 when missing or 0, dollar
    and INR amounts of 0 sent as null, the USD total equal to the dollar
    amount, and without an entry no items, total 0, shipping 0 and no mode.
   */
  lemma OrderRowDefaults(id: Id, o: Order, entry: Option<OrderEntry>, products: seq<Product>,
                         purchaseItems: seq<PurchaseItem>)
    requires EntryRefsValid(entry, |products|)
    ensures var row := OrderRowOf(id, o, entry, products, purchaseItems);
      && (TruthyNum(o.exchangeRate) ==> row.exchangeRate == o.exchangeRate.value)
      && (!TruthyNum(o.exchangeRate) ==> row.exchangeRate == 84.0)
      && (row.dollarAmount.None? <==> !TruthyNum(o.dollarAmount))
      && (row.inrAmount.None? <==> !TruthyNum(o.inrAmount))
      && row.totalUsd == row.dollarAmount
      && (entry.None? ==> row.items == [] && row.totalInr == 0.0 && row.shippingPrice == 0.0 && row.shipmentMode.None?)
      && (entry.Some? ==> |row.items| == |entry.value.items| && row.shipmentMode == Some(entry.value.shipmentMode))
  {
    var row := OrderRowOf(id, o, entry, products, purchaseItems);
    if entry.None? {
      assert row.items == [];
      assert Round2(0.0) == 0.0 by {
        assert (0.0 * 100.0 + 0.5).Floor == 0;
      }
    }
  }

  /** The INR total is the rounded sum of the item amounts, so it is within half a paisa of that sum. */
  lemma TotalInrRule(id: Id, o: Order, entry: Option<OrderEntry>, products: seq<Product>,
                     purchaseItems: seq<PurchaseItem>)
    requires EntryRefsValid(entry, |products|)
    ensures var row := OrderRowOf(id, o, entry, products, purchaseItems);
      SumAmounts(row.items) - 0.005 < row.totalInr <= SumAmounts(row.items) + 0.005
  {
    Round2Bounds(SumAmounts(OrderRowOf(id, o, entry, products, purchaseItems).items));
  }

  // ---------------------------------------------------------------- the list

  /** The statuses the list shows. */
  predicate Listed(s: OrderStatus)
  {
    s == PaymentVerified || s == Packing
  }

  /**
    The ids of the listed orders, highest id first: the `where`
    and `orderBy: { id: "desc" }` of the query.
   */
  function ListedIds(orders: seq<Order>): (ids: seq<Id>)
    ensures forall k :: 0 <= k < |ids| ==> ids[k] < |orders| && Listed(orders[ids[k]].status)
    ensures forall i :: 0 <= i < |orders| && Listed(orders[i].status) ==> i in ids
    ensures forall k, l :: 0 <= k < l < |ids| ==> ids[k] > ids[l]
  {
    if orders == [] then []
    else
      var last := |orders| - 1;
      var rest := ListedIds(orders[..last]);
      assert forall k :: 0 <= k < |rest| ==> rest[k] < last;
      (if Listed(orders[last].status) then [last] else []) + rest
  }

  const PackagingRoles: seq<Role> := [Admin, Manager, Packaging]

  /** The rows for a list of order ids. */
  function RowsFor(ids: seq<Id>, orders: seq<Order>, entries: map<Id, OrderEntry>, products: seq<Product>,
                   purchaseItems: seq<PurchaseItem>): (rows: seq<OrderRow>)
    requires forall k :: 0 <= k < |ids| ==> ids[k] < |orders|
    requires EntriesValid(entries, |orders|, |products|)
    ensures |rows| == |ids|
    ensures forall k :: 0 <= k < |ids| ==>
      rows[k] == OrderRowOf(ids[k], orders[ids[k]], if ids[k] in entries then Some(entries[ids[k]]) else None,
                            products, purchaseItems)
  {
    seq(|ids|, k requires 0 <= k < |ids| =>
      OrderRowOf(ids[k], orders[ids[k]], if ids[k] in entries then Some(entries[ids[k]]) else None,
                 products, purchaseItems))
  }

  /** `GET /api/packaging/orders`. */
  function PackagingOrderList(session: Option<SessionUser>, orders: seq<Order>, entries: map<Id, OrderEntry>,
                              products: seq<Product>, purchaseItems: seq<PurchaseItem>): Reply<seq<OrderRow>>
    requires EntriesValid(entries, |orders|, |products|)
  {
    if !RoleGate(session, PackagingRoles) then Fail(403, "Forbidden")
    else Ok(RowsFor(ListedIds(orders), orders, entries, products, purchaseItems))
  }

  /**
    Who sees what: callers outside ADMIN, MANAGER and PACKAGING are refused;
    everyone else gets one row per PAYMENT_VERIFIED or PACKING order and no
    other, each carrying its order's id and status, highest id first.
   */
  lemma PackagingOrderListSpec(session: Option<SessionUser>, orders: seq<Order>, entries: map<Id, OrderEntry>,
                               products: seq<Product>, purchaseItems: seq<PurchaseItem>)
    requires EntriesValid(entries, |orders|, |products|)
    ensures var r := PackagingOrderList(session, orders, entries, products, purchaseItems);
      && (!RoleGate(session, PackagingRoles) ==> r == Fail(403, "Forbidden"))
      && (RoleGate(session, PackagingRoles) ==>
            (&& r.Ok?
             && (forall k :: 0 <= k < |r.value| ==>
                   r.value[k].id < |orders| && r.value[k].status == orders[r.value[k].id].status
                   && Listed(r.value[k].status))
             && (forall i :: 0 <= i < |orders| && Listed(orders[i].status) ==>
                   exists k :: 0 <= k < |r.value| && r.value[k].id == i)
             && (forall k, l :: 0 <= k < l < |r.value| ==> r.value[k].id > r.value[l].id)))
  {
    if RoleGate(session, PackagingRoles) {
      var ids := ListedIds(orders);
      var rows := RowsFor(ids, orders, entries, products, purchaseItems);
      forall i | 0 <= i < |orders| && Listed(orders[i].status)
        ensures exists k :: 0 <= k < |rows| && rows[k].id == i
      {
        var k :| 0 <= k < |ids| && ids[k] == i;
        assert rows[k].id == i;
      }
    }
  }
}
