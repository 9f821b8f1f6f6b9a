/**
  `POST /api/order-entry`: the sales team completes an order with its
  shipment details and line items. The request is checked in a fixed order
  (order id, shipment mode, a non-empty item list, then each item in turn);
  the order's single entry is then created or, when it exists, overwritten
  with its old items deleted, and the order moves to SALES_UPDATED.
 */
module OrderEntryRoute {
  import opened Common
  import opened Db

  /** One submitted line; `quantity` and `sellingPrice` are the request's numbers, each possibly absent. */
  datatype ItemInput = ItemInput(productId: Option<Id>, quantity: Option<real>, sellingPrice: Option<real>)

  /** The request body; `items` is None when it is not an array. */
  datatype EntryInput = EntryInput(
    orderId: Option<Id>, shippingPrice: Option<real>, shipmentMode: Option<string>, notes: Option<string>,
    items: Option<seq<ItemInput>>)

  /** The ORM's error when a write names a product or an order that does not exist. */
  const MissingRecord := "Foreign key constraint failed"

  /**
    The values of the `ShipmentMode` enum the entry's column is declared with,
    taken to be the four the order-entry form offers.
   */
  const ShipmentModes: set<string> := {"EMS", "ITPS", "RMS", "DHL"}

  /** The ORM's error when the shipment mode is not a value of its enum. */
  const InvalidShipmentMode := "Invalid value for argument `shipmentMode`"

  /** An item with a product, a positive quantity and a selling price. */
  predicate ValidItem(it: ItemInput)
  {
    it.productId.Some? && it.quantity.Some? && it.quantity.value > 0.0 && it.sellingPrice.Some?
  }

  /** The check of one item: its first failing condition, if any. */
  function ItemError(it: ItemInput): (e: Option<string>)
    ensures e.None? <==> ValidItem(it)
  {
    if it.productId.None? then Some("productId required")
    else if !TruthyNum(it.quantity) || it.quantity.value <= 0.0 then Some("quantity must be > 0")
    else if it.sellingPrice.None? then Some("sellingPrice required")
    else None
  }

  /** The error of the first item that fails its check, in submission order. */
  function FirstItemError(items: seq<ItemInput>): (e: Option<string>)
    ensures e.None? <==> forall i :: 0 <= i < |items| ==> ValidItem(items[i])
  {
    if items == [] then None
    else if ItemError(items[0]).Some? then ItemError(items[0])
    else FirstItemError(items[1..])
  }

  /** The item validation loop: stops at the first item that fails. */
  method ValidateItems(items: seq<ItemInput>) returns (e: Option<string>)
    ensures e == FirstItemError(items)
  {
    var i := 0;
    while i < |items|
      invariant 0 <= i <= |items|
      invariant FirstItemError(items) == FirstItemError(items[i..])
    {
      assert items[i..][1..] == items[i + 1..];
      var err := ItemError(items[i]);
      if err.Some? {
        return err;
      }
      i := i + 1;
    }
    return None;
  }

  /** The first validation error of the request, checked in the handler's order. */
  function RequestError(req: EntryInput): Option<string>
  {
    if req.orderId.None? then Some("orderId required")
    else if !Truthy(req.shipmentMode) then Some("shipmentMode required")
    else if req.items.None? || req.items.value == [] then Some("At least 1 item required")
    else FirstItemError(req.items.value)
  }

  /** The stored item of a valid line: its product, `Number(quantity)` and `String(sellingPrice)`. */
  function EntryItemOf(it: ItemInput): EntryItem
    requires ValidItem(it)
  {
    EntryItem(it.productId.value, it.quantity.value, it.sellingPrice.value)
  }

  /** The stored items of a valid item list, one per line in order. */
  function EntryItems(items: seq<ItemInput>): (r: seq<EntryItem>)
    requires forall i :: 0 <= i < |items| ==> ValidItem(items[i])
    ensures |r| == |items|
    ensures forall i :: 0 <= i < |items| ==> r[i] == EntryItemOf(items[i])
  {
    seq(|items|, i requires 0 <= i < |items| && ValidItem(items[i]) => EntryItemOf(items[i]))
  }

  /** The entry a valid request writes, the same on create and on update. */
  function EntryOf(req: EntryInput): OrderEntry
    requires RequestError(req).None?
  {
    OrderEntry(req.shipmentMode.value, NumOr(req.shippingPrice, 0.0), OrNull(req.notes), EntryItems(req.items.value))
  }

  predicate ProductsExist(items: seq<EntryItem>, nProducts: nat)
  {
    forall i :: 0 <= i < |items| ==> items[i].productId < nProducts
  }

  datatype EntryOutcome = EntryOutcome(reply: Reply<Id>, orders: seq<Order>, entries: map<Id, OrderEntry>)

  /** The handler on the tables it touches; the reply carries the entry's order id. */
  function EntryStep(orders: seq<Order>, entries: map<Id, OrderEntry>, nProducts: nat, req: EntryInput): EntryOutcome
  {
    match RequestError(req)
    case Some(e) => EntryOutcome(Fail(400, e), orders, entries)
    case None =>
      var id := req.orderId.value;
      var entry := EntryOf(req);
      if req.shipmentMode.value !in ShipmentModes then
        EntryOutcome(Fail(500, InvalidShipmentMode), orders, entries)
      else if id >= |orders| || !ProductsExist(entry.items, nProducts) then
        EntryOutcome(Fail(500, MissingRecord), orders, entries)
      else
        EntryOutcome(Ok(id), orders[id := orders[id].(status := SalesUpdated)], entries[id := entry])
  }

  /** The handler: validate, upsert the entry replacing its items, then set the order's status. */
  method PostOrderEntry(db: Database, req: EntryInput) returns (r: Reply<Id>)
    modifies db`orders, db`entries
    ensures EntryOutcome(r, db.orders, db.entries) == EntryStep(old(db.orders), old(db.entries), |db.products|, req)
  {
    if req.orderId.None? {
      return Fail(400, "orderId required");
    }
    if !Truthy(req.shipmentMode) {
      return Fail(400, "shipmentMode required");
    }
    if req.items.None? || req.items.value == [] {
      return Fail(400, "At least 1 item required");
    }
    var err := ValidateItems(req.items.value);
    if err.Some? {
      return Fail(400, err.value);
    }
    var id := req.orderId.value;
    var entry := EntryOf(req);
    if req.shipmentMode.value !in ShipmentModes {
      return Fail(500, InvalidShipmentMode);
    }
    if id >= |db.orders| || !ProductsExist(entry.items, |db.products|) {
      return Fail(500, MissingRecord);
    }
    db.entries := db.entries[id := entry];
    db.orders := db.orders[id := db.orders[id].(status := SalesUpdated)];
    return Ok(id);
  }

  // ---------------------------------------------------------------- properties

  /**
    The checks run in order, each answering 400: the order id, then the
    shipment mode, then a non-empty item list, then the items one by one. A
    request that passes them with a shipment mode outside the enum fails in
    the upsert with 500. A refused or failed request writes nothing.
   */
  lemma ValidationOrder(orders: seq<Order>, entries: map<Id, OrderEntry>, nProducts: nat, req: EntryInput)
    ensures var out := EntryStep(orders, entries, nProducts, req);
      && (out.reply.Fail? ==> out.orders == orders && out.entries == entries)
      && (req.orderId.None? ==> out.reply == Fail(400, "orderId required"))
      && (req.orderId.Some? && !Truthy(req.shipmentMode) ==> out.reply == Fail(400, "shipmentMode required"))
      && (req.orderId.Some? && Truthy(req.shipmentMode) && (req.items.None? || req.items.value == []) ==>
            out.reply == Fail(400, "At least 1 item required"))
      && (req.orderId.Some? && Truthy(req.shipmentMode) && req.items.Some? && req.items.value != []
          && FirstItemError(req.items.value).Some? ==>
            out.reply == Fail(400, FirstItemError(req.items.value).value))
      && (RequestError(req).None? && req.shipmentMode.value !in ShipmentModes ==>
            out.reply == Fail(500, InvalidShipmentMode))
  {
  }

  /**
    An item needs a product and a positive quantity, and a selling price that
    is present, which 0 is.
   */
  lemma ItemRules(it: ItemInput)
    ensures it.productId.None? ==> ItemError(it) == Some("productId required")
    ensures it.productId.Some? && (it.quantity.None? || it.quantity.value <= 0.0) ==>
      ItemError(it) == Some("quantity must be > 0")
    ensures it.productId.Some? && it.quantity.Some? && it.quantity.value > 0.0 && it.sellingPrice == Some(0.0) ==>
      ItemError(it).None?
  {
  }

  /** The error reported for a list is that of its first failing item, whatever the later items hold. */
  lemma {:induction false} FirstFailingItemReported(items: seq<ItemInput>, k: nat)
    requires k < |items| && ItemError(items[k]).Some?
    requires forall i :: 0 <= i < k ==> ItemError(items[i]).None?
    ensures FirstItemError(items) == ItemError(items[k])
  {
    if k > 0 {
      FirstFailingItemReported(items[1..], k - 1);
    }
  }

  /**
    A successful request leaves exactly one entry for the order, holding
    exactly the submitted items (the old ones are gone), the shipping price
    defaulting to 0 and empty notes stored as null; the order becomes
    SALES_UPDATED whatever its status was, and no other order or entry
    changes. Only a shipment mode of the enum gets this far.
   */
  lemma EntryReplaced(orders: seq<Order>, entries: map<Id, OrderEntry>, nProducts: nat, req: EntryInput)
    ensures var out := EntryStep(orders, entries, nProducts, req);
      out.reply.Ok? ==>
        var id := out.reply.value;
        && req.orderId == Some(id) && id < |orders| && req.items.Some?
        && req.shipmentMode.Some? && req.shipmentMode.value in ShipmentModes
        && out.entries.Keys == entries.Keys + {id}
        && (forall k :: k in entries && k != id ==> out.entries[k] == entries[k])
        && var e := out.entries[id];
           && e.shipmentMode == req.shipmentMode.value
           && e.shippingPrice == (if TruthyNum(req.shippingPrice) then req.shippingPrice.value else 0.0)
           && e.notes == (if Truthy(req.notes) then req.notes else None)
           && |e.items| == |req.items.value|
           && (forall i :: 0 <= i < |e.items| ==>
                 Some(e.items[i].productId) == req.items.value[i].productId
                 && Some(e.items[i].quantity) == req.items.value[i].quantity
                 && Some(e.items[i].sellingPrice) == req.items.value[i].sellingPrice)
           && |out.orders| == |orders|
           && out.orders[id] == orders[id].(status := SalesUpdated)
           && forall i :: 0 <= i < |orders| && i != id ==> out.orders[i] == orders[i]
  {
  }

  /** Creating and updating write the same entry: the result does not depend on the entry that was there before. */
  lemma UpsertForgetsPrevious(orders: seq<Order>, e1: map<Id, OrderEntry>, e2: map<Id, OrderEntry>, nProducts: nat,
                              req: EntryInput)
    requires req.orderId.Some? && req.orderId.value in e1 && req.orderId.value !in e2
    ensures var o1 := EntryStep(orders, e1, nProducts, req); var o2 := EntryStep(orders, e2, nProducts, req);
      && o1.reply == o2.reply && o1.orders == o2.orders
      && (o1.reply.Ok? ==> o1.entries[req.orderId.value] == o2.entries[req.orderId.value])
  {
  }

  /** Submitting the same request twice leaves the tables as submitting it once. */
  lemma ResubmitIdempotent(orders: seq<Order>, entries: map<Id, OrderEntry>, nProducts: nat, req: EntryInput)
    ensures var once := EntryStep(orders, entries, nProducts, req);
      var twice := EntryStep(once.orders, once.entries, nProducts, req);
      twice == once
  {
    var once := EntryStep(orders, entries, nProducts, req);
    if once.reply.Ok? {
      var id := req.orderId.value;
      assert once.orders[id := once.orders[id].(status := SalesUpdated)] == once.orders;
      assert once.entries[id := EntryOf(req)] == once.entries;
    }
  }

  /** A successful request keeps every foreign key valid: the entry's order and every item's product exist. */
  lemma EntryKeepsTablesValid(
    orders: seq<Order>, entries: map<Id, OrderEntry>, products: seq<Product>, parties: seq<Party>,
    phones: seq<Phone>, emails: seq<Email>, bills: seq<PurchaseBill>, purchaseItems: seq<PurchaseItem>,
    formLinks: map<string, FormLink>, accounts: seq<ClientAccount>, accountLinks: map<string, AccountLink>,
    ledger: seq<LedgerRow>, req: EntryInput)
    requires ValidTables(orders, entries, products, parties, phones, emails, bills, purchaseItems,
                         formLinks, accounts, accountLinks, ledger)
    ensures var out := EntryStep(orders, entries, |products|, req);
      ValidTables(out.orders, out.entries, products, parties, phones, emails, bills, purchaseItems,
                  formLinks, accounts, accountLinks, ledger)
  {
    var out := EntryStep(orders, entries, |products|, req);
    if out.reply.Ok? {
      var id := req.orderId.value;
      ReplaceOrderKeepsValid(orders, id, orders[id].(status := SalesUpdated), entries, products, parties, phones,
                             emails, bills, purchaseItems, formLinks, accounts, accountLinks, ledger);
    }
  }
}
