/**
  Saving a scanned purchase bill (`POST /api/purchase/save`), in one
  transaction: the supplier party is updated or created, every product line
  is matched to a product (by id, else by name among active products) and
  updated, or created; then a purchase bill and one purchase item per line
  are written. A write that fails (an id that names no row) aborts the whole
  transaction: the answer is 500 and no table changes. The handler works on
  working copies of the tables and commits them only at the end.
 */
module PurchaseSave {
  import opened Common
  import opened Strings
  import opened Db
  import opened Seqs

  // ---------------------------------------------------------------- request and answer

  /** The supplier as scanned; `id` is set when the page matched an existing party. */
  datatype PartyInput = PartyInput(
    id: Option<Id>, name: Option<string>, address: Option<string>, gstNumber: Option<string>,
    drugLicenseNumber: Option<string>, phone: Option<string>, email: Option<string>)

  datatype BillInput = BillInput(invoiceNo: Option<string>, invoiceDate: Option<string>, totalAmount: Option<real>)

  /** One scanned product line; `id` is set when the page matched an existing product. */
  datatype ProductInput = ProductInput(
    id: Option<Id>, name: string,
    composition: Option<string>, manufacturer: Option<string>, hsn: Option<string>, pack: Option<string>,
    batchNo: Option<string>, mfgDate: Option<string>, expDate: Option<string>,
    mrp: Option<real>, gstPercent: Option<real>, tax: TaxBreakdown,
    quantity: Option<real>, rate: Option<real>, discount: Option<real>)

  datatype SavedProduct = SavedProduct(id: Id, name: string, isNew: bool)

  datatype SaveResult = SaveResult(
    partyId: Id, partyName: string, billId: Id, invoiceNo: Option<string>,
    products: seq<SavedProduct>, newProducts: nat, updProducts: nat)

  const SaveRoles: seq<Role> := [Admin, Manager, Accounts, Packaging]

  /** The database's message when an update names a row that does not exist. */
  const NotFound := "Record to update not found."

  // ---------------------------------------------------------------- the party

  /** The party's table rows after the upsert, and the id of the bill's party. */
  datatype PartyOutcome = PartyOutcome(parties: seq<Party>, phones: seq<Phone>, emails: seq<Email>, partyId: Id)

  predicate NamedLike(name: string, party: Party)
  {
    EqualsIgnoreCase(party.name, name)
  }

  /** The first party whose name equals `name` ignoring case, active or not. */
  function PartyNamed(parties: seq<Party>, name: string): Option<nat>
  {
    FirstIndex(parties, (x: Party) => NamedLike(name, x))
  }

  /**
    Step 1 of the transaction; `name` is the trimmed party name. None when
    the given id names no party (the update fails).
   */
  function UpsertParty(parties: seq<Party>, phones: seq<Phone>, emails: seq<Email>, p: PartyInput, name: string)
    : (out: Option<PartyOutcome>)
    ensures out.Some? ==> out.value.partyId < |out.value.parties| && |out.value.parties| >= |parties|
  {
    if p.id.Some? then
      if p.id.value >= |parties| then None
      else
        var id := p.id.value;
        var updated := parties[id].(name := name, address := OrNull(p.address), gstNumber := OrNull(p.gstNumber),
                                    drugLicenseNumber := OrNull(p.drugLicenseNumber));
        Some(PartyOutcome(parties[id := updated], phones, emails, id))
    else match PartyNamed(parties, name)
      case Some(i) =>
        var existing := parties[i];
        var updated := existing.(address := OrElse(p.address, existing.address),
                                 gstNumber := OrElse(p.gstNumber, existing.gstNumber),
                                 drugLicenseNumber := OrElse(p.drugLicenseNumber, existing.drugLicenseNumber));
        Some(PartyOutcome(parties[i := updated], phones, emails, i))
      case None =>
        var id := |parties|;
        var created := Party(name, OrNull(p.address), OrNull(p.gstNumber), OrNull(p.drugLicenseNumber), None, true);
        Some(PartyOutcome(parties + [created],
                          phones + (if Truthy(p.phone) then [Phone(id, p.phone.value)] else []),
                          emails + (if Truthy(p.email) then [Email(id, p.email.value)] else []),
                          id))
  }

  // ---------------------------------------------------------------- the products

  /** An explicit product id: every descriptive field is replaced, empty text and missing numbers by null. */
  function OverwriteProduct(prev: Product, p: ProductInput): Product
  {
    prev.(composition := OrNull(p.composition), manufacturer := OrNull(p.manufacturer), hsn := OrNull(p.hsn),
         pack := OrNull(p.pack), batchNo := OrNull(p.batchNo), mfgDate := OrNull(p.mfgDate),
         expDate := OrNull(p.expDate), mrp := p.mrp, gstPercent := p.gstPercent)
  }

  /** `b ?? a` on nullable numbers. */
  function Coalesce(b: Option<real>, a: Option<real>): Option<real>
  {
    if b.Some? then b else a
  }

  /** A product matched by name: descriptions kept where the new value is empty, batch and dates always replaced. */
  function MergeProduct(prev: Product, p: ProductInput): Product
  {
    prev.(composition := OrElse(p.composition, prev.composition), manufacturer := OrElse(p.manufacturer, prev.manufacturer),
         hsn := OrElse(p.hsn, prev.hsn), pack := OrElse(p.pack, prev.pack),
         batchNo := OrNull(p.batchNo), mfgDate := OrNull(p.mfgDate), expDate := OrNull(p.expDate),
         mrp := Coalesce(p.mrp, prev.mrp), gstPercent := Coalesce(p.gstPercent, prev.gstPercent))
  }

  function NewProduct(p: ProductInput): Product
  {
    Product(Trim(p.name), OrNull(p.composition), OrNull(p.manufacturer), OrNull(p.hsn), OrNull(p.pack),
            OrNull(p.batchNo), OrNull(p.mfgDate), OrNull(p.expDate), p.mrp, p.gstPercent, true)
  }

  predicate ActiveNamedLike(name: string, product: Product)
  {
    product.isActive && EqualsIgnoreCase(product.name, name)
  }

  /** The first active product whose name equals `name` ignoring case. */
  function ActiveProductNamed(products: seq<Product>, name: string): Option<nat>
  {
    FirstIndex(products, (x: Product) => ActiveNamedLike(name, x))
  }

  datatype ProductStep = ProductStep(products: seq<Product>, id: Id, saved: SavedProduct)

  /** One turn of the product loop; None when the line's id names no product. */
  function UpsertProduct(products: seq<Product>, p: ProductInput): (out: Option<ProductStep>)
    ensures out.Some? ==> out.value.id < |out.value.products| && out.value.saved.id == out.value.id
    ensures out.Some? ==> |out.value.products| == |products| + (if out.value.saved.isNew then 1 else 0)
  {
    if p.id.Some? then
      if p.id.value >= |products| then None
      else
        var id := p.id.value;
        Some(ProductStep(products[id := OverwriteProduct(products[id], p)], id, SavedProduct(id, products[id].name, false)))
    else match ActiveProductNamed(products, Trim(p.name))
      case Some(i) =>
        Some(ProductStep(products[i := MergeProduct(products[i], p)], i, SavedProduct(i, products[i].name, false)))
      case None =>
        var id := |products|;
        Some(ProductStep(products + [NewProduct(p)], id, SavedProduct(id, Trim(p.name), true)))
  }

  datatype ProductsOutcome = ProductsOutcome(products: seq<Product>, ids: seq<Id>, saved: seq<SavedProduct>)

  /** The product loop over the lines in order; each line sees the products the earlier lines wrote. */
  function UpsertProducts(products: seq<Product>, ps: seq<ProductInput>): Option<ProductsOutcome>
  {
    if ps == [] then Some(ProductsOutcome(products, [], []))
    else match UpsertProducts(products, ps[..|ps| - 1])
      case None => None
      case Some(out) =>
        match UpsertProduct(out.products, ps[|ps| - 1])
        case None => None
        case Some(st) => Some(ProductsOutcome(st.products, out.ids + [st.id], out.saved + [st.saved]))
  }

  predicate IsNew(s: SavedProduct) { s.isNew }

  predicate IsUpdated(s: SavedProduct) { !s.isNew }

  /**
    What the loop produces: one resolved id and one summary per line, each id
    naming a product of the new table; the table only grows, by exactly the
    number of lines that created a product.
   */
  lemma {:induction false} UpsertProductsShape(products: seq<Product>, ps: seq<ProductInput>)
    ensures var out := UpsertProducts(products, ps);
      out.Some? ==>
        && |out.value.ids| == |ps| && |out.value.saved| == |ps|
        && (forall k :: 0 <= k < |ps| ==> out.value.ids[k] < |out.value.products| && out.value.saved[k].id == out.value.ids[k])
        && |out.value.products| == |products| + Count(out.value.saved, IsNew)
  {
    if ps != [] {
      var init := ps[..|ps| - 1];
      UpsertProductsShape(products, init);
      var out := UpsertProducts(products, init);
      if out.Some? {
        var st := UpsertProduct(out.value.products, ps[|ps| - 1]);
        if st.Some? {
          CountAppend(out.value.saved, [st.value.saved], IsNew);
          assert Count([st.value.saved], IsNew) == if st.value.saved.isNew then 1 else 0 by {
            assert [st.value.saved][1..] == [];
          }
        }
      }
    }
  }

  /** Once a line fails, the loop fails: a failing prefix makes the whole list fail. */
  lemma {:induction false} UpsertProductsFailureSticks(products: seq<Product>, ps: seq<ProductInput>, i: nat)
    requires i <= |ps| && UpsertProducts(products, ps[..i]).None?
    ensures UpsertProducts(products, ps).None?
    decreases |ps| - i
  {
    if i < |ps| {
      assert ps[..i + 1][..i] == ps[..i];
      UpsertProductsFailureSticks(products, ps, i + 1);
    } else {
      assert ps[..i] == ps;
    }
  }

  // ---------------------------------------------------------------- bill and items

  function BillOf(bill: BillInput, partyId: Id): PurchaseBill
  {
    PurchaseBill(OrNull(bill.invoiceNo), OrNull(bill.invoiceDate), partyId, bill.totalAmount)
  }

  /** The purchase item of one line: quantity 1 and rate 0 when missing or 0, the rest copied through. */
  function ItemOf(p: ProductInput, productId: Id, billId: Id): PurchaseItem
  {
    PurchaseItem(productId, billId, OrNull(p.batchNo), OrNull(p.expDate), NumOr(p.quantity, 1.0), NumOr(p.rate, 0.0),
                 p.discount, p.mrp, p.gstPercent, p.tax)
  }

  /** The items of the lines, in order, each with its resolved product. */
  function ItemsFor(ps: seq<ProductInput>, ids: seq<Id>, billId: Id): (items: seq<PurchaseItem>)
    requires |ids| == |ps|
    ensures |items| == |ps|
    ensures forall k :: 0 <= k < |ps| ==> items[k] == ItemOf(ps[k], ids[k], billId)
  {
    seq(|ps|, k requires 0 <= k < |ps| => ItemOf(ps[k], ids[k], billId))
  }

  // ---------------------------------------------------------------- the request

  datatype SaveOutcome = SaveOutcome(
    reply: Reply<SaveResult>, parties: seq<Party>, phones: seq<Phone>, emails: seq<Email>,
    products: seq<Product>, bills: seq<PurchaseBill>, purchaseItems: seq<PurchaseItem>)

  /**
    The transaction proper, once the request has passed its checks; `name`
    is the trimmed party name. None when a write fails, and then nothing is
    committed.
   */
  function Transaction(parties: seq<Party>, phones: seq<Phone>, emails: seq<Email>, products: seq<Product>,
                       bills: seq<PurchaseBill>, purchaseItems: seq<PurchaseItem>, p: PartyInput, name: string,
                       bill: BillInput, ps: seq<ProductInput>): (t: Option<SaveOutcome>)
    ensures t.Some? ==> t.value.reply.Ok?
  {
    match UpsertParty(parties, phones, emails, p, name)
    case None => None
    case Some(po) =>
      match UpsertProducts(products, ps)
      case None => None
      case Some(pr) =>
        UpsertProductsShape(products, ps);
        var billId := |bills|;
        var result := SaveResult(po.partyId, po.parties[po.partyId].name, billId, OrNull(bill.invoiceNo), pr.saved,
                                 Count(pr.saved, IsNew), Count(pr.saved, IsUpdated));
        Some(SaveOutcome(Ok(result), po.parties, po.phones, po.emails, pr.products, bills + [BillOf(bill, po.partyId)],
                         purchaseItems + ItemsFor(ps, pr.ids, billId)))
  }

  /** `POST /api/purchase/save` on the tables it touches. A missing `products` list is the empty list. */
  function SaveStep(parties: seq<Party>, phones: seq<Phone>, emails: seq<Email>, products: seq<Product>,
                    bills: seq<PurchaseBill>, purchaseItems: seq<PurchaseItem>, session: Option<SessionUser>,
                    party: Option<PartyInput>, bill: BillInput, ps: seq<ProductInput>): SaveOutcome
  {
    if !RoleGate(session, SaveRoles) then
      SaveOutcome(Fail(403, "Forbidden"), parties, phones, emails, products, bills, purchaseItems)
    else if party.None? || Blank(party.value.name) then
      SaveOutcome(Fail(400, "Party name is required"), parties, phones, emails, products, bills, purchaseItems)
    else if ps == [] then
      SaveOutcome(Fail(400, "At least one product is required"), parties, phones, emails, products, bills, purchaseItems)
    else match Transaction(parties, phones, emails, products, bills, purchaseItems, party.value,
                           Trim(party.value.name.value), bill, ps)
      case None => SaveOutcome(Fail(500, NotFound), parties, phones, emails, products, bills, purchaseItems)
      case Some(out) => out
  }

  /** Step 1 on working copies of the party tables; None when the given id names no party. */
  method SaveParty(parties: seq<Party>, phones: seq<Phone>, emails: seq<Email>, p: PartyInput, name: string)
    returns (out: Option<PartyOutcome>)
    ensures out == UpsertParty(parties, phones, emails, p, name)
  {
    if p.id.Some? {
      var id := p.id.value;
      if id >= |parties| {
        return None;
      }
      var updated := parties[id].(name := name, address := OrNull(p.address), gstNumber := OrNull(p.gstNumber),
                                  drugLicenseNumber := OrNull(p.drugLicenseNumber));
      return Some(PartyOutcome(parties[id := updated], phones, emails, id));
    }
    var found := PartyNamed(parties, name);
    if found.Some? {
      var existing := parties[found.value];
      var updated := existing.(address := OrElse(p.address, existing.address),
                               gstNumber := OrElse(p.gstNumber, existing.gstNumber),
                               drugLicenseNumber := OrElse(p.drugLicenseNumber, existing.drugLicenseNumber));
      return Some(PartyOutcome(parties[found.value := updated], phones, emails, found.value));
    }
    var id := |parties|;
    var created := Party(name, OrNull(p.address), OrNull(p.gstNumber), OrNull(p.drugLicenseNumber), None, true);
    var phoneRows, emailRows := phones, emails;
    if Truthy(p.phone) {
      phoneRows := phoneRows + [Phone(id, p.phone.value)];
    }
    if Truthy(p.email) {
      emailRows := emailRows + [Email(id, p.email.value)];
    }
    assert phones + [] == phones && emails + [] == emails;
    return Some(PartyOutcome(parties + [created], phoneRows, emailRows, id));
  }

  /** One line of the product loop: overwrite by id, merge into the active product of that name, or create. */
  method SaveProduct(table: seq<Product>, line: ProductInput) returns (st: Option<ProductStep>)
    ensures st == UpsertProduct(table, line)
  {
    if line.id.Some? {
      var id := line.id.value;
      if id >= |table| {
        return None;
      }
      return Some(ProductStep(table[id := OverwriteProduct(table[id], line)], id, SavedProduct(id, table[id].name, false)));
    }
    var found := ActiveProductNamed(table, Trim(line.name));
    if found.Some? {
      var id := found.value;
      return Some(ProductStep(table[id := MergeProduct(table[id], line)], id, SavedProduct(id, table[id].name, false)));
    }
    var id := |table|;
    return Some(ProductStep(table + [NewProduct(line)], id, SavedProduct(id, Trim(line.name), true)));
  }

  /** The loop over one more line extends the loop over the lines before it. */
  lemma UpsertProductsNext(products: seq<Product>, ps: seq<ProductInput>, i: nat, out: ProductsOutcome)
    requires i < |ps| && UpsertProducts(products, ps[..i]) == Some(out)
    ensures UpsertProducts(products, ps[..i + 1])
         == match UpsertProduct(out.products, ps[i])
            case None => None
            case Some(st) => Some(ProductsOutcome(st.products, out.ids + [st.id], out.saved + [st.saved]))
  {
    assert ps[..i + 1][..i] == ps[..i] && ps[..i + 1][i] == ps[i];
  }

  /** Step 2, the loop over the lines, on a working copy of the product table; None when a line's id names no product. */
  method SaveProducts(products: seq<Product>, ps: seq<ProductInput>) returns (out: Option<ProductsOutcome>)
    ensures out == UpsertProducts(products, ps)
  {
    var acc := ProductsOutcome(products, [], []);
    var i := 0;
    while i < |ps|
      invariant 0 <= i <= |ps|
      invariant UpsertProducts(products, ps[..i]) == Some(acc)
    {
      var st := SaveProduct(acc.products, ps[i]);
      UpsertProductsNext(products, ps, i, acc);
      if st.None? {
        assert UpsertProducts(products, ps[..i + 1]).None?;
        UpsertProductsFailureSticks(products, ps, i + 1);
        return None;
      }
      var next := ProductsOutcome(st.value.products, acc.ids + [st.value.id], acc.saved + [st.value.saved]);
      assert UpsertProducts(products, ps[..i + 1]) == Some(next);
      acc := next;
      i := i + 1;
    }
    assert ps[..i] == ps;
    return Some(acc);
  }

  /** Step 4: one purchase item per line, appended in order. */
  method AppendItems(purchaseItems: seq<PurchaseItem>, ps: seq<ProductInput>, ids: seq<Id>, billId: Id)
    returns (items: seq<PurchaseItem>)
    requires |ids| == |ps|
    ensures items == purchaseItems + ItemsFor(ps, ids, billId)
  {
    items := purchaseItems;
    var k := 0;
    while k < |ps|
      invariant 0 <= k <= |ps|
      invariant items == purchaseItems + ItemsFor(ps[..k], ids[..k], billId)
    {
      items := items + [ItemOf(ps[k], ids[k], billId)];
      k := k + 1;
      assert ItemsFor(ps[..k], ids[..k], billId)
          == ItemsFor(ps[..k - 1], ids[..k - 1], billId) + [ItemOf(ps[k - 1], ids[k - 1], billId)];
    }
    assert ps[..k] == ps && ids[..k] == ids;
  }

  /** The transaction on working copies of the tables; None when a write fails, and then nothing is to be committed. */
  method RunTransaction(parties: seq<Party>, phones: seq<Phone>, emails: seq<Email>, products: seq<Product>,
                        bills: seq<PurchaseBill>, purchaseItems: seq<PurchaseItem>, p: PartyInput, name: string,
                        bill: BillInput, ps: seq<ProductInput>)
    returns (t: Option<SaveOutcome>)
    ensures t == Transaction(parties, phones, emails, products, bills, purchaseItems, p, name, bill, ps)
  {
    var po := SaveParty(parties, phones, emails, p, name);
    if po.None? {
      return None;
    }
    var pr := SaveProducts(products, ps);
    if pr.None? {
      return None;
    }
    UpsertProductsShape(products, ps);
    var billId := |bills|;
    var items := AppendItems(purchaseItems, ps, pr.value.ids, billId);
    var partyId := po.value.partyId;
    var r := SaveResult(partyId, po.value.parties[partyId].name, billId, OrNull(bill.invoiceNo), pr.value.saved,
                        Count(pr.value.saved, IsNew), Count(pr.value.saved, IsUpdated));
    return Some(SaveOutcome(Ok(r), po.value.parties, po.value.phones, po.value.emails, pr.value.products,
                            bills + [BillOf(bill, partyId)], items));
  }

  /** Past the checks, the request is its transaction, or a 500 that writes nothing when a write fails. */
  lemma SaveStepRunsTransaction(parties: seq<Party>, phones: seq<Phone>, emails: seq<Email>, products: seq<Product>,
                                bills: seq<PurchaseBill>, purchaseItems: seq<PurchaseItem>, session: Option<SessionUser>,
                                party: Option<PartyInput>, bill: BillInput, ps: seq<ProductInput>)
    requires RoleGate(session, SaveRoles) && party.Some? && !Blank(party.value.name) && ps != []
    ensures var t := Transaction(parties, phones, emails, products, bills, purchaseItems, party.value,
                                 Trim(party.value.name.value), bill, ps);
      SaveStep(parties, phones, emails, products, bills, purchaseItems, session, party, bill, ps)
      == if t.None? then SaveOutcome(Fail(500, NotFound), parties, phones, emails, products, bills, purchaseItems)
         else t.value
  {
  }

  /** The checks, then the transaction, on working copies of the tables. */
  method CheckAndRun(parties: seq<Party>, phones: seq<Phone>, emails: seq<Email>, products: seq<Product>,
                     bills: seq<PurchaseBill>, purchaseItems: seq<PurchaseItem>, session: Option<SessionUser>,
                     party: Option<PartyInput>, bill: BillInput, ps: seq<ProductInput>)
    returns (out: SaveOutcome)
    ensures out == SaveStep(parties, phones, emails, products, bills, purchaseItems, session, party, bill, ps)
  {
    if !RoleGate(session, SaveRoles) {
      return SaveOutcome(Fail(403, "Forbidden"), parties, phones, emails, products, bills, purchaseItems);
    }
    if party.None? || Blank(party.value.name) {
      return SaveOutcome(Fail(400, "Party name is required"), parties, phones, emails, products, bills, purchaseItems);
    }
    if ps == [] {
      return SaveOutcome(Fail(400, "At least one product is required"), parties, phones, emails, products, bills,
                         purchaseItems);
    }
    var t := RunTransaction(parties, phones, emails, products, bills, purchaseItems, party.value,
                            Trim(party.value.name.value), bill, ps);
    SaveStepRunsTransaction(parties, phones, emails, products, bills, purchaseItems, session, party, bill, ps);
    if t.None? {
      return SaveOutcome(Fail(500, NotFound), parties, phones, emails, products, bills, purchaseItems);
    }
    return t.value;
  }

  /** The handler: the tables the checks and the transaction produce are committed together. */
  method SavePurchase(db: Database, session: Option<SessionUser>, party: Option<PartyInput>, bill: BillInput,
                      ps: seq<ProductInput>)
    returns (r: Reply<SaveResult>)
    modifies db`parties, db`phones, db`emails, db`products, db`bills, db`purchaseItems
    ensures SaveOutcome(r, db.parties, db.phones, db.emails, db.products, db.bills, db.purchaseItems)
         == SaveStep(old(db.parties), old(db.phones), old(db.emails), old(db.products), old(db.bills),
                     old(db.purchaseItems), session, party, bill, ps)
  {
    var out := CheckAndRun(db.parties, db.phones, db.emails, db.products, db.bills, db.purchaseItems, session, party,
                           bill, ps);
    db.parties, db.phones, db.emails, db.products := out.parties, out.phones, out.emails, out.products;
    db.bills, db.purchaseItems := out.bills, out.purchaseItems;
    r := out.reply;
  }

  // ---------------------------------------------------------------- properties of a request

  /**
    Every refusal and every failure leaves all six tables as they were: 403
    outside ADMIN, MANAGER, ACCOUNTS and PACKAGING, 400 for a missing or
    blank party name and then for an empty product list, 500 when a write
    fails.
   */
  lemma FailureWritesNothing(parties: seq<Party>, phones: seq<Phone>, emails: seq<Email>, products: seq<Product>,
                             bills: seq<PurchaseBill>, purchaseItems: seq<PurchaseItem>, session: Option<SessionUser>,
                             party: Option<PartyInput>, bill: BillInput, ps: seq<ProductInput>)
    ensures var out := SaveStep(parties, phones, emails, products, bills, purchaseItems, session, party, bill, ps);
      && (out.reply.Fail? ==>
            out.parties == parties && out.phones == phones && out.emails == emails && out.products == products
            && out.bills == bills && out.purchaseItems == purchaseItems)
      && (!RoleGate(session, SaveRoles) ==> out.reply == Fail(403, "Forbidden"))
      && (RoleGate(session, SaveRoles) && (party.None? || Blank(party.value.name)) ==>
            out.reply == Fail(400, "Party name is required"))
      && (RoleGate(session, SaveRoles) && party.Some? && !Blank(party.value.name) && ps == [] ==>
            out.reply == Fail(400, "At least one product is required"))
      && (out.reply.Fail? && out.reply.status == 500 ==> out.reply.error == NotFound)
  {
    if RoleGate(session, SaveRoles) && party.Some? && !Blank(party.value.name) && ps != [] {
      SaveStepRunsTransaction(parties, phones, emails, products, bills, purchaseItems, session, party, bill, ps);
    }
  }

  /** A party given by id is overwritten: trimmed name, and each of address, GST and DL number as given or null. */
  lemma PartyByIdOverwritten(parties: seq<Party>, phones: seq<Phone>, emails: seq<Email>, p: PartyInput, name: string)
    requires p.id.Some? && p.id.value < |parties|
    ensures var out := UpsertParty(parties, phones, emails, p, name);
      && out.Some? && out.value.partyId == p.id.value
      && out.value.parties[p.id.value].name == name
      && out.value.parties[p.id.value].address == OrNull(p.address)
      && out.value.parties[p.id.value].gstNumber == OrNull(p.gstNumber)
      && out.value.parties[p.id.value].drugLicenseNumber == OrNull(p.drugLicenseNumber)
      && out.value.phones == phones && out.value.emails == emails
      && |out.value.parties| == |parties|
      && forall j :: 0 <= j < |parties| && j != p.id.value ==> out.value.parties[j] == parties[j]
  {
  }

  /**
    A party without an id whose name matches an existing one ignoring case
    is that party: its name is kept, each of address, GST and DL number is
    kept wherever the new value is empty, and no phone or email is added.
   */
  lemma MatchedPartyMerged(parties: seq<Party>, phones: seq<Phone>, emails: seq<Email>, p: PartyInput, name: string,
                           i: nat)
    requires p.id.None? && i < |parties| && EqualsIgnoreCase(parties[i].name, name)
    requires forall j :: 0 <= j < i ==> !EqualsIgnoreCase(parties[j].name, name)
    ensures var out := UpsertParty(parties, phones, emails, p, name);
      && out.Some? && out.value.partyId == i
      && out.value.parties[i].name == parties[i].name
      && (Truthy(p.address) ==> out.value.parties[i].address == p.address)
      && (!Truthy(p.address) ==> out.value.parties[i].address == parties[i].address)
      && (Truthy(p.gstNumber) ==> out.value.parties[i].gstNumber == p.gstNumber)
      && (!Truthy(p.gstNumber) ==> out.value.parties[i].gstNumber == parties[i].gstNumber)
      && (Truthy(p.drugLicenseNumber) ==> out.value.parties[i].drugLicenseNumber == p.drugLicenseNumber)
      && (!Truthy(p.drugLicenseNumber) ==> out.value.parties[i].drugLicenseNumber == parties[i].drugLicenseNumber)
      && out.value.phones == phones && out.value.emails == emails
      && |out.value.parties| == |parties|
  {
    FirstIndexAt(parties, (x: Party) => NamedLike(name, x), i);
  }

  /**
    A party that matches no existing name is created with the trimmed name;
    it gets a phone row exactly when a phone is given and an email row
    exactly when an email is given.
   */
  lemma NewPartyCreated(parties: seq<Party>, phones: seq<Phone>, emails: seq<Email>, p: PartyInput, name: string)
    requires p.id.None? && forall j :: 0 <= j < |parties| ==> !EqualsIgnoreCase(parties[j].name, name)
    ensures var out := UpsertParty(parties, phones, emails, p, name);
      && out.Some? && out.value.partyId == |parties|
      && out.value.parties == parties + [Party(name, OrNull(p.address), OrNull(p.gstNumber), OrNull(p.drugLicenseNumber), None, true)]
      && (Truthy(p.phone) ==> out.value.phones == phones + [Phone(|parties|, p.phone.value)])
      && (!Truthy(p.phone) ==> out.value.phones == phones)
      && (Truthy(p.email) ==> out.value.emails == emails + [Email(|parties|, p.email.value)])
      && (!Truthy(p.email) ==> out.value.emails == emails)
  {
    FirstIndexNone(parties, (x: Party) => NamedLike(name, x));
  }

  /**
    A line without an id that matches an active product by name updates it:
    composition, manufacturer, HSN and pack are kept wherever the new value
    is empty; batch, manufacturing and expiry dates are always replaced, by
    null when empty; MRP and GST are replaced whenever given, 0 included.
   */
  lemma MatchedProductMerged(products: seq<Product>, p: ProductInput, i: nat)
    requires p.id.None? && i < |products| && ActiveNamedLike(Trim(p.name), products[i])
    requires forall j :: 0 <= j < i ==> !ActiveNamedLike(Trim(p.name), products[j])
    ensures var out := UpsertProduct(products, p);
      && out.Some? && out.value.id == i && !out.value.saved.isNew
      && |out.value.products| == |products|
      && var q := out.value.products[i];
      && q.name == products[i].name && q.isActive
      && (Truthy(p.composition) ==> q.composition == p.composition)
      && (!Truthy(p.composition) ==> q.composition == products[i].composition)
      && (!Truthy(p.manufacturer) ==> q.manufacturer == products[i].manufacturer)
      && (!Truthy(p.hsn) ==> q.hsn == products[i].hsn)
      && (!Truthy(p.pack) ==> q.pack == products[i].pack)
      && q.batchNo == OrNull(p.batchNo) && q.mfgDate == OrNull(p.mfgDate) && q.expDate == OrNull(p.expDate)
      && (p.mrp.Some? ==> q.mrp == p.mrp) && (p.mrp.None? ==> q.mrp == products[i].mrp)
      && (p.gstPercent.Some? ==> q.gstPercent == p.gstPercent)
      && (p.gstPercent.None? ==> q.gstPercent == products[i].gstPercent)
  {
    FirstIndexAt(products, (x: Product) => ActiveNamedLike(Trim(p.name), x), i);
    var q := MergeProduct(products[i], p);
    assert UpsertProduct(products, p) == Some(ProductStep(products[i := q], i, SavedProduct(i, products[i].name, false)));
    MergeFields(products[i], p);
  }

  /** The fields of a merged product, one by one. */
  lemma MergeFields(prev: Product, p: ProductInput)
    ensures var q := MergeProduct(prev, p);
      && q.name == prev.name && q.isActive == prev.isActive
      && (Truthy(p.composition) ==> q.composition == p.composition)
      && (!Truthy(p.composition) ==> q.composition == prev.composition)
      && (!Truthy(p.manufacturer) ==> q.manufacturer == prev.manufacturer)
      && (!Truthy(p.hsn) ==> q.hsn == prev.hsn)
      && (!Truthy(p.pack) ==> q.pack == prev.pack)
      && q.batchNo == OrNull(p.batchNo) && q.mfgDate == OrNull(p.mfgDate) && q.expDate == OrNull(p.expDate)
      && (p.mrp.Some? ==> q.mrp == p.mrp) && (p.mrp.None? ==> q.mrp == prev.mrp)
      && (p.gstPercent.Some? ==> q.gstPercent == p.gstPercent)
      && (p.gstPercent.None? ==> q.gstPercent == prev.gstPercent)
  {
  }

  /** A line without an id that matches no active product creates an active product with the trimmed name. */
  lemma UnmatchedProductCreated(products: seq<Product>, p: ProductInput)
    requires p.id.None? && forall j :: 0 <= j < |products| ==> !ActiveNamedLike(Trim(p.name), products[j])
    ensures UpsertProduct(products, p)
         == Some(ProductStep(products + [NewProduct(p)], |products|, SavedProduct(|products|, Trim(p.name), true)))
  {
    FirstIndexNone(products, (x: Product) => ActiveNamedLike(Trim(p.name), x));
  }

  /**
    What a successful save leaves behind: the summary counts every line
    once, new and updated adding up to the number of lines and the new ones
    being exactly the products created; one bill is appended, and after it
    exactly one purchase item per line, in order, each tied to the new bill
    and to the product its line resolved to, with quantity 1 and rate 0
    where the line had none.
   */
  ghost predicate SavedAsPromised(out: SaveOutcome, products: seq<Product>, bills: seq<PurchaseBill>,
                                  purchaseItems: seq<PurchaseItem>, ps: seq<ProductInput>)
    requires out.reply.Ok?
  {
    var res := out.reply.value;
    && |res.products| == |ps|
    && res.newProducts + res.updProducts == |ps|
    && |out.products| == |products| + res.newProducts
    && res.billId == |bills| && |out.bills| == |bills| + 1 && out.bills[..|bills|] == bills
    && out.bills[res.billId].partyId == res.partyId && res.partyId < |out.parties|
    && out.bills[res.billId].invoiceNo == res.invoiceNo
    && |out.purchaseItems| == |purchaseItems| + |ps| && out.purchaseItems[..|purchaseItems|] == purchaseItems
    && forall k :: 0 <= k < |ps| ==>
         var item := out.purchaseItems[|purchaseItems| + k];
         && item.purchaseId == res.billId
         && item.productId == res.products[k].id && item.productId < |out.products|
         && item.quantity == NumOr(ps[k].quantity, 1.0) && item.rate == NumOr(ps[k].rate, 0.0)
  }

  /** A transaction that commits replies with its summary, and leaves the tables as promised. */
  lemma TransactionSucceeds(parties: seq<Party>, phones: seq<Phone>, emails: seq<Email>, products: seq<Product>,
                            bills: seq<PurchaseBill>, purchaseItems: seq<PurchaseItem>, p: PartyInput, name: string,
                            bill: BillInput, ps: seq<ProductInput>)
    ensures var t := Transaction(parties, phones, emails, products, bills, purchaseItems, p, name, bill, ps);
      t.Some? ==> t.value.reply.Ok? && SavedAsPromised(t.value, products, bills, purchaseItems, ps)
  {
    var t := Transaction(parties, phones, emails, products, bills, purchaseItems, p, name, bill, ps);
    if t.Some? {
      var po := UpsertParty(parties, phones, emails, p, name).value;
      var pr := UpsertProducts(products, ps).value;
      UpsertProductsShape(products, ps);
      CountComplement(pr.saved, IsNew, IsUpdated);
      var billId := |bills|;
      var res := SaveResult(po.partyId, po.parties[po.partyId].name, billId, OrNull(bill.invoiceNo), pr.saved,
                            Count(pr.saved, IsNew), Count(pr.saved, IsUpdated));
      assert t.value == SaveOutcome(Ok(res), po.parties, po.phones, po.emails, pr.products,
                                    bills + [BillOf(bill, po.partyId)], purchaseItems + ItemsFor(ps, pr.ids, billId));
    }
  }

  /** A save that replies 200 had at least one line, and leaves the tables as promised. */
  lemma SaveSucceeds(parties: seq<Party>, phones: seq<Phone>, emails: seq<Email>, products: seq<Product>,
                     bills: seq<PurchaseBill>, purchaseItems: seq<PurchaseItem>, session: Option<SessionUser>,
                     party: Option<PartyInput>, bill: BillInput, ps: seq<ProductInput>)
    ensures var out := SaveStep(parties, phones, emails, products, bills, purchaseItems, session, party, bill, ps);
      out.reply.Ok? ==> |ps| >= 1 && SavedAsPromised(out, products, bills, purchaseItems, ps)
  {
    if RoleGate(session, SaveRoles) && party.Some? && !Blank(party.value.name) && ps != [] {
      TransactionSucceeds(parties, phones, emails, products, bills, purchaseItems, party.value,
                          Trim(party.value.name.value), bill, ps);
    }
  }

  /** The party step keeps every phone and email pointing at a party: a new party's rows point at it. */
  lemma UpsertPartyKeepsContactsValid(parties: seq<Party>, phones: seq<Phone>, emails: seq<Email>, p: PartyInput,
                                      name: string)
    requires PhonesValid(phones, |parties|) && EmailsValid(emails, |parties|)
    ensures var out := UpsertParty(parties, phones, emails, p, name);
      out.Some? ==> PhonesValid(out.value.phones, |out.value.parties|) && EmailsValid(out.value.emails, |out.value.parties|)
  {
  }

  /** The new items point at the new bill and at products of the new table. */
  lemma ItemsValid(purchaseItems: seq<PurchaseItem>, ps: seq<ProductInput>, ids: seq<Id>, nProducts: nat, nBills: nat)
    requires |ids| == |ps| && forall k :: 0 <= k < |ids| ==> ids[k] < nProducts
    requires PurchaseItemsValid(purchaseItems, nProducts, nBills)
    ensures PurchaseItemsValid(purchaseItems + ItemsFor(ps, ids, nBills), nProducts, nBills + 1)
  {
    var items := purchaseItems + ItemsFor(ps, ids, nBills);
    forall i | 0 <= i < |items|
      ensures items[i].productId < nProducts && items[i].purchaseId < nBills + 1
    {
      if i >= |purchaseItems| {
        assert items[i] == ItemOf(ps[i - |purchaseItems|], ids[i - |purchaseItems|], nBills);
      }
    }
  }

  /** The tables a save touches are valid again when the rows it adds or changes point at existing rows. */
  lemma GrownTablesValid(
    orders: seq<Order>, entries: map<Id, OrderEntry>, products: seq<Product>, phones: seq<Phone>,
    emails: seq<Email>, bills: seq<PurchaseBill>, purchaseItems: seq<PurchaseItem>,
    formLinks: map<string, FormLink>, accounts: seq<ClientAccount>, accountLinks: map<string, AccountLink>,
    ledger: seq<LedgerRow>, products': seq<Product>, parties': seq<Party>, phones': seq<Phone>, emails': seq<Email>,
    bills': seq<PurchaseBill>, purchaseItems': seq<PurchaseItem>)
    requires EntriesValid(entries, |orders|, |products|) && OrdersValid(orders, |accounts|)
    requires FormLinksValid(formLinks, |orders|) && AccountLinksValid(accountLinks, |accounts|)
    requires LedgerValid(ledger, |accounts|)
    requires |products'| >= |products|
    requires PhonesValid(phones', |parties'|) && EmailsValid(emails', |parties'|) && BillsValid(bills', |parties'|)
    requires PurchaseItemsValid(purchaseItems', |products'|, |bills'|)
    ensures ValidTables(orders, entries, products', parties', phones', emails', bills', purchaseItems',
                        formLinks, accounts, accountLinks, ledger)
  {
  }

  /** The transaction keeps every foreign key valid. */
  lemma TransactionKeepsTablesValid(
    orders: seq<Order>, entries: map<Id, OrderEntry>, products: seq<Product>, parties: seq<Party>,
    phones: seq<Phone>, emails: seq<Email>, bills: seq<PurchaseBill>, purchaseItems: seq<PurchaseItem>,
    formLinks: map<string, FormLink>, accounts: seq<ClientAccount>, accountLinks: map<string, AccountLink>,
    ledger: seq<LedgerRow>, p: PartyInput, name: string, bill: BillInput, ps: seq<ProductInput>)
    requires ValidTables(orders, entries, products, parties, phones, emails, bills, purchaseItems,
                         formLinks, accounts, accountLinks, ledger)
    ensures var t := Transaction(parties, phones, emails, products, bills, purchaseItems, p, name, bill, ps);
      t.Some? ==>
        ValidTables(orders, entries, t.value.products, t.value.parties, t.value.phones, t.value.emails,
                    t.value.bills, t.value.purchaseItems, formLinks, accounts, accountLinks, ledger)
  {
    var t := Transaction(parties, phones, emails, products, bills, purchaseItems, p, name, bill, ps);
    if t.Some? {
      var po := UpsertParty(parties, phones, emails, p, name).value;
      UpsertPartyKeepsContactsValid(parties, phones, emails, p, name);
      var pr := UpsertProducts(products, ps).value;
      UpsertProductsShape(products, ps);
      ItemsValid(purchaseItems, ps, pr.ids, |pr.products|, |bills|);
      var bills' := bills + [BillOf(bill, po.partyId)];
      assert BillsValid(bills', |po.parties|);
      GrownTablesValid(orders, entries, products, phones, emails, bills, purchaseItems, formLinks, accounts,
                       accountLinks, ledger, pr.products, po.parties, po.phones, po.emails, bills',
                       purchaseItems + ItemsFor(ps, pr.ids, |bills|));
    }
  }

  /**
    A save keeps every foreign key valid: the tables it touches only grow or
    change rows in place, and every row it adds points at the party and the
    products it resolved.
   */
  lemma SaveKeepsTablesValid(
    orders: seq<Order>, entries: map<Id, OrderEntry>, products: seq<Product>, parties: seq<Party>,
    phones: seq<Phone>, emails: seq<Email>, bills: seq<PurchaseBill>, purchaseItems: seq<PurchaseItem>,
    formLinks: map<string, FormLink>, accounts: seq<ClientAccount>, accountLinks: map<string, AccountLink>,
    ledger: seq<LedgerRow>, session: Option<SessionUser>, party: Option<PartyInput>, bill: BillInput,
    ps: seq<ProductInput>)
    requires ValidTables(orders, entries, products, parties, phones, emails, bills, purchaseItems,
                         formLinks, accounts, accountLinks, ledger)
    ensures var out := SaveStep(parties, phones, emails, products, bills, purchaseItems, session, party, bill, ps);
      ValidTables(orders, entries, out.products, out.parties, out.phones, out.emails, out.bills, out.purchaseItems,
                  formLinks, accounts, accountLinks, ledger)
  {
    if RoleGate(session, SaveRoles) && party.Some? && !Blank(party.value.name) && ps != [] {
      TransactionKeepsTablesValid(orders, entries, products, parties, phones, emails, bills, purchaseItems,
                                  formLinks, accounts, accountLinks, ledger, party.value,
                                  Trim(party.value.name.value), bill, ps);
    }
  }
}
