/**
  The database tables the modelled handlers read and write, as one object
  whose fields are the tables. A row's id is its position in its table:
  rows are only ever appended (deleting a product or a party only clears
  its `isActive` flag), so positions are stable and ids are natural numbers
  handed out in creation order. This is an encoding chosen for the model: the
  ORM's ids are generated strings, and their order and spelling are not
  modelled. Links are keyed
  by their random token, order entries by their order (there is at most one
  entry per order) and invoice counters by financial year.
 */
module Db {
  import opened Common

  datatype OrderStatus = Initiated | SalesUpdated | PaymentVerified | Packing | Dispatched

  /** The customer details a client form submits; each may be absent from the request body. */
  datatype Contact = Contact(
    fullName: Option<string>, address: Option<string>, city: Option<string>,
    state: Option<string>, postalCode: Option<string>, country: Option<string>,
    email: Option<string>, phone: Option<string>)

  /** A row of the order-initiation table. */
  datatype Order = Order(
    clientFormToken: Option<string>,
    accountId: Option<Id>,
    contact: Contact,
    remitterName: Option<string>,
    amountPaid: real,
    currency: string,
    status: OrderStatus,
    invoiceNo: Option<string>,
    invoiceGeneratedAt: Option<Time>,
    exchangeRate: Option<real>,
    dollarAmount: Option<real>,
    inrAmount: Option<real>,
    grsNumber: Option<string>,
    paymentDepositDate: Option<string>,
    createdAt: Time)

  datatype EntryItem = EntryItem(productId: Id, quantity: real, sellingPrice: real)

  /** The sales team's completion of an order; keyed by the order's id. */
  datatype OrderEntry = OrderEntry(
    shipmentMode: string, shippingPrice: real, notes: Option<string>, items: seq<EntryItem>)

  datatype Product = Product(
    name: string,
    composition: Option<string>, manufacturer: Option<string>, hsn: Option<string>,
    pack: Option<string>, batchNo: Option<string>, mfgDate: Option<string>,
    expDate: Option<string>, mrp: Option<real>, gstPercent: Option<real>,
    isActive: bool)

  datatype Party = Party(
    name: string, address: Option<string>, gstNumber: Option<string>,
    drugLicenseNumber: Option<string>, notes: Option<string>, isActive: bool)

  datatype Phone = Phone(partyId: Id, phone: string)

  datatype Email = Email(partyId: Id, email: string)

  datatype PurchaseBill = PurchaseBill(
    invoiceNo: Option<string>, invoiceDate: Option<string>, partyId: Id, totalAmount: Option<real>)

  /** The GST split of a purchase line, copied through unchanged (`?? null`). */
  datatype TaxBreakdown = TaxBreakdown(
    cgstPercent: Option<real>, sgstPercent: Option<real>, igstPercent: Option<real>,
    taxableAmount: Option<real>, cgstAmount: Option<real>, sgstAmount: Option<real>,
    igstAmount: Option<real>)

  datatype PurchaseItem = PurchaseItem(
    productId: Id, purchaseId: Id, batch: Option<string>, expiry: Option<string>,
    quantity: real, rate: real, discount: Option<real>, mrp: Option<real>,
    gstPercent: Option<real>, tax: TaxBreakdown)

  datatype User = User(
    username: string, email: string, passwordHash: string, name: string,
    role: Role, isActive: bool, createdAt: Time)

  /** A single-use order link. */
  datatype FormLink = FormLink(isUsed: bool, usedAt: Option<Time>, expiresAt: Time, orderId: Option<Id>)

  /** A prepaid client account. */
  datatype ClientAccount = ClientAccount(name: string, balance: real, isActive: bool)

  /** A reusable (multi-order) link of a client account. */
  datatype AccountLink = AccountLink(accountId: Id, isActive: bool)

  datatype LedgerType = Credit | Debit

  datatype LedgerRow = LedgerRow(accountId: Id, kind: LedgerType, amount: real, note: string)

  // ------------------------------------------------------------ referential integrity

  predicate EntriesValid(entries: map<Id, OrderEntry>, nOrders: nat, nProducts: nat)
  {
    forall k :: k in entries ==>
      k < nOrders && forall j :: 0 <= j < |entries[k].items| ==> entries[k].items[j].productId < nProducts
  }

  predicate OrdersValid(orders: seq<Order>, nAccounts: nat)
  {
    forall i :: 0 <= i < |orders| ==> orders[i].accountId.Some? ==> orders[i].accountId.value < nAccounts
  }

  predicate PhonesValid(phones: seq<Phone>, nParties: nat)
  {
    forall i :: 0 <= i < |phones| ==> phones[i].partyId < nParties
  }

  predicate EmailsValid(emails: seq<Email>, nParties: nat)
  {
    forall i :: 0 <= i < |emails| ==> emails[i].partyId < nParties
  }

  /** Appending phones that point at the first `n + 1` parties to valid ones keeps them valid once a party is added. */
  lemma PhonesGrow(phones: seq<Phone>, more: seq<Phone>, n: nat)
    requires PhonesValid(phones, n) && PhonesValid(more, n + 1)
    ensures PhonesValid(phones + more, n + 1)
  {
    assert forall i :: 0 <= i < |phones| ==> (phones + more)[i] == phones[i];
    assert forall i :: |phones| <= i < |phones + more| ==> (phones + more)[i] == more[i - |phones|];
  }

  /** The same for emails. */
  lemma EmailsGrow(emails: seq<Email>, more: seq<Email>, n: nat)
    requires EmailsValid(emails, n) && EmailsValid(more, n + 1)
    ensures EmailsValid(emails + more, n + 1)
  {
    assert forall i :: 0 <= i < |emails| ==> (emails + more)[i] == emails[i];
    assert forall i :: |emails| <= i < |emails + more| ==> (emails + more)[i] == more[i - |emails|];
  }

  predicate BillsValid(bills: seq<PurchaseBill>, nParties: nat)
  {
    forall i :: 0 <= i < |bills| ==> bills[i].partyId < nParties
  }

  predicate PurchaseItemsValid(items: seq<PurchaseItem>, nProducts: nat, nBills: nat)
  {
    forall i :: 0 <= i < |items| ==> items[i].productId < nProducts && items[i].purchaseId < nBills
  }

  predicate FormLinksValid(links: map<string, FormLink>, nOrders: nat)
  {
    forall t :: t in links ==> links[t].orderId.Some? ==> links[t].orderId.value < nOrders
  }

  predicate AccountLinksValid(links: map<string, AccountLink>, nAccounts: nat)
  {
    forall t :: t in links ==> links[t].accountId < nAccounts
  }

  predicate LedgerValid(ledger: seq<LedgerRow>, nAccounts: nat)
  {
    forall i :: 0 <= i < |ledger| ==> ledger[i].accountId < nAccounts
  }

  /** Referential integrity of the tables that hold foreign keys. */
  predicate ValidTables(
    orders: seq<Order>, entries: map<Id, OrderEntry>, products: seq<Product>, parties: seq<Party>,
    phones: seq<Phone>, emails: seq<Email>, bills: seq<PurchaseBill>, purchaseItems: seq<PurchaseItem>,
    formLinks: map<string, FormLink>, accounts: seq<ClientAccount>, accountLinks: map<string, AccountLink>,
    ledger: seq<LedgerRow>)
  {
    && EntriesValid(entries, |orders|, |products|)
    && OrdersValid(orders, |accounts|)
    && PhonesValid(phones, |parties|)
    && EmailsValid(emails, |parties|)
    && BillsValid(bills, |parties|)
    && PurchaseItemsValid(purchaseItems, |products|, |bills|)
    && FormLinksValid(formLinks, |orders|)
    && AccountLinksValid(accountLinks, |accounts|)
    && LedgerValid(ledger, |accounts|)
  }

  /** Replacing an order by one with the same account keeps every table valid. */
  lemma ReplaceOrderKeepsValid(
    orders: seq<Order>, id: nat, o: Order, entries: map<Id, OrderEntry>, products: seq<Product>, parties: seq<Party>,
    phones: seq<Phone>, emails: seq<Email>, bills: seq<PurchaseBill>, purchaseItems: seq<PurchaseItem>,
    formLinks: map<string, FormLink>, accounts: seq<ClientAccount>, accountLinks: map<string, AccountLink>,
    ledger: seq<LedgerRow>)
    requires id < |orders| && o.accountId == orders[id].accountId
    ensures ValidTables(orders, entries, products, parties, phones, emails, bills, purchaseItems,
                        formLinks, accounts, accountLinks, ledger)
        ==> ValidTables(orders[id := o], entries, products, parties, phones, emails, bills, purchaseItems,
                        formLinks, accounts, accountLinks, ledger)
  {
  }

  class Database {
    var orders: seq<Order>
    var entries: map<Id, OrderEntry>
    var products: seq<Product>
    var parties: seq<Party>
    var phones: seq<Phone>
    var emails: seq<Email>
    var bills: seq<PurchaseBill>
    var purchaseItems: seq<PurchaseItem>
    var users: seq<User>
    var formLinks: map<string, FormLink>
    var accounts: seq<ClientAccount>
    var accountLinks: map<string, AccountLink>
    var ledger: seq<LedgerRow>
    var invoiceSequences: map<string, nat>

    /** Every foreign key points at an existing row. */
    ghost predicate Valid()
      reads this
    {
      ValidTables(orders, entries, products, parties, phones, emails, bills, purchaseItems,
                  formLinks, accounts, accountLinks, ledger)
    }

    constructor ()
      ensures Valid()
      ensures orders == [] && entries == map[] && products == [] && parties == []
      ensures phones == [] && emails == [] && bills == [] && purchaseItems == []
      ensures users == [] && formLinks == map[] && accounts == [] && accountLinks == map[]
      ensures ledger == [] && invoiceSequences == map[]
    {
      orders, entries, products, parties := [], map[], [], [];
      phones, emails, bills, purchaseItems := [], [], [], [];
      users, formLinks, accounts, accountLinks := [], map[], [], map[];
      ledger, invoiceSequences := [], map[];
    }
  }
}
