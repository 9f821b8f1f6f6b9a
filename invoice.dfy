/**
  Invoice numbering for packed orders. The financial year runs April to
  March and is keyed by the last two digits of its first and last calendar
  years ("2526" for April 2025 – March 2026). Each key has its own counter;
  an invoice number is "E-" + key + "-" + the counter padded to three
  digits. Generating an invoice for an order that already has one hands the
  same number back; otherwise a PAYMENT_VERIFIED order takes the next
  number of the current year and moves to PACKING. The clock is a
  parameter: the current month (1–12), year and timestamp.
 */
module Invoice {
  import opened Common
  import opened Strings
  import opened Db

  // ---------------------------------------------------------------- financial year

  /** The calendar year a financial year starts in: the current one from April, the previous one before. */
  function FyStart(month: int, year: int): (s: int)
    ensures month >= 4 ==> s == year
    ensures month < 4 ==> s == year - 1
  {
    if month >= 4 then year else year - 1
  }

  /** `getFinancialYear()`: the last two characters of the start year, then those of the end year. */
  function FinancialYear(month: int, year: int): (fy: string)
  {
    var start := FyStart(month, year);
    var end := if month >= 4 then year + 1 else year;
    YearDigits(start) + YearDigits(end)
  }

  /** `String(y).slice(-2)`. */
  function YearDigits(y: int): string
  {
    Last2(IntToString(y))
  }

  lemma YearDigitsOf(y: int)
    requires y >= 10
    ensures YearDigits(y) == [Digit((y / 10) % 10), Digit(y % 10)]
  {
    Last2Digits(y);
  }

  /** The financial year always ends the calendar year after it starts. */
  lemma FinancialYearSpan(month: int, year: int)
    ensures FinancialYear(month, year) == YearDigits(FyStart(month, year)) + YearDigits(FyStart(month, year) + 1)
  {
  }

  /** April–December of one year and January–March of the next share one key. */
  lemma SameFinancialYear(m1: int, m2: int, year: int)
    requires 4 <= m1 <= 12 && 1 <= m2 <= 3
    ensures FinancialYear(m1, year) == FinancialYear(m2, year + 1)
  {
  }

  /** From year 11 on, the key is four digits: tens and units of the start year, then of the end year. */
  lemma FinancialYearDigits(month: int, year: int)
    requires year >= 11
    ensures var s := FyStart(month, year);
      FinancialYear(month, year) == [Digit((s / 10) % 10), Digit(s % 10), Digit(((s + 1) / 10) % 10), Digit((s + 1) % 10)]
  {
    var s := FyStart(month, year);
    assert FinancialYear(month, year) == YearDigits(s) + YearDigits(s + 1);
    YearDigitsOf(s);
    YearDigitsOf(s + 1);
  }

  /** April 2025 falls in "2526" (and so, by SameFinancialYear, does March 2026). */
  lemma FinancialYearExample(year: int)
    requires year == 2025
    ensures FinancialYear(4, year) == "2526"
  {
    FinancialYearDigits(4, year);
    assert FyStart(4, year) == year;
    DigitsAround2025(year);
    assert Digit(2) == '2' && Digit(5) == '5' && Digit(6) == '6';
  }

  lemma DigitsAround2025(year: int)
    requires year == 2025
    ensures ((year - 1) / 10) % 10 == 2 && (year - 1) % 10 == 4
    ensures (year / 10) % 10 == 2 && year % 10 == 5 && ((year + 1) / 10) % 10 == 2 && (year + 1) % 10 == 6
  {
  }

  /** March 2025 still falls in the year that started in April 2024. */
  lemma MarchExample(year: int)
    requires year == 2025
    ensures FinancialYear(3, year) == "2425"
  {
    FinancialYearDigits(3, year);
    assert FyStart(3, year) == year - 1;
    DigitsAround2025(year);
    assert Digit(2) == '2' && Digit(4) == '4' && Digit(5) == '5';
  }

  /** The second character of a key is the units digit of its start year. */
  lemma KeyUnits(month: int, year: int)
    requires year >= 11
    ensures |FinancialYear(month, year)| == 4 && FinancialYear(month, year)[1] == Digit(FyStart(month, year) % 10)
  {
    FinancialYearDigits(month, year);
  }

  /** Different digits are different characters. */
  lemma DigitInjective(a: nat, b: nat)
    requires a < 10 && b < 10 && a != b
    ensures Digit(a) != Digit(b)
  {
    assert Digit(a) as int == '0' as int + a;
    assert Digit(b) as int == '0' as int + b;
  }

  /** The key changes between March and April, so the counter starts over each April. */
  lemma NewKeyEachApril(year: int)
    requires year >= 11
    ensures FinancialYear(3, year) != FinancialYear(4, year)
  {
    KeyUnits(3, year);
    KeyUnits(4, year);
    var s := year - 1;
    assert FyStart(3, year) == s && FyStart(4, year) == s + 1;
    NextUnits(s);
    DigitInjective(s % 10, (s + 1) % 10);
  }

  lemma NextUnits(s: nat)
    ensures (s + 1) % 10 != s % 10
  {
    assert (s + 1) % 10 == (if s % 10 == 9 then 0 else s % 10 + 1);
  }

  // ---------------------------------------------------------------- invoice numbers

  /** `E-${fy}-${String(n).padStart(3, "0")}`. */
  function InvoiceNumber(fy: string, n: nat): (no: string)
    ensures StartsWith(no, "E-")
    ensures |no| >= |fy| + 6
  {
    assert StartsWith("E-" + fy + "-" + PadZeros(NatToString(n), 3), "E-");
    "E-" + fy + "-" + PadZeros(NatToString(n), 3)
  }

  /** The position of the last occurrence of c in s. */
  function LastIndexOf(s: string, c: char): (r: Option<nat>)
    ensures r.Some? ==> r.value < |s| && s[r.value] == c && forall j :: r.value < j < |s| ==> s[j] != c
    ensures r.None? ==> forall j :: 0 <= j < |s| ==> s[j] != c
  {
    if s == [] then None
    else if s[|s| - 1] == c then Some(|s| - 1)
    else LastIndexOf(s[..|s| - 1], c)
  }

  /**
    Reads an invoice number back into its key and counter: "E-", then the
    key, then a dash and the counter's digits after the last dash.
   */
  function ParseInvoiceNumber(no: string): Option<(string, nat)>
  {
    if !StartsWith(no, "E-") then None
    else match LastIndexOf(no, '-')
      case None => None
      case Some(k) =>
        if k < 2 || k + 1 == |no| || !AllDigits(no[k + 1..]) then None
        else Some((no[2..k], DecimalValue(no[k + 1..])))
  }

  /** A position holding c with no c after it is the last occurrence of c. */
  lemma LastIndexOfAt(s: string, c: char, k: nat)
    requires k < |s| && s[k] == c && forall j :: k < j < |s| ==> s[j] != c
    ensures LastIndexOf(s, c) == Some(k)
  {
  }

  /** Where the parts of an invoice number sit: the key from position 2, a dash, then the counter's digits. */
  lemma InvoiceNumberLayout(fy: string, n: nat)
    ensures var no := InvoiceNumber(fy, n); var k := 2 + |fy|;
      && no[k] == '-' && no[2..k] == fy && no[k + 1..] == PadZeros(NatToString(n), 3)
      && (forall j :: k < j < |no| ==> no[j] != '-')
  {
    var digits := PadZeros(NatToString(n), 3);
    PadZerosRoundTrip(n, 3);
    var no := InvoiceNumber(fy, n);
    var k := 2 + |fy|;
    var head := "E-" + fy + "-";
    assert |head| == k + 1 && head[k] == '-' && head[2..k] == fy;
    assert no == head + digits;
    assert no[..k + 1] == head;
    assert no[k + 1..] == digits;
    forall j | k < j < |no|
      ensures no[j] != '-'
    {
      assert no[j] == digits[j - k - 1];
    }
  }

  /** Every number reads back as the key and counter it was made from: the format is unambiguous. */
  lemma InvoiceNumberRoundTrip(fy: string, n: nat)
    ensures ParseInvoiceNumber(InvoiceNumber(fy, n)) == Some((fy, n))
  {
    var no := InvoiceNumber(fy, n);
    InvoiceNumberLayout(fy, n);
    PadZerosRoundTrip(n, 3);
    LastIndexOfAt(no, '-', 2 + |fy|);
  }

  /** Distinct (key, counter) pairs give distinct invoice numbers. */
  lemma InvoiceNumberInjective(f1: string, n1: nat, f2: string, n2: nat)
    requires InvoiceNumber(f1, n1) == InvoiceNumber(f2, n2)
    ensures f1 == f2 && n1 == n2
  {
    InvoiceNumberRoundTrip(f1, n1);
    InvoiceNumberRoundTrip(f2, n2);
  }

  /** The counter is padded to at least three digits and never cut: counters past 999 keep every digit. */
  lemma CounterDigits(fy: string, n: nat)
    ensures var no := InvoiceNumber(fy, n); var d := no[|fy| + 3..];
      |d| >= 3 && AllDigits(d) && DecimalValue(d) == n
  {
    var no := InvoiceNumber(fy, n);
    PadZerosRoundTrip(n, 3);
    assert no[|fy| + 3..] == PadZeros(NatToString(n), 3);
  }

  /** The first number of 2025–26. */
  lemma InvoiceNumberExample(fy: string)
    requires fy == "2526"
    ensures InvoiceNumber(fy, 1) == "E-2526-001"
  {
    assert NatToString(1) == "1";
    assert PadZeros("1", 3) == "001" by {
      assert Zeros(2) == "00";
    }
  }

  // ---------------------------------------------------------------- the per-year counters

  /** The upsert on the year's sequence row: 1 for a new year, otherwise the last number plus one. */
  function NextCounter(sequences: map<string, nat>, fy: string): (n: nat)
    ensures n >= 1
    ensures fy in sequences ==> n == sequences[fy] + 1
    ensures fy !in sequences ==> n == 1
  {
    if fy in sequences then sequences[fy] + 1 else 1
  }

  /** An invoice number was handed out under the counters: its counter is at most its year's last number. */
  predicate IssuedUnder(no: string, sequences: map<string, nat>)
  {
    match ParseInvoiceNumber(no)
    case None => false
    case Some(p) => p.0 in sequences && 1 <= p.1 <= sequences[p.0]
  }

  predicate HasInvoice(o: Order)
  {
    o.invoiceNo.Some?
  }

  /**
    The numbering invariant: every invoice number on an order was issued
    under the current counters, and no two orders share a number.
   */
  predicate NumberingValid(orders: seq<Order>, sequences: map<string, nat>)
  {
    && (forall i :: 0 <= i < |orders| && HasInvoice(orders[i]) ==> IssuedUnder(orders[i].invoiceNo.value, sequences))
    && (forall i, j :: 0 <= i < j < |orders| && HasInvoice(orders[i]) && HasInvoice(orders[j]) ==>
          orders[i].invoiceNo.value != orders[j].invoiceNo.value)
  }

  /** The next number of a year was not issued before. */
  lemma {:induction false} NextNumberIsFresh(no: string, sequences: map<string, nat>, fy: string)
    requires IssuedUnder(no, sequences)
    ensures no != InvoiceNumber(fy, NextCounter(sequences, fy))
  {
    var n := NextCounter(sequences, fy);
    InvoiceNumberRoundTrip(fy, n);
  }

  /** Raising one year's counter keeps every number issued so far issued. */
  lemma IssuedUnderRaise(no: string, sequences: map<string, nat>, fy: string)
    requires IssuedUnder(no, sequences)
    ensures IssuedUnder(no, sequences[fy := NextCounter(sequences, fy)])
  {
  }

  datatype InvoiceResult = InvoiceResult(invoiceNo: string, existing: bool)

  /** What one request answers, and the orders and counters it leaves behind. */
  datatype InvoiceOutcome = InvoiceOutcome(reply: Reply<InvoiceResult>, orders: seq<Order>, sequences: map<string, nat>)

  const InvoiceRoles: seq<Role> := [Admin, Manager, Packaging]

  const NotVerified := "Order must be PAYMENT_VERIFIED before generating invoice"

  /** The order with an invoice: its number, the generation time, and status PACKING. */
  function Invoiced(o: Order, no: string, now: Time): (o': Order)
    ensures o'.invoiceNo == Some(no) && o'.invoiceGeneratedAt == Some(now) && o'.status == Packing
    ensures o'.accountId == o.accountId && o'.contact == o.contact && o'.amountPaid == o.amountPaid
  {
    o.(invoiceNo := Some(no), invoiceGeneratedAt := Some(now), status := Packing)
  }

  /**
    The specification of `POST /api/packaging/invoice` on the order and
    counter tables. `orderId` is None when the request body has none (or an
    empty one); an id that names no order is "not found".
   */
  function InvoiceStep(orders: seq<Order>, sequences: map<string, nat>, session: Option<SessionUser>,
                       orderId: Option<Id>, fy: string, now: Time): InvoiceOutcome
  {
    if !RoleGate(session, InvoiceRoles) then InvoiceOutcome(Fail(403, "Forbidden"), orders, sequences)
    else if orderId.None? then InvoiceOutcome(Fail(400, "orderId required"), orders, sequences)
    else if orderId.value >= |orders| then InvoiceOutcome(Fail(404, "Order not found"), orders, sequences)
    else
      var o := orders[orderId.value];
      if Truthy(o.invoiceNo) then InvoiceOutcome(Ok(InvoiceResult(o.invoiceNo.value, true)), orders, sequences)
      else if o.status != PaymentVerified then InvoiceOutcome(Fail(400, NotVerified), orders, sequences)
      else
        var n := NextCounter(sequences, fy);
        var no := InvoiceNumber(fy, n);
        InvoiceOutcome(Ok(InvoiceResult(no, false)), orders[orderId.value := Invoiced(o, no, now)], sequences[fy := n])
  }

  /** `POST /api/packaging/invoice` on the database. */
  method GenerateInvoice(db: Database, session: Option<SessionUser>, orderId: Option<Id>,
                         month: int, year: int, now: Time)
    returns (r: Reply<InvoiceResult>)
    modifies db`orders, db`invoiceSequences
    ensures InvoiceOutcome(r, db.orders, db.invoiceSequences)
         == InvoiceStep(old(db.orders), old(db.invoiceSequences), session, orderId, FinancialYear(month, year), now)
  {
    if !RoleGate(session, InvoiceRoles) {
      return Fail(403, "Forbidden");
    }
    if orderId.None? {
      return Fail(400, "orderId required");
    }
    var id := orderId.value;
    if id >= |db.orders| {
      return Fail(404, "Order not found");
    }
    var order := db.orders[id];
    if Truthy(order.invoiceNo) {
      return Ok(InvoiceResult(order.invoiceNo.value, true));
    }
    if order.status != PaymentVerified {
      return Fail(400, NotVerified);
    }
    var fy := FinancialYear(month, year);
    var n := NextCounter(db.invoiceSequences, fy);
    db.invoiceSequences := db.invoiceSequences[fy := n];
    var no := InvoiceNumber(fy, n);
    db.orders := db.orders[id := Invoiced(order, no, now)];
    r := Ok(InvoiceResult(no, false));
    assert InvoiceStep(old(db.orders), old(db.invoiceSequences), session, orderId, fy, now)
        == InvoiceOutcome(r, db.orders, db.invoiceSequences);
  }

  // ---------------------------------------------------------------- properties of a request

  /** A request only ever replaces one order by the same order with an invoice, so every table stays valid. */
  lemma StepKeepsTablesValid(
    orders: seq<Order>, sequences: map<string, nat>, session: Option<SessionUser>, orderId: Option<Id>,
    fy: string, now: Time, entries: map<Id, OrderEntry>, products: seq<Product>, parties: seq<Party>,
    phones: seq<Phone>, emails: seq<Email>, bills: seq<PurchaseBill>, purchaseItems: seq<PurchaseItem>,
    formLinks: map<string, FormLink>, accounts: seq<ClientAccount>, accountLinks: map<string, AccountLink>,
    ledger: seq<LedgerRow>)
    requires ValidTables(orders, entries, products, parties, phones, emails, bills, purchaseItems,
                         formLinks, accounts, accountLinks, ledger)
    ensures var out := InvoiceStep(orders, sequences, session, orderId, fy, now);
      ValidTables(out.orders, entries, products, parties, phones, emails, bills, purchaseItems,
                  formLinks, accounts, accountLinks, ledger)
  {
    var out := InvoiceStep(orders, sequences, session, orderId, fy, now);
    if out.orders != orders {
      var id := orderId.value;
      ReplaceOrderKeepsValid(orders, id, out.orders[id], entries, products, parties, phones, emails, bills,
                             purchaseItems, formLinks, accounts, accountLinks, ledger);
    }
  }

  /** Callers outside ADMIN, MANAGER and PACKAGING are refused before anything is read or written. */
  lemma ForbiddenChangesNothing(orders: seq<Order>, sequences: map<string, nat>, session: Option<SessionUser>,
                                orderId: Option<Id>, fy: string, now: Time)
    requires !RoleGate(session, InvoiceRoles)
    ensures InvoiceStep(orders, sequences, session, orderId, fy, now)
         == InvoiceOutcome(Fail(403, "Forbidden"), orders, sequences)
  {
  }

  /**
    The error answers, in the order they are checked: no order id (400), no
    such order (404), an un-invoiced order not yet PAYMENT_VERIFIED (400).
    Each leaves orders and counters as they were.
   */
  lemma ErrorsChangeNothing(orders: seq<Order>, sequences: map<string, nat>, session: Option<SessionUser>,
                            orderId: Option<Id>, fy: string, now: Time)
    requires RoleGate(session, InvoiceRoles)
    ensures var out := InvoiceStep(orders, sequences, session, orderId, fy, now);
      && (orderId.None? ==> out.reply == Fail(400, "orderId required"))
      && (orderId.Some? && orderId.value >= |orders| ==> out.reply == Fail(404, "Order not found"))
      && ((orderId.Some? && orderId.value < |orders| && !Truthy(orders[orderId.value].invoiceNo)
           && orders[orderId.value].status != PaymentVerified) ==> out.reply == Fail(400, NotVerified))
      && (out.reply.Fail? ==> out.orders == orders && out.sequences == sequences)
  {
  }

  /** An order that already has a number gets it back, marked existing, whatever its status; nothing changes. */
  lemma ExistingInvoiceReturned(orders: seq<Order>, sequences: map<string, nat>, session: Option<SessionUser>,
                                id: Id, fy: string, now: Time)
    requires RoleGate(session, InvoiceRoles) && id < |orders| && Truthy(orders[id].invoiceNo)
    ensures InvoiceStep(orders, sequences, session, Some(id), fy, now)
         == InvoiceOutcome(Ok(InvoiceResult(orders[id].invoiceNo.value, true)), orders, sequences)
  {
  }

  /**
    A fresh invoice goes only to a PAYMENT_VERIFIED order without one. It
    takes the next number of the current year, that year's counter is the
    only one that moves, and the target order is the only one that changes.
   */
  lemma FreshInvoice(orders: seq<Order>, sequences: map<string, nat>, session: Option<SessionUser>,
                     orderId: Option<Id>, fy: string, now: Time)
    requires InvoiceStep(orders, sequences, session, orderId, fy, now).reply.Ok?
    requires !InvoiceStep(orders, sequences, session, orderId, fy, now).reply.value.existing
    ensures var out := InvoiceStep(orders, sequences, session, orderId, fy, now);
      && RoleGate(session, InvoiceRoles) && orderId.Some? && orderId.value < |orders|
      && !Truthy(orders[orderId.value].invoiceNo) && orders[orderId.value].status == PaymentVerified
      && out.reply.value.invoiceNo == InvoiceNumber(fy, NextCounter(sequences, fy))
      && out.sequences[fy] == NextCounter(sequences, fy)
      && (forall f :: f != fy ==> (f in out.sequences <==> f in sequences))
      && (forall f :: f != fy && f in sequences ==> out.sequences[f] == sequences[f])
      && |out.orders| == |orders|
      && out.orders[orderId.value] == Invoiced(orders[orderId.value], out.reply.value.invoiceNo, now)
      && (forall i :: 0 <= i < |orders| && i != orderId.value ==> out.orders[i] == orders[i])
  {
  }

  /** Asking again for the same order hands back the number it was just given, and changes nothing more. */
  lemma SecondRequestIdempotent(orders: seq<Order>, sequences: map<string, nat>, session: Option<SessionUser>,
                                id: Id, fy: string, now: Time, fy2: string, now2: Time)
    requires InvoiceStep(orders, sequences, session, Some(id), fy, now).reply.Ok?
    ensures var out := InvoiceStep(orders, sequences, session, Some(id), fy, now);
      var again := InvoiceStep(out.orders, out.sequences, session, Some(id), fy2, now2);
      again == InvoiceOutcome(Ok(InvoiceResult(out.reply.value.invoiceNo, true)), out.orders, out.sequences)
  {
    var out := InvoiceStep(orders, sequences, session, Some(id), fy, now);
    if out.reply.value.existing {
      assert out.orders == orders && out.sequences == sequences;
      ExistingInvoiceReturned(orders, sequences, session, id, fy2, now2);
    } else {
      FreshInvoice(orders, sequences, session, Some(id), fy, now);
      var no := out.reply.value.invoiceNo;
      assert out.orders[id].invoiceNo == Some(no);
      assert |no| >= 6;
      ExistingInvoiceReturned(out.orders, out.sequences, session, id, fy2, now2);
    }
  }

  /** Two fresh invoices in the same financial year get consecutive numbers of that year. */
  lemma ConsecutiveInFinancialYear(orders: seq<Order>, sequences: map<string, nat>, session: Option<SessionUser>,
                                   id1: Id, id2: Id, fy: string, now: Time, now2: Time)
    requires var out := InvoiceStep(orders, sequences, session, Some(id1), fy, now);
      out.reply.Ok? && !out.reply.value.existing
    requires var out := InvoiceStep(orders, sequences, session, Some(id1), fy, now);
      var next := InvoiceStep(out.orders, out.sequences, session, Some(id2), fy, now2);
      next.reply.Ok? && !next.reply.value.existing
    ensures var n := NextCounter(sequences, fy);
      var out := InvoiceStep(orders, sequences, session, Some(id1), fy, now);
      var next := InvoiceStep(out.orders, out.sequences, session, Some(id2), fy, now2);
      out.reply.value.invoiceNo == InvoiceNumber(fy, n) && next.reply.value.invoiceNo == InvoiceNumber(fy, n + 1)
  {
    var out := InvoiceStep(orders, sequences, session, Some(id1), fy, now);
    FreshInvoice(orders, sequences, session, Some(id1), fy, now);
    FreshInvoice(out.orders, out.sequences, session, Some(id2), fy, now2);
  }

  /** Every request keeps the numbering invariant, so no two orders ever share an invoice number. */
  lemma {:induction false} StepKeepsNumbering(orders: seq<Order>, sequences: map<string, nat>,
                                              session: Option<SessionUser>, orderId: Option<Id>,
                                              fy: string, now: Time)
    requires NumberingValid(orders, sequences)
    ensures var out := InvoiceStep(orders, sequences, session, orderId, fy, now);
      NumberingValid(out.orders, out.sequences)
  {
    var out := InvoiceStep(orders, sequences, session, orderId, fy, now);
    if out.reply.Ok? && !out.reply.value.existing {
      var id := orderId.value;
      NumberingPreserved(orders, sequences, id, fy, now);
    }
  }

  /** Giving an un-invoiced order the next number of a year keeps the numbering invariant. */
  lemma {:induction false} NumberingPreserved(orders: seq<Order>, sequences: map<string, nat>, id: nat, fy: string, now: Time)
    requires id < |orders| && NumberingValid(orders, sequences) && !Truthy(orders[id].invoiceNo)
    ensures var n := NextCounter(sequences, fy);
      NumberingValid(orders[id := Invoiced(orders[id], InvoiceNumber(fy, n), now)], sequences[fy := n])
  {
    var n := NextCounter(sequences, fy);
    var no := InvoiceNumber(fy, n);
    var seqs' := sequences[fy := n];
    var orders' := orders[id := Invoiced(orders[id], no, now)];
    InvoiceNumberRoundTrip(fy, n);
    assert IssuedUnder(no, seqs');
    forall i | 0 <= i < |orders'| && HasInvoice(orders'[i])
      ensures IssuedUnder(orders'[i].invoiceNo.value, seqs')
    {
      if i != id {
        IssuedUnderRaise(orders[i].invoiceNo.value, sequences, fy);
      }
    }
    forall i, j | 0 <= i < j < |orders'| && HasInvoice(orders'[i]) && HasInvoice(orders'[j])
      ensures orders'[i].invoiceNo.value != orders'[j].invoiceNo.value
    {
      if i == id {
        NextNumberIsFresh(orders[j].invoiceNo.value, sequences, fy);
      } else if j == id {
        NextNumberIsFresh(orders[i].invoiceNo.value, sequences, fy);
      }
    }
  }
}
