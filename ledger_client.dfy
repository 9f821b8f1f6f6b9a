/**
  The ledger page: a list of client accounts; selecting one loads its orders,
  and each order row has an inline payment form. The order rows are
  JavaScript objects (see JsObjects), since a saved row is merged in with a
  spread. The fetches are parameters: the reply of the ledger read and the
  reply of the payment save.
 */
module LedgerClient {
  import opened Common
  import opened Seqs
  import opened JsObjects

  // ---------------------------------------------------------------- the page

  /** `accountInfo`: the selected account's name and balance. */
  datatype AccountInfo = AccountInfo(name: string, balance: real)

  /** What `GET /api/ledger/{id}` returned: `data.orders` and `data.account`, either possibly missing. */
  datatype LedgerReply = LedgerReply(orders: Option<seq<Obj>>, account: Option<AccountInfo>)

  datatype LedgerPage = LedgerPage(selectedId: Option<Id>, orders: seq<Obj>, loading: bool,
                                   accountInfo: Option<AccountInfo>)

  /**
    `selectAccount(id)`: nothing for the account already selected; otherwise
    select it and show what the read returned, or no orders and no account.
   */
  function SelectAccount(page: LedgerPage, id: Id, reply: LedgerReply): LedgerPage
  {
    if page.selectedId == Some(id) then page
    else LedgerPage(Some(id), reply.orders.GetOr([]), false, reply.account)
  }

  /** The order row with this id. */
  predicate HasOrderId(o: Obj, id: Id)
  {
    "id" in o && o["id"] == Ref(id)
  }

  /** `handleSaved(orderId, updated)`: merge the saved fields into the order with that id. */
  function HandleSaved(orders: seq<Obj>, orderId: Id, updated: Obj): seq<Obj>
  {
    seq(|orders|, i requires 0 <= i < |orders| =>
      if HasOrderId(orders[i], orderId) then orders[i] + updated else orders[i])
  }

  /** `hasPayment`: any of the four payment fields is truthy. */
  predicate Filled(o: Obj)
  {
    FieldTruthy(o, "inrAmount") || FieldTruthy(o, "dollarAmount") || FieldTruthy(o, "grsNumber")
    || FieldTruthy(o, "paymentDepositDate")
  }

  predicate Unfilled(o: Obj)
  {
    !Filled(o)
  }

  function FilledCount(orders: seq<Obj>): nat
  {
    Count(orders, Filled)
  }

  /** `orders.length - filled`. */
  function UnfilledCount(orders: seq<Obj>): int
  {
    |orders| - FilledCount(orders)
  }

  // ---------------------------------------------------------------- the payment row

  /** The row's form: every field as text. */
  datatype PaymentForm = PaymentForm(inrAmount: string, dollarAmount: string, exchangeRate: string,
                                     grsNumber: string, paymentDepositDate: string)

  /** `order[k]?.toString() ?? ""` for a number; `show` is `toString` on numbers. */
  function NumText(o: Obj, k: string, show: real -> string): string
  {
    if k in o && o[k].Num? && o[k].num.Some? then show(o[k].num.value) else ""
  }

  /** `order[k] ?? ""` for a string. */
  function StrText(o: Obj, k: string): string
  {
    if k in o && o[k].Text? && o[k].text.Some? then o[k].text.value else ""
  }

  /** The form filled from the order's current values. */
  function FormOf(o: Obj, show: real -> string): PaymentForm
  {
    PaymentForm(NumText(o, "inrAmount", show), NumText(o, "dollarAmount", show), NumText(o, "exchangeRate", show),
                StrText(o, "grsNumber"), StrText(o, "paymentDepositDate"))
  }

  datatype PaymentRow = PaymentRow(editing: bool, saving: bool, err: Option<string>, form: PaymentForm)

  /** The row as it mounts: closed, with the form filled from the order. */
  function InitialRow(o: Obj, show: real -> string): PaymentRow
  {
    PaymentRow(false, false, None, FormOf(o, show))
  }

  /** `cancel()`: refill the form from the order, close it and clear the error. */
  function Cancel(row: PaymentRow, o: Obj, show: real -> string): PaymentRow
  {
    row.(form := FormOf(o, show), editing := false, err := None)
  }

  /** The PATCH body: each form field, or null when it is empty (`|| null`). */
  function SaveBody(f: PaymentForm): Obj
  {
    map["inrAmount" := Text(OrNull(Some(f.inrAmount))), "dollarAmount" := Text(OrNull(Some(f.dollarAmount))),
        "exchangeRate" := Text(OrNull(Some(f.exchangeRate))), "grsNumber" := Text(OrNull(Some(f.grsNumber))),
        "paymentDepositDate" := Text(OrNull(Some(f.paymentDepositDate)))]
  }

  /** `save()` as it starts: the row is marked saving and its error is cleared. */
  function StartSave(row: PaymentRow): (r: PaymentRow)
    ensures r.saving && r.err.None? && r.editing == row.editing && r.form == row.form
  {
    row.(saving := true, err := None)
  }

  /** The reply of `PATCH /api/orders/{id}/payment`: the saved order, or a refusal with its `error` if any. */
  datatype SaveReply = Saved(order: Obj) | Refused(error: Option<string>)

  /**
    What the row and the page's order list become once the save's reply is
    in: a refusal shows its error (or "Save failed") and keeps the row open;
    a success merges the saved order into the list and closes the row with
    no error, since the save cleared the error when it started and a success
    sets none.
   */
  function FinishSave(row: PaymentRow, orders: seq<Obj>, orderId: Id, reply: SaveReply): (PaymentRow, seq<Obj>)
  {
    match reply
    case Refused(e) => (row.(err := Some(if Truthy(e) then e.value else "Save failed"), saving := false), orders)
    case Saved(o) => (row.(editing := false, saving := false, err := None), HandleSaved(orders, orderId, o))
  }

  // ---------------------------------------------------------------- properties

  /** Selecting the account already selected changes nothing; another account replaces orders and account. */
  lemma SelectAccountGuard(page: LedgerPage, id: Id, reply: LedgerReply)
    ensures page.selectedId == Some(id) ==> SelectAccount(page, id, reply) == page
    ensures page.selectedId != Some(id) ==>
      var p := SelectAccount(page, id, reply);
      && p.selectedId == Some(id) && !p.loading && p.accountInfo == reply.account
      && (reply.orders.Some? ==> p.orders == reply.orders.value)
      && (reply.orders.None? ==> p.orders == [])
  {
  }

  /**
    A saved order is merged into the orders with its id, field by field (the
    reply's fields win, the order keeps the others); every other order is
    left as it was, and the list keeps its length and order.
   */
  lemma HandleSavedMergesById(orders: seq<Obj>, orderId: Id, updated: Obj)
    ensures var r := HandleSaved(orders, orderId, updated);
      && |r| == |orders|
      && (forall i :: 0 <= i < |orders| && !HasOrderId(orders[i], orderId) ==> r[i] == orders[i])
      && (forall i :: 0 <= i < |orders| && HasOrderId(orders[i], orderId) ==>
            && r[i].Keys == orders[i].Keys + updated.Keys
            && (forall k :: k in updated ==> r[i][k] == updated[k])
            && (forall k :: k in orders[i] && k !in updated ==> r[i][k] == orders[i][k]))
  {
    forall i | 0 <= i < |orders| && HasOrderId(orders[i], orderId)
      ensures HandleSaved(orders, orderId, updated)[i] == orders[i] + updated
    {
    }
    forall i | 0 <= i < |orders|
      ensures var o := orders[i]; (o + updated).Keys == o.Keys + updated.Keys
    {
      SpreadFields(orders[i], updated);
    }
  }

  /** Every order is either filled or unfilled: the count shown as unfilled is the number of unfilled orders. */
  lemma CountsSplitOrders(orders: seq<Obj>)
    ensures UnfilledCount(orders) == Count(orders, Unfilled) >= 0
    ensures FilledCount(orders) + UnfilledCount(orders) == |orders|
  {
    CountComplement(orders, Filled, Unfilled);
  }

  /** An order is filled exactly when one of its four payment fields is a non-empty string or a non-zero number. */
  lemma FilledMeansPayment(o: Obj)
    ensures Filled(o) <==>
      exists k :: k in ["inrAmount", "dollarAmount", "grsNumber", "paymentDepositDate"] && k in o &&
        (o[k].Ref? || (o[k].Text? && o[k].text.Some? && o[k].text.value != "")
                   || (o[k].Num? && o[k].num.Some? && o[k].num.value != 0.0))
  {
    var keys := ["inrAmount", "dollarAmount", "grsNumber", "paymentDepositDate"];
    if Filled(o) {
      if FieldTruthy(o, "inrAmount") {
        assert keys[0] in keys;
      } else if FieldTruthy(o, "dollarAmount") {
        assert keys[1] in keys;
      } else if FieldTruthy(o, "grsNumber") {
        assert keys[2] in keys;
      } else {
        assert keys[3] in keys;
      }
    }
  }

  /** The save sends null exactly for the empty fields, and each other field as typed. */
  lemma SaveSendsNullForEmpty(f: PaymentForm)
    ensures var b := SaveBody(f);
      && b.Keys == {"inrAmount", "dollarAmount", "exchangeRate", "grsNumber", "paymentDepositDate"}
      && b["inrAmount"] == Text(if f.inrAmount == "" then None else Some(f.inrAmount))
      && b["dollarAmount"] == Text(if f.dollarAmount == "" then None else Some(f.dollarAmount))
      && b["exchangeRate"] == Text(if f.exchangeRate == "" then None else Some(f.exchangeRate))
      && b["grsNumber"] == Text(if f.grsNumber == "" then None else Some(f.grsNumber))
      && b["paymentDepositDate"] == Text(if f.paymentDepositDate == "" then None else Some(f.paymentDepositDate))
  {
  }

  /**
    Cancelling puts the row back as it mounted (closed, no error, the form
    refilled from the order's current values), whatever was typed; only the
    `saving` flag is left alone.
   */
  lemma CancelRestoresForm(row: PaymentRow, o: Obj, show: real -> string)
    ensures Cancel(row, o, show) == InitialRow(o, show).(saving := row.saving)
    ensures var f := Cancel(row, o, show).form;
      && (forall g :: "grsNumber" in o && o["grsNumber"] == Text(Some(g)) ==> f.grsNumber == g)
      && ("grsNumber" !in o || o["grsNumber"] == Text(None) ==> f.grsNumber == "")
      && (forall x :: "inrAmount" in o && o["inrAmount"] == Num(Some(x)) ==> f.inrAmount == show(x))
  {
  }

  /** A refused save changes no order and leaves the form open with an error; a successful one closes it. */
  lemma FinishSaveOutcomes(row: PaymentRow, orders: seq<Obj>, orderId: Id, reply: SaveReply)
    ensures var (r, os) := FinishSave(row, orders, orderId, reply);
      && !r.saving && r.form == row.form
      && (reply.Refused? ==> os == orders && r.editing == row.editing && r.err.Some? && r.err.value != "")
      && (reply.Saved? ==> !r.editing && r.err.None? && os == HandleSaved(orders, orderId, reply.order))
  {
  }

  /**
    A whole save, from its start to its reply: an error left by an earlier
    refused save is gone after a success, and a refusal shows only its own
    error.
   */
  lemma SaveClearsOldError(row: PaymentRow, orders: seq<Obj>, orderId: Id, reply: SaveReply)
    ensures var (r, os) := FinishSave(StartSave(row), orders, orderId, reply);
      && !r.saving && r.form == row.form
      && (reply.Saved? ==> r.err.None? && !r.editing)
      && (reply.Refused? ==> r.err == Some(if Truthy(reply.error) then reply.error.value else "Save failed")
                             && r.editing == row.editing)
  {
  }
}
