/**
  `POST /api/client-form-submit`: the public order form. The token is looked
  up first among the single-use links; such a link is locked (marked used at
  the current time) only while it is unused and unexpired, and then one
  order is created and recorded on it. The lock and the create are separate
  writes: when the create fails (`created` is false: the amount is no
  decimal, or the database refuses the row) the reply is 400 and the link
  stays used with no order. A token that is not a single-use link is tried as
  an account's reusable link, which must be active; it is never marked used,
  so every submission through it creates an order tied to the link's account.
 */
module ClientFormSubmit {
  import opened Common
  import opened Db
  import opened Seqs

  /** The body of a client form submission; every field may be absent. */
  datatype FormInput = FormInput(
    token: Option<string>, contact: Contact, remitterName: Option<string>,
    amountPaid: Option<real>, currency: Option<string>)

  datatype LinkType = Single | Multi

  /** The reply `{ orderId, linkType }`. */
  datatype Submitted = Submitted(orderId: Id, linkType: LinkType)

  /** `currency || "INR"`. */
  function CurrencyOr(currency: Option<string>): (r: string)
    ensures Truthy(currency) ==> r == currency.value
    ensures !Truthy(currency) ==> r == "INR"
  {
    if Truthy(currency) then currency.value else "INR"
  }

  /**
    The order row a client submission creates: the form's contact details,
    `amountPaid || "0"`, `currency || "INR"`, the token kept for audit, and
    the account of the link when it is a reusable one. New orders start as
    INITIATED.
   */
  function ClientOrder(token: string, accountId: Option<Id>, f: FormInput, remitterName: Option<string>, now: Time): Order
  {
    Order(Some(token), accountId, f.contact, remitterName, NumOr(f.amountPaid, 0.0), CurrencyOr(f.currency),
          Initiated, None, None, None, None, None, None, None, now)
  }

  /** The lock's condition: `isUsed: false, expiresAt: { gt: now }`. */
  predicate Lockable(link: FormLink, now: Time)
  {
    !link.isUsed && link.expiresAt > now
  }

  /** The link after the lock: used at `now`, everything else as it was. */
  function Locked(link: FormLink, now: Time): FormLink
  {
    link.(isUsed := true, usedAt := Some(now))
  }

  /** The message of the error the order create throws (one fixed message here). */
  const CreateFailed := "Order could not be created"

  datatype SubmitOutcome = SubmitOutcome(reply: Reply<Submitted>, orders: seq<Order>, formLinks: map<string, FormLink>)

  /**
    The handler on the tables it touches; `now` is the server clock and
    `created` whether the database accepts the order row.
   */
  function SubmitStep(orders: seq<Order>, formLinks: map<string, FormLink>, accountLinks: map<string, AccountLink>,
                      f: FormInput, now: Time, created: bool): SubmitOutcome
  {
    if !Truthy(f.token) then
      SubmitOutcome(Fail(400, "Token required"), orders, formLinks)
    else
      var token := f.token.value;
      if token in formLinks then
        var link := formLinks[token];
        if !Lockable(link, now) then
          SubmitOutcome(Fail(400, if link.isUsed then "Link already used" else "Link expired"), orders, formLinks)
        else if !created then
          SubmitOutcome(Fail(400, CreateFailed), orders, formLinks[token := Locked(link, now)])
        else
          var id := |orders|;
          SubmitOutcome(Ok(Submitted(id, Single)), orders + [ClientOrder(token, None, f, f.remitterName, now)],
                        formLinks[token := FormLink(true, Some(now), link.expiresAt, Some(id))])
      else if token !in accountLinks || !accountLinks[token].isActive then
        SubmitOutcome(Fail(400, "Invalid link"), orders, formLinks)
      else if !created then
        SubmitOutcome(Fail(400, CreateFailed), orders, formLinks)
      else
        var order := ClientOrder(token, Some(accountLinks[token].accountId), f, OrNull(f.remitterName), now);
        SubmitOutcome(Ok(Submitted(|orders|, Multi)), orders + [order], formLinks)
  }

  /**
    The handler: lock the single-use link, create the order, then record the
    order on the link; or, for a reusable link, create the order only.
   */
  method SubmitClientForm(db: Database, f: FormInput, now: Time, created: bool) returns (r: Reply<Submitted>)
    modifies db`orders, db`formLinks
    ensures SubmitOutcome(r, db.orders, db.formLinks)
         == SubmitStep(old(db.orders), old(db.formLinks), db.accountLinks, f, now, created)
  {
    if !Truthy(f.token) {
      return Fail(400, "Token required");
    }
    var token := f.token.value;
    if token in db.formLinks {
      var link := db.formLinks[token];
      if !Lockable(link, now) {
        if link.isUsed {
          return Fail(400, "Link already used");
        }
        return Fail(400, "Link expired");
      }
      db.formLinks := db.formLinks[token := Locked(link, now)];
      if !created {
        return Fail(400, CreateFailed);
      }
      var id := |db.orders|;
      db.orders := db.orders + [ClientOrder(token, None, f, f.remitterName, now)];
      db.formLinks := db.formLinks[token := db.formLinks[token].(orderId := Some(id))];
      return Ok(Submitted(id, Single));
    }
    if token !in db.accountLinks || !db.accountLinks[token].isActive {
      return Fail(400, "Invalid link");
    }
    if !created {
      return Fail(400, CreateFailed);
    }
    var id := |db.orders|;
    db.orders := db.orders + [ClientOrder(token, Some(db.accountLinks[token].accountId), f, OrNull(f.remitterName), now)];
    return Ok(Submitted(id, Multi));
  }

  // ---------------------------------------------------------------- properties

  /**
    Every refusal leaves the orders and the links as they were: 400 "Token
    required" without a token, "Link already used" for a used single-use
    link, "Link expired" for an unused one past its expiry, and "Invalid
    link" for a token that is neither a single-use link nor an active
    reusable one. A failed create also answers 400 and adds no order, but a
    single-use link it has already locked stays locked.
   */
  lemma RefusalsWriteNothing(orders: seq<Order>, formLinks: map<string, FormLink>,
                             accountLinks: map<string, AccountLink>, f: FormInput, now: Time, created: bool)
    ensures var out := SubmitStep(orders, formLinks, accountLinks, f, now, created);
      && (out.reply.Fail? ==> out.orders == orders && out.reply.status == 400)
      && (out.reply.Fail? && out.reply.error != CreateFailed ==> out.formLinks == formLinks)
      && (out.reply == Fail(400, CreateFailed) ==>
            !created && Truthy(f.token)
            && out.formLinks == if f.token.value in formLinks
                                then formLinks[f.token.value := Locked(formLinks[f.token.value], now)]
                                else formLinks)
      && (!Truthy(f.token) ==> out.reply == Fail(400, "Token required"))
      && (Truthy(f.token) && f.token.value in formLinks && formLinks[f.token.value].isUsed ==>
            out.reply == Fail(400, "Link already used"))
      && (Truthy(f.token) && f.token.value in formLinks && !formLinks[f.token.value].isUsed
          && formLinks[f.token.value].expiresAt <= now ==>
            out.reply == Fail(400, "Link expired"))
      && (Truthy(f.token) && f.token.value !in formLinks
          && (f.token.value !in accountLinks || !accountLinks[f.token.value].isActive) ==>
            out.reply == Fail(400, "Invalid link"))
  {
  }

  /**
    A usable single-use link is consumed. When the create succeeds, exactly
    one order is appended, with no account, and the link becomes used at
    `now` with that order recorded on it. When it fails, the reply is 400, no
    order is appended, and the link is used at `now` with no order recorded.
    Either way its expiry and every other link are unchanged.
   */
  lemma SingleLinkConsumed(orders: seq<Order>, formLinks: map<string, FormLink>,
                           accountLinks: map<string, AccountLink>, f: FormInput, now: Time, created: bool)
    requires Truthy(f.token) && f.token.value in formLinks && Lockable(formLinks[f.token.value], now)
    ensures var out := SubmitStep(orders, formLinks, accountLinks, f, now, created); var t := f.token.value;
      && out.formLinks.Keys == formLinks.Keys
      && out.formLinks[t].isUsed && out.formLinks[t].usedAt == Some(now)
      && out.formLinks[t].expiresAt == formLinks[t].expiresAt
      && (forall u :: u in formLinks && u != t ==> out.formLinks[u] == formLinks[u])
      && (created ==>
            && out.reply == Ok(Submitted(|orders|, Single))
            && |out.orders| == |orders| + 1 && out.orders[..|orders|] == orders
            && out.orders[|orders|].accountId.None? && out.orders[|orders|].clientFormToken == Some(t)
            && out.orders[|orders|].remitterName == f.remitterName
            && out.formLinks[t].orderId == Some(|orders|))
      && (!created ==>
            && out.reply == Fail(400, CreateFailed) && out.orders == orders
            && out.formLinks[t].orderId == formLinks[t].orderId)
  {
  }

  /**
    Once a single-use link has been locked, whether or not its order was
    created, submitting the same token again, at any time, is refused as used.
   */
  lemma LinkUsedOnce(orders: seq<Order>, formLinks: map<string, FormLink>, accountLinks: map<string, AccountLink>,
                     f: FormInput, now: Time, created: bool, g: FormInput, later: Time, created2: bool)
    requires g.token == f.token
    requires Truthy(f.token) && f.token.value in formLinks && Lockable(formLinks[f.token.value], now)
    ensures var out := SubmitStep(orders, formLinks, accountLinks, f, now, created);
      SubmitStep(out.orders, out.formLinks, accountLinks, g, later, created2)
      == SubmitOutcome(Fail(400, "Link already used"), out.orders, out.formLinks)
  {
  }

  /** A token that names a single-use link is never treated as a reusable one: no order with an account comes of it. */
  lemma SingleNeverMulti(orders: seq<Order>, formLinks: map<string, FormLink>, accountLinks: map<string, AccountLink>,
                         f: FormInput, now: Time, created: bool)
    requires Truthy(f.token) && f.token.value in formLinks
    ensures var out := SubmitStep(orders, formLinks, accountLinks, f, now, created);
      && (out.reply.Ok? ==> out.reply.value.linkType == Single)
      && forall i :: |orders| <= i < |out.orders| ==> out.orders[i].accountId.None?
  {
  }

  /**
    An active reusable link changes no link. When the create succeeds it adds
    one order tied to its account, and the same submission succeeds again
    afterwards; when it fails nothing is written.
   */
  lemma MultiLinkReusable(orders: seq<Order>, formLinks: map<string, FormLink>, accountLinks: map<string, AccountLink>,
                          f: FormInput, now: Time, created: bool, g: FormInput, later: Time)
    requires Truthy(f.token) && f.token.value !in formLinks
    requires f.token.value in accountLinks && accountLinks[f.token.value].isActive
    requires g.token == f.token
    ensures var out := SubmitStep(orders, formLinks, accountLinks, f, now, created); var t := f.token.value;
      && out.formLinks == formLinks
      && (!created ==> out == SubmitOutcome(Fail(400, CreateFailed), orders, formLinks))
      && (created ==>
            && out.reply == Ok(Submitted(|orders|, Multi))
            && |out.orders| == |orders| + 1 && out.orders[..|orders|] == orders
            && out.orders[|orders|].accountId == Some(accountLinks[t].accountId)
            && out.orders[|orders|].remitterName == OrNull(f.remitterName)
            && SubmitStep(out.orders, out.formLinks, accountLinks, g, later, true).reply == Ok(Submitted(|orders| + 1, Multi)))
  {
  }

  /** Both paths default the amount paid to 0 and the currency to INR, and keep the contact details as submitted. */
  lemma SubmissionDefaults(orders: seq<Order>, formLinks: map<string, FormLink>, accountLinks: map<string, AccountLink>,
                           f: FormInput, now: Time, created: bool)
    ensures var out := SubmitStep(orders, formLinks, accountLinks, f, now, created);
      out.reply.Ok? ==>
        && out.reply.value.orderId == |orders| && |out.orders| == |orders| + 1
        && var o := out.orders[|orders|];
           && o.amountPaid == (if TruthyNum(f.amountPaid) then f.amountPaid.value else 0.0)
           && o.currency == (if Truthy(f.currency) then f.currency.value else "INR")
           && o.contact == f.contact && o.clientFormToken == f.token && o.status == Initiated && o.createdAt == now
  {
  }

  /** The orders created through the single-use link `t`: those carrying its token and no account. */
  function SingleOrders(orders: seq<Order>, t: string): (n: nat)
    ensures n <= |orders|
  {
    Count(orders, (o: Order) => o.clientFormToken == Some(t) && o.accountId.None?)
  }

  /** Each single-use link has at most one order, and none while it is unused. */
  ghost predicate SingleUse(orders: seq<Order>, formLinks: map<string, FormLink>)
  {
    forall t :: t in formLinks ==> SingleOrders(orders, t) <= (if formLinks[t].isUsed then 1 else 0)
  }

  /** Appending an order leaves the count of every other link's orders as it was. */
  lemma SingleOrdersAppend(orders: seq<Order>, o: Order, t: string)
    ensures SingleOrders(orders + [o], t)
         == SingleOrders(orders, t) + (if o.clientFormToken == Some(t) && o.accountId.None? then 1 else 0)
  {
    var p := (o: Order) => o.clientFormToken == Some(t) && o.accountId.None?;
    CountAppend(orders, [o], p);
    assert [o][1..] == [];
  }

  /**
    Single-use links are consumed at most once: every submission, including
    one whose create fails after the lock, keeps each link's order count at
    zero while it is unused and at most one once it is used.
   */
  lemma SubmitKeepsSingleUse(orders: seq<Order>, formLinks: map<string, FormLink>,
                             accountLinks: map<string, AccountLink>, f: FormInput, now: Time, created: bool)
    requires SingleUse(orders, formLinks)
    ensures var out := SubmitStep(orders, formLinks, accountLinks, f, now, created);
      SingleUse(out.orders, out.formLinks)
  {
    var out := SubmitStep(orders, formLinks, accountLinks, f, now, created);
    if out.reply.Ok? {
      var o := out.orders[|orders|];
      assert out.orders == orders + [o];
      forall t | t in out.formLinks
        ensures SingleOrders(out.orders, t) <= (if out.formLinks[t].isUsed then 1 else 0)
      {
        SingleOrdersAppend(orders, o, t);
      }
    }
  }

  /** A submission keeps every foreign key valid: the new order's account and the link's order exist. */
  lemma SubmitKeepsTablesValid(
    orders: seq<Order>, entries: map<Id, OrderEntry>, products: seq<Product>, parties: seq<Party>,
    phones: seq<Phone>, emails: seq<Email>, bills: seq<PurchaseBill>, purchaseItems: seq<PurchaseItem>,
    formLinks: map<string, FormLink>, accounts: seq<ClientAccount>, accountLinks: map<string, AccountLink>,
    ledger: seq<LedgerRow>, f: FormInput, now: Time, created: bool)
    requires ValidTables(orders, entries, products, parties, phones, emails, bills, purchaseItems,
                         formLinks, accounts, accountLinks, ledger)
    ensures var out := SubmitStep(orders, formLinks, accountLinks, f, now, created);
      ValidTables(out.orders, entries, products, parties, phones, emails, bills, purchaseItems,
                  out.formLinks, accounts, accountLinks, ledger)
  {
    var out := SubmitStep(orders, formLinks, accountLinks, f, now, created);
    assert |out.orders| >= |orders|;
    assert forall i :: 0 <= i < |orders| ==> out.orders[i] == orders[i];
  }
}
