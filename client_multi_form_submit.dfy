/**
  `POST /api/client-multi-form-submit`: the order form behind an account's
  reusable link. The link and its account must both be active; the handler
  then creates one order tied to the account and answers with the account's
  name and its balance, which it does not change (no balance is deducted
  here), and it does not touch the link. When the create fails (`created`
  is false) the catch answers 400 and nothing is written.
 */
module ClientMultiFormSubmit {
  import opened Common
  import opened Db
  import opened ClientFormSubmit

  /** The reply `{ orderId, accountName, remainingBalance }`. */
  datatype MultiSubmitted = MultiSubmitted(orderId: Id, accountName: string, remainingBalance: real)

  datatype MultiOutcome = MultiOutcome(reply: Reply<MultiSubmitted>, orders: seq<Order>)

  /** Whether `token` names an active link of an active account. */
  predicate UsableLink(accounts: seq<ClientAccount>, accountLinks: map<string, AccountLink>, token: string)
    requires AccountLinksValid(accountLinks, |accounts|)
  {
    token in accountLinks && accountLinks[token].isActive && accounts[accountLinks[token].accountId].isActive
  }

  /**
    The handler on the order table; `created` is whether the database
    accepts the order row. A link always has its account (the foreign key),
    which the `include` of the lookup relies on.
   */
  function MultiSubmitStep(orders: seq<Order>, accounts: seq<ClientAccount>, accountLinks: map<string, AccountLink>,
                           f: FormInput, now: Time, created: bool): MultiOutcome
    requires AccountLinksValid(accountLinks, |accounts|)
  {
    if !Truthy(f.token) then
      MultiOutcome(Fail(400, "Token required"), orders)
    else if !UsableLink(accounts, accountLinks, f.token.value) then
      MultiOutcome(Fail(400, "Invalid or inactive link"), orders)
    else if !created then
      MultiOutcome(Fail(400, CreateFailed), orders)
    else
      var link := accountLinks[f.token.value];
      var account := accounts[link.accountId];
      MultiOutcome(Ok(MultiSubmitted(|orders|, account.name, account.balance)),
                   orders + [ClientOrder(f.token.value, Some(link.accountId), f, f.remitterName, now)])
  }

  /** The handler: validate the link, then insert one order; nothing else is written. */
  method SubmitMultiForm(db: Database, f: FormInput, now: Time, created: bool) returns (r: Reply<MultiSubmitted>)
    requires db.Valid()
    modifies db`orders
    ensures MultiOutcome(r, db.orders) == MultiSubmitStep(old(db.orders), db.accounts, db.accountLinks, f, now, created)
  {
    if !Truthy(f.token) {
      return Fail(400, "Token required");
    }
    var token := f.token.value;
    if token !in db.accountLinks || !db.accountLinks[token].isActive || !db.accounts[db.accountLinks[token].accountId].isActive {
      return Fail(400, "Invalid or inactive link");
    }
    if !created {
      return Fail(400, CreateFailed);
    }
    var link := db.accountLinks[token];
    var account := db.accounts[link.accountId];
    var id := |db.orders|;
    db.orders := db.orders + [ClientOrder(token, Some(link.accountId), f, f.remitterName, now)];
    return Ok(MultiSubmitted(id, account.name, account.balance));
  }

  // ---------------------------------------------------------------- properties

  /**
    400 "Token required" without a token and 400 "Invalid or inactive link"
    for a missing link, an inactive link or an inactive account; a usable
    link whose order the database refuses answers 400 too. None of them
    creates an order.
   */
  lemma MultiRefusals(orders: seq<Order>, accounts: seq<ClientAccount>, accountLinks: map<string, AccountLink>,
                      f: FormInput, now: Time, created: bool)
    requires AccountLinksValid(accountLinks, |accounts|)
    ensures var out := MultiSubmitStep(orders, accounts, accountLinks, f, now, created);
      && (out.reply.Fail? ==> out.orders == orders && out.reply.status == 400)
      && (out.reply.Ok? <==> Truthy(f.token) && UsableLink(accounts, accountLinks, f.token.value) && created)
      && (Truthy(f.token) && UsableLink(accounts, accountLinks, f.token.value) && !created ==>
            out.reply == Fail(400, CreateFailed))
      && (!Truthy(f.token) ==> out.reply == Fail(400, "Token required"))
      && (Truthy(f.token) && (f.token.value !in accountLinks || !accountLinks[f.token.value].isActive) ==>
            out.reply == Fail(400, "Invalid or inactive link"))
      && (Truthy(f.token) && f.token.value in accountLinks
          && !accounts[accountLinks[f.token.value].accountId].isActive ==>
            out.reply == Fail(400, "Invalid or inactive link"))
  {
  }

  /**
    A usable link whose order the database accepts creates exactly one
    order, tied to the link's account, with the amount defaulting to 0 and
    the currency to INR; the reply echoes the account's name and its
    unchanged balance.
   */
  lemma MultiSubmitCreatesOrder(orders: seq<Order>, accounts: seq<ClientAccount>,
                                accountLinks: map<string, AccountLink>, f: FormInput, now: Time)
    requires AccountLinksValid(accountLinks, |accounts|)
    requires Truthy(f.token) && UsableLink(accounts, accountLinks, f.token.value)
    ensures var out := MultiSubmitStep(orders, accounts, accountLinks, f, now, true);
      var a := accountLinks[f.token.value].accountId;
      && out.reply == Ok(MultiSubmitted(|orders|, accounts[a].name, accounts[a].balance))
      && |out.orders| == |orders| + 1 && out.orders[..|orders|] == orders
      && var o := out.orders[|orders|];
         && o.accountId == Some(a) && o.clientFormToken == f.token && o.remitterName == f.remitterName
         && o.amountPaid == (if TruthyNum(f.amountPaid) then f.amountPaid.value else 0.0)
         && o.currency == (if Truthy(f.currency) then f.currency.value else "INR")
  {
  }

  /**
    The two form routes disagree on an active link of an inactive account:
    the generic form route accepts it (it checks only the link) whenever the
    database takes the order, while this route refuses it.
   */
  lemma InactiveAccountAcceptedByFormRoute(orders: seq<Order>, formLinks: map<string, FormLink>,
                                           accounts: seq<ClientAccount>, accountLinks: map<string, AccountLink>,
                                           f: FormInput, now: Time, created: bool)
    requires AccountLinksValid(accountLinks, |accounts|)
    requires Truthy(f.token) && f.token.value !in formLinks && f.token.value in accountLinks
    requires accountLinks[f.token.value].isActive && !accounts[accountLinks[f.token.value].accountId].isActive
    ensures SubmitStep(orders, formLinks, accountLinks, f, now, true).reply.Ok?
    ensures MultiSubmitStep(orders, accounts, accountLinks, f, now, created).reply.Fail?
  {
  }

  /** A submission keeps every foreign key valid. */
  lemma MultiSubmitKeepsTablesValid(
    orders: seq<Order>, entries: map<Id, OrderEntry>, products: seq<Product>, parties: seq<Party>,
    phones: seq<Phone>, emails: seq<Email>, bills: seq<PurchaseBill>, purchaseItems: seq<PurchaseItem>,
    formLinks: map<string, FormLink>, accounts: seq<ClientAccount>, accountLinks: map<string, AccountLink>,
    ledger: seq<LedgerRow>, f: FormInput, now: Time, created: bool)
    requires ValidTables(orders, entries, products, parties, phones, emails, bills, purchaseItems,
                         formLinks, accounts, accountLinks, ledger)
    ensures var out := MultiSubmitStep(orders, accounts, accountLinks, f, now, created);
      ValidTables(out.orders, entries, products, parties, phones, emails, bills, purchaseItems,
                  formLinks, accounts, accountLinks, ledger)
  {
    var out := MultiSubmitStep(orders, accounts, accountLinks, f, now, created);
    assert forall i :: 0 <= i < |orders| ==> out.orders[i] == orders[i];
  }
}
