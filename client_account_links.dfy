/**
  `POST /api/client-account-links`: creates a prepaid client account with its
  reusable order link. The name is trimmed and must have at least two
  characters; the opening balance defaults to 0 and may not be negative. One
  transaction inserts the account (active, its balance the opening amount),
  a CREDIT "Opening balance" ledger row when the amount is positive, and an
  active link under a fresh random token. The token generator and the
  configured base URL are parameters.
 */
module ClientAccountLinks {
  import opened Common
  import opened Strings
  import opened Db

  /** The reply `{ ok, accountId, token, balance, url, downloadUrl }`. */
  datatype LinkCreated = LinkCreated(accountId: Id, token: string, balance: real, url: string, downloadUrl: string)

  datatype AccountOutcome = AccountOutcome(
    reply: Reply<LinkCreated>, accounts: seq<ClientAccount>, ledger: seq<LedgerRow>,
    accountLinks: map<string, AccountLink>)

  const DefaultBaseUrl := "http://localhost:3000"

  const NameRequired := "Client name required"

  const NegativeOpening := "Opening balance cannot be negative"

  /** The description of the ledger row that records an opening balance. */
  const OpeningNote := "Opening balance"

  /** The ORM's error when the generated token already names a link: the unique constraint on the token. */
  const TokenTaken := "Unique constraint failed on the fields: (`token`)"

  /** `NEXT_PUBLIC_APP_URL || "http://localhost:3000"`. */
  function BaseUrl(env: Option<string>): (r: string)
    ensures Truthy(env) ==> r == env.value
    ensures !Truthy(env) ==> r == DefaultBaseUrl
  {
    if Truthy(env) then env.value else DefaultBaseUrl
  }

  function OrderUrl(base: string, token: string): string
  {
    base + "/client-multi-form/" + token
  }

  function DownloadUrl(base: string, accountId: Id): string
  {
    base + "/api/client-account-links/download/" + NatToString(accountId)
  }

  /** The opening row written with a positive opening balance. */
  function OpeningRows(accountId: Id, opening: real): (rows: seq<LedgerRow>)
    ensures |rows| == (if opening > 0.0 then 1 else 0)
  {
    if opening > 0.0 then [LedgerRow(accountId, Credit, opening, OpeningNote)] else []
  }

  /**
    The handler on the tables it touches. `name` and `openingBalance` are the
    request's fields, `env` the configured base URL and `token` the generated
    one.
   */
  function CreateStep(accounts: seq<ClientAccount>, ledger: seq<LedgerRow>, accountLinks: map<string, AccountLink>,
                      name: Option<string>, openingBalance: Option<real>, env: Option<string>, token: string)
    : AccountOutcome
  {
    var n := Trim(name.GetOr(""));
    var opening := NumOr(openingBalance, 0.0);
    if Utf16Length(n) < 2 then
      AccountOutcome(Fail(400, NameRequired), accounts, ledger, accountLinks)
    else if opening < 0.0 then
      AccountOutcome(Fail(400, NegativeOpening), accounts, ledger, accountLinks)
    else if token in accountLinks then
      AccountOutcome(Fail(500, TokenTaken), accounts, ledger, accountLinks)
    else
      var id := |accounts|;
      var base := BaseUrl(env);
      AccountOutcome(Ok(LinkCreated(id, token, opening, OrderUrl(base, token), DownloadUrl(base, id))),
                     accounts + [ClientAccount(n, opening, true)], ledger + OpeningRows(id, opening),
                     accountLinks[token := AccountLink(id, true)])
  }

  /** The handler: validate, then write the account, the optional ledger row and the link in one transaction. */
  method CreateAccountLink(db: Database, name: Option<string>, openingBalance: Option<real>, env: Option<string>,
                           token: string)
    returns (r: Reply<LinkCreated>)
    modifies db`accounts, db`ledger, db`accountLinks
    ensures AccountOutcome(r, db.accounts, db.ledger, db.accountLinks)
         == CreateStep(old(db.accounts), old(db.ledger), old(db.accountLinks), name, openingBalance, env, token)
  {
    var n := Trim(name.GetOr(""));
    if Utf16Length(n) < 2 {
      return Fail(400, NameRequired);
    }
    var opening := NumOr(openingBalance, 0.0);
    if opening < 0.0 {
      return Fail(400, NegativeOpening);
    }
    var base := BaseUrl(env);
    if token in db.accountLinks {
      return Fail(500, TokenTaken);
    }
    var id := |db.accounts|;
    var accounts := db.accounts + [ClientAccount(n, opening, true)];
    var ledger := db.ledger;
    if opening > 0.0 {
      ledger := ledger + [LedgerRow(id, Credit, opening, OpeningNote)];
    }
    assert ledger == db.ledger + OpeningRows(id, opening);
    var links := db.accountLinks[token := AccountLink(id, true)];
    db.accounts, db.ledger, db.accountLinks := accounts, ledger, links;
    return Ok(LinkCreated(id, token, opening, OrderUrl(base, token), DownloadUrl(base, id)));
  }

  // ---------------------------------------------------------------- properties

  /**
    400 exactly when the trimmed name has fewer than two characters, or else
    when the opening balance is negative; a refusal or a failed transaction
    writes nothing.
   */
  lemma CreateRefusals(accounts: seq<ClientAccount>, ledger: seq<LedgerRow>, accountLinks: map<string, AccountLink>,
                       name: Option<string>, openingBalance: Option<real>, env: Option<string>, token: string)
    ensures var out := CreateStep(accounts, ledger, accountLinks, name, openingBalance, env, token);
      && (out.reply.Fail? ==> out.accounts == accounts && out.ledger == ledger && out.accountLinks == accountLinks)
      && (out.reply == Fail(400, NameRequired) <==> Utf16Length(Trim(name.GetOr(""))) < 2)
      && (out.reply == Fail(400, NegativeOpening) <==>
            Utf16Length(Trim(name.GetOr(""))) >= 2 && TruthyNum(openingBalance) && openingBalance.value < 0.0)
  {
  }

  /**
    The length test counts UTF-16 code units, so a name of one character
    outside the Basic Multilingual Plane (an emoji, say) is long enough.
   */
  lemma AstralNameLongEnough(accounts: seq<ClientAccount>, ledger: seq<LedgerRow>,
                             accountLinks: map<string, AccountLink>, c: char, openingBalance: Option<real>,
                             env: Option<string>, token: string)
    requires (c as int) >= 0x1_0000
    ensures CreateStep(accounts, ledger, accountLinks, Some([c]), openingBalance, env, token).reply
         != Fail(400, NameRequired)
  {
    AstralNameLength(c);
    CreateRefusals(accounts, ledger, accountLinks, Some([c]), openingBalance, env, token);
  }

  /** The trimmed name of one character outside the Basic Multilingual Plane is that character, two code units long. */
  lemma AstralNameLength(c: char)
    requires (c as int) >= 0x1_0000
    ensures Utf16Length(Trim(Some([c]).GetOr(""))) == 2
  {
    assert Some([c]).GetOr("") == [c];
    assert !IsSpace([c][0]);
    TrimStartOfNonSpace([c]);
    TrimEndOfNonSpace([c]);
    AstralLength(c);
  }

  /**
    A created account is active, named by the trimmed name and holding the
    opening amount (0 when none was given); exactly one link, active and
    under the generated token, points at it.
   */
  lemma AccountCreated(accounts: seq<ClientAccount>, ledger: seq<LedgerRow>, accountLinks: map<string, AccountLink>,
                       name: Option<string>, openingBalance: Option<real>, env: Option<string>, token: string)
    requires AccountLinksValid(accountLinks, |accounts|)
    ensures var out := CreateStep(accounts, ledger, accountLinks, name, openingBalance, env, token);
      out.reply.Ok? ==>
        var id := out.reply.value.accountId;
        && id == |accounts| && out.accounts == accounts + [out.accounts[id]]
        && out.accounts[id] == ClientAccount(Trim(name.GetOr("")), NumOr(openingBalance, 0.0), true)
        && out.reply.value.balance == out.accounts[id].balance >= 0.0
        && out.accountLinks.Keys == accountLinks.Keys + {token}
        && (forall t :: t in out.accountLinks ==> (out.accountLinks[t].accountId == id <==> t == token))
        && out.accountLinks[token].isActive
        && forall t :: t in accountLinks ==> out.accountLinks[t] == accountLinks[t]
  {
    var out := CreateStep(accounts, ledger, accountLinks, name, openingBalance, env, token);
    if out.reply.Ok? {
      var opening := CreatedShape(accounts, ledger, accountLinks, name, openingBalance, env, token);
      assert opening == NumOr(openingBalance, 0.0);
      NewLinkOnly(accountLinks, |accounts|, token);
    }
  }

  lemma NewLinkOnly(accountLinks: map<string, AccountLink>, n: nat, token: string)
    requires AccountLinksValid(accountLinks, n)
    ensures var links := accountLinks[token := AccountLink(n, true)];
      && links.Keys == accountLinks.Keys + {token}
      && (forall t :: t in links ==> (links[t].accountId == n <==> t == token))
      && links[token].isActive
      && (token !in accountLinks ==> forall t :: t in accountLinks ==> links[t] == accountLinks[t])
  {
  }

  /** What a successful create writes: the new account, its opening rows and its link under the token. */
  lemma CreatedShape(accounts: seq<ClientAccount>, ledger: seq<LedgerRow>, accountLinks: map<string, AccountLink>,
                     name: Option<string>, openingBalance: Option<real>, env: Option<string>, token: string)
    returns (opening: real)
    requires CreateStep(accounts, ledger, accountLinks, name, openingBalance, env, token).reply.Ok?
    ensures var out := CreateStep(accounts, ledger, accountLinks, name, openingBalance, env, token);
      && opening >= 0.0 && token !in accountLinks
      && out.reply.value.accountId == |accounts| && out.reply.value.balance == opening
      && out.accounts == accounts + [ClientAccount(Trim(name.GetOr("")), opening, true)]
      && out.ledger == ledger + OpeningRows(|accounts|, opening)
      && out.accountLinks == accountLinks[token := AccountLink(|accounts|, true)]
  {
    opening := NumOr(openingBalance, 0.0);
  }

  /**
    `after` is `before` with at most one row added: a CREDIT "Opening
    balance" row for the link's account, there exactly when the link's
    opening amount is positive.
   */
  predicate OpeningCreditOnly(before: seq<LedgerRow>, after: seq<LedgerRow>, l: LinkCreated)
  {
    && |before| <= |after| && after[..|before|] == before
    && (|after| == |before| + 1 <==> l.balance > 0.0)
    && (|after| == |before| || |after| == |before| + 1)
    && (|after| == |before| + 1 ==> after[|before|] == LedgerRow(l.accountId, Credit, l.balance, OpeningNote))
  }

  /** The ledger gains one CREDIT "Opening balance" row for the new account exactly when the opening amount is positive. */
  lemma OpeningCreditIffPositive(accounts: seq<ClientAccount>, ledger: seq<LedgerRow>,
                                 accountLinks: map<string, AccountLink>, name: Option<string>,
                                 openingBalance: Option<real>, env: Option<string>, token: string)
    ensures var out := CreateStep(accounts, ledger, accountLinks, name, openingBalance, env, token);
      out.reply.Ok? ==> OpeningCreditOnly(ledger, out.ledger, out.reply.value)
  {
    var out := CreateStep(accounts, ledger, accountLinks, name, openingBalance, env, token);
    if out.reply.Ok? {
      var opening := CreatedShape(accounts, ledger, accountLinks, name, openingBalance, env, token);
      OpeningRowsOnly(ledger, out.reply.value);
    }
  }

  lemma OpeningRowsOnly(ledger: seq<LedgerRow>, l: LinkCreated)
    ensures OpeningCreditOnly(ledger, ledger + OpeningRows(l.accountId, l.balance), l)
  {
    var rows := OpeningRows(l.accountId, l.balance);
    assert (ledger + rows)[..|ledger|] == ledger;
  }

  /** The balance the ledger records for an account: its credits less its debits. */
  function LedgerBalance(ledger: seq<LedgerRow>, accountId: Id): real
  {
    if ledger == [] then 0.0
    else
      var row := ledger[|ledger| - 1];
      LedgerBalance(ledger[..|ledger| - 1], accountId)
      + (if row.accountId != accountId then 0.0 else if row.kind == Credit then row.amount else -row.amount)
  }

  lemma {:induction false} LedgerBalanceOfOthers(ledger: seq<LedgerRow>, accountId: Id)
    requires forall i :: 0 <= i < |ledger| ==> ledger[i].accountId != accountId
    ensures LedgerBalance(ledger, accountId) == 0.0
  {
    if ledger != [] {
      LedgerBalanceOfOthers(ledger[..|ledger| - 1], accountId);
    }
  }

  /** A new account starts in agreement with the ledger: its balance is what the ledger records for it. */
  lemma OpeningBalanceInLedger(accounts: seq<ClientAccount>, ledger: seq<LedgerRow>,
                               accountLinks: map<string, AccountLink>, name: Option<string>,
                               openingBalance: Option<real>, env: Option<string>, token: string)
    requires LedgerValid(ledger, |accounts|)
    ensures var out := CreateStep(accounts, ledger, accountLinks, name, openingBalance, env, token);
      out.reply.Ok? ==>
        var id := out.reply.value.accountId;
        LedgerBalance(out.ledger, id) == out.accounts[id].balance
  {
    var out := CreateStep(accounts, ledger, accountLinks, name, openingBalance, env, token);
    if out.reply.Ok? {
      var id := |accounts|;
      var opening := NumOr(openingBalance, 0.0);
      assert out.accounts[id].balance == opening >= 0.0;
      LedgerBalanceOfOthers(ledger, id);
      if opening > 0.0 {
        var row := LedgerRow(id, Credit, opening, OpeningNote);
        assert out.ledger == ledger + [row];
        assert out.ledger[..|out.ledger| - 1] == ledger;
        assert LedgerBalance(out.ledger, id) == LedgerBalance(ledger, id) + opening;
      } else {
        assert out.ledger == ledger + [] == ledger;
        assert opening == 0.0;
      }
    }
  }

  /** The order URL starts with the base URL and "/client-multi-form/", and the token is what follows. */
  lemma OrderUrlParts(base: string, token: string)
    ensures var url := OrderUrl(base, token);
      && StartsWith(url, base + "/client-multi-form/")
      && |url| == |base| + 19 + |token| && url[|base| + 19..] == token
  {
    var prefix := base + "/client-multi-form/";
    assert OrderUrl(base, token) == prefix + token;
    assert (prefix + token)[..|prefix|] == prefix;
    assert (prefix + token)[|prefix|..] == token;
  }

  /** The download URL starts with the base URL and the download path, and the account id is written in decimal after it. */
  lemma DownloadUrlParts(base: string, id: Id)
    ensures var url := DownloadUrl(base, id);
      && StartsWith(url, base + "/api/client-account-links/download/")
      && |url| > |base| + 35
      && AllDigits(url[|base| + 35..]) && DecimalValue(url[|base| + 35..]) == id
  {
    var prefix := base + "/api/client-account-links/download/";
    var digits := NatToString(id);
    DecimalRoundTrip(id);
    assert DownloadUrl(base, id) == prefix + digits;
    assert (prefix + digits)[..|prefix|] == prefix;
    assert (prefix + digits)[|prefix|..] == digits;
  }

  /**
    How a client reads a created link back: the order URL is the base URL,
    "/client-multi-form/" and the token, so the token can be read back from
    its end; the download URL ends in "/download/" and the account id.
   */
  predicate UrlsReadBack(l: LinkCreated, base: string, token: string)
  {
    && StartsWith(l.url, base + "/client-multi-form/")
    && |l.url| >= |base| + 19 && l.url[|base| + 19..] == token
    && StartsWith(l.downloadUrl, base + "/api/client-account-links/download/")
    && |l.downloadUrl| >= |base| + 35
    && AllDigits(l.downloadUrl[|base| + 35..]) && DecimalValue(l.downloadUrl[|base| + 35..]) == l.accountId
  }

  /** The URLs of a created link read back to its token and its account id. */
  lemma UrlsOfLink(accounts: seq<ClientAccount>, ledger: seq<LedgerRow>, accountLinks: map<string, AccountLink>,
                   name: Option<string>, openingBalance: Option<real>, env: Option<string>, token: string)
    ensures var out := CreateStep(accounts, ledger, accountLinks, name, openingBalance, env, token);
      out.reply.Ok? ==> UrlsReadBack(out.reply.value, BaseUrl(env), token)
  {
    var out := CreateStep(accounts, ledger, accountLinks, name, openingBalance, env, token);
    if out.reply.Ok? {
      var base := BaseUrl(env);
      assert out.reply.value == LinkCreated(|accounts|, token, out.reply.value.balance,
                                            OrderUrl(base, token), DownloadUrl(base, |accounts|));
      OrderUrlParts(base, token);
      DownloadUrlParts(base, |accounts|);
    }
  }

  /** The three tables that point at accounts stay valid when an account is created. */
  lemma AccountKeysValid(orders: seq<Order>, accounts: seq<ClientAccount>, ledger: seq<LedgerRow>,
                         accountLinks: map<string, AccountLink>, name: Option<string>, openingBalance: Option<real>,
                         env: Option<string>, token: string)
    requires OrdersValid(orders, |accounts|) && AccountLinksValid(accountLinks, |accounts|)
    requires LedgerValid(ledger, |accounts|)
    ensures var out := CreateStep(accounts, ledger, accountLinks, name, openingBalance, env, token);
      && OrdersValid(orders, |out.accounts|) && AccountLinksValid(out.accountLinks, |out.accounts|)
      && LedgerValid(out.ledger, |out.accounts|)
  {
    var out := CreateStep(accounts, ledger, accountLinks, name, openingBalance, env, token);
    if out.reply.Ok? {
      var opening := CreatedShape(accounts, ledger, accountLinks, name, openingBalance, env, token);
      NewAccountKeysValid(orders, |accounts|, ledger, accountLinks, opening, token);
    }
  }

  lemma NewAccountKeysValid(orders: seq<Order>, n: nat, ledger: seq<LedgerRow>, accountLinks: map<string, AccountLink>,
                            opening: real, token: string)
    requires OrdersValid(orders, n) && AccountLinksValid(accountLinks, n) && LedgerValid(ledger, n)
    ensures && OrdersValid(orders, n + 1) && AccountLinksValid(accountLinks[token := AccountLink(n, true)], n + 1)
            && LedgerValid(ledger + OpeningRows(n, opening), n + 1)
  {
    var rows := OpeningRows(n, opening);
    assert forall i :: 0 <= i < |ledger| ==> (ledger + rows)[i] == ledger[i];
    assert forall i :: |ledger| <= i < |ledger + rows| ==> (ledger + rows)[i] == rows[i - |ledger|];
  }

  /** Creating an account keeps every foreign key valid: the new ledger row and the new link point at the new account. */
  lemma CreateKeepsTablesValid(
    orders: seq<Order>, entries: map<Id, OrderEntry>, products: seq<Product>, parties: seq<Party>,
    phones: seq<Phone>, emails: seq<Email>, bills: seq<PurchaseBill>, purchaseItems: seq<PurchaseItem>,
    formLinks: map<string, FormLink>, accounts: seq<ClientAccount>, accountLinks: map<string, AccountLink>,
    ledger: seq<LedgerRow>, name: Option<string>, openingBalance: Option<real>, env: Option<string>, token: string)
    requires ValidTables(orders, entries, products, parties, phones, emails, bills, purchaseItems,
                         formLinks, accounts, accountLinks, ledger)
    ensures var out := CreateStep(accounts, ledger, accountLinks, name, openingBalance, env, token);
      ValidTables(orders, entries, products, parties, phones, emails, bills, purchaseItems,
                  formLinks, out.accounts, out.accountLinks, out.ledger)
  {
    AccountKeysValid(orders, accounts, ledger, accountLinks, name, openingBalance, env, token);
  }
}
