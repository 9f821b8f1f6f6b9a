/**
  The packaging page's own logic: the dollar amount written out in words on
  the export invoice, and the order list it keeps after an invoice has been
  generated, split into the orders ready for an invoice and those being
  packed.
 */
module PackagingClient {
  import opened Common
  import opened Db
  import opened Seqs
  import opened PackagingOrders

  // ---------------------------------------------------------------- amount in words

  const Ones: seq<string> := ["", "ONE", "TWO", "THREE", "FOUR", "FIVE", "SIX", "SEVEN", "EIGHT", "NINE",
    "TEN", "ELEVEN", "TWELVE", "THIRTEEN", "FOURTEEN", "FIFTEEN", "SIXTEEN", "SEVENTEEN", "EIGHTEEN", "NINETEEN"]

  const Tens: seq<string> := ["", "", "TWENTY", "THIRTY", "FORTY", "FIFTY", "SIXTY", "SEVENTY", "EIGHTY", "NINETY"]

  /** The words for a whole number of dollars, by groups of thousands, then hundreds, then tens. */
  function Words(k: nat): string
  {
    if k < 20 then Ones[k]
    else if k < 100 then Tens[k / 10] + (if k % 10 != 0 then " " + Ones[k % 10] else "")
    else if k < 1000 then Ones[k / 100] + " HUNDRED" + (if k % 100 != 0 then " " + Words(k % 100) else "")
    else Words(k / 1000) + " THOUSAND" + (if k % 1000 != 0 then " " + Words(k % 1000) else "")
  }

  /**
    `dollarToWords(n)`: "ZERO" for 0, otherwise the words for the whole part.
    A negative amount indexes the word table below 0 and yields `undefined`,
    here None; an amount between 0 and 1 yields the empty string.
   */
  function DollarToWords(n: real): Option<string>
  {
    if n == 0.0 then Some("ZERO")
    else if n.Floor < 0 then None
    else Some(Words(n.Floor as nat))
  }

  /** `usdWords`: empty without a dollar amount, otherwise the words and " DOLLAR". */
  function UsdWords(dollarAmount: Option<real>): string
  {
    match dollarAmount
    case None => ""
    case Some(n) => DollarToWords(n).GetOr("undefined") + " DOLLAR"
  }

  /** The edge cases: zero, fractions of a dollar, negative amounts and a missing amount. */
  lemma DollarToWordsEdges(n: real)
    ensures n == 0.0 ==> DollarToWords(n) == Some("ZERO") && UsdWords(Some(n)) == "ZERO DOLLAR"
    ensures 0.0 < n < 1.0 ==> DollarToWords(n) == Some("") && UsdWords(Some(n)) == " DOLLAR"
    ensures n < 0.0 ==> DollarToWords(n).None? && UsdWords(Some(n)) == "undefined DOLLAR"
    ensures UsdWords(None) == ""
  {
    if 0.0 < n < 1.0 {
      assert n.Floor == 0;
    }
  }

  /** Only the whole part of a non-zero amount is written out: cents are dropped, not rounded. */
  lemma WholePartOnly(n: real, m: real)
    requires n != 0.0 && m != 0.0 && n.Floor == m.Floor
    ensures DollarToWords(n) == DollarToWords(m)
  {
  }

  /**
    The words as a sequence of tokens: a number word from the ones table
    (1 to 19), one from the tens table (20 to 90), HUNDRED or THOUSAND.
   */
  datatype Token = Unit(n: nat) | Ty(d: nat) | Hundred | Thousand

  predicate ValidToken(t: Token)
  {
    match t
    case Unit(n) => 1 <= n < 20
    case Ty(d) => 2 <= d < 10
    case _ => true
  }

  /** A token's word; tokens outside the tables have none. */
  function Spell(t: Token): string
  {
    match t
    case Unit(n) => if n < |Ones| then Ones[n] else ""
    case Ty(d) => if d < |Tens| then Tens[d] else ""
    case Hundred => "HUNDRED"
    case Thousand => "THOUSAND"
  }

  /** The spelled tokens separated by single spaces. */
  function Spoken(ts: seq<Token>): string
  {
    if ts == [] then ""
    else if |ts| == 1 then Spell(ts[0])
    else Spell(ts[0]) + " " + Spoken(ts[1..])
  }

  lemma {:induction false} SpokenAppend(a: seq<Token>, b: seq<Token>)
    requires a != [] && b != []
    ensures Spoken(a + b) == Spoken(a) + " " + Spoken(b)
  {
    if |a| == 1 {
      assert (a + b)[1..] == b;
    } else {
      assert (a + b)[1..] == a[1..] + b;
      SpokenAppend(a[1..], b);
    }
  }

  /** The tokens the words of a positive amount are made of. */
  function Tokens(k: nat): (ts: seq<Token>)
    requires k >= 1
    ensures ts != [] && forall i :: 0 <= i < |ts| ==> ValidToken(ts[i])
  {
    if k < 20 then [Unit(k)]
    else if k < 100 then [Ty(k / 10)] + (if k % 10 != 0 then [Unit(k % 10)] else [])
    else if k < 1000 then [Unit(k / 100), Hundred] + (if k % 100 != 0 then Tokens(k % 100) else [])
    else Tokens(k / 1000) + [Thousand] + (if k % 1000 != 0 then Tokens(k % 1000) else [])
  }

  /** The words of a positive amount are its tokens, spelled and separated by single spaces. */
  lemma {:induction false} WordsAreSpokenTokens(k: nat)
    requires k >= 1
    ensures Words(k) == Spoken(Tokens(k))
    decreases k
  {
    if k < 20 {
    } else if k < 100 {
      TensAreSpoken(k);
    } else if k < 1000 {
      if k % 100 != 0 {
        WordsAreSpokenTokens(k % 100);
      }
      HundredsAreSpoken(k);
    } else {
      WordsAreSpokenTokens(k / 1000);
      if k % 1000 != 0 {
        WordsAreSpokenTokens(k % 1000);
      }
      ThousandsAreSpoken(k);
    }
  }

  lemma TensAreSpoken(k: nat)
    requires 20 <= k < 100
    ensures Words(k) == Spoken(Tokens(k))
  {
    var d := k / 10;
    if k % 10 != 0 {
      assert Tokens(k) == [Ty(d)] + [Unit(k % 10)];
      assert Words(k) == Tens[d] + " " + Ones[k % 10];
      SpokenAppend([Ty(d)], [Unit(k % 10)]);
    } else {
      assert Tokens(k) == [Ty(d)];
      assert Words(k) == Tens[d] + "";
    }
  }

  lemma SpokenThenMarker(head: seq<Token>, marker: Token)
    requires head != []
    ensures Spoken(head + [marker]) == Spoken(head) + " " + Spell(marker)
  {
    SpokenAppend(head, [marker]);
  }

  lemma SpokenMarkerTail(head: seq<Token>, marker: Token, tail: seq<Token>)
    requires head != [] && tail != []
    ensures Spoken(head + [marker] + tail) == Spoken(head) + " " + Spell(marker) + " " + Spoken(tail)
  {
    SpokenThenMarker(head, marker);
    SpokenAppend(head + [marker], tail);
  }

  /** Spelling commutes with putting a marker word and an optional tail after a spelled head. */
  lemma SpokenWithMarker(head: seq<Token>, marker: Token, tail: seq<Token>, w: string, wt: string)
    requires head != [] && w == Spoken(head) && (tail != [] ==> wt == Spoken(tail))
    ensures Spoken(head + [marker] + tail) == w + (" " + Spell(marker)) + (if tail != [] then " " + wt else "")
  {
    if tail != [] {
      SpokenMarkerTail(head, marker, tail);
    } else {
      assert head + [marker] + tail == head + [marker];
      SpokenThenMarker(head, marker);
    }
  }

  lemma HundredsAreSpoken(k: nat)
    requires 100 <= k < 1000
    requires k % 100 != 0 ==> Words(k % 100) == Spoken(Tokens(k % 100))
    ensures Words(k) == Spoken(Tokens(k))
  {
    var h := k / 100;
    var tail := if k % 100 != 0 then Tokens(k % 100) else [];
    var wt := if k % 100 != 0 then Words(k % 100) else "";
    assert Tokens(k) == [Unit(h)] + [Hundred] + tail;
    assert Spoken([Unit(h)]) == Ones[h];
    assert " " + Spell(Hundred) == " HUNDRED";
    assert Words(k) == Ones[h] + " HUNDRED" + (if k % 100 != 0 then " " + wt else "");
    SpokenWithMarker([Unit(h)], Hundred, tail, Ones[h], wt);
  }

  lemma ThousandsAreSpoken(k: nat)
    requires k >= 1000
    requires Words(k / 1000) == Spoken(Tokens(k / 1000))
    requires k % 1000 != 0 ==> Words(k % 1000) == Spoken(Tokens(k % 1000))
    ensures Words(k) == Spoken(Tokens(k))
  {
    var tail := if k % 1000 != 0 then Tokens(k % 1000) else [];
    var wt := if k % 1000 != 0 then Words(k % 1000) else "";
    assert Tokens(k) == Tokens(k / 1000) + [Thousand] + tail;
    assert " " + Spell(Thousand) == " THOUSAND";
    assert Words(k) == Words(k / 1000) + " THOUSAND" + (if k % 1000 != 0 then " " + wt else "");
    SpokenWithMarker(Tokens(k / 1000), Thousand, tail, Words(k / 1000), wt);
  }

  /**
    Reading words back as a number, left to right: a number word adds to the
    current group, HUNDRED multiplies the current group by 100, and THOUSAND
    multiplies everything read so far by 1000 and starts a new group.
   */
  datatype Reading = Reading(total: nat, group: nat)

  function Read1(r: Reading, t: Token): Reading
  {
    match t
    case Unit(n) => r.(group := r.group + n)
    case Ty(d) => r.(group := r.group + 10 * d)
    case Hundred => r.(group := r.group * 100)
    case Thousand => Reading((r.total + r.group) * 1000, 0)
  }

  function ReadAll(r: Reading, ts: seq<Token>): Reading
    decreases |ts|
  {
    if ts == [] then r else ReadAll(Read1(r, ts[0]), ts[1..])
  }

  /** The number a sequence of tokens denotes. */
  function Value(ts: seq<Token>): nat
  {
    var r := ReadAll(Reading(0, 0), ts);
    r.total + r.group
  }

  lemma {:induction false} ReadAllAppend(r: Reading, a: seq<Token>, b: seq<Token>)
    ensures ReadAll(r, a + b) == ReadAll(ReadAll(r, a), b)
    decreases |a|
  {
    if a == [] {
      assert a + b == b;
    } else {
      assert (a + b)[1..] == a[1..] + b;
      ReadAllAppend(Read1(r, a[0]), a[1..], b);
    }
  }

  lemma {:induction false} ReadBelow100(m: nat, r: Reading)
    requires 1 <= m < 100
    ensures ReadAll(r, Tokens(m)) == r.(group := r.group + m)
  {
    if 20 <= m && m % 10 != 0 {
      ReadAllAppend(r, [Ty(m / 10)], [Unit(m % 10)]);
    }
  }

  lemma {:induction false} ReadBelow1000(m: nat, total: nat)
    requires 1 <= m < 1000
    ensures ReadAll(Reading(total, 0), Tokens(m)) == Reading(total, m)
  {
    if m < 100 {
      ReadBelow100(m, Reading(total, 0));
    } else {
      var head := [Unit(m / 100), Hundred];
      assert ReadAll(Reading(total, 0), head) == Reading(total, 100 * (m / 100)) by {
        assert head[1..] == [Hundred] && head[1..][1..] == [];
        assert ReadAll(Reading(total, 0), head) == ReadAll(Reading(total, m / 100), [Hundred]);
        assert ReadAll(Reading(total, m / 100), [Hundred]) == ReadAll(Reading(total, 100 * (m / 100)), []);
      }
      if m % 100 == 0 {
        assert Tokens(m) == head;
      } else {
        ReadAllAppend(Reading(total, 0), head, Tokens(m % 100));
        ReadBelow100(m % 100, Reading(total, 100 * (m / 100)));
      }
    }
  }

  lemma {:induction false} ReadTokens(k: nat)
    requires k >= 1
    ensures var r := ReadAll(Reading(0, 0), Tokens(k)); r.total + r.group == k
  {
    if k < 1000 {
      ReadBelow1000(k, 0);
    } else {
      var high := Tokens(k / 1000);
      ReadTokens(k / 1000);
      ReadAllAppend(Reading(0, 0), high, [Thousand]);
      var r1 := ReadAll(Reading(0, 0), high);
      assert [Thousand][1..] == [];
      assert ReadAll(r1, [Thousand]) == Reading(1000 * (k / 1000), 0);
      if k % 1000 == 0 {
        assert Tokens(k) == high + [Thousand];
        assert k == 1000 * (k / 1000);
      } else {
        ReadAllAppend(Reading(0, 0), high + [Thousand], Tokens(k % 1000));
        ReadBelow1000(k % 1000, 1000 * (k / 1000));
      }
    }
  }

  /**
    The words of any amount of at least one dollar say that amount's whole
    part: they are a sequence of number words, HUNDRED and THOUSAND that
    reads back as exactly the number of whole dollars.
   */
  lemma WordsDenoteAmount(n: real)
    requires n >= 1.0
    ensures n.Floor >= 1
    ensures DollarToWords(n) == Some(Spoken(Tokens(n.Floor as nat)))
    ensures Value(Tokens(n.Floor as nat)) == n.Floor
  {
    WordsAreSpokenTokens(n.Floor as nat);
    ReadTokens(n.Floor as nat);
  }

  /** Non-empty, with no space at either end and never two spaces in a row. */
  predicate WellSpaced(s: string)
  {
    && s != [] && s[0] != ' ' && s[|s| - 1] != ' '
    && forall i :: 0 <= i < |s| - 1 ==> !(s[i] == ' ' && s[i + 1] == ' ')
  }

  /** A single word: non-empty and without spaces. */
  predicate IsWord(w: string)
  {
    w != [] && forall i :: 0 <= i < |w| ==> w[i] != ' '
  }

  lemma SpellIsWord(t: Token)
    requires ValidToken(t)
    ensures IsWord(Spell(t))
  {
    assert forall j :: 1 <= j < |Ones| ==> IsWord(Ones[j]);
    assert forall j :: 2 <= j < |Tens| ==> IsWord(Tens[j]);
  }

  /** Two well-spaced strings joined by one space are well spaced. */
  lemma JoinWellSpaced(a: string, b: string)
    requires WellSpaced(a) && WellSpaced(b)
    ensures WellSpaced(a + " " + b)
  {
    var s := a + " " + b;
    forall i | 0 <= i < |s| - 1
      ensures !(s[i] == ' ' && s[i + 1] == ' ')
    {
      if i < |a| - 1 {
        assert s[i] == a[i] && s[i + 1] == a[i + 1];
      } else if i == |a| - 1 {
        assert s[i] == a[|a| - 1];
      } else if i == |a| {
        assert s[i + 1] == b[0];
      } else {
        assert s[i] == b[i - |a| - 1] && s[i + 1] == b[i - |a|];
      }
    }
  }

  lemma {:induction false} SpokenWellSpaced(ts: seq<Token>)
    requires ts != [] && forall i :: 0 <= i < |ts| ==> ValidToken(ts[i])
    ensures WellSpaced(Spoken(ts))
  {
    SpellIsWord(ts[0]);
    if |ts| > 1 {
      SpokenWellSpaced(ts[1..]);
      JoinWellSpaced(Spell(ts[0]), Spoken(ts[1..]));
    }
  }

  /** The words of a positive amount are non-empty, with no leading, trailing or doubled space. */
  lemma WordsWellSpaced(k: nat)
    requires k >= 1
    ensures WellSpaced(Words(k))
  {
    WordsAreSpokenTokens(k);
    SpokenWellSpaced(Tokens(k));
  }

  /** 1234 dollars are ONE THOUSAND TWO HUNDRED THIRTY FOUR. */
  lemma TokensExample(k: nat)
    requires k == 1234
    ensures Tokens(k) == [Unit(1), Thousand, Unit(2), Hundred, Ty(3), Unit(4)]
  {
    assert k / 1000 == 1 && k % 1000 == 234;
    assert 234 / 100 == 2 && 234 % 100 == 34;
    assert 34 / 10 == 3 && 34 % 10 == 4;
  }

  // ---------------------------------------------------------------- the page's order list

  /** Marks one order as invoiced: new number and status PACKING; `invoiceGeneratedAt` is left as it was. */
  function MarkInvoiced(o: OrderRow, id: Id, invoiceNo: string): OrderRow
  {
    if o.id == id then o.(invoiceNo := Some(invoiceNo), status := Packing) else o
  }

  /** `handleInvoiceGenerated(id, invoiceNo)`: the list after the invoice dialog reports success. */
  function InvoiceGenerated(prev: seq<OrderRow>, id: Id, invoiceNo: string): (next: seq<OrderRow>)
    ensures |next| == |prev|
    ensures forall i :: 0 <= i < |prev| ==> next[i] == MarkInvoiced(prev[i], id, invoiceNo)
  {
    if prev == [] then [] else [MarkInvoiced(prev[0], id, invoiceNo)] + InvoiceGenerated(prev[1..], id, invoiceNo)
  }

  predicate IsReady(o: OrderRow) { o.status == PaymentVerified }

  predicate IsPacking(o: OrderRow) { o.status == Packing }

  /** `readyOrders`. */
  function ReadyOrders(orders: seq<OrderRow>): seq<OrderRow>
  {
    Filter(orders, IsReady)
  }

  /** `packingOrders`. */
  function PackingOrders(orders: seq<OrderRow>): seq<OrderRow>
  {
    Filter(orders, IsPacking)
  }

  function WithoutId(orders: seq<OrderRow>, id: Id): seq<OrderRow>
  {
    Filter(orders, (o: OrderRow) => o.id != id)
  }

  /** No order is in both lists, so the two lists together never hold more orders than the page has. */
  lemma ListsDisjoint(orders: seq<OrderRow>)
    ensures forall o :: o in ReadyOrders(orders) ==> o !in PackingOrders(orders)
    ensures |ReadyOrders(orders)| + |PackingOrders(orders)| <= |orders|
  {
    CountDisjoint(orders, IsReady, IsPacking);
  }

  /** After an invoice is generated the order leaves the ready list; the other ready orders stay, in order. */
  lemma {:induction false} InvoicedLeavesReady(prev: seq<OrderRow>, id: Id, invoiceNo: string)
    ensures ReadyOrders(InvoiceGenerated(prev, id, invoiceNo)) == WithoutId(ReadyOrders(prev), id)
  {
    if prev != [] {
      var x := prev[0];
      var next := InvoiceGenerated(prev, id, invoiceNo);
      assert next[0] == MarkInvoiced(x, id, invoiceNo);
      assert next[1..] == InvoiceGenerated(prev[1..], id, invoiceNo);
      InvoicedLeavesReady(prev[1..], id, invoiceNo);
      var head := if IsReady(x) then [x] else [];
      FilterAppend(head, ReadyOrders(prev[1..]), (o: OrderRow) => o.id != id);
      assert [x][1..] == [];
    }
  }

  /** After an invoice is generated every order with that id is in the packing list, carrying the new number. */
  lemma InvoicedJoinsPacking(prev: seq<OrderRow>, id: Id, invoiceNo: string, i: nat)
    requires i < |prev| && prev[i].id == id
    ensures exists o :: o in PackingOrders(InvoiceGenerated(prev, id, invoiceNo))
                     && o.id == id && o.invoiceNo == Some(invoiceNo)
  {
    var next := InvoiceGenerated(prev, id, invoiceNo);
    assert next[i] in next;
    FilterKeeps(next, IsPacking, next[i]);
  }

  /** Orders with other ids are untouched. */
  lemma {:induction false} OthersUnchanged(prev: seq<OrderRow>, id: Id, invoiceNo: string)
    ensures WithoutId(InvoiceGenerated(prev, id, invoiceNo), id) == WithoutId(prev, id)
  {
    if prev != [] {
      OthersUnchanged(prev[1..], id, invoiceNo);
    }
  }
}
