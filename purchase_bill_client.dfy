/**
  The purchase-bill page's state after a scan: the extracted party, bill and
  product lines, which the user corrects field by field before saving. Each
  updater is a pure function from the old state to the new one and does
  nothing while there is no scan data. The records are JavaScript objects
  (see JsObjects), since the updaters write computed keys (`[key]: value`).
 */
module PurchaseBillClient {
  import opened Common
  import opened Strings
  import opened Seqs
  import opened JsObjects

  /** `{ party, bill, products }` as the scan returned it, with the user's corrections. */
  datatype ScanData = ScanData(party: Obj, bill: Obj, products: seq<Obj>)

  /** A product of the product master as the products list returns it. */
  datatype Existing = Existing(id: Id, name: string)

  // ---------------------------------------------------------------- matching after a scan

  /** The line's name, when it is a string. */
  function NameOf(p: Obj): Option<string>
  {
    if "name" in p && p["name"].Text? then p["name"].text else None
  }

  /** `ep.name.toLowerCase() === p.name?.toLowerCase()`. */
  predicate SameName(e: Existing, p: Obj)
  {
    NameOf(p).Some? && ToLower(e.name) == ToLower(NameOf(p).value)
  }

  /**
    One scanned line matched against the product master: it takes the id of
    the first product with the same name ignoring case, and is otherwise left
    as it was.
   */
  function MatchLine(p: Obj, existing: seq<Existing>): (r: Obj)
    ensures FirstIndex(existing, (e: Existing) => SameName(e, p)).None? ==> r == p
    ensures var k := FirstIndex(existing, (e: Existing) => SameName(e, p));
      k.Some? ==> r == p["id" := Ref(existing[k.value].id)]
  {
    match FirstIndex(existing, (e: Existing) => SameName(e, p))
    case None => p
    case Some(k) => p["id" := Ref(existing[k].id)]
  }

  function MatchLines(ps: seq<Obj>, existing: seq<Existing>): (r: seq<Obj>)
    ensures |r| == |ps|
    ensures forall i :: 0 <= i < |ps| ==> r[i] == MatchLine(ps[i], existing)
  {
    seq(|ps|, i requires 0 <= i < |ps| => MatchLine(ps[i], existing))
  }

  /** A matched line carries an existing product's id; a line matching no product name is unchanged. */
  lemma MatchedLinesCarryIds(ps: seq<Obj>, existing: seq<Existing>, i: nat)
    requires i < |ps|
    ensures var r := MatchLines(ps, existing)[i];
      && ((exists k :: 0 <= k < |existing| && SameName(existing[k], ps[i])) ==>
            "id" in r && exists k :: 0 <= k < |existing| && r["id"] == Ref(existing[k].id) && SameName(existing[k], ps[i]))
      && ((forall k :: 0 <= k < |existing| ==> !SameName(existing[k], ps[i])) ==> r == ps[i])
  {
    var test := (e: Existing) => SameName(e, ps[i]);
    var f := FirstIndex(existing, test);
    if f.Some? {
      assert test(existing[f.value]);
    }
  }

  // ---------------------------------------------------------------- field updaters

  /** `setParty(key, val)`: the field becomes `val || null`. */
  function SetParty(data: Option<ScanData>, key: string, val: string): Option<ScanData>
  {
    match data
    case None => None
    case Some(d) => Some(d.(party := d.party[key := Text(if val == "" then None else Some(val))]))
  }

  /**
    `setBill(key, val)`: the total becomes `Number(val)` or null when empty,
    every other field `val || null`. `toNumber` is JavaScript's `Number` on
    the typed text.
   */
  function SetBill(data: Option<ScanData>, key: string, val: string, toNumber: string -> real): Option<ScanData>
  {
    match data
    case None => None
    case Some(d) =>
      var v := if key == "totalAmount" then Num(if val == "" then None else Some(toNumber(val)))
               else Text(if val == "" then None else Some(val));
      Some(d.(bill := d.bill[key := v]))
  }

  /** The numeric fields of a product line. */
  const NumericKeys: seq<string> := ["quantity", "rate", "mrp", "gstPercent", "cgstPercent", "sgstPercent",
                                     "igstPercent", "taxableAmount", "cgstAmount", "sgstAmount", "igstAmount", "discount"]

  /** The value a product field takes from the typed text. */
  function Coerce(key: string, val: string, toNumber: string -> real): (v: Value)
    ensures key in NumericKeys ==> v == Num(if val == "" then None else Some(toNumber(val)))
    ensures key !in NumericKeys ==> v == Text(if val == "" then None else Some(val))
  {
    if key in NumericKeys then Num(if val == "" then None else Some(toNumber(val)))
    else Text(if val == "" then None else Some(val))
  }

  /** `setProduct(idx, key, val)`; the page passes the index of a rendered line. */
  function SetProduct(data: Option<ScanData>, idx: nat, key: string, val: string, toNumber: string -> real)
    : Option<ScanData>
    requires data.Some? ==> idx < |data.value.products|
  {
    match data
    case None => None
    case Some(d) =>
      Some(d.(products := d.products[idx := d.products[idx][key := Coerce(key, val, toNumber)]]))
  }

  /** `filter((_, i) => i !== idx)`: the lines at every index but `idx`. */
  function WithoutIndex(ps: seq<Obj>, idx: int): seq<Obj>
  {
    if ps == [] then [] else (if idx == 0 then [] else [ps[0]]) + WithoutIndex(ps[1..], idx - 1)
  }

  function RemoveProduct(data: Option<ScanData>, idx: int): Option<ScanData>
  {
    match data
    case None => None
    case Some(d) => Some(d.(products := WithoutIndex(d.products, idx)))
  }

  /** The line `addBlankProduct` appends: empty name, quantity 1, rate 0, every other field null, and no id. */
  const BlankLine: Obj := map[
    "name" := Text(Some("")), "composition" := Text(None), "manufacturer" := Text(None), "hsn" := Text(None),
    "pack" := Text(None), "batchNo" := Text(None), "mfgDate" := Text(None), "expDate" := Text(None),
    "mrp" := Num(None), "gstPercent" := Num(None), "cgstPercent" := Num(None), "sgstPercent" := Num(None),
    "igstPercent" := Num(None), "taxableAmount" := Num(None), "cgstAmount" := Num(None), "sgstAmount" := Num(None),
    "igstAmount" := Num(None), "quantity" := Num(Some(1.0)), "rate" := Num(Some(0.0)), "discount" := Num(None)]

  function AddBlankProduct(data: Option<ScanData>): Option<ScanData>
  {
    match data
    case None => None
    case Some(d) => Some(d.(products := d.products + [BlankLine]))
  }

  // ---------------------------------------------------------------- counts

  /** `p.id`: the line is matched to an existing product. */
  predicate HasId(p: Obj)
  {
    "id" in p && p["id"].Ref?
  }

  predicate NoId(p: Obj)
  {
    !HasId(p)
  }

  /** "(n existing · m new)". */
  function ExistingCount(ps: seq<Obj>): nat
  {
    Count(ps, HasId)
  }

  function NewCount(ps: seq<Obj>): nat
  {
    Count(ps, NoId)
  }

  // ---------------------------------------------------------------- properties

  /** Every updater does nothing while there is no scan data. */
  lemma NoDataNoChange(key: string, val: string, toNumber: string -> real, idx: nat)
    ensures SetParty(None, key, val) == None && SetBill(None, key, val, toNumber) == None
    ensures SetProduct(None, idx, key, val, toNumber) == None
    ensures RemoveProduct(None, idx) == None && AddBlankProduct(None) == None
  {
  }

  /**
    `setProduct` changes field `key` of line `idx` and nothing else: an
    empty text becomes null, a numeric field takes `Number(val)`.
   */
  lemma SetProductTouchesOneField(d: ScanData, idx: nat, key: string, val: string, toNumber: string -> real)
    requires idx < |d.products|
    ensures var r := SetProduct(Some(d), idx, key, val, toNumber).value;
      && r.party == d.party && r.bill == d.bill && |r.products| == |d.products|
      && (forall j :: 0 <= j < |d.products| && j != idx ==> r.products[j] == d.products[j])
      && r.products[idx].Keys == d.products[idx].Keys + {key}
      && (forall k :: k in d.products[idx] && k != key ==> r.products[idx][k] == d.products[idx][k])
      && (val == "" ==> r.products[idx][key] == Text(None) || r.products[idx][key] == Num(None))
      && (key in NumericKeys && val != "" ==> r.products[idx][key] == Num(Some(toNumber(val))))
      && (key !in NumericKeys && val != "" ==> r.products[idx][key] == Text(Some(val)))
  {
  }

  /** `setBill` and `setParty` change only the named field: the total to a number or null, others to text or null. */
  lemma SetBillAndPartyFields(d: ScanData, key: string, val: string, toNumber: string -> real)
    ensures var r := SetBill(Some(d), key, val, toNumber).value;
      && r.party == d.party && r.products == d.products
      && (forall k :: k in d.bill && k != key ==> k in r.bill && r.bill[k] == d.bill[k])
      && (key == "totalAmount" ==> r.bill[key] == Num(if val == "" then None else Some(toNumber(val))))
      && (key != "totalAmount" ==> r.bill[key] == Text(if val == "" then None else Some(val)))
    ensures var r := SetParty(Some(d), key, val).value;
      && r.bill == d.bill && r.products == d.products
      && (forall k :: k in d.party && k != key ==> k in r.party && r.party[k] == d.party[k])
      && r.party[key] == Text(if val == "" then None else Some(val))
  {
  }

  /** Removing the line at a valid index drops exactly it and keeps the rest in order; any other index changes nothing. */
  lemma {:induction false} WithoutIndexSlices(ps: seq<Obj>, idx: int)
    ensures 0 <= idx < |ps| ==> WithoutIndex(ps, idx) == ps[..idx] + ps[idx + 1..]
    ensures !(0 <= idx < |ps|) ==> WithoutIndex(ps, idx) == ps
  {
    if ps != [] {
      WithoutIndexSlices(ps[1..], idx - 1);
      if idx == 0 {
        assert ps[idx + 1..] == ps[1..];
      } else if 0 < idx < |ps| {
        assert ps[..idx] == [ps[0]] + ps[1..][..idx - 1];
        assert ps[idx + 1..] == ps[1..][idx..];
      } else {
        assert ps == [ps[0]] + ps[1..];
      }
    }
  }

  lemma RemoveProductDropsOne(d: ScanData, idx: int)
    ensures var r := RemoveProduct(Some(d), idx).value;
      && r.party == d.party && r.bill == d.bill
      && (0 <= idx < |d.products| ==>
            r.products == d.products[..idx] + d.products[idx + 1..] && |r.products| == |d.products| - 1)
      && (!(0 <= idx < |d.products|) ==> r.products == d.products)
  {
    WithoutIndexSlices(d.products, idx);
  }

  /** The blank line has no id, an empty name, quantity 1 and rate 0, and every other field null. */
  lemma BlankLineFields()
    ensures "id" !in BlankLine && NoId(BlankLine)
    ensures BlankLine["name"] == Text(Some("")) && BlankLine["quantity"] == Num(Some(1.0))
    ensures BlankLine["rate"] == Num(Some(0.0))
    ensures forall k :: k in BlankLine && k != "name" && k != "quantity" && k != "rate" ==>
      BlankLine[k] == Text(None) || BlankLine[k] == Num(None)
  {
  }

  /** Adding a line appends the blank line, which counts as one more new product. */
  lemma AddBlankCountsNew(d: ScanData)
    ensures var r := AddBlankProduct(Some(d)).value;
      && r.products == d.products + [BlankLine]
      && NewCount(r.products) == NewCount(d.products) + 1
      && ExistingCount(r.products) == ExistingCount(d.products)
  {
    BlankLineFields();
    CountAppend(d.products, [BlankLine], NoId);
    CountAppend(d.products, [BlankLine], HasId);
    assert [BlankLine][1..] == [];
  }

  /** Every line is either existing or new: the two counts add up to the number of lines. */
  lemma CountsCoverLines(ps: seq<Obj>)
    ensures ExistingCount(ps) + NewCount(ps) == |ps|
  {
    CountComplement(ps, HasId, NoId);
  }
}
