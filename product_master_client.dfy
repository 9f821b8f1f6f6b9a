/**
  The product-master page: the product list with its search box, the add
  form, and deletion. The add form's request body is the route's
  `NewProductInput`, so what the page sends can be followed through
  `POST /api/products`. `toNumber` is JavaScript's `Number` on typed text.
 */
module ProductMasterClient {
  import opened Common
  import opened Strings
  import opened Seqs
  import opened JsObjects
  import Db
  import opened ProductsRoute

  /** A product as the page holds it. */
  datatype ProductRow = ProductRow(id: Id, name: string, manufacturer: Option<string>, hsn: Option<string>,
                                   pack: Option<string>, mrp: Option<real>, gstPercent: Option<real>)

  /** The search test, on an already lower-cased query: name, manufacturer or HSN contains it. */
  predicate Matches(p: ProductRow, q: string)
  {
    Contains(ToLower(p.name), q) || Contains(ToLower(p.manufacturer.GetOr("")), q) || Contains(ToLower(p.hsn.GetOr("")), q)
  }

  /** `filtered`: the whole list for an empty search, else the products that match it, in order. */
  function Filtered(products: seq<ProductRow>, search: string): seq<ProductRow>
  {
    var q := ToLower(search);
    if q == "" then products else Filter(products, (p: ProductRow) => Matches(p, q))
  }

  /** `handleAdded(p)`: the new product goes first. */
  function HandleAdded(products: seq<ProductRow>, p: ProductRow): seq<ProductRow>
  {
    [p] + products
  }

  /** `handleDelete(id)`: nothing unless confirmed; then every product with that id leaves the list. */
  function HandleDelete(products: seq<ProductRow>, id: Id, confirmed: bool): seq<ProductRow>
  {
    if !confirmed then products else Filter(products, (p: ProductRow) => p.id != id)
  }

  /** The add form: every field as typed. */
  datatype ProductForm = ProductForm(name: string, manufacturer: string, hsn: string, pack: string, mrp: string,
                                     gstPercent: string)

  const EmptyProductForm := ProductForm("", "", "", "", "", "")

  /**
    `handleSave`: a blank name is refused before sending; otherwise the body
    carries the trimmed name, each trimmed text or null when empty, and each
    number or null when its field is empty.
   */
  function CheckAddProduct(f: ProductForm, toNumber: string -> real): Submit<NewProductInput>
  {
    if Trim(f.name) == "" then Invalid("Product name is required")
    else Send(NewProductInput(Some(Trim(f.name)), OrNull(Some(Trim(f.manufacturer))), OrNull(Some(Trim(f.hsn))),
                              OrNull(Some(Trim(f.pack))),
                              if f.mrp == "" then None else Some(toNumber(f.mrp)),
                              if f.gstPercent == "" then None else Some(toNumber(f.gstPercent))))
  }

  // ---------------------------------------------------------------- properties

  /** An empty search shows every product, in order. */
  lemma EmptySearchKeepsAll(products: seq<ProductRow>)
    ensures Filtered(products, "") == products
  {
  }

  /**
    The early return for an empty search changes nothing: the list shown is
    always the products that match the lower-cased search, in order, since
    every name contains the empty string.
   */
  lemma FilteredIsFilter(products: seq<ProductRow>, search: string)
    ensures Filtered(products, search) == Filter(products, (p: ProductRow) => Matches(p, ToLower(search)))
  {
    var q := ToLower(search);
    if q == "" {
      forall i | 0 <= i < |products|
        ensures Matches(products[i], q)
      {
        ContainsEmpty(ToLower(products[i].name));
      }
      FilterAll(products, (p: ProductRow) => Matches(p, q));
    }
  }

  /** A product is shown exactly when its name, manufacturer or HSN contains the search, ignoring case. */
  lemma ShownIffMatches(products: seq<ProductRow>, search: string, p: ProductRow)
    requires p in products
    ensures p in Filtered(products, search) <==> Matches(p, ToLower(search))
  {
    FilteredIsFilter(products, search);
    if Matches(p, ToLower(search)) {
      FilterKeeps(products, (x: ProductRow) => Matches(x, ToLower(search)), p);
    }
  }

  /** Deleting removes every product with that id and keeps all the others, in order; without confirmation it does nothing. */
  lemma DeleteRemovesId(products: seq<ProductRow>, id: Id, confirmed: bool)
    ensures !confirmed ==> HandleDelete(products, id, confirmed) == products
    ensures confirmed ==> forall p :: p in HandleDelete(products, id, confirmed) ==> p.id != id && p in products
    ensures confirmed ==> forall p :: p in products && p.id != id ==> p in HandleDelete(products, id, confirmed)
  {
    if confirmed {
      forall p | p in products && p.id != id
        ensures p in HandleDelete(products, id, confirmed)
      {
        FilterKeeps(products, (x: ProductRow) => x.id != id, p);
      }
    }
  }

  /** Adding puts the new product first, and it is shown under any search it matches. */
  lemma AddedShown(products: seq<ProductRow>, p: ProductRow, search: string)
    ensures HandleAdded(products, p)[0] == p && HandleAdded(products, p)[1..] == products
    ensures Matches(p, ToLower(search)) ==> p in Filtered(HandleAdded(products, p), search)
  {
    assert HandleAdded(products, p)[1..] == products;
    if Matches(p, ToLower(search)) {
      ShownIffMatches(HandleAdded(products, p), search, p);
    }
  }

  /**
    The form refuses a name of white space alone; what it sends has the
    trimmed name, null for every empty text or number field, and the typed
    number otherwise.
   */
  lemma AddFormBody(f: ProductForm, toNumber: string -> real)
    ensures CheckAddProduct(f, toNumber).Invalid? <==> forall i :: 0 <= i < |f.name| ==> IsSpace(f.name[i])
    ensures CheckAddProduct(f, toNumber).Send? ==>
      var b := CheckAddProduct(f, toNumber).body;
      && b.name == Some(Trim(f.name))
      && (b.manufacturer.None? <==> Trim(f.manufacturer) == "")
      && (b.hsn.None? <==> Trim(f.hsn) == "") && (b.pack.None? <==> Trim(f.pack) == "")
      && (b.mrp.None? <==> f.mrp == "") && (b.gstPercent.None? <==> f.gstPercent == "")
      && (b.mrp.Some? ==> b.mrp.value == toNumber(f.mrp))
  {
    TrimEmptyIffBlank(f.name);
  }

  /**
    What the page sends is never refused by the route as nameless: the
    route stores it under the same trimmed name, unless a product of that
    name exists.
   */
  lemma SentNameAccepted(products: seq<Db.Product>, f: ProductForm, toNumber: string -> real)
    requires CheckAddProduct(f, toNumber).Send?
    ensures var out := CreateProductStep(products, CheckAddProduct(f, toNumber).body);
      && out.reply != Fail(400, "Product name is required")
      && (out.reply.Ok? ==> out.products[|products|].name == Trim(f.name))
  {
    var b := CheckAddProduct(f, toNumber).body;
    TrimIdempotent(f.name);
    assert b.name == Some(Trim(f.name)) && !Blank(b.name);
    CreateRefusals(products, b);
    ProductCreated(products, b);
  }
}
