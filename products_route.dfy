/**
  `/api/products`: GET lists the active products by name; POST adds one to the
  product master. POST refuses a blank name (400) and a name that equals an
  existing product's case-insensitively, active or not (409), and otherwise
  inserts the product active, under its trimmed name.
 */
module ProductsRoute {
  import opened Common
  import opened Strings
  import opened Db
  import opened Seqs
  import opened Sorting

  /** The ids of the active products, in table order. */
  function ActiveProductIds(products: seq<Product>): (ids: seq<Id>)
    ensures forall i :: 0 <= i < |ids| ==> ids[i] < |products| && products[ids[i]].isActive
    ensures forall k :: 0 <= k < |products| && products[k].isActive ==> k in ids
    ensures forall i, j :: 0 <= i < j < |ids| ==> ids[i] < ids[j]
  {
    if products == [] then []
    else
      var n := |products| - 1;
      ActiveProductIds(products[..n]) + (if products[n].isActive then [n] else [])
  }

  /** The request body of POST. */
  datatype NewProductInput = NewProductInput(
    name: Option<string>, manufacturer: Option<string>, hsn: Option<string>, pack: Option<string>,
    mrp: Option<real>, gstPercent: Option<real>)

  /** The reply `{ id, name, manufacturer, mrp }`. */
  datatype ProductView = ProductView(id: Id, name: string, manufacturer: Option<string>, mrp: Option<real>)

  /** The row GET selects for a product. */
  function ViewOf(products: seq<Product>, id: Id): ProductView
    requires id < |products|
  {
    ProductView(id, products[id].name, products[id].manufacturer, products[id].mrp)
  }

  /** The views of the active products, in table order. */
  function ActiveViews(products: seq<Product>): (views: seq<ProductView>)
    ensures Distinct(views)
    ensures forall v :: v in views ==> v.id < |products| && products[v.id].isActive && v == ViewOf(products, v.id)
    ensures forall k :: 0 <= k < |products| && products[k].isActive ==> ViewOf(products, k) in views
  {
    var ids := ActiveProductIds(products);
    var views := seq(|ids|, i requires 0 <= i < |ids| => ViewOf(products, ids[i]));
    forall k | 0 <= k < |products| && products[k].isActive
      ensures ViewOf(products, k) in views
    {
      var i :| 0 <= i < |ids| && ids[i] == k;
      assert views[i] == ViewOf(products, k);
    }
    views
  }

  /**
    GET: the active products, each once, sorted by name ascending, as
    `{ id, name, manufacturer, mrp }`.
   */
  function ListProducts(products: seq<Product>): (r: seq<ProductView>)
    ensures SortedBy(r, (v: ProductView) => v.name) && Distinct(r)
    ensures forall v :: v in r ==> v.id < |products| && products[v.id].isActive && v == ViewOf(products, v.id)
    ensures forall k :: 0 <= k < |products| && products[k].isActive ==> ViewOf(products, k) in r
  {
    var views := ActiveViews(products);
    var r := SortBy(views, (v: ProductView) => v.name);
    SameElements(views, r);
    DistinctPermutation(views, r);
    r
  }

  /** The first product, active or not, whose name equals `name` ignoring case. */
  function ProductNamed(products: seq<Product>, name: string): Option<nat>
  {
    FirstIndex(products, (p: Product) => EqualsIgnoreCase(p.name, name))
  }

  /** The row POST inserts: `?? null` keeps an empty text, while a falsy mrp or GST (0 included) becomes null. */
  function CreatedProduct(p: NewProductInput): Product
    requires p.name.Some?
  {
    Product(Trim(p.name.value), None, p.manufacturer, p.hsn, p.pack, None, None, None,
            NumOrNull(p.mrp), NumOrNull(p.gstPercent), true)
  }

  datatype ProductsOutcome = ProductsOutcome(reply: Reply<ProductView>, products: seq<Product>)

  function CreateProductStep(products: seq<Product>, p: NewProductInput): ProductsOutcome
  {
    if Blank(p.name) then
      ProductsOutcome(Fail(400, "Product name is required"), products)
    else if ProductNamed(products, Trim(p.name.value)).Some? then
      ProductsOutcome(Fail(409, "Product with this name already exists"), products)
    else
      var row := CreatedProduct(p);
      ProductsOutcome(Ok(ProductView(|products|, row.name, row.manufacturer, row.mrp)), products + [row])
  }

  /** The handler: check the name, look for a duplicate, insert. */
  method CreateProduct(db: Database, p: NewProductInput) returns (r: Reply<ProductView>)
    modifies db`products
    ensures ProductsOutcome(r, db.products) == CreateProductStep(old(db.products), p)
  {
    if Blank(p.name) {
      return Fail(400, "Product name is required");
    }
    var name := Trim(p.name.value);
    var existing := ProductNamed(db.products, name);
    if existing.Some? {
      return Fail(409, "Product with this name already exists");
    }
    var row := CreatedProduct(p);
    var id := |db.products|;
    db.products := db.products + [row];
    return Ok(ProductView(id, row.name, row.manufacturer, row.mrp));
  }

  // ---------------------------------------------------------------- properties

  /**
    A blank name gets 400; a name equal to any existing product's ignoring
    case, inactive ones included, gets 409; neither inserts anything.
   */
  lemma CreateRefusals(products: seq<Product>, p: NewProductInput)
    ensures var out := CreateProductStep(products, p);
      && (out.reply.Fail? ==> out.products == products)
      && (Blank(p.name) ==> out.reply == Fail(400, "Product name is required"))
      && (!Blank(p.name) ==>
            (out.reply == Fail(409, "Product with this name already exists") <==>
               exists k :: 0 <= k < |products| && EqualsIgnoreCase(products[k].name, Trim(p.name.value))))
  {
  }

  /**
    A created product is appended active under its trimmed name; mrp and GST
    are stored only when truthy, so 0 is stored as null.
   */
  lemma ProductCreated(products: seq<Product>, p: NewProductInput)
    ensures var out := CreateProductStep(products, p);
      out.reply.Ok? ==>
        && out.reply.value.id == |products| && |out.products| == |products| + 1
        && out.products[..|products|] == products
        && var row := out.products[|products|];
           && row.isActive && row.name == Trim(p.name.value) && row.name != []
           && row.manufacturer == p.manufacturer && row.hsn == p.hsn && row.pack == p.pack
           && (row.mrp.None? <==> !TruthyNum(p.mrp)) && (row.gstPercent.None? <==> !TruthyNum(p.gstPercent))
           && (row.mrp.Some? ==> row.mrp == p.mrp) && (row.gstPercent.Some? ==> row.gstPercent == p.gstPercent)
  {
  }

  /** No two products whose names are equal ignoring case. */
  predicate DistinctNames(products: seq<Product>)
  {
    forall i, j :: 0 <= i < j < |products| ==> !EqualsIgnoreCase(products[i].name, products[j].name)
  }

  /** The duplicate check keeps product names distinct ignoring case. */
  lemma CreateKeepsNamesDistinct(products: seq<Product>, p: NewProductInput)
    requires DistinctNames(products)
    ensures DistinctNames(CreateProductStep(products, p).products)
  {
    var out := CreateProductStep(products, p);
    if out.reply.Ok? {
      var n := Trim(p.name.value);
      var test := (q: Product) => EqualsIgnoreCase(q.name, n);
      assert FirstIndex(products, test).None?;
      assert forall i :: 0 <= i < |products| ==> !test(products[i]);
      assert out.products[|products|].name == n;
    }
  }

  /** The product a POST creates is in the next GET's list, as the POST replied it. */
  lemma CreatedProductListed(products: seq<Product>, p: NewProductInput)
    ensures var out := CreateProductStep(products, p);
      out.reply.Ok? ==> out.reply.value in ListProducts(out.products)
  {
    var out := CreateProductStep(products, p);
    if out.reply.Ok? {
      assert ViewOf(out.products, |products|) == out.reply.value;
    }
  }
}
