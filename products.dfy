/**
 * Row mapping in `create_xml`: each collected row is resolved through the
 * supplier's column map, dropped when it has no name or its cleaned price is
 * `"0"`, and otherwise turned into a `product` element with a fixed child order.
 */
module Products {
  import opened Wrappers
  import opened Columns
  import opened Prices

  /**
   * The supplier's column letter for each field (`columns` in `generate_xml`);
   * a letter that names no column, such as `"-"`, leaves the field unmapped.
   */
  datatype ColumnMap = ColumnMap(
    id: string, name: string, stock: string, price: string,
    sku: string, rrp: string, currency: string)

  /** The seven values `create_xml` resolves from one row; `None` is Python's `None`. */
  datatype RowValues = RowValues(
    id: Option<string>, name: Option<string>, stock: string, price: string,
    sku: Option<string>, rrp: string, currency: string)

  /** A child element of a `product`: its tag and its text (`None`: an element without text). */
  datatype Element = Element(tag: string, text: Option<string>)

  /** A `product` element: its children in document order. */
  datatype Product = Product(children: seq<Element>)

  /** The document: a `products` root holding the products in order. */
  datatype Document = Document(items: seq<Product>)

  /** A lookup whose default is a string, so that its result is never `None`. */
  function Lookup(row: Row, letter: string, default: string): (r: string)
    ensures Some(r) == SafeGetValue(row, letter, Some(default))
  {
    SafeGetValue(row, letter, Some(default)).value
  }

  /** The seven `safe_get_value`/`clean_price` calls at the head of the row loop. */
  function Resolve(row: Row, cols: ColumnMap): (v: RowValues)
    // looked-up texts are either absent or non-empty, never ""
    ensures v.name.Some? ==> v.name.value != []
    ensures v.sku.Some? ==> v.sku.value != []
  {
    RowValues(
      SafeGetValue(row, cols.id, None),
      SafeGetValue(row, cols.name, None),
      Lookup(row, cols.stock, "true"),
      CleanPrice(Some(Lookup(row, cols.price, "0"))),
      SafeGetValue(row, cols.sku, None),
      CleanPrice(SafeGetValue(row, cols.rrp, None)),
      Lookup(row, cols.currency, "UAH"))
  }

  /** Unmapped fields take the defaults of the source: no id, no name, `"true"`, `"0"`, no sku, `"0"`, `"UAH"`. */
  lemma ResolveDefaults(row: Row, cols: ColumnMap)
    ensures var v := Resolve(row, cols);
      && (ColumnIndex(cols.id).None? ==> v.id == None)
      && (ColumnIndex(cols.name).None? ==> v.name == None)
      && (ColumnIndex(cols.stock).None? ==> v.stock == "true")
      && (ColumnIndex(cols.price).None? ==> v.price == "0")
      && (ColumnIndex(cols.sku).None? ==> v.sku == None)
      && (ColumnIndex(cols.rrp).None? ==> v.rrp == "0")
      && (ColumnIndex(cols.currency).None? ==> v.currency == "UAH")
  {
    if ColumnIndex(cols.price).None? {
      assert KeepPriceChars("0") == "0";
    }
  }

  /** `if not name or price == "0": continue` keeps a row exactly when this holds. */
  predicate Keep(v: RowValues) {
    Truthy(v.name) && v.price != "0"
  }

  /** The `product` element built for resolved values. */
  function ProductNode(v: RowValues): Product {
    Product(
      [ Element("id", v.id), Element("name", v.name), Element("stock", Some(v.stock)),
        Element("price", Some(v.price)), Element("currency", Some(v.currency)) ]
      + (if Truthy(v.sku) then [Element("sku", v.sku)] else [])
      + (if v.rrp != [] && v.rrp != "0" then [Element("rrp", Some(v.rrp))] else []))
  }

  /** Whether `p` has a child tagged `tag`. */
  predicate HasChild(p: Product, tag: string) {
    exists i :: 0 <= i < |p.children| && p.children[i].tag == tag
  }

  /**
   * The shape every emitted product has: the five fixed children in order,
   * a non-empty name and a price other than `"0"`, then `sku` if any, then `rrp` if any.
   */
  predicate WellFormed(p: Product) {
    var c := p.children;
    && 5 <= |c| <= 7
    && c[0].tag == "id" && c[1].tag == "name" && c[2].tag == "stock"
    && c[3].tag == "price" && c[4].tag == "currency"
    && Truthy(c[1].text)
    && c[2].text.Some? && c[3].text.Some? && c[3].text.value != "0" && c[4].text.Some?
    && (|c| == 6 ==> c[5].tag == "sku" || c[5].tag == "rrp")
    && (|c| == 7 ==> c[5].tag == "sku" && c[6].tag == "rrp")
  }

  /**
   * A kept row's product is well formed, carries the resolved values as texts,
   * and has `sku` exactly when one was found and `rrp` exactly when it is
   * present and not `"0"`.
   */
  lemma ProductNodeShape(v: RowValues)
    requires Keep(v)
    ensures WellFormed(ProductNode(v))
    ensures var c := ProductNode(v).children;
      c[0].text == v.id && c[1].text == v.name && c[2].text == Some(v.stock)
      && c[3].text == Some(v.price) && c[4].text == Some(v.currency)
    ensures HasChild(ProductNode(v), "sku") <==> Truthy(v.sku)
    ensures HasChild(ProductNode(v), "rrp") <==> v.rrp != [] && v.rrp != "0"
  {
    var p := ProductNode(v);
    var c := p.children;
    if HasChild(p, "sku") {
      var i :| 0 <= i < |c| && c[i].tag == "sku";
      assert i >= 5;
    }
    if HasChild(p, "rrp") {
      var i :| 0 <= i < |c| && c[i].tag == "rrp";
      assert i >= 5;
    }
    if Truthy(v.sku) {
      assert c[5].tag == "sku";
    }
    if v.rrp != [] && v.rrp != "0" {
      assert c[|c| - 1].tag == "rrp";
    }
  }

  /** What one row yields: a product, or nothing when the row is skipped. */
  function ProductFor(row: Row, cols: ColumnMap): (r: Option<Product>)
    // a row yields a product iff its name resolves to a non-empty text and
    // its cleaned price is not the literal "0"; the product is then well formed
    ensures r.Some? <==> Truthy(Resolve(row, cols).name) && Resolve(row, cols).price != "0"
    ensures r.Some? ==> r.value == ProductNode(Resolve(row, cols)) && WellFormed(r.value)
  {
    var v := Resolve(row, cols);
    if Keep(v) then
      ProductNodeShape(v);
      Some(ProductNode(v))
    else None
  }

  /** The body of the row loop of `create_xml` for one row. */
  method ProductForRow(row: Row, cols: ColumnMap) returns (product: Option<Product>)
    ensures product == ProductFor(row, cols)
  {
    var productId := SafeGetValue(row, cols.id, None);
    var name := SafeGetValue(row, cols.name, None);
    var stock := Lookup(row, cols.stock, "true");
    var price := CleanPrice(Some(Lookup(row, cols.price, "0")));
    var sku := SafeGetValue(row, cols.sku, None);
    var rrp := CleanPrice(SafeGetValue(row, cols.rrp, None));
    var currency := Lookup(row, cols.currency, "UAH");
    ghost var v := RowValues(productId, name, stock, price, sku, rrp, currency);
    assert v == Resolve(row, cols);
    if !Truthy(name) || price == "0" {
      assert !Keep(v);
      return None;
    }
    var children := [ Element("id", productId), Element("name", name),
      Element("stock", Some(stock)), Element("price", Some(price)),
      Element("currency", Some(currency)) ];
    if Truthy(sku) {
      children := children + [Element("sku", sku)];
    }
    if rrp != [] && rrp != "0" {
      children := children + [Element("rrp", Some(rrp))];
    }
    assert Keep(v) && Product(children) == ProductNode(v);
    product := Some(Product(children));
  }

  /** What each row yields, row by row. */
  function Outcomes(rows: seq<Row>, cols: ColumnMap): seq<Option<Product>> {
    MapSeq(rows, row => ProductFor(row, cols))
  }

  /** The products of a run of rows, in row order. */
  function ProductsOf(rows: seq<Row>, cols: ColumnMap): seq<Product> {
    Somes(Outcomes(rows, cols))
  }

  /** The row loop of `create_xml`: one `product` appended per kept row. */
  method BuildProducts(rows: seq<Row>, cols: ColumnMap) returns (items: seq<Product>)
    ensures items == ProductsOf(rows, cols)
  {
    items := [];
    var i := 0;
    while i < |rows|
      invariant 0 <= i <= |rows|
      invariant items == ProductsOf(rows[..i], cols)
    {
      assert rows[..i + 1] == rows[..i] + [rows[i]];
      ProductsOfAppend(rows[..i], [rows[i]], cols);
      ProductsOfOne(rows[i], cols);
      var product := ProductForRow(rows[i], cols);
      if product.Some? {
        items := items + [product.value];
      }
      i := i + 1;
    }
    assert rows[..i] == rows;
  }

  /** Emitted products keep row order: the products of two runs of rows are concatenated. */
  lemma ProductsOfAppend(a: seq<Row>, b: seq<Row>, cols: ColumnMap)
    ensures ProductsOf(a + b, cols) == ProductsOf(a, cols) + ProductsOf(b, cols)
  {
    MapSeqAppend(a, b, row => ProductFor(row, cols));
    SomesAppend(Outcomes(a, cols), Outcomes(b, cols));
  }

  /** One row yields one product when it is kept and none otherwise. */
  lemma ProductsOfOne(row: Row, cols: ColumnMap)
    ensures ProductsOf([row], cols) ==
      if ProductFor(row, cols).Some? then [ProductFor(row, cols).value] else []
  {
    var os := Outcomes([row], cols);
    assert os[0] == ProductFor(row, cols);
    assert os[..0] == [];
    assert Somes(os) == Somes(os[..0]) + (if os[0].Some? then [os[0].value] else []);
  }

  /** A product is emitted exactly when some row yields it. */
  lemma ProductsOfMember(rows: seq<Row>, cols: ColumnMap, p: Product)
    ensures p in ProductsOf(rows, cols) <==>
      exists i :: 0 <= i < |rows| && ProductFor(rows[i], cols) == Some(p)
  {
    var os := Outcomes(rows, cols);
    SomesMember(os, p);
    if p in ProductsOf(rows, cols) {
      var i :| 0 <= i < |os| && os[i] == Some(p);
      assert ProductFor(rows[i], cols) == Some(p);
    }
  }

  /** Every emitted product has the fixed shape; there are never more products than rows. */
  lemma ProductsOfWellFormed(rows: seq<Row>, cols: ColumnMap)
    ensures |ProductsOf(rows, cols)| <= |rows|
    ensures forall k :: 0 <= k < |ProductsOf(rows, cols)| ==> WellFormed(ProductsOf(rows, cols)[k])
  {
    var os := Outcomes(rows, cols);
    SomesBounded(os);
    forall k | 0 <= k < |Somes(os)| ensures WellFormed(Somes(os)[k]) {
      var i :| 0 <= i < |os| && os[i] == Some(Somes(os)[k]);
    }
  }
}
