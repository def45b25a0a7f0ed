/**
 * Worked cases of the transform: single rows through the filter, and one
 * supplier through a whole run.
 */
module Scenarios {
  import opened Wrappers
  import opened Text
  import opened Columns
  import opened Prices
  import opened Sheets
  import opened Products
  import opened Generator

  /** A cell of plain visible text is its own stripped value. */
  lemma StripPlain(s: string)
    requires s != [] && !IsSpace(s[0]) && !IsSpace(s[|s| - 1])
    ensures Strip(s) == s
  {
  }

  /** The value a one-letter column reads from a row holding plain text there. */
  lemma ReadPlainCell(row: Row, k: nat, default: Option<string>)
    requires k < 26 && k < |row|
    requires row[k] != [] && !IsSpace(row[k][0]) && !IsSpace(row[k][|row[k]| - 1])
    ensures SafeGetValue(row, [ColumnLetter(k)], default) == Some(row[k])
  {
    StripPlain(row[k]);
    ColumnIndexOfLetter(k);
  }

  /** The registry's `"-"` sentinel maps nothing. */
  lemma DashIsUnmapped(row: Row, default: Option<string>)
    ensures SafeGetValue(row, "-", default) == default
  {
  }

  /** The lookups the example supplier leaves unmapped (`"-"`) all take their defaults. */
  lemma UnmappedLookups(row: Row)
    ensures SafeGetValue(row, "-", Some("true")) == Some("true")
    ensures SafeGetValue(row, "-", None) == None
    ensures CleanPrice(SafeGetValue(row, "-", None)) == "0"
    ensures SafeGetValue(row, "-", Some("UAH")) == Some("UAH")
  {
    DashIsUnmapped(row, Some("true"));
    DashIsUnmapped(row, None);
    DashIsUnmapped(row, Some("UAH"));
  }

  /** A price of digits only is kept as it is. */
  lemma CleanPriceDigits(s: string)
    requires s != [] && forall i :: 0 <= i < |s| ==> IsDigit(s[i])
    ensures CleanPrice(Some(s)) == s
  {
    KeepPriceCharsFixed(s);
  }

  /** Resolution from the values each of the seven lookups gives. */
  lemma ResolveFrom(row: Row, cols: ColumnMap, v: RowValues)
    requires SafeGetValue(row, cols.id, None) == v.id
    requires SafeGetValue(row, cols.name, None) == v.name
    requires SafeGetValue(row, cols.stock, Some("true")) == Some(v.stock)
    requires CleanPrice(SafeGetValue(row, cols.price, Some("0"))) == v.price
    requires SafeGetValue(row, cols.sku, None) == v.sku
    requires CleanPrice(SafeGetValue(row, cols.rrp, None)) == v.rrp
    requires SafeGetValue(row, cols.currency, Some("UAH")) == Some(v.currency)
    ensures Resolve(row, cols) == v
  {
  }

  /** The columns of the example supplier: ID in A, Name in B, Price in D, nothing else mapped. */
  const Columns3 := ColumnMap("A", "B", "-", "D", "-", "-", "-")

  const WidgetRow: Row := ["1", "Widget", "", "150"]

  const WidgetValues := RowValues(Some("1"), Some("Widget"), "true", "150", None, "0", "UAH")

  /** The product the example's first data row yields. */
  const Widget := Product([
    Element("id", Some("1")), Element("name", Some("Widget")), Element("stock", Some("true")),
    Element("price", Some("150")), Element("currency", Some("UAH"))])

  lemma WidgetRowCells()
    ensures SafeGetValue(WidgetRow, "A", None) == Some("1")
    ensures SafeGetValue(WidgetRow, "B", None) == Some("Widget")
  {
    assert ColumnLetter(0) == 'A' && ColumnLetter(1) == 'B';
    ReadPlainCell(WidgetRow, 0, None);
    ReadPlainCell(WidgetRow, 1, None);
  }

  lemma WidgetRowPrice()
    ensures CleanPrice(SafeGetValue(WidgetRow, "D", Some("0"))) == "150"
  {
    assert ColumnLetter(3) == 'D';
    ReadPlainCell(WidgetRow, 3, Some("0"));
    CleanPriceDigits("150");
  }

  lemma WidgetRowResolves()
    ensures Resolve(WidgetRow, Columns3) == WidgetValues
  {
    WidgetRowCells();
    WidgetRowPrice();
    UnmappedLookups(WidgetRow);
    ResolveFrom(WidgetRow, Columns3, WidgetValues);
  }

  /** A named row priced 150 becomes a product with the default stock and currency, no sku and no rrp. */
  lemma PricedRowIsKept()
    ensures ProductFor(WidgetRow, Columns3) == Some(Widget)
  {
    WidgetRowResolves();
    WidgetNode();
  }

  lemma WidgetNode()
    ensures Keep(WidgetValues) && ProductNode(WidgetValues) == Widget
  {
  }

  const GadgetRow: Row := ["2", "Gadget", "", "0"]

  /** A row priced `"0"` yields nothing. */
  lemma ZeroPricedRowIsDropped()
    ensures ProductFor(GadgetRow, Columns3) == None
  {
    assert ColumnLetter(3) == 'D';
    ReadPlainCell(GadgetRow, 3, Some("0"));
    CleanPriceDigits("0");
  }

  const UnpricedRow: Row := ["", "Widget", "", "N/A"]

  const UnpricedValues := RowValues(None, Some("Widget"), "true", "", None, "0", "UAH")

  lemma UnpricedRowCells()
    ensures SafeGetValue(UnpricedRow, "A", None) == None
    ensures SafeGetValue(UnpricedRow, "B", None) == Some("Widget")
  {
    assert ColumnLetter(0) == 'A' && ColumnLetter(1) == 'B';
    assert Strip("") == "";
    ReadPlainCell(UnpricedRow, 1, None);
  }

  lemma UnpricedRowPrice()
    ensures CleanPrice(SafeGetValue(UnpricedRow, "D", Some("0"))) == ""
  {
    assert ColumnLetter(3) == 'D';
    ReadPlainCell(UnpricedRow, 3, Some("0"));
    CleanPriceNothingLeft("N/A");
  }

  lemma UnpricedRowResolves()
    ensures Resolve(UnpricedRow, Columns3) == UnpricedValues
  {
    UnpricedRowCells();
    UnpricedRowPrice();
    UnmappedLookups(UnpricedRow);
    ResolveFrom(UnpricedRow, Columns3, UnpricedValues);
  }

  /**
   * The filter tests neither the id nor whether the price is a number: a named
   * row whose price cell is `"N/A"` yields a product with no id text and an
   * empty price.
   */
  lemma UnpricedRowIsKept()
    ensures ProductFor(UnpricedRow, Columns3) == Some(Unpriced)
  {
    UnpricedRowResolves();
    UnpricedNode();
  }

  lemma UnpricedNode()
    ensures Keep(UnpricedValues) && ProductNode(UnpricedValues) == Unpriced
  {
  }

  const Unpriced := Product([
    Element("id", None), Element("name", Some("Widget")), Element("stock", Some("true")),
    Element("price", Some("")), Element("currency", Some("UAH"))])

  /** The example registry record: supplier 7, ID in A, Name in B, Price in D, the rest `"-"`. */
  const Supplier7: Record := map[
    "Post_ID" := "7", "Supplier Name" := "Acme", "Google Sheet ID" := "sheet-7",
    "ID Column" := "A", "Name Column" := "B", "Stock Column" := "-", "Price Column" := "D",
    "SKU Column" := "-", "RRP Column" := "-", "Currency Column" := "-"]

  /** Its spreadsheet: one worksheet, a header row and two data rows priced 150 and 0. */
  const Book7: seq<Grid> := [[["ID", "Name", "Stock", "Price"], WidgetRow, GadgetRow]]

  lemma Supplier7Reads()
    ensures ReadSupplier(Supplier7) == Some(Supplier("7", "Acme", "sheet-7", Columns3))
  {
    assert RequiredKeys <= Supplier7.Keys;
  }

  lemma Book7Rows()
    ensures Flatten(Book7) == [WidgetRow, GadgetRow]
  {
    assert Book7[..0] == [];
  }

  lemma Book7RowsProducts()
    ensures ProductsOf([WidgetRow, GadgetRow], Columns3) == [Widget]
  {
    assert [WidgetRow, GadgetRow] == [WidgetRow] + [GadgetRow];
    ProductsOfAppend([WidgetRow], [GadgetRow], Columns3);
    ProductsOfOne(WidgetRow, Columns3);
    ProductsOfOne(GadgetRow, Columns3);
    PricedRowIsKept();
    ZeroPricedRowIsDropped();
  }

  lemma Book7Products()
    ensures XmlFor(Book7, Columns3) == Some(Document([Widget]))
  {
    Book7Rows();
    Book7RowsProducts();
  }

  /** A registry of one readable supplier whose file is new writes exactly that file. */
  lemma RunOfOne(files: map<string, Document>, rec: Record, books: Workbooks, s: Supplier, doc: Document)
    requires ReadSupplier(rec) == Some(s)
    requires FileName(s.id) !in files && s.sheetId in books
    requires XmlFor(books[s.sheetId], s.columns) == Some(doc)
    ensures RunAll(files, [rec], books) == Run(files[FileName(s.id) := doc], true)
  {
    assert [rec][..0] == [];
  }

  lemma Supplier7Run(books: Workbooks)
    requires books == map["sheet-7" := Book7]
    ensures RunAll(map[], [Supplier7], books) == Run(map[][FileName("7") := Document([Widget])], true)
  {
    Supplier7Reads();
    Book7Products();
    RunOfOne(map[], Supplier7, books, Supplier("7", "Acme", "sheet-7", Columns3), Document([Widget]));
  }

  /**
   * One supplier, one worksheet with a header and two data rows, priced 150
   * and 0: the run writes `7.xml` holding exactly one product, for the first row.
   */
  lemma OneSupplierRun(registry: seq<Record>, books: Workbooks)
    requires registry == [Supplier7] && books == map["sheet-7" := Book7]
    ensures RunAll(map[], registry, books) == Run(map["7.xml" := Document([Widget])], true)
  {
    Supplier7Run(books);
    assert FileName("7") == "7.xml";
  }
}
