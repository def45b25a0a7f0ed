/**
 * The generation run: `generate_xml` reads every supplier of the registry and
 * calls `create_xml` for it, which writes `{supplier_id}.xml` unless that file
 * already exists, the supplier's spreadsheet cannot be opened, or its
 * worksheets hold no data rows.
 */
module Generator {
  import opened Wrappers
  import opened Sheets
  import opened Products

  /** A registry row as `get_all_records` returns it: column header to cell text. */
  type Record = map<string, string>

  /** The supplier spreadsheets the client can open, by sheet id, each as its worksheets in order. */
  type Workbooks = map<string, seq<Grid>>

  /** One supplier of the registry, as `generate_xml` reads it from a record. */
  datatype Supplier = Supplier(id: string, name: string, sheetId: string, columns: ColumnMap)

  /** The registry columns `generate_xml` reads; a record without one of them raises `KeyError`. */
  const RequiredKeys: set<string> := {
    "Post_ID", "Supplier Name", "Google Sheet ID",
    "ID Column", "Name Column", "Stock Column", "Price Column",
    "SKU Column", "RRP Column", "Currency Column" }

  /** The supplier a registry record describes, or `None` where reading it raises `KeyError`. */
  function ReadSupplier(rec: Record): (r: Option<Supplier>)
    ensures r.Some? <==> RequiredKeys <= rec.Keys
    ensures r.Some? ==>
      && r.value.id == rec["Post_ID"] && r.value.name == rec["Supplier Name"]
      && r.value.sheetId == rec["Google Sheet ID"]
      && r.value.columns == ColumnMap(rec["ID Column"], rec["Name Column"], rec["Stock Column"],
                                      rec["Price Column"], rec["SKU Column"], rec["RRP Column"],
                                      rec["Currency Column"])
  {
    if RequiredKeys <= rec.Keys then
      Some(Supplier(rec["Post_ID"], rec["Supplier Name"], rec["Google Sheet ID"],
        ColumnMap(rec["ID Column"], rec["Name Column"], rec["Stock Column"], rec["Price Column"],
                  rec["SKU Column"], rec["RRP Column"], rec["Currency Column"])))
    else None
  }

  /** The output file of a supplier: `f"{supplier_id}.xml"`. */
  function FileName(id: string): string {
    id + ".xml"
  }

  /** Different suppliers never share an output file. */
  lemma FileNameInjective(a: string, b: string)
    requires FileName(a) == FileName(b)
    ensures a == b
  {
    assert a == FileName(a)[..|a|];
  }

  /** The document `create_xml` builds from a supplier's worksheets, or `None` when they hold no data rows. */
  function XmlFor(sheets: seq<Grid>, cols: ColumnMap): (r: Option<Document>)
    ensures r.None? <==> forall k :: 0 <= k < |sheets| ==> |sheets[k]| < 2
    ensures r.Some? ==> r.value.items == ProductsOf(Flatten(sheets), cols)
  {
    FlattenEmptyIff(sheets);
    var rows := Flatten(sheets);
    if rows == [] then None else Some(Document(ProductsOf(rows, cols)))
  }

  /** The output directory after `create_xml` for supplier `s`. */
  function AfterCreate(files: map<string, Document>, s: Supplier, books: Workbooks): (r: map<string, Document>)
    // an existing file is never touched, and nothing but this supplier's file is written
    ensures forall k :: k in files ==> k in r && r[k] == files[k]
    ensures forall k :: k in r ==> k in files || k == FileName(s.id)
    // a new file appears iff the spreadsheet opens and has data rows, and holds their products
    ensures FileName(s.id) !in files ==>
      (FileName(s.id) in r <==> s.sheetId in books && XmlFor(books[s.sheetId], s.columns).Some?)
    ensures FileName(s.id) !in files && FileName(s.id) in r ==>
      r[FileName(s.id)].items == ProductsOf(Flatten(books[s.sheetId]), s.columns)
  {
    if FileName(s.id) in files || s.sheetId !in books then files
    else match XmlFor(books[s.sheetId], s.columns)
      case None => files
      case Some(doc) => files[FileName(s.id) := doc]
  }

  /** The state a run leaves: the output directory, and whether it got through the whole registry. */
  datatype Run = Run(files: map<string, Document>, completed: bool)

  /** `generate_xml` over the registry records, starting from the files already present. */
  function RunAll(files: map<string, Document>, records: seq<Record>, books: Workbooks): Run {
    if records == [] then Run(files, true)
    else
      var prev := RunAll(files, records[..|records| - 1], books);
      if !prev.completed then prev
      else match ReadSupplier(records[|records| - 1])
        case None => Run(prev.files, false)
        case Some(s) => Run(AfterCreate(prev.files, s, books), true)
  }

  /** A run stops at its first unreadable record: records after it are never processed. */
  lemma {:induction false} RunAllStops(files: map<string, Document>, records: seq<Record>, i: nat, books: Workbooks)
    requires i <= |records|
    requires !RunAll(files, records[..i], books).completed
    ensures RunAll(files, records, books) == RunAll(files, records[..i], books)
    decreases |records| - i
  {
    if i < |records| {
      var n := |records| - 1;
      assert records[..n][..i] == records[..i];
      RunAllStops(files, records[..n], i, books);
    } else {
      assert records[..i] == records;
    }
  }

  /** A run gets through the registry exactly when every record has all the columns it reads. */
  lemma {:induction false} RunAllCompletedIff(files: map<string, Document>, records: seq<Record>, books: Workbooks)
    ensures RunAll(files, records, books).completed <==>
      forall i :: 0 <= i < |records| ==> ReadSupplier(records[i]).Some?
  {
    if records != [] {
      var n := |records| - 1;
      RunAllCompletedIff(files, records[..n], books);
      assert forall i :: 0 <= i < n ==> records[..n][i] == records[i];
    }
  }

  /** A run never overwrites or removes an existing file. */
  lemma {:induction false} RunAllKeepsExisting(files: map<string, Document>, records: seq<Record>, books: Workbooks)
    ensures forall k :: k in files ==>
      k in RunAll(files, records, books).files && RunAll(files, records, books).files[k] == files[k]
  {
    if records != [] {
      RunAllKeepsExisting(files, records[..|records| - 1], books);
    }
  }

  /** Every file a run adds is the output file of a supplier of the registry. */
  lemma {:induction false} RunAllWritesOnlySuppliers(files: map<string, Document>, records: seq<Record>, books: Workbooks)
    ensures forall k :: k in RunAll(files, records, books).files ==>
      k in files || exists i :: 0 <= i < |records| && ReadSupplier(records[i]).Some?
                                && k == FileName(ReadSupplier(records[i]).value.id)
  {
    if records != [] {
      var n := |records| - 1;
      RunAllWritesOnlySuppliers(files, records[..n], books);
      forall k | k in RunAll(files, records, books).files && k !in files
        ensures exists i :: 0 <= i < |records| && ReadSupplier(records[i]).Some?
                            && k == FileName(ReadSupplier(records[i]).value.id)
      {
        if k in RunAll(files, records[..n], books).files {
          var i :| 0 <= i < n && ReadSupplier(records[..n][i]).Some?
                   && k == FileName(ReadSupplier(records[..n][i]).value.id);
          assert records[..n][i] == records[i];
        } else {
          assert ReadSupplier(records[n]).Some? && k == FileName(ReadSupplier(records[n]).value.id);
        }
      }
    }
  }

  /**
   * A supplier read before the run stops, whose spreadsheet opens and has
   * data rows, has its output file at the end of the run.
   */
  lemma RunAllWritesReadySupplier(files: map<string, Document>, records: seq<Record>, i: nat,
                                  s: Supplier, books: Workbooks)
    requires i < |records| && RunAll(files, records[..i + 1], books).completed
    requires ReadSupplier(records[i]) == Some(s)
    requires s.sheetId in books && XmlFor(books[s.sheetId], s.columns).Some?
    ensures FileName(s.id) in RunAll(files, records, books).files
  {
    assert records[..i + 1][..i] == records[..i];
    RunAllGrows(files, records, i + 1, books);
  }

  /**
   * Record `i` wrote file `k`: the run reached it without the file existing,
   * and the file holds the products of that supplier's combined rows.
   */
  predicate WrittenBy(files: map<string, Document>, records: seq<Record>, books: Workbooks,
                      i: int, k: string, doc: Document)
  {
    && 0 <= i < |records|
    && RunAll(files, records[..i], books).completed
    && k !in RunAll(files, records[..i], books).files
    && ReadSupplier(records[i]).Some?
    && var s := ReadSupplier(records[i]).value;
      && k == FileName(s.id) && s.sheetId in books
      && XmlFor(books[s.sheetId], s.columns).Some?
      && doc.items == ProductsOf(Flatten(books[s.sheetId]), s.columns)
  }

  /**
   * Every file a run adds was written by one record, the first to reach it,
   * and holds the products of that supplier's spreadsheet.
   */
  lemma {:induction false} RunAllAddedFile(files: map<string, Document>, records: seq<Record>,
                                           books: Workbooks, k: string)
    requires k in RunAll(files, records, books).files && k !in files
    ensures exists i :: WrittenBy(files, records, books, i, k, RunAll(files, records, books).files[k])
  {
    var n := |records| - 1;
    var prev := RunAll(files, records[..n], books);
    var doc := RunAll(files, records, books).files[k];
    if k in prev.files {
      RunAllAddedFile(files, records[..n], books, k);
      var i :| WrittenBy(files, records[..n], books, i, k, prev.files[k]);
      assert records[..n][..i] == records[..i] && records[..n][i] == records[i];
      assert WrittenBy(files, records, books, i, k, doc);
    } else {
      assert records[..n] == records[..|records| - 1];
      assert WrittenBy(files, records, books, n, k, doc);
    }
  }

  /** The files of a part of a run are all still there at its end. */
  lemma {:induction false} RunAllGrows(files: map<string, Document>, records: seq<Record>, j: nat, books: Workbooks)
    requires j <= |records|
    ensures RunAll(files, records[..j], books).files.Keys <= RunAll(files, records, books).files.Keys
    decreases |records|
  {
    if j == |records| {
      assert records[..j] == records;
    } else {
      var n := |records| - 1;
      assert records[..n][..j] == records[..j];
      RunAllGrows(files, records[..n], j, books);
    }
  }

  /**
   * Running twice over the same registry and spreadsheets changes nothing the
   * second time: every file written by the first run now exists and is
   * skipped, and every supplier without a file still yields none.
   */
  lemma RunAllIdempotent(files: map<string, Document>, records: seq<Record>, books: Workbooks)
    ensures RunAll(RunAll(files, records, books).files, records, books) == RunAll(files, records, books)
  {
    var fin := RunAll(files, records, books).files;
    SecondRunPrefix(files, records, |records|, books);
    assert records[..|records|] == records;
  }

  /** The second run over any prefix of the registry leaves the first run's files as they are. */
  lemma {:induction false} SecondRunPrefix(files: map<string, Document>, records: seq<Record>, j: nat, books: Workbooks)
    requires j <= |records|
    ensures RunAll(RunAll(files, records, books).files, records[..j], books)
      == Run(RunAll(files, records, books).files, RunAll(files, records[..j], books).completed)
  {
    var fin := RunAll(files, records, books).files;
    if j > 0 {
      var n := j - 1;
      SecondRunPrefix(files, records, n, books);
      assert records[..j][..n] == records[..n];
      var first := RunAll(files, records[..n], books);
      if first.completed && ReadSupplier(records[n]).Some? {
        var s := ReadSupplier(records[n]).value;
        RunAllGrows(files, records, j, books);
        assert RunAll(files, records[..j], books).files == AfterCreate(first.files, s, books);
        assert AfterCreate(fin, s, books) == fin;
      }
    }
  }

  /** The output directory: its `.xml` files by name, each holding its document. */
  class OutputDir {
    var files: map<string, Document>

    constructor (existing: map<string, Document>)
      ensures files == existing
    {
      files := existing;
    }

    /** `create_xml`; a spreadsheet missing from `books` stands for the caught `APIError`. */
    method CreateXml(s: Supplier, books: Workbooks)
      modifies this
      ensures files == AfterCreate(old(files), s, books)
    {
      var xmlFile := FileName(s.id);
      if xmlFile in files {
        return;
      }
      if s.sheetId !in books {
        return;
      }
      var combined := CombineData(books[s.sheetId]);
      if combined == [] {
        return;
      }
      var items := BuildProducts(combined, s.columns);
      files := files[xmlFile := Document(items)];
    }

    /**
     * The supplier loop of `generate_xml`; `completed` is false where a record
     * lacks a column and the raised `KeyError` ends the run.
     */
    method GenerateXml(records: seq<Record>, books: Workbooks) returns (completed: bool)
      modifies this
      ensures Run(files, completed) == RunAll(old(files), records, books)
    {
      var i := 0;
      while i < |records|
        invariant 0 <= i <= |records|
        invariant RunAll(old(files), records[..i], books) == Run(files, true)
      {
        assert records[..i + 1][..i] == records[..i];
        var supplier := ReadSupplier(records[i]);
        if supplier.None? {
          RunAllStops(old(files), records, i + 1, books);
          return false;
        }
        CreateXml(supplier.value, books);
        i := i + 1;
      }
      assert records[..i] == records;
      completed := true;
    }
  }
}
