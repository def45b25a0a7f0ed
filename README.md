# xml-app: the supplier feed generator, modelled in Dafny

xml-app builds one product feed per supplier. A master registry lists the
suppliers, one row each, with these fields:

- the supplier's id (`Post_ID`)
- the id of its Google spreadsheet
- one column letter for each of the product fields `ID`, `Name`, `Stock`,
  `Price`, `SKU`, `RRP` and `Currency`

For each supplier, `create_xml` does the following:

1. It skips the supplier if `{Post_ID}.xml` already exists.
2. It opens the supplier's spreadsheet and concatenates the data rows of every
   worksheet. The data rows are all rows but the first, and a worksheet with
   fewer than two rows contributes nothing.
3. It writes nothing when there are no data rows at all.
4. Otherwise it reads each row's fields by column letter (`safe_get_value`)
   and normalises the two prices (`clean_price`).
5. It drops rows without a name and rows whose price is the string `"0"`.
6. It writes a `<products>` document with one `<product>` per remaining row.

`generate_xml` runs this over every registry record in order. A record that
lacks one of the columns it reads raises `KeyError`, and that ends the run.

The model follows `main.py` module by module:

- `Text` covers Python's `str.strip` with the code points `str.isspace`
  accepts.
- `Columns` covers the column-letter lookup `safe_get_value`.
- `Prices` covers `clean_price`. It contains the regular-expression filter and
  the cut at the first comma or else the first period.
- `Sheets` covers the worksheet flattening, as an imperative loop proved
  against the function `Flatten`.
- `Products` covers the row loop: it resolves the seven fields, applies the
  filter and builds the `<product>` element. The loop is written as a method
  and proved against the function `ProductsOf`.
- `Generator` covers `create_xml` and `generate_xml`. They are methods of the
  class `OutputDir`, whose `files` map stands for the output directory. Both
  methods are proved against the functions `AfterCreate` and `RunAll`.
- `Scenarios` holds concrete rows, suppliers and runs worked through the
  model.

Outside inputs become parameters:

- The registry is a sequence of records (`map<string, string>`).
- The reachable spreadsheets are a map from sheet id to worksheets. Each
  worksheet is a grid of cell texts.
- A sheet id missing from that map stands for the caught `gspread` `APIError`.
  Whether a spreadsheet opens is therefore fixed per sheet id for a whole
  run (see `Generator.RunAll` under "Left out").
- The files already in the output directory are the starting `files` map.
  `os.path.exists` is membership in that map.

Some behaviour of `main.py` is easy to misread:

- A price with no digit, comma or period in it (`"N/A"`) cleans to `""`, not
  `"0"`. The row therefore passes the `price == "0"` filter, and its product
  is written with an empty `<price>`.
- A missing RRP (`None`) cleans to `"0"`, so no `<rrp>` element is written.
- `clean_price` cuts at the first comma whenever there is one. A period
  before that comma is kept, so `"1.234,50"` becomes `"1.234"` rather than an
  integer. With no comma it cuts at the first period (`"99.99"` becomes
  `"99"`).
- The filter compares strings, not numbers: only a cleaned price that is
  exactly `"0"` is dropped. `"0.5"` cleans to `"0"` and is dropped, while
  `"00"` and `""` are kept.
- The product id is never checked. A row whose id column is empty or
  unmapped is written with an empty `<id/>`.
- `main.py` has no change detection and no retries: an existing file is
  skipped whatever its content, and each spreadsheet is read once.

## Model

| member | source | states |
|---|---|---|
| Text.Strip | main.py:111 | the stripped text is the cell with exactly its leading and trailing whitespace removed: what precedes it and what follows it are whitespace, and it neither starts nor ends with whitespace |
| Text.StripEmptyIff | main.py:111-112 | a cell strips to the empty string exactly when every character is whitespace, which is when the default is returned |
| Text.StripIdempotent | main.py:111 | stripping a stripped value changes nothing |
| Columns.ToUpper | main.py:109 | `upper()` on a letter gives the upper-case letter and keeps upper-case letters; dotless i and long s become `I` and `S` |
| Columns.ColumnIndex | main.py:108-109 | a column letter gives an index exactly when it is one alphabetic character whose upper case is `A`-`Z`; the index is below 26 and names the upper-cased letter |
| Columns.ColumnIndexOfLetter | main.py:109 | `A` to `Z` map to 0 to 25 and back, and the lower-case letter maps to the same index |
| Columns.ColumnIndexFoldingLetters | main.py:108-109 | dotless i (U+0131) names column `I` (index 8) and long s (U+017F) names column `S` (index 18) |
| Columns.SafeGetValue | main.py:106-115 | no usable letter or a row too short gives the default; otherwise the result is the stripped cell, or the default when that is empty; any result other than the default is non-empty text |
| Columns.SafeGetValueCaseInsensitive | main.py:109 | a lower-case column letter reads the same cell as its upper-case form |
| Columns.SafeGetValueReadsCell | main.py:109-112 | a cell that is not blank is returned stripped whatever the default |
| Prices.KeepPriceChars | main.py:123 | `re.sub(r"[^\d,\.]", "", value)` keeps only digits, commas and periods and never lengthens the text |
| Prices.KeepPriceCharsAppend | main.py:123 | the filter works character by character: filtering a concatenation concatenates the filtered parts |
| Prices.KeepPriceCharsFixed | main.py:123 | text made only of digits, commas and periods passes the filter unchanged |
| Prices.KeepPriceCharsMembers | main.py:123 | the filtered text holds exactly the input's digits, commas and periods |
| Prices.KeepPriceCharsDropsAll | main.py:123 | text without digits, commas or periods filters to the empty string |
| Prices.TakeUntil | main.py:124 | `split(sep)[0]` is the longest prefix without the separator, and the separator follows it when it is shorter than the text |
| Prices.TakeUntilPrefix | main.py:124 | `split(sep)[0]` of a text starting with a separator-free part and the separator is that part |
| Prices.CleanPrice | main.py:119-124 | a missing or empty value cleans to `"0"`; otherwise the result is a prefix of the filtered text |
| Prices.CleanPriceCut | main.py:123-124 | the cleaned price never holds a comma; it is the filtered text up to its first comma, or up to its first period when there is no comma; without a comma it holds digits only |
| Prices.CleanPriceNothingLeft | main.py:121-124 | a non-empty price with no digit, comma or period cleans to `""`, not `"0"` |
| Prices.CleanPriceAtComma | main.py:124 | a filtered price with a comma is cut at that comma |
| Prices.CleanPriceDropsSpacesAndCurrency | main.py:119-124 | `"1 234,50 UAH"` cleans to `"1234"` |
| Prices.CleanPriceTruncates | main.py:124 | `"99.99"` cleans to `"99"` |
| Prices.CleanPriceKeepsPeriodBeforeComma | main.py:124 | `"1.234,50"` cleans to `"1.234"`: a period before the first comma is kept |
| Sheets.DataRows | main.py:155-158 | a worksheet's data rows: none when it has fewer than two rows, otherwise every row after the header (defined by its body; the lemmas below state its properties) |
| Sheets.Flatten | main.py:151-158 | the data rows of the worksheets in worksheet order (defined by recursion; `FlattenAppend`, `FlattenEmptyIff`, `FlattenMember` and `FlattenLength` state its properties) |
| Sheets.CombineData | main.py:147-158 | the worksheet loop leaves in `combined_data` the data rows of every worksheet with two rows or more, in worksheet order |
| Sheets.FlattenAppend | main.py:151-158 | combining two runs of worksheets concatenates their data rows |
| Sheets.FlattenEmptyIff | main.py:155-162 | no data rows are combined exactly when every worksheet has fewer than two rows |
| Sheets.FlattenMember | main.py:151-158 | a row is combined exactly when it is a row other than the first of some worksheet |
| Sheets.FlattenLength | main.py:151-158 | the number of combined rows is the sum over the worksheets of their row count minus one, for those with two rows or more |
| Products.Lookup | main.py:168-172 | a lookup with a text default is the value `safe_get_value` returns |
| Products.Resolve | main.py:166-172 | the name and the SKU are either absent or non-empty, never the empty string |
| Products.ResolveDefaults | main.py:166-172 | an unmapped column gives the defaults of the row loop: no id, no name, `"true"`, `"0"`, no SKU, `"0"`, `"UAH"` |
| Products.Keep | main.py:174-175 | the filter `if not name or price == "0": continue` keeps a row exactly when its name is non-empty and its cleaned price is not the text `"0"` (a definition; `ProductFor` states it) |
| Products.ProductNode | main.py:177-186 | the `product` element built from the resolved values (a definition; `ProductNodeShape` states its layout) |
| Products.ProductNodeShape | main.py:177-186 | a kept row's product has `id`, `name`, `stock`, `price` and `currency` in that order, then `sku` exactly when the SKU is present, then `rrp` exactly when the RRP is neither empty nor `"0"` |
| Products.ProductFor | main.py:165-186 | a row yields a product exactly when its name is non-empty and its cleaned price is not `"0"`; the product is well-formed |
| Products.ProductForRow | main.py:166-186 | one pass of the row loop builds what the row yields |
| Products.BuildProducts | main.py:164-186 | the row loop produces one product per kept row, in row order |
| Products.ProductsOf | main.py:165-186 | the products of the rows, in row order (a definition; `BuildProducts` is proved equal to it and the `ProductsOf*` lemmas state its properties) |
| Products.ProductsOfAppend | main.py:165-186 | the products of concatenated rows are the products of each part, concatenated |
| Products.ProductsOfOne | main.py:174-186 | a single row gives one product or none, depending on the filter |
| Products.ProductsOfMember | main.py:165-186 | a product is in the document exactly when some row yields it |
| Products.ProductsOfWellFormed | main.py:174-186 | every product in the document has a name and a price other than `"0"` and the fixed child layout; there are never more products than rows |
| Generator.ReadSupplier | main.py:205-208 | a record gives a supplier exactly when it has every column the loop reads; its id, name, sheet id and all seven column letters are the record's `Post_ID`, `Supplier Name`, `Google Sheet ID` and `<field> Column` cells |
| Generator.FileName | main.py:136 | the output file name `f"{supplier_id}.xml"` (a definition; `FileNameInjective` states its property) |
| Generator.FileNameInjective | main.py:136 | two suppliers with different ids get different output file names |
| Generator.XmlFor | main.py:147-186 | no document is built exactly when every worksheet has fewer than two rows; otherwise the document holds the products of the combined rows |
| Generator.AfterCreate | main.py:135-193 | an existing file is never touched and only the supplier's own file can be written; that file appears exactly when the spreadsheet opens and has data rows, and then it holds their products |
| Generator.OutputDir.CreateXml | main.py:135-193 | the output directory after `create_xml` is the one `AfterCreate` describes |
| Generator.OutputDir.GenerateXml | main.py:203-210 | the supplier loop leaves the directory and completion flag that `RunAll` describes |
| Generator.RunAll | main.py:203-210 | the state `generate_xml` leaves: `create_xml` applied to each readable record in order, stopping at the first record that lacks a column (a definition; `GenerateXml` is proved equal to it and the `RunAll*` lemmas state its properties) |
| Generator.RunAllStops | main.py:204-209 | records after the first unreadable one are never processed |
| Generator.RunAllCompletedIff | main.py:204-209 | the run gets through the registry exactly when every record has all the columns it reads |
| Generator.RunAllKeepsExisting | main.py:138-140 | a run never overwrites or removes a file that already exists |
| Generator.RunAllWritesOnlySuppliers | main.py:204-209 | every file a run adds is the output file of a supplier in the registry |
| Generator.RunAllWritesReadySupplier | main.py:204-209 | a supplier read before the run stops, whose spreadsheet opens and has data rows, has its output file at the end of the run |
| Generator.RunAllAddedFile | main.py:135-209 | every file a run adds was written by one record that the run reached while the file did not exist yet, and it holds the products of that supplier's combined worksheet rows |
| Generator.RunAllGrows | main.py:204-209 | the files present partway through a run are still there at its end |
| Generator.RunAllIdempotent | main.py:138-140 | a second run over the same registry, with every spreadsheet opening or failing as in the first run, changes nothing |
| Generator.SecondRunPrefix | main.py:138-140 | a second run over any prefix of the registry, with every spreadsheet opening or failing as in the first run, leaves the first run's files unchanged |
| Scenarios.ReadPlainCell | main.py:109-112 | a cell that neither starts nor ends with whitespace is read as it is, through its column letter |
| Scenarios.DashIsUnmapped | main.py:108 | the column letter `-` is not alphabetic, so the default is returned |
| Scenarios.CleanPriceDigits | main.py:123-124 | a price made of digits only is kept as it is |
| Scenarios.PricedRowIsKept | main.py:165-186 | a row with a name and price `150` yields a product with stock `"true"`, currency `"UAH"` and no SKU or RRP |
| Scenarios.ZeroPricedRowIsDropped | main.py:174-175 | a row priced `0` yields no product |
| Scenarios.UnpricedRowIsKept | main.py:166-182 | a row priced `N/A` with an empty id yields a product with no id text and an empty price |
| Scenarios.OneSupplierRun | main.py:135-210 | a registry of one supplier, whose spreadsheet has a header and two rows, produces `7.xml` holding only the priced product, and the run completes |

## Left out

- The web application is not modelled. That covers the FastAPI routes, the
  templates and the static mount, and the background thread that runs
  `generate_xml`.
- The `process_status` bookkeeping (`running`, `last_update`,
  `files_created`) is not modelled. It is never read by the generation
  itself.
- Google authorisation and the `gspread` client are not modelled. The
  registry and the spreadsheets are inputs. Any error other than `APIError`
  is not caught by the source, ends the thread, and is not modelled.
- An `APIError` raised after a spreadsheet has opened, while reading a
  worksheet, is modelled like one raised on opening: no file is written. Both
  outcomes are the same.
- `time.sleep(2)` between worksheets is left out.
- The creation of the output directory is left out.
- The `print` diagnostics are left out.
- The XML serialisation is not modelled. The document is kept as a tree of
  tags and texts, not as UTF-8 bytes with an XML declaration.
- Columns.ColumnIndex: treats as alphabetic only the ASCII letters, dotless
  i (U+0131) and long s (U+017F), the characters whose `upper()` is a letter
  `A`-`Z`. Python's `isalpha` also accepts other Unicode letters. For those,
  `upper()` gives a character from U+00AA up, so `ord(upper) - 65` is 105 or
  more, or it gives several characters and `ord` raises. The model gives the
  default for all of them, where the source could read a cell at index 105 or
  beyond.
- Prices.KeepPriceChars: models `\d` as the ASCII digits. Python's `\d` also
  matches other Unicode decimal digits.
- Generator.ReadSupplier: models every registry cell as text.
  `get_all_records` turns numeric cells into numbers, and the model does not
  apply `str()` to such a number. So a `Post_ID` cell `007` reads as 7, and
  the source writes `7.xml` where the model names `007.xml`. A numeric column letter
  raises in `isalpha` and gets the default, the same outcome as any
  non-letter text.
- Generator.RunAll: whether a spreadsheet opens is fixed per sheet id for a
  whole run, because `books` is one map. In the source, `open_by_key`
  (main.py:145) and `get_all_values` (main.py:154) are called afresh for each
  record, and the `APIError` they raise includes the API's transient
  rate-limit refusal. The model cannot express two records naming the same
  sheet faring differently within one run. `RunAllIdempotent` and
  `SecondRunPrefix` assume every spreadsheet opens or fails in the second run
  as it did in the first. Under the source, a second run can add a file that
  a refused call kept the first run from writing.
- Generator.FileName: takes the supplier id as a plain file name.
  `os.path.join` treats it as a path, so `"7"` and `"./7"` name the same
  file, and an absolute id or one with `..` leads outside the output
  directory. The model keeps the files by name, and `FileNameInjective` is
  about names only.
- A missing sheet id stands for `open_by_key` raising `APIError`. Some
  `gspread` releases raise `SpreadsheetNotFound` for an unknown sheet and
  `PermissionError` for a forbidden one instead. Neither is an `APIError`, so
  with those releases the run ends there. The model assumes a release that
  raises `APIError`.
- Generator.ReadSupplier: carries the supplier name, but the model never
  uses it. The source uses it only in messages.
- Prices.CleanPrice: the `except` branch of `clean_price` is not modelled. It
  can only be reached by a non-text value, and `safe_get_value` always
  returns text or `None`.
