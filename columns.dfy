/**
 * Column lookup: a spreadsheet column letter names a 0-based cell index
 * (`ord(letter.upper()) - 65`), and `safe_get_value` reads the trimmed cell
 * there, falling back to a default instead of ever raising.
 */
module Columns {
  import opened Wrappers
  import opened Text

  /** A cell row as `get_all_values` returns it: every cell is text. */
  type Row = seq<string>

  predicate IsUpperLetter(c: char) {
    'A' <= c <= 'Z'
  }

  predicate IsLowerLetter(c: char) {
    'a' <= c <= 'z'
  }

  /** The ASCII letters, on which `str.isalpha()` holds. */
  predicate IsLetter(c: char) {
    IsUpperLetter(c) || IsLowerLetter(c)
  }

  /** Dotless i and long s: alphabetic, and `str.upper()` turns them into `I` and `S`. */
  predicate IsFoldingLetter(c: char) {
    c == '\U{0131}' || c == '\U{017F}'
  }

  /**
   * The characters on which `str.isalpha()` holds and whose `str.upper()` is
   * an ASCII letter: exactly the ones that name a column `A`-`Z`.
   */
  predicate IsColumnChar(c: char) {
    IsLetter(c) || IsFoldingLetter(c)
  }

  /** `str.upper()` on one character, for the ASCII letters, dotless i and long s. */
  function ToUpper(c: char): (u: char)
    ensures IsColumnChar(c) ==> IsUpperLetter(u)
    ensures IsUpperLetter(c) || !IsColumnChar(c) ==> u == c
    ensures IsLowerLetter(c) ==> u as int - 'A' as int == c as int - 'a' as int
    ensures c == '\U{0131}' ==> u == 'I'
    ensures c == '\U{017F}' ==> u == 'S'
  {
    if IsLowerLetter(c) then (c as int - 'a' as int + 'A' as int) as char
    else if c == '\U{0131}' then 'I'
    else if c == '\U{017F}' then 'S'
    else c
  }

  /** `str.lower()` on one ASCII character. */
  function ToLower(c: char): (l: char)
    ensures IsLetter(c) ==> IsLowerLetter(l) && ToUpper(l) == ToUpper(c)
  {
    if IsUpperLetter(c) then (c as int - 'A' as int + 'a' as int) as char else c
  }

  /** The column letter of the 0-based index `k`: `A` for 0, `B` for 1, ... */
  function ColumnLetter(k: nat): (c: char)
    requires k < 26
    ensures IsUpperLetter(c)
  {
    (k + 'A' as int) as char
  }

  /**
   * The cell index a column letter names, or `None` where `safe_get_value`
   * takes its default: an empty letter (falsy), a non-alphabetic one such as
   * the registry's `"-"` sentinel, or a string of several letters, on which
   * `ord` raises and the raised error is caught.
   */
  function ColumnIndex(letter: string): (r: Option<nat>)
    ensures r.Some? <==> |letter| == 1 && IsColumnChar(letter[0])
    ensures r.Some? ==> r.value < 26 && ColumnLetter(r.value) == ToUpper(letter[0])
  {
    if |letter| == 1 && IsColumnChar(letter[0]) then Some(ToUpper(letter[0]) as int - 'A' as int)
    else None
  }

  /** Every index A-Z is named by its letter, in either case. */
  lemma ColumnIndexOfLetter(k: nat)
    requires k < 26
    ensures ColumnIndex([ColumnLetter(k)]) == Some(k)
    ensures ColumnIndex([ToLower(ColumnLetter(k))]) == Some(k)
  {
    var c := ColumnLetter(k);
    assert ToUpper(c) == c;
    assert ToUpper(ToLower(c)) == c;
  }

  /** Dotless i names column `I` and long s names column `S`, as their upper-case forms do. */
  lemma ColumnIndexFoldingLetters()
    ensures ColumnIndex(['\U{0131}']) == Some(8)
    ensures ColumnIndex(['\U{017F}']) == Some(18)
  {
    assert ColumnLetter(8) == 'I';
    assert ColumnLetter(18) == 'S';
  }

  /** `safe_get_value(row, column_letter, default_value)`. */
  function SafeGetValue(row: Row, letter: string, default: Option<string>): (r: Option<string>)
    // a letter that names no column gives the default
    ensures ColumnIndex(letter).None? ==> r == default
    // so does a column beyond the row's end
    ensures ColumnIndex(letter).Some? && ColumnIndex(letter).value >= |row| ==> r == default
    // a column inside the row gives its stripped cell, or the default when that is empty
    ensures ColumnIndex(letter).Some? && ColumnIndex(letter).value < |row| ==>
      var value := Strip(row[ColumnIndex(letter).value]);
      r == (if value == [] then default else Some(value))
    // so whatever is not the default is a non-empty text
    ensures r != default ==> Truthy(r)
  {
    match ColumnIndex(letter)
    case None => default
    case Some(k) =>
      if k < |row| then
        var value := Strip(row[k]);
        if value != [] then Some(value) else default
      else default
  }

  /** Column lookup is case-insensitive: `"b"` and `"B"` read the same cell. */
  lemma SafeGetValueCaseInsensitive(row: Row, c: char, default: Option<string>)
    ensures SafeGetValue(row, [ToLower(c)], default) == SafeGetValue(row, [ToUpper(c)], default)
  {
    if IsColumnChar(c) {
      assert ColumnIndex([ToLower(c)]) == ColumnIndex([ToUpper(c)]);
    }
  }

  /** The lookup result in the usual case: a letter `A`-`Z` and a row long enough. */
  lemma SafeGetValueReadsCell(row: Row, k: nat, default: Option<string>)
    requires k < 26 && k < |row|
    requires Strip(row[k]) != []
    ensures SafeGetValue(row, [ColumnLetter(k)], default) == Some(Strip(row[k]))
  {
    ColumnIndexOfLetter(k);
    StripEmptyIff(row[k]);
  }
}
