/**
 * Price cleaning (`clean_price`): keep only digits, commas and periods, then
 * cut at the first comma, or, when there is none, at the first period.
 */
module Prices {
  import opened Wrappers
  import opened Text

  /** The characters `re.sub(r"[^\d,\.]", "", value)` keeps. */
  predicate IsPriceChar(c: char) {
    IsDigit(c) || c == ',' || c == '.'
  }

  /** `re.sub(r"[^\d,\.]", "", s)`: `s` without every character that is not a price character. */
  function KeepPriceChars(s: string): (r: string)
    ensures |r| <= |s|
    ensures forall i :: 0 <= i < |r| ==> IsPriceChar(r[i])
  {
    if s == [] then []
    else (if IsPriceChar(s[0]) then [s[0]] else []) + KeepPriceChars(s[1..])
  }

  /** The filter works piece by piece: filtering a concatenation concatenates the filtered parts. */
  lemma {:induction false} KeepPriceCharsAppend(a: string, b: string)
    ensures KeepPriceChars(a + b) == KeepPriceChars(a) + KeepPriceChars(b)
  {
    if a != [] {
      assert (a + b)[1..] == a[1..] + b;
      KeepPriceCharsAppend(a[1..], b);
    } else {
      assert a + b == b;
    }
  }

  /** A string of price characters only passes the filter unchanged; so the filter is idempotent. */
  lemma {:induction false} KeepPriceCharsFixed(s: string)
    requires forall i :: 0 <= i < |s| ==> IsPriceChar(s[i])
    ensures KeepPriceChars(s) == s
  {
    if s != [] {
      KeepPriceCharsFixed(s[1..]);
    }
  }

  /** Every character the filter keeps comes from the input, and none it drops is a price character. */
  lemma {:induction false} KeepPriceCharsMembers(s: string, c: char)
    ensures c in KeepPriceChars(s) <==> c in s && IsPriceChar(c)
  {
    if s != [] {
      KeepPriceCharsMembers(s[1..], c);
      assert s == [s[0]] + s[1..];
    }
  }

  /** `s.split(sep)[0]`: the part of `s` before the first `sep`, or all of `s`. */
  function TakeUntil(s: string, sep: char): (r: string)
    ensures r <= s
    ensures sep !in r
    ensures |r| < |s| ==> s[|r|] == sep
  {
    if s == [] || s[0] == sep then [] else [s[0]] + TakeUntil(s[1..], sep)
  }

  /** `clean_price(value)`; `None` stands for Python's `None`. */
  function CleanPrice(value: Option<string>): (r: string)
    // falsy input (None or "") gives "0"
    ensures !Truthy(value) ==> r == "0"
    // otherwise the result is a prefix of the filtered input
    ensures Truthy(value) ==> r <= KeepPriceChars(value.value)
  {
    if !Truthy(value) then "0"
    else
      var f := KeepPriceChars(value.value);
      if ',' in f then TakeUntil(f, ',')
      else if '.' in f then TakeUntil(f, '.')
      else f
  }

  /**
   * Where the cut falls: just before the first comma of the filtered input, or
   * before its first period when it has no comma. So no comma survives, and
   * without a comma only digits remain.
   */
  lemma CleanPriceCut(value: Option<string>)
    requires Truthy(value)
    ensures var f, r := KeepPriceChars(value.value), CleanPrice(value);
      && ',' !in r
      && (',' in f ==> f[|r|] == ',')
      && (',' !in f ==> '.' !in r && (|r| < |f| ==> f[|r|] == '.'))
      && (',' !in f ==> forall i :: 0 <= i < |r| ==> IsDigit(r[i]))
  {
    var f, r := KeepPriceChars(value.value), CleanPrice(value);
    if ',' !in f {
      forall i | 0 <= i < |r| ensures IsDigit(r[i]) {
        assert r[i] == f[i];
      }
    }
  }

  /**
   * An input of which nothing survives the filter (such as `"N/A"`) cleans to
   * the empty string, not to `"0"`.
   */
  lemma CleanPriceNothingLeft(s: string)
    requires s != []
    requires forall i :: 0 <= i < |s| ==> !IsPriceChar(s[i])
    ensures CleanPrice(Some(s)) == ""
  {
    KeepPriceCharsDropsAll(s);
  }

  /** A string without price characters filters to nothing. */
  lemma KeepPriceCharsDropsAll(s: string)
    requires forall i :: 0 <= i < |s| ==> !IsPriceChar(s[i])
    ensures KeepPriceChars(s) == []
  {
    if KeepPriceChars(s) != [] {
      KeepPriceCharsMembers(s, KeepPriceChars(s)[0]);
    }
  }

  /** A worked case of the price format: spaces and currency dropped, the fraction cut at the comma. */
  lemma CleanPriceDropsSpacesAndCurrency()
    ensures CleanPrice(Some("1 " + "234,50" + " UAH")) == "1234"
  {
    var a, b, c := "1 ", "234,50", " UAH";
    var f := "1234,50";
    assert KeepPriceChars(a + b + c) == f by {
      assert KeepPriceChars(a) == "1" by {
        KeepPriceCharsAppend("1", " ");
        KeepPriceCharsFixed("1");
        KeepPriceCharsDropsAll(" ");
        assert a == "1" + " ";
      }
      KeepPriceCharsFixed(b);
      KeepPriceCharsDropsAll(c);
      KeepPriceCharsAppend(a + b, c);
      KeepPriceCharsAppend(a, b);
    }
    assert TakeUntil(f, ',') == "1234" by {
      TakeUntilPrefix(f, ',', 4);
      assert f[..4] == "1234";
    }
    CleanPriceAtComma(a + b + c, f, 4);
  }

  /** Where the filtered input has a comma at `k`, the price is what precedes it. */
  lemma CleanPriceAtComma(v: string, f: string, k: nat)
    requires v != [] && KeepPriceChars(v) == f
    requires k < |f| && f[k] == ','
    ensures CleanPrice(Some(v)) == TakeUntil(f, ',')
  {
  }

  /** A worked case: without a comma the fraction is cut at the period; the result is never rounded. */
  lemma CleanPriceTruncates()
    ensures CleanPrice(Some("99.99")) == "99"
  {
    KeepPriceCharsFixed("99.99");
    TakeUntilPrefix("99.99", '.', 2);
    assert "99.99"[..2] == "99";
  }

  /**
   * With a comma present the cut is at the comma alone, so a period before it
   * (a thousands separator) stays in the result.
   */
  lemma CleanPriceKeepsPeriodBeforeComma()
    ensures CleanPrice(Some("1.234" + ",50")) == "1.234"
  {
    var f := "1.234" + ",50";
    KeepPriceCharsFixed(f);
    assert TakeUntil(f, ',') == "1.234" by {
      TakeUntilPrefix(f, ',', 5);
      assert f[..5] == "1.234";
    }
    CleanPriceAtComma(f, f, 5);
  }

  /** `TakeUntil` stops exactly at the first separator. */
  lemma TakeUntilPrefix(s: string, sep: char, k: nat)
    requires k < |s| && s[k] == sep
    requires sep !in s[..k]
    ensures TakeUntil(s, sep) == s[..k]
  {
    var r := TakeUntil(s, sep);
    assert s[..k][..|r|] == r;
  }
}
