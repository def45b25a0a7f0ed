/**
 * Worksheet flattening in `create_xml`: the data rows of every worksheet,
 * header row dropped, concatenated in worksheet order.
 */
module Sheets {
  import opened Columns

  /** One worksheet's full grid as `get_all_values` returns it, header row first. */
  type Grid = seq<Row>

  /** What one worksheet contributes: nothing when it has fewer than 2 rows, else all rows but the header. */
  function DataRows(g: Grid): seq<Row> {
    if |g| < 2 then [] else g[1..]
  }

  /** The rows collected from `sheets`, in worksheet order and in row order within each worksheet. */
  function Flatten(sheets: seq<Grid>): seq<Row> {
    if sheets == [] then []
    else Flatten(sheets[..|sheets| - 1]) + DataRows(sheets[|sheets| - 1])
  }

  /**
   * The loop at the head of `create_xml`: `combined_data.extend(data[1:])`
   * for every worksheet with at least 2 rows.
   */
  method CombineData(sheets: seq<Grid>) returns (combined: seq<Row>)
    ensures combined == Flatten(sheets)
  {
    combined := [];
    var i := 0;
    while i < |sheets|
      invariant 0 <= i <= |sheets|
      invariant combined == Flatten(sheets[..i])
    {
      var data := sheets[i];
      assert sheets[..i + 1][..i] == sheets[..i];
      if |data| < 2 {
        i := i + 1;
        continue;
      }
      combined := combined + data[1..];
      i := i + 1;
    }
    assert sheets[..i] == sheets;
  }

  /** Flattening distributes over splitting the worksheet list. */
  lemma {:induction false} FlattenAppend(a: seq<Grid>, b: seq<Grid>)
    ensures Flatten(a + b) == Flatten(a) + Flatten(b)
    decreases |b|
  {
    if b == [] {
      assert a + b == a;
    } else {
      var n := |b| - 1;
      assert (a + b)[..|a + b| - 1] == a + b[..n];
      FlattenAppend(a, b[..n]);
    }
  }

  /** No rows at all (so no document) exactly when every worksheet has fewer than 2 rows. */
  lemma {:induction false} FlattenEmptyIff(sheets: seq<Grid>)
    ensures Flatten(sheets) == [] <==> forall k :: 0 <= k < |sheets| ==> |sheets[k]| < 2
  {
    if sheets != [] {
      var n := |sheets| - 1;
      FlattenEmptyIff(sheets[..n]);
      assert forall k :: 0 <= k < n ==> sheets[..n][k] == sheets[k];
    }
  }

  /** A row is collected exactly when it is a non-header row of some worksheet. */
  lemma {:induction false} FlattenMember(sheets: seq<Grid>, row: Row)
    ensures row in Flatten(sheets) <==>
      exists k, j :: 0 <= k < |sheets| && 1 <= j < |sheets[k]| && sheets[k][j] == row
  {
    if sheets != [] {
      var n := |sheets| - 1;
      FlattenMember(sheets[..n], row);
      if row in Flatten(sheets) {
        if row in DataRows(sheets[n]) {
          var j' :| 0 <= j' < |sheets[n]| - 1 && sheets[n][1..][j'] == row;
          assert sheets[n][j' + 1] == row;
        } else {
          var k, j :| 0 <= k < n && 1 <= j < |sheets[..n][k]| && sheets[..n][k][j] == row;
          assert sheets[k][j] == row;
        }
      } else {
        forall k, j | 0 <= k < |sheets| && 1 <= j < |sheets[k]|
          ensures sheets[k][j] != row
        {
          if k == n {
            assert sheets[n][j] == DataRows(sheets[n])[j - 1];
          } else {
            assert sheets[..n][k] == sheets[k];
          }
        }
      }
    }
  }

  /** The collected row count is the sum of the worksheets' data-row counts. */
  function DataRowCount(sheets: seq<Grid>): nat {
    if sheets == [] then 0
    else DataRowCount(sheets[..|sheets| - 1]) + (if |sheets[|sheets| - 1]| < 2 then 0 else |sheets[|sheets| - 1]| - 1)
  }

  lemma {:induction false} FlattenLength(sheets: seq<Grid>)
    ensures |Flatten(sheets)| == DataRowCount(sheets)
  {
    if sheets != [] {
      FlattenLength(sheets[..|sheets| - 1]);
    }
  }
}
