/** The location selector of `plot_data`: one county's series, or the elementwise total
    of every row of a state or of the country, read from a fixed date column on. */
module Location {
  import opened Wrappers
  import opened Vectors
  import opened Table

  /** The three location names the selector recognises. */
  const BoulderCounty := "Boulder County"
  const Colorado := "Colorado"
  const Usa := "USA"

  predicate Known(location: string)
  {
    location == BoulderCounty || location == Colorado || location == Usa
  }

  /** The date columns of a row, `values[start:]`. */
  function Series(row: Row, start: nat): seq<int>
  {
    SliceFrom(row.cells, start)
  }

  /** For every date column from `start` on, the total over the rows whose field `col` is `name`;
      an IndexError when no row matches. */
  function MatchTotal(table: seq<Row>, col: Column, name: string, start: nat): (r: Result<seq<int>>)
    requires Rectangular(table)
    ensures r.Ok? <==> exists i :: 0 <= i < |table| && Field(table[i], col) == name
    ensures r.Err? ==> r.error == IndexError
    ensures r.Ok? ==> (|r.value| == |Series(table[0], start)| &&
      (forall k :: 0 <= k < |r.value| ==> r.value[k] == ColumnTotal(table, col, name, start + k)))
  {
    WhereHead(table, col, name);
    if Where(table, col, name) == [] then Err(IndexError)
    else
      var w := |Series(table[0], start)|;
      Ok(seq(w, k requires 0 <= k < w => ColumnTotal(table, col, name, start + k)))
  }

  /** The series of the first row whose Admin2 is "Boulder"; an IndexError when there is none. */
  function CountySeries(table: seq<Row>, start: nat): (r: Result<seq<int>>)
    ensures r.Ok? <==> exists i :: 0 <= i < |table| && table[i].admin2 == "Boulder"
    ensures r.Err? ==> r.error == IndexError
    ensures forall i: nat :: FirstMatch(table, Admin2, "Boulder", i) ==> r == Ok(Series(table[i], start))
  {
    WhereHead(table, Admin2, "Boulder");
    var idx := Where(table, Admin2, "Boulder");
    if idx == [] then Err(IndexError) else Ok(Series(table[idx[0]], start))
  }

  /** The cumulative series `plot_data` selects for a location. */
  function Select(table: seq<Row>, location: string, start: nat): (r: Result<seq<int>>)
    requires Rectangular(table)
    ensures r.Err? && r.error == ValueError <==> !Known(location)
  {
    if location == BoulderCounty then CountySeries(table, start)
    else if location == Colorado then MatchTotal(table, ProvinceState, "Colorado", start)
    else if location == Usa then MatchTotal(table, CountryRegion, "US", start)
    else Err(ValueError)
  }

  /** y holds, for each date column from `start` on, the total over the rows at the positions idx. */
  ghost predicate SumOfRows(table: seq<Row>, idx: seq<nat>, start: nat, y: seq<int>)
    requires Rectangular(table) && table != []
  {
    InRange(table, idx) && |y| == |Series(table[0], start)| &&
    forall k :: 0 <= k < |y| ==> (RectangularColumn(table, start + k); y[k] == IndexTotal(table, idx, start + k))
  }

  /** Adding the next row's series keeps y the total of the rows processed so far. */
  lemma AddRowStep(table: seq<Row>, idx: seq<nat>, n: nat, start: nat, y: seq<int>)
    requires Rectangular(table) && table != []
    requires n < |idx| && idx[n] < |table|
    requires SumOfRows(table, idx[..n], start, y)
    ensures |y| == |Series(table[idx[n]], start)|
    ensures SumOfRows(table, idx[..n + 1], start, Add(y, Series(table[idx[n]], start)))
  {
    var row := Series(table[idx[n]], start);
    assert |table[idx[n]].cells| == |table[0].cells|;
    assert idx[..n + 1] == idx[..n] + [idx[n]];
    forall k | 0 <= k < |y|
      ensures y[k] + row[k] == IndexTotal(table, idx[..n + 1], start + k)
    {
      RectangularColumn(table, start + k);
      assert y[k] == IndexTotal(table, idx[..n], start + k);
      IndexTotalAppend(table, idx[..n], idx[n], start + k);
    }
  }

  /** Starts from a zero vector as long as the first matching row's series and adds each
      matching row's series onto it. */
  method SumMatchingRows(table: seq<Row>, col: Column, name: string, start: nat) returns (r: Result<seq<int>>)
    requires Rectangular(table)
    ensures r.Ok? <==> exists i :: 0 <= i < |table| && Field(table[i], col) == name
    ensures r.Err? ==> r.error == IndexError
    ensures r.Ok? ==> (|r.value| == |Series(table[0], start)| &&
      (forall k :: 0 <= k < |r.value| ==> r.value[k] == ColumnTotal(table, col, name, start + k)))
  {
    var idx := Where(table, col, name);
    WhereHead(table, col, name);
    if |idx| == 0 {
      return Err(IndexError);
    }
    var y := Zeros(|Series(table[idx[0]], start)|);
    assert |table[idx[0]].cells| == |table[0].cells|;
    assert SumOfRows(table, idx[..0], start, y);
    for n := 0 to |idx|
      invariant SumOfRows(table, idx[..n], start, y)
    {
      AddRowStep(table, idx, n, start, y);
      y := Add(y, Series(table[idx[n]], start));
    }
    assert idx[..|idx|] == idx;
    assert |y| == |Series(table[0], start)|;
    forall k | 0 <= k < |y| ensures y[k] == ColumnTotal(table, col, name, start + k) {
      RectangularColumn(table, start + k);
      assert y[k] == IndexTotal(table, idx, start + k);
      WhereTotal(table, col, name, start + k);
    }
    r := Ok(y);
  }

  /** A result described column by column is the one MatchTotal gives. */
  lemma MatchTotalAgrees(table: seq<Row>, col: Column, name: string, start: nat, r: Result<seq<int>>)
    requires Rectangular(table)
    requires r.Ok? <==> exists i :: 0 <= i < |table| && Field(table[i], col) == name
    requires r.Err? ==> r.error == IndexError
    requires r.Ok? ==> (|r.value| == |Series(table[0], start)| &&
      (forall k :: 0 <= k < |r.value| ==> r.value[k] == ColumnTotal(table, col, name, start + k)))
    ensures r == MatchTotal(table, col, name, start)
  {
    WhereHead(table, col, name);
    if r.Ok? {
      assert r.value == MatchTotal(table, col, name, start).value;
    }
  }

  /** The `if`/`elif` chain of `plot_data` that picks the series to plot. */
  method LocationSeries(table: seq<Row>, location: string, start: nat) returns (r: Result<seq<int>>)
    requires Rectangular(table)
    ensures r == Select(table, location, start)
  {
    if location == BoulderCounty {
      r := CountySeries(table, start);
    } else if location == Colorado {
      r := SumMatchingRows(table, ProvinceState, "Colorado", start);
      MatchTotalAgrees(table, ProvinceState, "Colorado", start, r);
    } else if location == Usa {
      r := SumMatchingRows(table, CountryRegion, "US", start);
      MatchTotalAgrees(table, CountryRegion, "US", start, r);
    } else {
      r := Err(ValueError);
    }
  }

  /** The county is the first row whose Admin2 is "Boulder"; with no such row the lookup fails. */
  lemma CountyIsFirstMatch(table: seq<Row>, start: nat)
    requires Rectangular(table)
    ensures var r := Select(table, BoulderCounty, start);
      (r.Ok? <==> exists i :: 0 <= i < |table| && table[i].admin2 == "Boulder") &&
      (r.Err? ==> r.error == IndexError) &&
      forall i: nat :: FirstMatch(table, Admin2, "Boulder", i) ==> r == Ok(Series(table[i], start))
  {
    assert Select(table, BoulderCounty, start) == CountySeries(table, start);
  }

  /** A state or the country is the elementwise total of all of its rows; with no row it fails. */
  lemma RegionIsColumnTotal(table: seq<Row>, location: string, start: nat)
    requires Rectangular(table)
    requires location == Colorado || location == Usa
    ensures var col := if location == Colorado then ProvinceState else CountryRegion;
      var name := if location == Colorado then "Colorado" else "US";
      var r := Select(table, location, start);
      (r.Ok? <==> exists i :: 0 <= i < |table| && Field(table[i], col) == name) &&
      (r.Err? ==> r.error == IndexError) &&
      (r.Ok? ==> (|r.value| == |Series(table[0], start)| &&
        (forall k :: 0 <= k < |r.value| ==> r.value[k] == ColumnTotal(table, col, name, start + k))))
  {
    if location == Colorado {
      WhereHead(table, ProvinceState, "Colorado");
    } else {
      WhereHead(table, CountryRegion, "US");
    }
  }

  /** Two Colorado counties with counts [10, 12, 15] and [5, 5, 8] add up to [15, 17, 23],
      whose daily changes are 2 and 6. */
  lemma TwoCountyExample()
    ensures var table := [Row("Boulder", "Colorado", "US", [10, 12, 15]),
                          Row("Denver", "Colorado", "US", [5, 5, 8])];
      Select(table, Colorado, 0) == Ok([15, 17, 23]) &&
      Diff(ToReals([15, 17, 23])) == [2.0, 6.0]
  {
    var table := [Row("Boulder", "Colorado", "US", [10, 12, 15]),
                  Row("Denver", "Colorado", "US", [5, 5, 8])];
    assert table[..1][..0] == [];
    assert Where(table, ProvinceState, "Colorado") == [0, 1];
    var y := Select(table, Colorado, 0).value;
    assert ColumnTotal(table[..1], ProvinceState, "Colorado", 0) == 10;
    assert ColumnTotal(table[..1], ProvinceState, "Colorado", 1) == 12;
    assert ColumnTotal(table[..1], ProvinceState, "Colorado", 2) == 15;
    assert y[0] == 15 && y[1] == 17 && y[2] == 23;
    assert y == [15, 17, 23];
    var d := Diff(ToReals(y));
    assert d[0] == 2.0 && d[1] == 6.0;
  }
}
