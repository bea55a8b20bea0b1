/** The already-parsed case table: one row per county-level unit, its three location
    fields, and its cells by column position (the date columns start at a fixed offset). */
module Table {

  datatype Row = Row(admin2: string, provinceState: string, countryRegion: string, cells: seq<int>)

  /** The location columns the selector compares against. */
  datatype Column = Admin2 | ProvinceState | CountryRegion

  function Field(row: Row, col: Column): string
  {
    match col
    case Admin2 => row.admin2
    case ProvinceState => row.provinceState
    case CountryRegion => row.countryRegion
  }

  /** A data frame is rectangular: every row has the same number of cells. */
  predicate Rectangular(table: seq<Row>)
  {
    forall i, j :: 0 <= i < |table| && 0 <= j < |table| ==> |table[i].cells| == |table[j].cells|
  }

  /** Every row has a cell in column j. */
  predicate HasColumn(table: seq<Row>, j: nat)
  {
    forall i :: 0 <= i < |table| ==> j < |table[i].cells|
  }

  /** `np.where(df[col] == name)[0]`: the positions of the matching rows, in ascending order. */
  function Where(table: seq<Row>, col: Column, name: string): (idx: seq<nat>)
    ensures forall k :: 0 <= k < |idx| ==> idx[k] < |table|
    decreases |table|
  {
    if table == [] then []
    else
      var last := |table| - 1;
      Where(table[..last], col, name) + (if Field(table[last], col) == name then [last] else [])
  }

  /** `Where` lists only matching rows, in strictly ascending order. */
  lemma {:induction false} WhereSorted(table: seq<Row>, col: Column, name: string)
    ensures forall k :: 0 <= k < |Where(table, col, name)| ==> Field(table[Where(table, col, name)[k]], col) == name
    ensures forall m, n :: 0 <= m < n < |Where(table, col, name)| ==> Where(table, col, name)[m] < Where(table, col, name)[n]
    decreases |table|
  {
    if table != [] {
      var last := |table| - 1;
      var front := Where(table[..last], col, name);
      WhereSorted(table[..last], col, name);
      var idx := Where(table, col, name);
      assert idx[..|front|] == front;
      assert forall k :: 0 <= k < |front| ==> table[..last][front[k]] == table[front[k]];
    }
  }

  /** Every matching row is listed by `Where`. */
  lemma {:induction false} WhereComplete(table: seq<Row>, col: Column, name: string)
    ensures forall i :: 0 <= i < |table| && Field(table[i], col) == name ==> i in Where(table, col, name)
    decreases |table|
  {
    if table != [] {
      var last := |table| - 1;
      var front := Where(table[..last], col, name);
      WhereComplete(table[..last], col, name);
      var idx := Where(table, col, name);
      assert idx[..|front|] == front;
      forall i | 0 <= i < last && Field(table[i], col) == name ensures i in idx {
        assert Field(table[..last][i], col) == name;
        assert i in front;
      }
    }
  }

  /** Row i is the first row whose field col equals name. */
  predicate FirstMatch(table: seq<Row>, col: Column, name: string, i: nat)
  {
    i < |table| && Field(table[i], col) == name &&
    forall h :: 0 <= h < i ==> Field(table[h], col) != name
  }

  /** The head of `Where` is the first matching row, and it is empty exactly when no row matches. */
  lemma WhereHead(table: seq<Row>, col: Column, name: string)
    ensures var idx := Where(table, col, name);
      (idx == [] <==> forall i :: 0 <= i < |table| ==> Field(table[i], col) != name) &&
      (idx != [] ==> FirstMatch(table, col, name, idx[0]))
  {
    WhereSorted(table, col, name);
    WhereComplete(table, col, name);
    var idx := Where(table, col, name);
    assert forall m, n :: 0 <= m < n < |idx| ==> idx[m] < idx[n];
    assert forall i :: 0 <= i < |table| && Field(table[i], col) == name ==> i in idx;
    if idx == [] {
      forall i | 0 <= i < |table| ensures Field(table[i], col) != name {
        assert i !in idx;
      }
    } else {
      forall m | 0 <= m < |idx| ensures idx[0] <= idx[m] {
      }
      forall h | 0 <= h < idx[0] ensures Field(table[h], col) != name {
        assert h !in idx;
      }
    }
  }

  /** The sum of column j over the rows whose field col equals name. */
  function ColumnTotal(table: seq<Row>, col: Column, name: string, j: nat): int
    requires HasColumn(table, j)
    decreases |table|
  {
    if table == [] then 0
    else
      var last := |table| - 1;
      ColumnTotal(table[..last], col, name, j) + (if Field(table[last], col) == name then table[last].cells[j] else 0)
  }

  /** Every position in idx is a row of the table. */
  predicate InRange(table: seq<Row>, idx: seq<nat>)
  {
    forall m :: 0 <= m < |idx| ==> idx[m] < |table|
  }

  /** The sum of column j over the rows at the positions idx. */
  function IndexTotal(table: seq<Row>, idx: seq<nat>, j: nat): int
    requires InRange(table, idx) && HasColumn(table, j)
    decreases |idx|
  {
    if idx == [] then 0 else IndexTotal(table, idx[..|idx| - 1], j) + table[idx[|idx| - 1]].cells[j]
  }

  /** Positions below m see the same rows in the table and in its first m rows. */
  lemma {:induction false} IndexTotalPrefix(table: seq<Row>, idx: seq<nat>, j: nat, m: nat)
    requires m <= |table| && HasColumn(table, j)
    requires forall k :: 0 <= k < |idx| ==> idx[k] < m
    ensures InRange(table, idx) && InRange(table[..m], idx) && HasColumn(table[..m], j)
    ensures IndexTotal(table, idx, j) == IndexTotal(table[..m], idx, j)
    decreases |idx|
  {
    if idx != [] {
      IndexTotalPrefix(table, idx[..|idx| - 1], j, m);
    }
  }

  /** One more position adds that row's cell. */
  lemma IndexTotalAppend(table: seq<Row>, idx: seq<nat>, m: nat, j: nat)
    requires InRange(table, idx) && m < |table| && HasColumn(table, j)
    ensures InRange(table, idx + [m])
    ensures IndexTotal(table, idx + [m], j) == IndexTotal(table, idx, j) + table[m].cells[j]
  {
    assert (idx + [m])[..|idx|] == idx;
  }

  /** In a rectangular table every column of the first row is a column of every row. */
  lemma RectangularColumn(table: seq<Row>, j: nat)
    requires Rectangular(table) && table != [] && j < |table[0].cells|
    ensures HasColumn(table, j)
  {
  }

  /** Adding up the rows `Where` lists is the same as adding up column j over every matching row. */
  lemma {:induction false} WhereTotal(table: seq<Row>, col: Column, name: string, j: nat)
    requires HasColumn(table, j)
    ensures InRange(table, Where(table, col, name))
    ensures IndexTotal(table, Where(table, col, name), j) == ColumnTotal(table, col, name, j)
    decreases |table|
  {
    if table != [] {
      var last := |table| - 1;
      var prefix := table[..last];
      var front := Where(prefix, col, name);
      WhereTotal(prefix, col, name, j);
      IndexTotalPrefix(table, front, j, last);
      var matched := Field(table[last], col) == name;
      var idx := front + if matched then [last] else [];
      assert Where(table, col, name) == idx;
      var added := if matched then table[last].cells[j] else 0;
      assert ColumnTotal(table, col, name, j) == ColumnTotal(prefix, col, name, j) + added;
      if matched {
        IndexTotalAppend(table, front, last, j);
      } else {
        assert idx == front;
      }
      assert IndexTotal(table, idx, j) == IndexTotal(table, front, j) + added;
    }
  }
}
