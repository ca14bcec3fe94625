/** Turning the items of the manual entry form into a purchase table
    (utils/csv_processor.py, `create_dataframe_from_manual_input`). Each
    item is a dictionary from column name to value; a key an item lacks
    becomes a missing value, and a column no item has makes the column
    selection fail. */
module ManualInput {
  import opened Common
  import opened Frames
  import opened Validation

  /** The columns the table is cut down to, in this order. */
  const ManualColumns: seq<string> :=
    [DateColumn, CategoryColumn, ProductColumn, AmountColumn, NecessityColumn, UsageColumn]

  /** The three outcomes: no items (`None`), a column selection that raises
      `KeyError`, or the table. */
  datatype Manual = NoItems | KeyMissing(columns: seq<string>) | Built(table: Table)

  /** `item.get(name, NaN)`. */
  function CellOf(item: map<string, Cell>, name: string): Cell
  {
    if name in item then item[name] else Missing
  }

  /** Whether some item has the key `name`, so that `pd.DataFrame(items)`
      has that column. */
  predicate AnyHas(items: seq<map<string, Cell>>, name: string)
  {
    exists k :: 0 <= k < |items| && name in items[k]
  }

  /** The selected columns no item has, in selection order. */
  function Absent(items: seq<map<string, Cell>>, names: seq<string>): (r: seq<string>)
    ensures forall c :: c in r <==> c in names && !AnyHas(items, c)
  {
    if |names| == 0 then []
    else
      var rest := Absent(items, names[1..]);
      assert forall c :: c in names <==> c == names[0] || c in names[1..];
      if AnyHas(items, names[0]) then rest else [names[0]] + rest
  }

  /** One column of the table: the item values under `name`, row by row. */
  function ColumnCells(items: seq<map<string, Cell>>, name: string): (r: seq<Cell>)
    ensures |r| == |items| && forall k :: 0 <= k < |items| ==> r[k] == CellOf(items[k], name)
  {
    seq(|items|, k requires 0 <= k < |items| => CellOf(items[k], name))
  }

  /** `create_dataframe_from_manual_input(items)`. */
  function CreateFromManualInput(items: seq<map<string, Cell>>): (r: Manual)
    ensures r.NoItems? <==> |items| == 0
    ensures r.Built? ==> r.table.columns == ManualColumns && r.table.height == |items|
  {
    if |items| == 0 then NoItems
    else
      var absent := Absent(items, ManualColumns);
      if absent != [] then KeyMissing(absent)
      else Built(Table(ManualColumns, seq(|ManualColumns|, j requires 0 <= j < |ManualColumns| => ColumnCells(items, ManualColumns[j])), |items|))
  }

  /** The six column names are different from one another. */
  lemma ManualColumnsDistinct()
    ensures forall i, j :: 0 <= i < j < |ManualColumns| ==> ManualColumns[i] != ManualColumns[j]
  {
    ColumnNamesDistinct();
  }

  /** The outcomes, each in terms of the items: None exactly for no items, a
      `KeyError` naming exactly the selected columns no item has, and
      otherwise a table with the six columns in order, one row per item,
      each cell the item's value or a missing value. */
  lemma ManualInputOutcomes(items: seq<map<string, Cell>>)
    ensures CreateFromManualInput(items) == NoItems <==> |items| == 0
    ensures CreateFromManualInput(items).KeyMissing? <==>
      |items| > 0 && exists c :: c in ManualColumns && !AnyHas(items, c)
    ensures CreateFromManualInput(items).KeyMissing? ==>
      forall c :: c in CreateFromManualInput(items).columns <==> c in ManualColumns && !AnyHas(items, c)
    ensures CreateFromManualInput(items).Built? ==>
      var t := CreateFromManualInput(items).table;
      && WellFormed(t) && t.columns == ManualColumns && t.height == |items|
      && forall j, k :: 0 <= j < |ManualColumns| && 0 <= k < |items| ==>
           Column(t, ManualColumns[j])[k] == CellOf(items[k], ManualColumns[j])
  {
    var r := CreateFromManualInput(items);
    if r.KeyMissing? {
      var c := r.columns[0];
      assert c in r.columns;
    }
    if |items| > 0 && (exists c :: c in ManualColumns && !AnyHas(items, c)) {
      var c :| c in ManualColumns && !AnyHas(items, c);
      assert c in Absent(items, ManualColumns);
    }
    if r.Built? {
      var t := r.table;
      ManualColumnsDistinct();
      forall j | 0 <= j < |ManualColumns|
        ensures IndexOf(t.columns, ManualColumns[j]) == j
      {
        IndexOfDistinct(ManualColumns, j);
      }
    }
  }

  /** In a list of distinct names, the position of the j-th is j. */
  lemma {:induction false} IndexOfDistinct(columns: seq<string>, j: int)
    requires 0 <= j < |columns|
    requires forall a, b :: 0 <= a < b < |columns| ==> columns[a] != columns[b]
    ensures IndexOf(columns, columns[j]) == j
  {
    var k := IndexOf(columns, columns[j]);
    assert k < |columns| && columns[k] == columns[j];
    assert !(k < j) && !(j < k);
  }

  /** A table built from the form is in the old layout, with its necessity
      given directly, and carries every column that layout requires, so it
      meets the column checks of `validate_csv`. */
  lemma ManualTableHasOldLayout(items: seq<map<string, Cell>>)
    requires CreateFromManualInput(items).Built?
    ensures DetectFormat(CreateFromManualInput(items).table.columns) == Some(OldFormat)
    ensures MissingOf(RequiredColumns(OldFormat), CreateFromManualInput(items).table.columns) == []
  {
    ColumnNamesDistinct();
    var columns := CreateFromManualInput(items).table.columns;
    assert columns == ManualColumns;
    assert ThinkingColumn !in columns by {
      assert forall c :: c in ManualColumns ==> c[0] != '고';
    }
    assert NecessityColumn == columns[4];
    assert forall c :: c in RequiredColumns(OldFormat) ==> c in columns by {
      assert RequiredColumns(OldFormat) == [columns[0], columns[1], columns[3], columns[4], columns[5]];
    }
  }
}
