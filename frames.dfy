/** A pandas DataFrame as the ingestion code sees it: named columns of cells,
    and the one piece of header rewriting the CSV processor does before
    anything else, turning Japanese column names into Korean ones
    (utils/csv_processor.py, `convert_ja_columns`). */
module Frames {
  import opened Common

  /** One cell as pandas holds it after `read_csv`: an integer, a float, a
      boolean (a `True`/`False` column), a text, or a missing value (NaN). */
  datatype Cell = Int(i: int) | Real(x: real) | Bool(b: bool) | Text(s: string) | Missing

  /** The numeric value of a cell, None for text and for NaN. A boolean
      counts as 1 or 0, as numpy compares it. */
  function NumberOf(c: Cell): Option<real>
  {
    match c
    case Int(i) => Some(i as real)
    case Real(x) => Some(x)
    case Bool(b) => Some(if b then 1.0 else 0.0)
    case Text(_) => None
    case Missing => None
  }

  /** A table value: the column names in order, one sequence of cells per
      column, and the number of rows. Row k carries the index label k, as a
      frame fresh from `read_csv` does. */
  datatype Table = Table(columns: seq<string>, data: seq<seq<Cell>>, height: nat)

  ghost predicate WellFormed(t: Table)
  {
    |t.data| == |t.columns| && forall k :: 0 <= k < |t.data| ==> |t.data[k]| == t.height
  }

  /** Position of the first column called `name`. */
  function IndexOf(columns: seq<string>, name: string): (k: nat)
    ensures k <= |columns|
    ensures k < |columns| <==> name in columns
    ensures k < |columns| ==> columns[k] == name
    ensures forall j :: 0 <= j < k ==> columns[j] != name
  {
    if |columns| == 0 then 0
    else if columns[0] == name then 0
    else 1 + IndexOf(columns[1..], name)
  }

  /** `df[name]` for a column that is present. */
  function Column(t: Table, name: string): (cells: seq<Cell>)
    requires WellFormed(t) && name in t.columns
    ensures |cells| == t.height
  {
    t.data[IndexOf(t.columns, name)]
  }

  /** `df[name] = cells`: replaces the column in place, or appends a new
      column at the right. */
  function WithColumn(t: Table, name: string, cells: seq<Cell>): (r: Table)
    requires WellFormed(t) && |cells| == t.height
    ensures WellFormed(r) && r.height == t.height
    ensures name in r.columns && Column(r, name) == cells
    ensures forall c :: c in t.columns ==> c in r.columns
    ensures forall c :: c in r.columns ==> c in t.columns || c == name
    ensures forall c :: c in t.columns && c != name ==> Column(r, c) == Column(t, c)
  {
    var k := IndexOf(t.columns, name);
    if k < |t.columns| then
      var r := Table(t.columns, t.data[k := cells], t.height);
      assert forall c :: c in t.columns && c != name ==> IndexOf(r.columns, c) != k;
      r
    else
      var r := Table(t.columns + [name], t.data + [cells], t.height);
      assert forall c :: c in t.columns ==> IndexOf(r.columns, c) == IndexOf(t.columns, c) by {
        forall c | c in t.columns ensures IndexOf(r.columns, c) == IndexOf(t.columns, c) {
          IndexOfPrefix(t.columns, [name], c);
        }
      }
      r
  }

  lemma {:induction false} IndexOfPrefix(columns: seq<string>, more: seq<string>, name: string)
    requires name in columns
    ensures IndexOf(columns + more, name) == IndexOf(columns, name)
  {
    if columns[0] != name {
      assert (columns + more)[1..] == columns[1..] + more;
      IndexOfPrefix(columns[1..], more, name);
    }
  }

  /** `df.drop(columns=[name])`: removes every column called `name`. */
  function DropColumn(t: Table, name: string): (r: Table)
    requires WellFormed(t)
    ensures WellFormed(r) && r.height == t.height
    ensures forall c :: c in r.columns <==> c in t.columns && c != name
    decreases |t.columns|
  {
    if |t.columns| == 0 then t
    else
      var rest := DropColumn(Table(t.columns[1..], t.data[1..], t.height), name);
      assert forall c :: c in t.columns <==> c == t.columns[0] || c in t.columns[1..];
      if t.columns[0] == name then rest
      else Table([t.columns[0]] + rest.columns, [t.data[0]] + rest.data, t.height)
  }

  /** Dropping a column leaves every other column as it was. */
  lemma {:induction false} DropColumnKeeps(t: Table, name: string, c: string)
    requires WellFormed(t) && c in t.columns && c != name
    ensures Column(DropColumn(t, name), c) == Column(t, c)
    decreases |t.columns|
  {
    var tail := Table(t.columns[1..], t.data[1..], t.height);
    if t.columns[0] != c {
      assert c in tail.columns;
      DropColumnKeeps(tail, name, c);
      assert Column(t, c) == Column(tail, c);
      if t.columns[0] != name {
        var r := DropColumn(t, name);
        assert r.columns == [t.columns[0]] + DropColumn(tail, name).columns;
        assert IndexOf(r.columns, c) == 1 + IndexOf(DropColumn(tail, name).columns, c);
      }
    }
  }

  /** A DataFrame object. The source hands frames around by reference and
      sometimes writes a column into a frame its caller still holds, so the
      model keeps the table inside an object. */
  class Frame {
    var table: Table

    constructor (t: Table)
      ensures table == t
    {
      table := t;
    }

    /** `df[name] = cells` on this object. */
    method SetColumn(name: string, cells: seq<Cell>)
      requires WellFormed(table) && |cells| == table.height
      modifies this
      ensures table == WithColumn(old(table), name, cells)
    {
      table := WithColumn(table, name, cells);
    }

    /** `df = df.drop(columns=[name])`, seen through this object. */
    method Drop(name: string)
      requires WellFormed(table)
      modifies this
      ensures table == DropColumn(old(table), name)
    {
      table := DropColumn(table, name);
    }
  }

  // ---------------------------------------------------------------------------
  // Japanese headers

  /** The Japanese-to-Korean header map used by `convert_ja_columns`
      (`JA_TO_KO_COLUMNS` in utils/translations.py), as a lookup. */
  function KoreanFor(ja: string): Option<string>
  {
    if ja == "日付" then Some("날짜")
    else if ja == "カテゴリ" then Some("카테고리")
    else if ja == "商品名" then Some("상품명")
    else if ja == "金額" then Some("금액")
    else if ja == "検討期間" then Some("고민기간")
    else if ja == "再購入意向" then Some("재구매의향")
    else if ja == "使用頻度" then Some("사용빈도")
    else if ja == "必要度" then Some("필요도")
    else None
  }

  /** The same table read from right to left. */
  function JapaneseFor(ko: string): Option<string>
  {
    if ko == "날짜" then Some("日付")
    else if ko == "카테고리" then Some("カテゴリ")
    else if ko == "상품명" then Some("商品名")
    else if ko == "금액" then Some("金額")
    else if ko == "고민기간" then Some("検討期間")
    else if ko == "재구매의향" then Some("再購入意向")
    else if ko == "사용빈도" then Some("使用頻度")
    else if ko == "필요도" then Some("必要度")
    else None
  }

  /** The header map is one-to-one: each Korean name has exactly one Japanese
      source, and no Korean name is itself a Japanese header. */
  lemma HeaderMapInverse(ja: string, ko: string)
    ensures KoreanFor(ja) == Some(ko) <==> JapaneseFor(ko) == Some(ja)
    ensures JapaneseFor(ko).Some? ==> KoreanFor(ko).None?
  {
  }

  predicate HasJaColumn(columns: seq<string>)
  {
    exists c :: c in columns && KoreanFor(c).Some?
  }

  function RenameOne(c: string): string
  {
    match KoreanFor(c)
    case Some(ko) => ko
    case None => c
  }

  /** `df.rename(columns=rename_map)` applied to the header row. */
  function RenameJa(columns: seq<string>): (r: seq<string>)
    ensures |r| == |columns|
    ensures forall k :: 0 <= k < |columns| ==> r[k] == RenameOne(columns[k])
  {
    if |columns| == 0 then [] else [RenameOne(columns[0])] + RenameJa(columns[1..])
  }

  /** No Japanese header survives the conversion. */
  lemma RenameLeavesNoJa(columns: seq<string>)
    ensures !HasJaColumn(RenameJa(columns))
  {
    var r := RenameJa(columns);
    forall c | c in r ensures KoreanFor(c).None? {
      var k :| 0 <= k < |r| && r[k] == c;
      var col := columns[k];
      if KoreanFor(col).Some? {
        HeaderMapInverse(col, c);
      }
    }
  }

  /** A Korean header is present after the conversion exactly when it, or its
      Japanese counterpart, was present before. */
  lemma RenameFindsKorean(columns: seq<string>, ja: string, ko: string)
    requires KoreanFor(ja) == Some(ko)
    ensures ko in RenameJa(columns) <==> ko in columns || ja in columns
  {
    var r := RenameJa(columns);
    HeaderMapInverse(ja, ko);
    if ko in r {
      var k :| 0 <= k < |r| && r[k] == ko;
      if KoreanFor(columns[k]).Some? {
        HeaderMapInverse(columns[k], ko);
        assert columns[k] == ja;
      }
    }
    if ja in columns {
      var k :| 0 <= k < |columns| && columns[k] == ja;
      assert r[k] == ko;
    }
    if ko in columns {
      var k :| 0 <= k < |columns| && columns[k] == ko;
      assert r[k] == ko;
    }
  }

  /** `convert_ja_columns(df)`: a renamed copy when some Japanese header is
      present, otherwise the very same frame object. */
  method ConvertJaColumns(df: Frame) returns (out: Frame)
    ensures HasJaColumn(df.table.columns) ==> fresh(out) && out.table == df.table.(columns := RenameJa(df.table.columns))
    ensures !HasJaColumn(df.table.columns) ==> out == df
  {
    if HasJaColumn(df.table.columns) {
      out := new Frame(df.table.(columns := RenameJa(df.table.columns)));
    } else {
      out := df;
    }
  }
}
