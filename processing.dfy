/** Preparing a validated purchase table for scoring (utils/csv_processor.py,
    `process_csv_data`).

    The function works on a copy: it parses the dates, converts the numeric
    columns, derives the necessity rating from the thinking time and the
    repurchase intent when the table uses the new layout, fills missing
    product names with the category, sorts by date from newest to oldest and
    records how many whole days ago each purchase was made.

    The model returns the prepared rows, each carrying the index label it had
    in the input, or None where pandas would raise. Two cases the scoring
    code cannot use are refused as well: a category that is not text, and a
    missing (NaN) amount, rating or usage value. */
module Processing {
  import opened Common
  import opened Frames
  import opened Purchases
  import opened Coercion
  import opened Validation
  import opened Necessity
  import opened Sorting

  /** The temporary column holding the boolean intent. */
  const IntentFlagColumn: string := "재구매의향_bool"

  predicate IsNewLayout(columns: seq<string>)
  {
    ThinkingColumn in columns && IntentColumn in columns
  }

  /** The columns `process_csv_data` reads; without one of them it raises. */
  predicate HasProcessColumns(t: Table)
  {
    && DateColumn in t.columns && CategoryColumn in t.columns
    && AmountColumn in t.columns && UsageColumn in t.columns
    && (IsNewLayout(t.columns) || NecessityColumn in t.columns)
  }

  // ---------------------------------------------------------------------------
  // What each row becomes

  /** A cell through `pd.to_numeric`, read as a number; None when the
      conversion fails or the value is NaN. */
  function NumberCell(c: Cell, p: Parsers): Option<real>
  {
    match ToNumberCell(c, p)
    case None => None
    case Some(d) => NumberOf(d)
  }

  /** `calculate_necessity_from_input(int(days), intent)`: `int` truncates
      toward zero and raises on NaN. */
  function DerivedNecessity(thinking: Cell, intent: Cell, p: Parsers): Option<real>
  {
    match NumberCell(thinking, p)
    case None => None
    case Some(days) => Some(NecessityFromInput(TruncateToInt(days), IsYes(intent)) as real)
  }

  /** `상품명` after `fillna(category)`, or the category when the column is
      absent. */
  function FilledProduct(t: Table, k: nat): Cell
    requires WellFormed(t) && CategoryColumn in t.columns && k < t.height
  {
    if ProductColumn in t.columns && Column(t, ProductColumn)[k] != Missing then Column(t, ProductColumn)[k]
    else Column(t, CategoryColumn)[k]
  }

  /** A row from its parts; None when a part is missing or the category is
      not text. */
  function MakeRow(k: nat, date: Option<Timestamp>, category: Cell, amount: Option<real>,
                   necessity: Option<real>, usage: Option<real>, product: Cell, now: Timestamp): Option<Row>
  {
    if date.None? || !category.Text? || amount.None? || usage.None? || necessity.None? then None
    else Some(Row(k, Purchase(date.value, category.s, amount.value, necessity.value, usage.value),
                  product, Days(now - date.value)))
  }

  /** The necessity of input row `k`: derived in the new layout, read in the
      old one. */
  function SourceNecessity(t: Table, k: nat, p: Parsers): Option<real>
    requires WellFormed(t) && HasProcessColumns(t) && k < t.height
  {
    if IsNewLayout(t.columns) then DerivedNecessity(Column(t, ThinkingColumn)[k], Column(t, IntentColumn)[k], p)
    else NumberCell(Column(t, NecessityColumn)[k], p)
  }

  /** The prepared row for input row `k`, or None when it cannot be
      prepared. */
  function SourceRow(t: Table, k: nat, p: Parsers, now: Timestamp): Option<Row>
    requires WellFormed(t) && HasProcessColumns(t) && k < t.height
  {
    MakeRow(k, p.parseDate(Column(t, DateColumn)[k]), Column(t, CategoryColumn)[k],
            NumberCell(Column(t, AmountColumn)[k], p), SourceNecessity(t, k, p),
            NumberCell(Column(t, UsageColumn)[k], p), FilledProduct(t, k), now)
  }

  /** `f(0), ..., f(n-1)` when none of them fails. */
  function Collect<T>(n: nat, f: nat -> Option<T>): (r: Option<seq<T>>)
    ensures r.Some? ==> |r.value| == n && forall k :: 0 <= k < n ==> f(k) == Some(r.value[k])
    ensures r.None? <==> exists k :: 0 <= k < n && f(k).None?
  {
    if n == 0 then Some([])
    else
      match Collect(n - 1, f)
      case None => None
      case Some(prefix) =>
        match f(n - 1)
        case None => None
        case Some(x) => Some(prefix + [x])
  }

  lemma {:induction false} CollectSame<T>(n: nat, f: nat -> Option<T>, g: nat -> Option<T>)
    requires forall k :: 0 <= k < n ==> f(k) == g(k)
    ensures Collect(n, f) == Collect(n, g)
  {
    if n > 0 {
      CollectSame(n - 1, f, g);
    }
  }

  function SourceRowAt(t: Table, p: Parsers, now: Timestamp): nat -> Option<Row>
    requires WellFormed(t) && HasProcessColumns(t)
  {
    (k: nat) => if k < t.height then SourceRow(t, k, p, now) else None
  }

  /** Every input row prepared, in input order; None when one fails. */
  function SourceRows(t: Table, p: Parsers, now: Timestamp): Option<seq<Row>>
    requires WellFormed(t) && HasProcessColumns(t)
  {
    Collect(t.height, SourceRowAt(t, p, now))
  }

  /** One row that cannot be prepared sinks the whole table. */
  lemma RowFails(t: Table, p: Parsers, now: Timestamp, k: nat)
    requires WellFormed(t) && HasProcessColumns(t) && k < t.height
    requires SourceRow(t, k, p, now).None?
    ensures SourceRows(t, p, now).None?
  {
    assert SourceRowAt(t, p, now)(k).None?;
  }

  /** The key `sort_values('날짜', ascending=False)` sorts on. */
  function DateKey(r: Row): real
  {
    r.purchase.date as real
  }

  /** `process_csv_data(df)`. */
  function Processed(t: Table, p: Parsers, now: Timestamp): (r: Option<seq<Row>>)
    requires WellFormed(t)
    ensures r.Some? ==> HasProcessColumns(Converted(t)) && SourceRows(Converted(t), p, now).Some?
    ensures r.Some? ==> SortedDesc(r.value, DateKey)
    ensures r.Some? ==> multiset(r.value) == multiset(SourceRows(Converted(t), p, now).value)
  {
    var c := Converted(t);
    if !HasProcessColumns(c) then None
    else
      match SourceRows(c, p, now)
      case None => None
      case Some(rows) =>
        SortDescSorted(rows, DateKey);
        Some(SortDesc(rows, DateKey))
  }

  // ---------------------------------------------------------------------------
  // The prepared columns

  /** The parsed dates, held as integer cells. */
  function TimestampCells(ts: seq<Timestamp>): (r: seq<Cell>)
    ensures |r| == |ts| && forall k :: 0 <= k < |ts| ==> r[k] == Int(ts[k])
  {
    seq(|ts|, k requires 0 <= k < |ts| => Int(ts[k]))
  }

  /** `재구매의향_bool`: the intent column normalised and tested against the
      yes words. */
  function IntentFlags(cells: seq<Cell>): (r: seq<Cell>)
    ensures |r| == |cells| && forall k :: 0 <= k < |cells| ==> r[k] == Bool(IsYes(cells[k]))
  {
    seq(|cells|, k requires 0 <= k < |cells| => Bool(IsYes(cells[k])))
  }

  /** The necessity of one row of the `apply`, from the converted thinking
      time and the boolean intent; None where `int(...)` raises on NaN. */
  function DerivedCell(thinking: Cell, flag: Cell): Option<Cell>
  {
    match NumberOf(thinking)
    case None => None
    case Some(days) => Some(Int(NecessityFromInput(TruncateToInt(days), flag == Bool(true))))
  }

  function DerivedAt(thinking: seq<Cell>, flags: seq<Cell>): nat -> Option<Cell>
  {
    (k: nat) => if k < |thinking| && k < |flags| then DerivedCell(thinking[k], flags[k]) else None
  }

  /** The column `apply(..., axis=1)` builds. */
  function DerivedColumn(thinking: seq<Cell>, flags: seq<Cell>): Option<seq<Cell>>
  {
    Collect(|thinking|, DerivedAt(thinking, flags))
  }

  /** The `필요도` column after preparation: derived in the new layout,
      converted to numbers in the old one. */
  function NecessityCells(t: Table, p: Parsers): Option<seq<Cell>>
    requires WellFormed(t) && HasProcessColumns(t)
  {
    if IsNewLayout(t.columns) then
      match ToNumericColumn(Column(t, ThinkingColumn), p)
      case None => None
      case Some(days) => DerivedColumn(days, IntentFlags(Column(t, IntentColumn)))
    else ToNumericColumn(Column(t, NecessityColumn), p)
  }

  /** The `상품명` column after the fill. */
  function ProductCells(t: Table): (r: seq<Cell>)
    requires WellFormed(t) && CategoryColumn in t.columns
    ensures |r| == t.height && forall k :: 0 <= k < t.height ==> r[k] == FilledProduct(t, k)
  {
    seq(t.height, k requires 0 <= k < t.height => FilledProduct(t, k))
  }

  ghost predicate Base(f: Table, c: Table)
  {
    WellFormed(f) && WellFormed(c) && HasProcessColumns(c) && f.height == c.height
  }

  /** Column `name` is as the input had it, or absent in both. */
  ghost predicate Kept(f: Table, c: Table, name: string)
    requires Base(f, c)
  {
    && (name in f.columns <==> name in c.columns)
    && (name in c.columns ==> Column(f, name) == Column(c, name))
  }

  ghost predicate DatesDone(f: Table, c: Table, p: Parsers)
    requires Base(f, c)
  {
    && DateColumn in f.columns && ToDateColumn(Column(c, DateColumn), p).Some?
    && Column(f, DateColumn) == TimestampCells(ToDateColumn(Column(c, DateColumn), p).value)
  }

  ghost predicate NumbersDone(f: Table, c: Table, p: Parsers, name: string)
    requires Base(f, c)
  {
    name in c.columns && name in f.columns && ToNumericColumn(Column(c, name), p) == Some(Column(f, name))
  }

  ghost predicate NecessityDone(f: Table, c: Table, p: Parsers)
    requires Base(f, c)
  {
    NecessityColumn in f.columns && NecessityCells(c, p) == Some(Column(f, NecessityColumn))
  }

  /** The columns the common conversions do not write are as the input had
      them. */
  ghost predicate KeptRest(f: Table, c: Table)
    requires Base(f, c)
  {
    && Kept(f, c, CategoryColumn) && Kept(f, c, ProductColumn)
    && Kept(f, c, ThinkingColumn) && Kept(f, c, IntentColumn) && Kept(f, c, NecessityColumn)
  }

  /** Dates, amounts and usage converted; category and product untouched. */
  ghost predicate CommonDone(f: Table, c: Table, p: Parsers)
  {
    && Base(f, c) && DatesDone(f, c, p)
    && NumbersDone(f, c, p, AmountColumn) && NumbersDone(f, c, p, UsageColumn)
    && Kept(f, c, CategoryColumn) && Kept(f, c, ProductColumn)
  }

  /** `f` is the table the preparation of `c` leaves behind. */
  ghost predicate Prepared(f: Table, c: Table, p: Parsers)
  {
    && Base(f, c) && DatesDone(f, c, p)
    && NumbersDone(f, c, p, AmountColumn) && NumbersDone(f, c, p, UsageColumn)
    && NecessityDone(f, c, p)
    && CategoryColumn in f.columns && Column(f, CategoryColumn) == Column(c, CategoryColumn)
    && ProductColumn in f.columns && Column(f, ProductColumn) == ProductCells(c)
  }

  /** A date cell as the prepared table holds it. */
  function DateOf(c: Cell): Option<Timestamp>
  {
    if c.Int? then Some(c.i) else None
  }

  /** Reading row `k` back from a prepared table. */
  function RowOf(f: Table, k: nat, now: Timestamp): Option<Row>
    requires HasPreparedColumns(f) && k < f.height
  {
    MakeRow(k, DateOf(Column(f, DateColumn)[k]), Column(f, CategoryColumn)[k],
            NumberOf(Column(f, AmountColumn)[k]), NumberOf(Column(f, NecessityColumn)[k]),
            NumberOf(Column(f, UsageColumn)[k]), Column(f, ProductColumn)[k], now)
  }

  ghost predicate HasPreparedColumns(f: Table)
  {
    && WellFormed(f)
    && DateColumn in f.columns && CategoryColumn in f.columns && AmountColumn in f.columns
    && UsageColumn in f.columns && NecessityColumn in f.columns && ProductColumn in f.columns
  }

  function RowOfAt(f: Table, now: Timestamp): nat -> Option<Row>
    requires HasPreparedColumns(f)
  {
    (k: nat) => if k < f.height then RowOf(f, k, now) else None
  }

  /** The rows of a prepared table, in table order. */
  function RowsOf(f: Table, now: Timestamp): Option<seq<Row>>
    requires HasPreparedColumns(f)
  {
    Collect(f.height, RowOfAt(f, now))
  }

  lemma DateMatches(f: Table, c: Table, p: Parsers, k: nat)
    requires Base(f, c) && DatesDone(f, c, p) && k < c.height
    ensures DateOf(Column(f, DateColumn)[k]) == p.parseDate(Column(c, DateColumn)[k])
  {
    var ds := ToDateColumn(Column(c, DateColumn), p).value;
    assert Column(f, DateColumn)[k] == Int(ds[k]);
  }

  lemma NumberMatches(f: Table, c: Table, p: Parsers, name: string, k: nat)
    requires Base(f, c) && NumbersDone(f, c, p, name) && k < c.height
    ensures NumberOf(Column(f, name)[k]) == NumberCell(Column(c, name)[k], p)
  {
  }

  lemma DerivedMatches(f: Table, c: Table, p: Parsers, k: nat)
    requires Base(f, c) && NecessityDone(f, c, p) && IsNewLayout(c.columns) && k < c.height
    ensures NumberOf(Column(f, NecessityColumn)[k]) == SourceNecessity(c, k, p)
  {
    var days := ToNumericColumn(Column(c, ThinkingColumn), p).value;
    var flags := IntentFlags(Column(c, IntentColumn));
    assert DerivedAt(days, flags)(k) == Some(Column(f, NecessityColumn)[k]);
    assert NumberCell(Column(c, ThinkingColumn)[k], p) == NumberOf(days[k]);
  }

  lemma NecessityMatches(f: Table, c: Table, p: Parsers, k: nat)
    requires Base(f, c) && NecessityDone(f, c, p) && k < c.height
    ensures NumberOf(Column(f, NecessityColumn)[k]) == SourceNecessity(c, k, p)
  {
    if IsNewLayout(c.columns) {
      DerivedMatches(f, c, p, k);
    } else {
      assert NumbersDone(f, c, p, NecessityColumn);
      NumberMatches(f, c, p, NecessityColumn, k);
    }
  }

  /** Row `k` read back from the prepared table is the row the
      specification prepares from the input. */
  lemma RowMatches(f: Table, c: Table, p: Parsers, now: Timestamp, k: nat)
    requires Prepared(f, c, p) && k < c.height
    ensures HasPreparedColumns(f) && RowOf(f, k, now) == SourceRow(c, k, p, now)
  {
    DateMatches(f, c, p, k);
    NumberMatches(f, c, p, AmountColumn, k);
    NumberMatches(f, c, p, UsageColumn, k);
    NecessityMatches(f, c, p, k);
    assert Column(f, ProductColumn)[k] == FilledProduct(c, k);
  }

  /** The prepared table yields exactly the specified rows. */
  lemma PreparedRows(f: Table, c: Table, p: Parsers, now: Timestamp)
    requires Prepared(f, c, p)
    ensures HasPreparedColumns(f) && RowsOf(f, now) == SourceRows(c, p, now)
  {
    forall k | 0 <= k < f.height ensures RowOfAt(f, now)(k) == SourceRowAt(c, p, now)(k) {
      RowMatches(f, c, p, now, k);
    }
    CollectSame(f.height, RowOfAt(f, now), SourceRowAt(c, p, now));
  }

  /** A date that does not parse sinks the table. */
  lemma DatesFail(c: Table, p: Parsers, now: Timestamp)
    requires WellFormed(c) && HasProcessColumns(c)
    requires ToDateColumn(Column(c, DateColumn), p).None?
    ensures SourceRows(c, p, now).None?
  {
    var k :| 0 <= k < c.height && p.parseDate(Column(c, DateColumn)[k]).None?;
    RowFails(c, p, now, k);
  }

  /** An amount or usage value that does not convert sinks the table. */
  lemma NumbersFail(c: Table, p: Parsers, now: Timestamp, name: string)
    requires WellFormed(c) && HasProcessColumns(c)
    requires name == AmountColumn || name == UsageColumn
    requires ToNumericColumn(Column(c, name), p).None?
    ensures SourceRows(c, p, now).None?
  {
    var k :| 0 <= k < c.height && ToNumberCell(Column(c, name)[k], p).None?;
    RowFails(c, p, now, k);
  }

  /** So does a necessity that cannot be converted or derived. */
  lemma NecessityFails(c: Table, p: Parsers, now: Timestamp)
    requires WellFormed(c) && HasProcessColumns(c)
    requires NecessityCells(c, p).None?
    ensures SourceRows(c, p, now).None?
  {
    if IsNewLayout(c.columns) {
      var converted := ToNumericColumn(Column(c, ThinkingColumn), p);
      if converted.None? {
        var k :| 0 <= k < c.height && ToNumberCell(Column(c, ThinkingColumn)[k], p).None?;
        RowFails(c, p, now, k);
      } else {
        var days := converted.value;
        var flags := IntentFlags(Column(c, IntentColumn));
        var k :| 0 <= k < |days| && DerivedAt(days, flags)(k).None?;
        assert NumberCell(Column(c, ThinkingColumn)[k], p) == NumberOf(days[k]);
        RowFails(c, p, now, k);
      }
    } else {
      var k :| 0 <= k < c.height && ToNumberCell(Column(c, NecessityColumn)[k], p).None?;
      RowFails(c, p, now, k);
    }
  }

  /** The temporary column's name is none of the names the preparation
      reads or writes. */
  lemma FlagColumnIsNew()
    ensures IntentFlagColumn != DateColumn && IntentFlagColumn != CategoryColumn
    ensures IntentFlagColumn != ProductColumn && IntentFlagColumn != AmountColumn
    ensures IntentFlagColumn != ThinkingColumn && IntentFlagColumn != IntentColumn
    ensures IntentFlagColumn != UsageColumn && IntentFlagColumn != NecessityColumn
  {
    ColumnNamesDistinct();
    assert IntentFlagColumn[0] == '재' && |IntentFlagColumn| == 10 && |IntentColumn| == 5;
  }

  // ---------------------------------------------------------------------------
  // The method

  /** The `apply(..., axis=1)` loop: the necessity of each row in turn; it
      stops at the first thinking time that is NaN, where `int(...)`
      raises. */
  method DeriveNecessity(thinking: seq<Cell>, flags: seq<Cell>) returns (cells: Option<seq<Cell>>)
    ensures cells == DerivedColumn(thinking, flags)
    ensures cells.Some? ==> |cells.value| == |thinking|
    ensures cells.Some? ==> forall k :: 0 <= k < |thinking| && k < |flags| ==>
      DerivedCell(thinking[k], flags[k]) == Some(cells.value[k])
  {
    var f := DerivedAt(thinking, flags);
    var built: seq<Cell> := [];
    for i := 0 to |thinking|
      invariant Collect(i, f) == Some(built)
    {
      var next := f(i);
      if next.None? {
        assert f(i).None?;
        return None;
      }
      built := built + [next.value];
    }
    cells := Some(built);
  }

  /** Writing column `name` keeps what was established about the others. */
  lemma SetKeeps(f: Table, c: Table, p: Parsers, name: string, cells: seq<Cell>)
    requires Base(f, c) && |cells| == f.height
    ensures Base(WithColumn(f, name, cells), c)
    ensures forall x :: x != name && Kept(f, c, x) ==> Kept(WithColumn(f, name, cells), c, x)
    ensures forall x :: x != name && NumbersDone(f, c, p, x) ==> NumbersDone(WithColumn(f, name, cells), c, p, x)
    ensures name != DateColumn && DatesDone(f, c, p) ==> DatesDone(WithColumn(f, name, cells), c, p)
    ensures name != NecessityColumn && NecessityDone(f, c, p) ==> NecessityDone(WithColumn(f, name, cells), c, p)
  {
  }

  /** `df['날짜'] = pd.to_datetime(df['날짜'])`; false where it raises. */
  method ParseDatesOn(work: Frame, ghost c: Table, p: Parsers, ghost now: Timestamp) returns (ok: bool)
    requires work.table == c && WellFormed(c) && HasProcessColumns(c)
    modifies work
    ensures !ok ==> SourceRows(c, p, now).None?
    ensures ok ==> Base(work.table, c) && DatesDone(work.table, c, p) && KeptRest(work.table, c)
    ensures ok ==> Kept(work.table, c, AmountColumn) && Kept(work.table, c, UsageColumn)
  {
    ColumnNamesDistinct();
    var dates := ToDateColumn(Column(work.table, DateColumn), p);
    if dates.None? {
      DatesFail(c, p, now);
      return false;
    }
    work.SetColumn(DateColumn, TimestampCells(dates.value));
    ok := true;
  }

  /** `df[name] = pd.to_numeric(df[name])` for `금액` or `사용빈도`; false
      where it raises. */
  method ConvertNumbersOn(work: Frame, ghost c: Table, p: Parsers, ghost now: Timestamp, name: string)
    returns (ok: bool)
    requires Base(work.table, c) && Kept(work.table, c, name)
    requires name == AmountColumn || name == UsageColumn
    requires DatesDone(work.table, c, p)
    modifies work
    ensures !ok ==> SourceRows(c, p, now).None?
    ensures ok ==> Base(work.table, c) && NumbersDone(work.table, c, p, name) && DatesDone(work.table, c, p)
    ensures ok ==> KeptRest(old(work.table), c) ==> KeptRest(work.table, c)
    ensures ok ==> name == AmountColumn && Kept(old(work.table), c, UsageColumn) ==> Kept(work.table, c, UsageColumn)
    ensures ok ==> name == UsageColumn && NumbersDone(old(work.table), c, p, AmountColumn) ==>
      NumbersDone(work.table, c, p, AmountColumn)
  {
    ColumnNamesDistinct();
    var converted := ToNumericColumn(Column(work.table, name), p);
    if converted.None? {
      NumbersFail(c, p, now, name);
      return false;
    }
    SetKeeps(work.table, c, p, name, converted.value);
    work.SetColumn(name, converted.value);
    ok := true;
  }

  /** `df['날짜'] = pd.to_datetime(...)`, then `pd.to_numeric` on `금액` and
      `사용빈도`; false where pandas raises. */
  method ConvertCommonOn(work: Frame, ghost c: Table, p: Parsers, ghost now: Timestamp) returns (ok: bool)
    requires work.table == c && WellFormed(c) && HasProcessColumns(c)
    modifies work
    ensures !ok ==> SourceRows(c, p, now).None?
    ensures ok ==> CommonDone(work.table, c, p)
    ensures ok ==> Kept(work.table, c, ThinkingColumn) && Kept(work.table, c, IntentColumn)
    ensures ok ==> Kept(work.table, c, NecessityColumn)
  {
    ColumnNamesDistinct();
    ok := ParseDatesOn(work, c, p, now);
    if !ok {
      return;
    }
    ok := ConvertNumbersOn(work, c, p, now, AmountColumn);
    if !ok {
      return;
    }
    ok := ConvertNumbersOn(work, c, p, now, UsageColumn);
  }

  /** Dropping the temporary column keeps everything established. */
  lemma DropFlagKeeps(f: Table, c: Table, p: Parsers)
    requires CommonDone(f, c, p) && NecessityDone(f, c, p)
    ensures Base(DropColumn(f, IntentFlagColumn), c)
    ensures CommonDone(DropColumn(f, IntentFlagColumn), c, p) && NecessityDone(DropColumn(f, IntentFlagColumn), c, p)
  {
    ColumnNamesDistinct();
    FlagColumnIsNew();
    DropColumnKeeps(f, IntentFlagColumn, DateColumn);
    DropColumnKeeps(f, IntentFlagColumn, AmountColumn);
    DropColumnKeeps(f, IntentFlagColumn, UsageColumn);
    DropColumnKeeps(f, IntentFlagColumn, NecessityColumn);
    DropColumnKeeps(f, IntentFlagColumn, CategoryColumn);
    if ProductColumn in f.columns {
      DropColumnKeeps(f, IntentFlagColumn, ProductColumn);
    }
  }

  /** The new layout: convert `고민기간`, add the boolean intent column,
      derive `필요도` row by row and drop the temporary column again. */
  method DeriveNecessityOn(work: Frame, ghost c: Table, p: Parsers, ghost now: Timestamp) returns (ok: bool)
    requires Base(work.table, c) && CommonDone(work.table, c, p) && IsNewLayout(c.columns)
    requires Kept(work.table, c, ThinkingColumn) && Kept(work.table, c, IntentColumn)
    modifies work
    ensures !ok ==> SourceRows(c, p, now).None?
    ensures ok ==> CommonDone(work.table, c, p) && NecessityDone(work.table, c, p)
  {
    ok := AddFlagsOn(work, c, p, now);
    if !ok {
      return;
    }
    ColumnNamesDistinct();
    FlagColumnIsNew();
    var derived := DeriveNecessity(Column(work.table, ThinkingColumn), Column(work.table, IntentFlagColumn));
    assert derived == NecessityCells(c, p);
    if derived.None? {
      NecessityFails(c, p, now);
      return false;
    }
    SetKeeps(work.table, c, p, NecessityColumn, derived.value);
    work.SetColumn(NecessityColumn, derived.value);
    DropFlagKeeps(work.table, c, p);
    work.Drop(IntentFlagColumn);
  }

  /** `df['고민기간'] = pd.to_numeric(df['고민기간'])` followed by the
      temporary boolean intent column. */
  method AddFlagsOn(work: Frame, ghost c: Table, p: Parsers, ghost now: Timestamp) returns (ok: bool)
    requires Base(work.table, c) && CommonDone(work.table, c, p) && IsNewLayout(c.columns)
    requires Kept(work.table, c, ThinkingColumn) && Kept(work.table, c, IntentColumn)
    modifies work
    ensures !ok ==> SourceRows(c, p, now).None?
    ensures ok ==> CommonDone(work.table, c, p)
    ensures ok ==> ThinkingColumn in work.table.columns && IntentFlagColumn in work.table.columns
    ensures ok ==> ToNumericColumn(Column(c, ThinkingColumn), p) == Some(Column(work.table, ThinkingColumn))
    ensures ok ==> Column(work.table, IntentFlagColumn) == IntentFlags(Column(c, IntentColumn))
  {
    ColumnNamesDistinct();
    FlagColumnIsNew();
    var days := ToNumericColumn(Column(work.table, ThinkingColumn), p);
    if days.None? {
      NecessityFails(c, p, now);
      return false;
    }
    SetKeeps(work.table, c, p, ThinkingColumn, days.value);
    work.SetColumn(ThinkingColumn, days.value);
    var flags := IntentFlags(Column(work.table, IntentColumn));
    assert flags == IntentFlags(Column(c, IntentColumn));
    SetKeeps(work.table, c, p, IntentFlagColumn, flags);
    work.SetColumn(IntentFlagColumn, flags);
    ok := true;
  }

  /** The old layout: `필요도` through `pd.to_numeric`. */
  method ConvertNecessityOn(work: Frame, ghost c: Table, p: Parsers, ghost now: Timestamp) returns (ok: bool)
    requires Base(work.table, c) && CommonDone(work.table, c, p) && !IsNewLayout(c.columns)
    requires Kept(work.table, c, NecessityColumn)
    modifies work
    ensures !ok ==> SourceRows(c, p, now).None?
    ensures ok ==> CommonDone(work.table, c, p) && NecessityDone(work.table, c, p)
  {
    ColumnNamesDistinct();
    var converted := ToNumericColumn(Column(work.table, NecessityColumn), p);
    if converted.None? {
      NecessityFails(c, p, now);
      return false;
    }
    work.SetColumn(NecessityColumn, converted.value);
    ok := true;
  }

  /** The fill leaves the product column the specification describes. */
  lemma ProductFilled(f: Table, c: Table, p: Parsers)
    requires CommonDone(f, c, p)
    ensures ProductCells(f) == ProductCells(c)
  {
    forall k | 0 <= k < f.height ensures ProductCells(f)[k] == ProductCells(c)[k] {
      assert FilledProduct(f, k) == FilledProduct(c, k);
    }
  }

  /** `process_csv_data(df)`: works on a copy, so the caller's frame is left
      as it was, and returns the prepared rows newest first. */
  method ProcessCsvData(df: Frame, p: Parsers, now: Timestamp) returns (rows: Option<seq<Row>>)
    requires WellFormed(df.table)
    ensures rows == Processed(old(df.table), p, now)
    ensures df.table == old(df.table)
  {
    var copy := new Frame(df.table);
    var work := ConvertJaColumns(copy);
    ghost var c := work.table;
    assert c == Converted(df.table);
    if !HasProcessColumns(work.table) {
      return None;
    }
    var ok := ConvertCommonOn(work, c, p, now);
    if !ok {
      return None;
    }
    if ThinkingColumn in work.table.columns && IntentColumn in work.table.columns {
      ok := DeriveNecessityOn(work, c, p, now);
    } else {
      ok := ConvertNecessityOn(work, c, p, now);
    }
    if !ok {
      return None;
    }
    ColumnNamesDistinct();
    ProductFilled(work.table, c, p);
    SetKeeps(work.table, c, p, ProductColumn, ProductCells(c));
    work.SetColumn(ProductColumn, ProductCells(work.table));
    assert Prepared(work.table, c, p);
    PreparedRows(work.table, c, p, now);
    var extracted := RowsOf(work.table, now);
    if extracted.None? {
      return None;
    }
    rows := Some(SortDesc(extracted.value, DateKey));
  }

  // ---------------------------------------------------------------------------
  // What the preparation promises

  /** The input rows, each carrying its own label. */
  lemma SourceRowsLabelled(t: Table, p: Parsers, now: Timestamp)
    requires WellFormed(t) && HasProcessColumns(t) && SourceRows(t, p, now).Some?
    ensures |SourceRows(t, p, now).value| == t.height
    ensures forall k :: 0 <= k < t.height ==>
      SourceRows(t, p, now).value[k].indexLabel == k && SourceRow(t, k, p, now) == Some(SourceRows(t, p, now).value[k])
  {
    var rows := SourceRows(t, p, now).value;
    forall k | 0 <= k < t.height
      ensures rows[k].indexLabel == k && SourceRow(t, k, p, now) == Some(rows[k])
    {
      assert SourceRowAt(t, p, now)(k) == Some(rows[k]);
    }
  }

  /** The prepared rows are the input rows, one each, reordered newest
      first; each is the preparation of the input row its label names. */
  lemma ProcessedIsSortedPermutation(t: Table, p: Parsers, now: Timestamp)
    requires WellFormed(t) && Processed(t, p, now).Some?
    ensures var c := Converted(t);
      && HasProcessColumns(c) && SourceRows(c, p, now).Some?
      && multiset(Processed(t, p, now).value) == multiset(SourceRows(c, p, now).value)
      && |Processed(t, p, now).value| == c.height
      && SortedDesc(Processed(t, p, now).value, DateKey)
    ensures var c := Converted(t); var r := Processed(t, p, now).value;
      forall i :: 0 <= i < |r| ==> 0 <= r[i].indexLabel < c.height && SourceRow(c, r[i].indexLabel, p, now) == Some(r[i])
  {
    var c := Converted(t);
    var rows := SourceRows(c, p, now).value;
    var r := Processed(t, p, now).value;
    SortDescSorted(rows, DateKey);
    SourceRowsLabelled(c, p, now);
    forall i | 0 <= i < |r|
      ensures 0 <= r[i].indexLabel < c.height && SourceRow(c, r[i].indexLabel, p, now) == Some(r[i])
    {
      assert r[i] in multiset(r);
      assert r[i] in multiset(rows);
      var k :| 0 <= k < |rows| && rows[k] == r[i];
    }
  }

  /** A row whose purchase is not in the future was made a non-negative
      number of whole days ago. */
  lemma ElapsedDaysOfPastPurchases(t: Table, p: Parsers, now: Timestamp, i: nat)
    requires WellFormed(t) && Processed(t, p, now).Some? && i < |Processed(t, p, now).value|
    ensures var r := Processed(t, p, now).value[i];
      && r.elapsedDays == Days(now - r.purchase.date)
      && (r.purchase.date <= now ==> r.elapsedDays >= 0)
  {
    ProcessedIsSortedPermutation(t, p, now);
    var r := Processed(t, p, now).value[i];
    DaysSign(now - r.purchase.date);
  }

  /** The bounds the scoring relies on. */
  ghost predicate InScoringRange(r: Row)
  {
    && r.purchase.amount >= 0.0
    && 1.0 <= r.purchase.necessity <= 5.0
    && 1.0 <= r.purchase.usage <= 5.0
  }

  lemma AcceptedRowInRange(c: Table, p: Parsers, now: Timestamp, k: nat)
    requires WellFormed(c) && HasProcessColumns(c) && Accepts(c, p) && k < c.height
    requires SourceRow(c, k, p, now).Some?
    ensures InScoringRange(SourceRow(c, k, p, now).value)
  {
    var r := SourceRow(c, k, p, now).value;
    assert NotNegative(Numbers(c, AmountColumn, p).value[k]);
    assert InRatingRange(Numbers(c, UsageColumn, p).value[k]);
    if IsNewLayout(c.columns) {
      assert NotNegative(Numbers(c, ThinkingColumn, p).value[k]);
      var days := NumberCell(Column(c, ThinkingColumn)[k], p).value;
      assert days >= 0.0 && TruncateToInt(days) >= 0;
      NecessityRange(TruncateToInt(days), IsYes(Column(c, IntentColumn)[k]));
    } else {
      assert InRatingRange(Numbers(c, NecessityColumn, p).value[k]);
    }
  }

  /** Every element of the sorted rows is one of the input rows. */
  lemma SortedFromInput(rows: seq<Row>, i: int)
    requires 0 <= i < |rows|
    ensures exists k :: 0 <= k < |rows| && rows[k] == SortDesc(rows, DateKey)[i]
  {
    var r := SortDesc(rows, DateKey);
    assert r[i] in multiset(r);
    assert r[i] in multiset(rows);
  }

  lemma AllSourceRowsInRange(c: Table, p: Parsers, now: Timestamp)
    requires WellFormed(c) && HasProcessColumns(c) && Accepts(c, p) && SourceRows(c, p, now).Some?
    ensures forall k :: 0 <= k < |SourceRows(c, p, now).value| ==> InScoringRange(SourceRows(c, p, now).value[k])
  {
    SourceRowsLabelled(c, p, now);
    forall k | 0 <= k < |SourceRows(c, p, now).value| ensures InScoringRange(SourceRows(c, p, now).value[k]) {
      AcceptedRowInRange(c, p, now, k);
    }
  }

  /** A table `validate_csv` accepts comes out of the preparation, when it
      does, with non-negative amounts and necessity and usage between 1 and
      5, whichever layout it used. */
  lemma AcceptedRowsInRange(t: Table, p: Parsers, now: Timestamp)
    requires WellFormed(t) && Check(Converted(t), p).error.None?
    requires Processed(t, p, now).Some?
    ensures forall i :: 0 <= i < |Processed(t, p, now).value| ==> InScoringRange(Processed(t, p, now).value[i])
  {
    var c := Converted(t);
    CheckAcceptsIff(c, p);
    var rows := SourceRows(c, p, now).value;
    AllSourceRowsInRange(c, p, now);
    assert Processed(t, p, now).value == SortDesc(rows, DateKey);
    forall i | 0 <= i < |rows| ensures InScoringRange(SortDesc(rows, DateKey)[i]) {
      SortedFromInput(rows, i);
    }
  }

  /** Rows labelled by position and listed oldest first come out of the sort
      with the last label in front. */
  lemma NewestLabelFirst(rows: seq<Row>)
    requires |rows| >= 2
    requires forall k :: 0 <= k < |rows| ==> rows[k].indexLabel == k
    requires forall j, k :: 0 <= j < k < |rows| ==> rows[j].purchase.date < rows[k].purchase.date
    ensures SortDesc(rows, DateKey)[0].indexLabel == |rows| - 1
  {
    var r := SortDesc(rows, DateKey);
    SortDescSorted(rows, DateKey);
    var last := rows[|rows| - 1];
    assert last in multiset(rows);
    assert last in multiset(r);
    var i :| 0 <= i < |r| && r[i] == last;
    SortedFromInput(rows, 0);
    var m :| 0 <= m < |rows| && rows[m] == r[0];
    assert i == 0 || DateKey(r[0]) >= DateKey(r[i]);
    assert rows[m].purchase.date >= rows[|rows| - 1].purchase.date;
  }

  /** When the input lists its purchases oldest first, the newest one, which
      carries the last label, comes out first: position and label part
      company after the sort. */
  lemma OldestFirstInputComesOutReversed(t: Table, p: Parsers, now: Timestamp)
    requires WellFormed(t) && Processed(t, p, now).Some?
    requires var rows := SourceRows(Converted(t), p, now).value;
      forall j, k :: 0 <= j < k < |rows| ==> rows[j].purchase.date < rows[k].purchase.date
    requires Converted(t).height >= 2
    ensures Processed(t, p, now).value[0].indexLabel == Converted(t).height - 1
  {
    var c := Converted(t);
    var rows := SourceRows(c, p, now).value;
    SourceRowsLabelled(c, p, now);
    assert |rows| == c.height;
    assert forall k :: 0 <= k < |rows| ==> rows[k].indexLabel == k;
    NewestLabelFirst(rows);
    assert Processed(t, p, now).value == SortDesc(rows, DateKey);
  }
}
