/** Validation of an uploaded purchase table (utils/csv_processor.py,
    `validate_csv`).

    Two layouts are accepted: the new one records how many days the buyer
    thought (`고민기간`) and whether they would buy again (`재구매의향`); the
    old one records a necessity rating (`필요도`) directly. The checks run in
    a fixed order and the first failing one decides the message. Converting a
    text column to numbers writes the converted column back into the frame,
    and that frame is the caller's own object unless Japanese headers had to
    be renamed first. */
module Validation {
  import opened Common
  import opened Frames
  import opened Purchases
  import opened Coercion

  const DateColumn: string := "날짜"
  const CategoryColumn: string := "카테고리"
  const ProductColumn: string := "상품명"
  const AmountColumn: string := "금액"
  const ThinkingColumn: string := "고민기간"
  const IntentColumn: string := "재구매의향"
  const UsageColumn: string := "사용빈도"
  const NecessityColumn: string := "필요도"

  /** The column names start with eight different characters, so no two
      of them are equal. */
  lemma ColumnNamesDistinct()
    ensures DateColumn[0] == '날' && CategoryColumn[0] == '카' && ProductColumn[0] == '상'
    ensures AmountColumn[0] == '금' && ThinkingColumn[0] == '고' && IntentColumn[0] == '재'
    ensures UsageColumn[0] == '사' && NecessityColumn[0] == '필'
  {
  }

  datatype Format = NewFormat | OldFormat

  /** The new layout wins when both of its columns are present; otherwise a
      necessity column means the old layout. */
  function DetectFormat(columns: seq<string>): (f: Option<Format>)
    ensures f == Some(NewFormat) <==> ThinkingColumn in columns && IntentColumn in columns
    ensures f == Some(OldFormat) <==> !(ThinkingColumn in columns && IntentColumn in columns) && NecessityColumn in columns
    ensures f == None <==> !(ThinkingColumn in columns && IntentColumn in columns) && NecessityColumn !in columns
  {
    if ThinkingColumn in columns && IntentColumn in columns then Some(NewFormat)
    else if NecessityColumn in columns then Some(OldFormat)
    else None
  }

  /** `required_columns` of each layout. The product name is optional in
      both. */
  function RequiredColumns(f: Format): seq<string>
  {
    match f
    case NewFormat => [DateColumn, CategoryColumn, AmountColumn, ThinkingColumn, IntentColumn, UsageColumn]
    case OldFormat => [DateColumn, CategoryColumn, AmountColumn, NecessityColumn, UsageColumn]
  }

  /** `[col for col in required if col not in columns]`. */
  function MissingOf(required: seq<string>, columns: seq<string>): (r: seq<string>)
    ensures forall c :: c in r <==> c in required && c !in columns
    ensures r == [] <==> forall c :: c in required ==> c in columns
    ensures |r| <= |required|
  {
    if |required| == 0 then []
    else
      var rest := MissingOf(required[1..], columns);
      assert forall c :: c in required <==> c == required[0] || c in required[1..];
      if required[0] !in columns then [required[0]] + rest else rest
  }

  /** The missing columns come in the order of the required list, each taken
      from its own position in it. */
  lemma {:induction false} MissingOfIsSubsequence(required: seq<string>, columns: seq<string>)
    ensures exists idx :: SubsequenceAt(MissingOf(required, columns), required, idx)
  {
    if |required| == 0 {
      assert SubsequenceAt(MissingOf(required, columns), required, []);
    } else {
      var rest := MissingOf(required[1..], columns);
      MissingOfIsSubsequence(required[1..], columns);
      var idx :| SubsequenceAt(rest, required[1..], idx);
      SubsequenceOfTail(rest, required, idx);
      var shifted := seq(|idx|, i requires 0 <= i < |idx| => idx[i] + 1);
      if required[0] !in columns {
        assert MissingOf(required, columns) == [required[0]] + rest;
        assert SubsequenceAt(MissingOf(required, columns), required, [0] + shifted);
      } else {
        assert MissingOf(required, columns) == rest;
        assert SubsequenceAt(MissingOf(required, columns), required, shifted);
      }
    }
  }

  /** The reasons `validate_csv` gives for refusing a table. */
  datatype CsvError =
    | NoKnownFormat
    | MissingColumns(names: seq<string>)
    | NoData
    | BadDate
    | AmountNotNumeric
    | NegativeAmount
    | ThinkingNotNumeric
    | NegativeThinking
    | BadIntent(value: Cell)
    | NecessityInvalid
    | UsageInvalid

  /** `', '.join(names)`. */
  function Join(names: seq<string>, sep: string): string
  {
    if |names| == 0 then ""
    else if |names| == 1 then names[0]
    else names[0] + sep + Join(names[1..], sep)
  }

  /** The message shown for each refusal. */
  function Message(e: CsvError): string
  {
    match e
    case NoKnownFormat => "필수 컬럼이 누락되었습니다. '고민기간, 재구매의향' 또는 '필요도' 컬럼이 필요합니다."
    case MissingColumns(names) => "필수 컬럼이 누락되었습니다: " + Join(names, ", ")
    case NoData => "CSV 파일에 데이터가 없습니다."
    case BadDate => "날짜 형식이 올바르지 않습니다. YYYY-MM-DD 형식을 사용해주세요."
    case AmountNotNumeric => "금액은 숫자여야 합니다."
    case NegativeAmount => "금액은 0 이상이어야 합니다."
    case ThinkingNotNumeric => "고민기간은 숫자(일)여야 합니다."
    case NegativeThinking => "고민기간은 0 이상이어야 합니다."
    case BadIntent(_) => "재구매의향은 '예/아니오' 또는 'Y/N'으로 입력해주세요."
    case NecessityInvalid => "필요도는 1-5 사이의 정수여야 합니다."
    case UsageInvalid => "사용빈도는 1-5 사이의 정수여야 합니다."
  }

  /** `x < 0` on a cell; false for NaN. */
  predicate IsNegative(c: Cell)
  {
    NumberOf(c).Some? && NumberOf(c).value < 0.0
  }

  /** `x.between(1, 5)` on a cell: both bounds inclusive, false for NaN. */
  predicate InRatingRange(c: Cell)
  {
    NumberOf(c).Some? && 1.0 <= NumberOf(c).value <= 5.0
  }

  predicate AnyNegative(cells: seq<Cell>)
  {
    exists i :: 0 <= i < |cells| && IsNegative(cells[i])
  }

  predicate AllInRatingRange(cells: seq<Cell>)
  {
    forall i :: 0 <= i < |cells| ==> InRatingRange(cells[i])
  }

  /** The first intent cell that is neither a yes nor a no word. */
  function FirstInvalidIntent(cells: seq<Cell>): (r: Option<Cell>)
    ensures r.None? <==> forall i :: 0 <= i < |cells| ==> IntentValid(cells[i])
  {
    if |cells| == 0 then None
    else if !IntentValid(cells[0]) then Some(cells[0])
    else
      var rest := FirstInvalidIntent(cells[1..]);
      assert rest.None? <==> forall i :: 1 <= i < |cells| ==> IntentValid(cells[i]) by {
        assert forall i :: 1 <= i < |cells| ==> cells[i] == cells[1..][i - 1];
      }
      rest
  }

  /** The first invalid cell is the one at the first failing position. */
  lemma {:induction false} FirstInvalidIntentAt(cells: seq<Cell>, i: int)
    requires 0 <= i < |cells| && !IntentValid(cells[i])
    requires forall k :: 0 <= k < i ==> IntentValid(cells[k])
    ensures FirstInvalidIntent(cells) == Some(cells[i])
  {
    if i > 0 {
      assert forall k :: 0 <= k < i - 1 ==> cells[1..][k] == cells[k + 1];
      FirstInvalidIntentAt(cells[1..], i - 1);
    }
  }

  /** The outcome of the checks and the frame they leave behind. */
  datatype Checked = Checked(error: Option<CsvError>, table: Table)

  /** `if not is_numeric_dtype(df[name]): df[name] = pd.to_numeric(df[name])`:
      None when the conversion fails. */
  function EnsureNumeric(t: Table, name: string, p: Parsers): (r: Option<Table>)
    requires WellFormed(t) && name in t.columns
    ensures r.Some? ==> WellFormed(r.value) && r.value.height == t.height && r.value.columns == t.columns
    ensures r.Some? ==> ToNumericColumn(Column(t, name), p).Some? && Column(r.value, name) == ToNumericColumn(Column(t, name), p).value
    ensures r.Some? ==> forall c :: c in t.columns && c != name ==> Column(r.value, c) == Column(t, c)
    ensures r.None? <==> ToNumericColumn(Column(t, name), p).None?
  {
    var cells := Column(t, name);
    if IsNumericColumn(cells) then
      NumericColumnUnchanged(cells, p);
      Some(t)
    else
      match ToNumericColumn(cells, p)
      case None => None
      case Some(converted) => Some(WithColumn(t, name, converted))
  }

  /** All required columns of the layout are present. */
  predicate HasRequired(t: Table, f: Format)
  {
    forall c :: c in RequiredColumns(f) ==> c in t.columns
  }

  /** `validate_csv` on a frame whose headers are already Korean. */
  function Check(t: Table, p: Parsers): (r: Checked)
    requires WellFormed(t)
    ensures DetectFormat(t.columns).None? ==> r.error == Some(NoKnownFormat)
    ensures DetectFormat(t.columns).Some? && MissingOf(RequiredColumns(DetectFormat(t.columns).value), t.columns) != [] ==>
      r.error == Some(MissingColumns(MissingOf(RequiredColumns(DetectFormat(t.columns).value), t.columns)))
    ensures r.error.None? ==>
      DetectFormat(t.columns).Some? && HasRequired(t, DetectFormat(t.columns).value) && t.height > 0
  {
    match DetectFormat(t.columns)
    case None => Checked(Some(NoKnownFormat), t)
    case Some(f) =>
      var missing := MissingOf(RequiredColumns(f), t.columns);
      if missing != [] then Checked(Some(MissingColumns(missing)), t)
      else if t.height == 0 then Checked(Some(NoData), t)
      else if ToDateColumn(Column(t, DateColumn), p).None? then Checked(Some(BadDate), t)
      else CheckAmounts(t, f, p)
  }

  function CheckAmounts(t: Table, f: Format, p: Parsers): Checked
    requires WellFormed(t) && HasRequired(t, f)
  {
    match EnsureNumeric(t, AmountColumn, p)
    case None => Checked(Some(AmountNotNumeric), t)
    case Some(t1) =>
      if AnyNegative(Column(t1, AmountColumn)) then Checked(Some(NegativeAmount), t1)
      else CheckRatings(t1, f, p)
  }

  function CheckRatings(t: Table, f: Format, p: Parsers): Checked
    requires WellFormed(t) && HasRequired(t, f)
  {
    match f
    case NewFormat =>
      (match EnsureNumeric(t, ThinkingColumn, p)
       case None => Checked(Some(ThinkingNotNumeric), t)
       case Some(t1) =>
         if AnyNegative(Column(t1, ThinkingColumn)) then Checked(Some(NegativeThinking), t1)
         else match FirstInvalidIntent(Column(t1, IntentColumn))
           case Some(v) => Checked(Some(BadIntent(v)), t1)
           case None => CheckUsage(t1, p))
    case OldFormat =>
      (match EnsureNumeric(t, NecessityColumn, p)
       case None => Checked(Some(NecessityInvalid), t)
       case Some(t1) =>
         if !AllInRatingRange(Column(t1, NecessityColumn)) then Checked(Some(NecessityInvalid), t1)
         else CheckUsage(t1, p))
  }

  function CheckUsage(t: Table, p: Parsers): Checked
    requires WellFormed(t) && UsageColumn in t.columns
  {
    match EnsureNumeric(t, UsageColumn, p)
    case None => Checked(Some(UsageInvalid), t)
    case Some(t1) =>
      if !AllInRatingRange(Column(t1, UsageColumn)) then Checked(Some(UsageInvalid), t1)
      else Checked(None, t1)
  }

  /** The headers `validate_csv` looks at after `convert_ja_columns`. */
  function Converted(t: Table): (r: Table)
    requires WellFormed(t)
    ensures WellFormed(r)
  {
    if HasJaColumn(t.columns) then t.(columns := RenameJa(t.columns)) else t
  }

  /** `validate_csv(df)`. Returns `(True, None)` or `(False, message)`; when
      no header had to be renamed, every column converted to numbers along
      the way is written back into `df`. */
  method ValidateCsv(df: Frame, p: Parsers) returns (valid: bool, message: Option<string>)
    requires WellFormed(df.table)
    modifies df
    ensures var c := Check(Converted(old(df.table)), p);
      && (valid <==> c.error.None?)
      && message == (if c.error.None? then None else Some(Message(c.error.value)))
    ensures HasJaColumn(old(df.table).columns) ==> df.table == old(df.table)
    ensures !HasJaColumn(old(df.table).columns) ==> df.table == Check(old(df.table), p).table
  {
    var frame := ConvertJaColumns(df);
    var error := CheckFrame(frame, p);
    valid := error.None?;
    message := if error.None? then None else Some(Message(error.value));
  }

  /** The checks of `validate_csv` after the header conversion, on the frame
      that conversion produced. */
  method CheckFrame(frame: Frame, p: Parsers) returns (error: Option<CsvError>)
    requires WellFormed(frame.table)
    modifies frame
    ensures error == Check(old(frame.table), p).error
    ensures frame.table == Check(old(frame.table), p).table
  {
    var format := DetectFormat(frame.table.columns);
    if format.None? {
      return Some(NoKnownFormat);
    }
    var f := format.value;
    var missing := MissingOf(RequiredColumns(f), frame.table.columns);
    if missing != [] {
      return Some(MissingColumns(missing));
    }
    if frame.table.height == 0 {
      return Some(NoData);
    }
    if ToDateColumn(Column(frame.table, DateColumn), p).None? {
      return Some(BadDate);
    }
    error := CheckAmountsOn(frame, f, p);
  }

  method CheckAmountsOn(frame: Frame, f: Format, p: Parsers) returns (error: Option<CsvError>)
    requires WellFormed(frame.table) && HasRequired(frame.table, f)
    modifies frame
    ensures error == CheckAmounts(old(frame.table), f, p).error
    ensures frame.table == CheckAmounts(old(frame.table), f, p).table
  {
    var ok := WriteNumeric(frame, AmountColumn, p);
    if !ok {
      return Some(AmountNotNumeric);
    }
    if AnyNegative(Column(frame.table, AmountColumn)) {
      return Some(NegativeAmount);
    }
    error := CheckRatingsOn(frame, f, p);
  }

  method CheckRatingsOn(frame: Frame, f: Format, p: Parsers) returns (error: Option<CsvError>)
    requires WellFormed(frame.table) && HasRequired(frame.table, f)
    modifies frame
    ensures error == CheckRatings(old(frame.table), f, p).error
    ensures frame.table == CheckRatings(old(frame.table), f, p).table
  {
    if f == NewFormat {
      error := CheckNewRatingsOn(frame, p);
    } else {
      error := CheckOldRatingsOn(frame, p);
    }
  }

  /** The thinking-time and intent checks of the new layout. */
  method CheckNewRatingsOn(frame: Frame, p: Parsers) returns (error: Option<CsvError>)
    requires WellFormed(frame.table) && HasRequired(frame.table, NewFormat)
    modifies frame
    ensures error == CheckRatings(old(frame.table), NewFormat, p).error
    ensures frame.table == CheckRatings(old(frame.table), NewFormat, p).table
  {
    var ok := WriteNumeric(frame, ThinkingColumn, p);
    if !ok {
      return Some(ThinkingNotNumeric);
    }
    if AnyNegative(Column(frame.table, ThinkingColumn)) {
      return Some(NegativeThinking);
    }
    var intents := Column(frame.table, IntentColumn);
    for i := 0 to |intents|
      invariant forall k :: 0 <= k < i ==> IntentValid(intents[k])
    {
      if !IntentValid(intents[i]) {
        FirstInvalidIntentAt(intents, i);
        return Some(BadIntent(intents[i]));
      }
    }
    error := CheckUsageOn(frame, p);
  }

  /** The necessity check of the old layout. */
  method CheckOldRatingsOn(frame: Frame, p: Parsers) returns (error: Option<CsvError>)
    requires WellFormed(frame.table) && HasRequired(frame.table, OldFormat)
    modifies frame
    ensures error == CheckRatings(old(frame.table), OldFormat, p).error
    ensures frame.table == CheckRatings(old(frame.table), OldFormat, p).table
  {
    var ok := WriteNumeric(frame, NecessityColumn, p);
    if !ok || !AllInRatingRange(Column(frame.table, NecessityColumn)) {
      return Some(NecessityInvalid);
    }
    error := CheckUsageOn(frame, p);
  }

  method CheckUsageOn(frame: Frame, p: Parsers) returns (error: Option<CsvError>)
    requires WellFormed(frame.table) && UsageColumn in frame.table.columns
    modifies frame
    ensures error == CheckUsage(old(frame.table), p).error
    ensures frame.table == CheckUsage(old(frame.table), p).table
  {
    var ok := WriteNumeric(frame, UsageColumn, p);
    if !ok || !AllInRatingRange(Column(frame.table, UsageColumn)) {
      return Some(UsageInvalid);
    }
    return None;
  }

  /** One `if not is_numeric_dtype(...): df[name] = pd.to_numeric(...)` step
      on a frame object; reports whether the conversion succeeded. */
  method WriteNumeric(frame: Frame, name: string, p: Parsers) returns (ok: bool)
    requires WellFormed(frame.table) && name in frame.table.columns
    modifies frame
    ensures ok <==> EnsureNumeric(old(frame.table), name, p).Some?
    ensures ok ==> frame.table == EnsureNumeric(old(frame.table), name, p).value
    ensures !ok ==> frame.table == old(frame.table)
  {
    var cells := Column(frame.table, name);
    if IsNumericColumn(cells) {
      NumericColumnUnchanged(cells, p);
      return true;
    }
    var converted := ToNumericColumn(cells, p);
    if converted.None? {
      return false;
    }
    frame.SetColumn(name, converted.value);
    return true;
  }

  // ---------------------------------------------------------------------------
  // What validation accepts and refuses

  /** A present column after `pd.to_numeric`. */
  function Numbers(t: Table, name: string, p: Parsers): Option<seq<Cell>>
    requires WellFormed(t) && name in t.columns
  {
    ToNumericColumn(Column(t, name), p)
  }

  /** A column that converts to numbers, all of them satisfying `ok`. */
  ghost predicate NumbersAll(t: Table, name: string, p: Parsers, ok: Cell -> bool)
    requires WellFormed(t) && name in t.columns
  {
    Numbers(t, name, p).Some? && forall i :: 0 <= i < t.height ==> ok(Numbers(t, name, p).value[i])
  }

  predicate NotNegative(c: Cell)
  {
    !IsNegative(c)
  }

  /** The conditions a table must meet, stated independently of the order in
      which `validate_csv` tests them. */
  ghost predicate Accepts(t: Table, p: Parsers)
    requires WellFormed(t)
  {
    && DetectFormat(t.columns).Some?
    && HasRequired(t, DetectFormat(t.columns).value)
    && t.height > 0
    && (forall i :: 0 <= i < t.height ==> p.parseDate(Column(t, DateColumn)[i]).Some?)
    && NumbersAll(t, AmountColumn, p, NotNegative)
    && (DetectFormat(t.columns) == Some(NewFormat) ==>
          && NumbersAll(t, ThinkingColumn, p, NotNegative)
          && forall i :: 0 <= i < t.height ==> IntentValid(Column(t, IntentColumn)[i]))
    && (DetectFormat(t.columns) == Some(OldFormat) ==> NumbersAll(t, NecessityColumn, p, InRatingRange))
    && NumbersAll(t, UsageColumn, p, InRatingRange)
  }

  /** A table is accepted exactly when it meets every condition. */
  lemma CheckAcceptsIff(t: Table, p: Parsers)
    requires WellFormed(t)
    ensures Check(t, p).error.None? <==> Accepts(t, p)
  {
    var format := DetectFormat(t.columns);
    if format.None? {
      return;
    }
    var f := format.value;
    if MissingOf(RequiredColumns(f), t.columns) != [] {
      return;
    }
    if t.height == 0 || ToDateColumn(Column(t, DateColumn), p).None? {
      return;
    }
    var t1 := EnsureNumeric(t, AmountColumn, p);
    if t1.None? || AnyNegative(Column(t1.value, AmountColumn)) {
      return;
    }
    assert Check(t, p) == CheckRatings(t1.value, f, p);
    RatingsAcceptIff(t, t1.value, f, p);
  }

  lemma RatingsAcceptIff(t: Table, t1: Table, f: Format, p: Parsers)
    requires WellFormed(t) && HasRequired(t, f) && DetectFormat(t.columns) == Some(f)
    requires t.height > 0 && ToDateColumn(Column(t, DateColumn), p).Some?
    requires EnsureNumeric(t, AmountColumn, p) == Some(t1)
    requires !AnyNegative(Column(t1, AmountColumn))
    ensures CheckRatings(t1, f, p).error.None? <==> Accepts(t, p)
  {
    ColumnNamesDistinct();
    assert NumbersAll(t, AmountColumn, p, NotNegative);
    if f == NewFormat {
      AcceptsNew(t, p);
      NewRatingsAcceptIff(t, t1, p);
    } else {
      AcceptsOld(t, p);
      OldRatingsAcceptIff(t, t1, p);
    }
  }

  lemma NewRatingsAcceptIff(t: Table, t1: Table, p: Parsers)
    requires WellFormed(t) && HasRequired(t, NewFormat) && DetectFormat(t.columns) == Some(NewFormat)
    requires t.height > 0 && ToDateColumn(Column(t, DateColumn), p).Some?
    requires EnsureNumeric(t, AmountColumn, p) == Some(t1)
    ensures CheckRatings(t1, NewFormat, p).error.None? <==>
      && NumbersAll(t, ThinkingColumn, p, NotNegative)
      && (forall i :: 0 <= i < t.height ==> IntentValid(Column(t, IntentColumn)[i]))
      && NumbersAll(t, UsageColumn, p, InRatingRange)
  {
    ColumnNamesDistinct();
    var t2 := EnsureNumeric(t1, ThinkingColumn, p);
    assert Column(t1, ThinkingColumn) == Column(t, ThinkingColumn);
    if t2.None? || AnyNegative(Column(t2.value, ThinkingColumn)) {
      return;
    }
    assert Column(t2.value, IntentColumn) == Column(t, IntentColumn);
    if FirstInvalidIntent(Column(t2.value, IntentColumn)).Some? {
      return;
    }
    assert Column(t2.value, UsageColumn) == Column(t, UsageColumn);
    assert CheckRatings(t1, NewFormat, p) == CheckUsage(t2.value, p);
  }

  /** In the new layout, once the shared conditions hold, acceptance comes
      down to the thinking time, the intent and the usage columns. */
  lemma AcceptsNew(t: Table, p: Parsers)
    requires WellFormed(t) && HasRequired(t, NewFormat) && DetectFormat(t.columns) == Some(NewFormat)
    requires t.height > 0 && ToDateColumn(Column(t, DateColumn), p).Some?
    requires NumbersAll(t, AmountColumn, p, NotNegative)
    ensures Accepts(t, p) <==>
      && NumbersAll(t, ThinkingColumn, p, NotNegative)
      && (forall i :: 0 <= i < t.height ==> IntentValid(Column(t, IntentColumn)[i]))
      && NumbersAll(t, UsageColumn, p, InRatingRange)
  {

  }

  /** In the old layout, once the shared conditions hold, acceptance comes
      down to the necessity and the usage columns. */
  lemma AcceptsOld(t: Table, p: Parsers)
    requires WellFormed(t) && HasRequired(t, OldFormat) && DetectFormat(t.columns) == Some(OldFormat)
    requires t.height > 0 && ToDateColumn(Column(t, DateColumn), p).Some?
    requires NumbersAll(t, AmountColumn, p, NotNegative)
    ensures Accepts(t, p) <==>
      NumbersAll(t, NecessityColumn, p, InRatingRange) && NumbersAll(t, UsageColumn, p, InRatingRange)
  {

  }

  lemma OldRatingsAcceptIff(t: Table, t1: Table, p: Parsers)
    requires WellFormed(t) && HasRequired(t, OldFormat) && DetectFormat(t.columns) == Some(OldFormat)
    requires t.height > 0 && ToDateColumn(Column(t, DateColumn), p).Some?
    requires EnsureNumeric(t, AmountColumn, p) == Some(t1)
    ensures CheckRatings(t1, OldFormat, p).error.None? <==>
      NumbersAll(t, NecessityColumn, p, InRatingRange) && NumbersAll(t, UsageColumn, p, InRatingRange)
  {
    ColumnNamesDistinct();
    var t2 := EnsureNumeric(t1, NecessityColumn, p);
    assert Column(t1, NecessityColumn) == Column(t, NecessityColumn);
    if t2.None? || !AllInRatingRange(Column(t2.value, NecessityColumn)) {
      return;
    }
    assert Column(t2.value, UsageColumn) == Column(t, UsageColumn);
    assert CheckRatings(t1, OldFormat, p) == CheckUsage(t2.value, p);
  }

  /** A table without rows is refused once its columns are in order. */
  lemma EmptyTableRejected(t: Table, p: Parsers)
    requires WellFormed(t) && DetectFormat(t.columns).Some?
    requires HasRequired(t, DetectFormat(t.columns).value)
    requires t.height == 0
    ensures Check(t, p).error == Some(NoData)
  {
    var f := DetectFormat(t.columns).value;
  }

  /** One negative amount is enough to refuse the table, whatever the rest
      holds, once its layout, columns, rows and dates are in order. */
  lemma NegativeAmountRejected(t: Table, p: Parsers, i: int)
    requires WellFormed(t) && DetectFormat(t.columns).Some?
    requires HasRequired(t, DetectFormat(t.columns).value)
    requires ToDateColumn(Column(t, DateColumn), p).Some?
    requires Numbers(t, AmountColumn, p).Some?
    requires 0 <= i < t.height && IsNegative(Numbers(t, AmountColumn, p).value[i])
    ensures Check(t, p).error == Some(NegativeAmount)
  {
    var f := DetectFormat(t.columns).value;
    var t1 := EnsureNumeric(t, AmountColumn, p).value;
    assert IsNegative(Column(t1, AmountColumn)[i]);
  }

  /** Refused because of a negative thinking time: any accepted table has
      none. */
  lemma NegativeThinkingRejected(t: Table, p: Parsers, i: int)
    requires WellFormed(t) && DetectFormat(t.columns) == Some(NewFormat)
    requires Accepts(t, p)
    requires 0 <= i < t.height
    ensures !IsNegative(Numbers(t, ThinkingColumn, p).value[i])
  {
  }

  /** The intent loop reports the first offending value. */
  lemma IntentReportsFirstInvalid(t: Table, p: Parsers, i: int)
    requires WellFormed(t) && DetectFormat(t.columns) == Some(NewFormat)
    requires HasRequired(t, NewFormat)
    requires ToDateColumn(Column(t, DateColumn), p).Some?
    requires NumbersAll(t, AmountColumn, p, NotNegative)
    requires NumbersAll(t, ThinkingColumn, p, NotNegative)
    requires 0 <= i < t.height && !IntentValid(Column(t, IntentColumn)[i])
    requires forall k :: 0 <= k < i ==> IntentValid(Column(t, IntentColumn)[k])
    ensures Check(t, p).error == Some(BadIntent(Column(t, IntentColumn)[i]))
  {
    var t1 := EnsureNumeric(t, AmountColumn, p).value;
    assert !AnyNegative(Column(t1, AmountColumn));
    assert Column(t1, ThinkingColumn) == Column(t, ThinkingColumn);
    var t2 := EnsureNumeric(t1, ThinkingColumn, p).value;
    assert !AnyNegative(Column(t2, ThinkingColumn));
    assert Column(t2, IntentColumn) == Column(t, IntentColumn);
    FirstInvalidIntentAt(Column(t, IntentColumn), i);
  }

  /** Missing columns are listed in the order of the required list. */
  lemma MissingColumnsInOrder(p: Parsers)
    ensures var t := Table([ThinkingColumn, IntentColumn, CategoryColumn], [[], [], []], 0);
      Check(t, p).error == Some(MissingColumns([DateColumn, AmountColumn, UsageColumn]))
  {
    var columns := [ThinkingColumn, IntentColumn, CategoryColumn];
    NewFormatDetected(columns);
    MissingOfExample(columns);
  }

  lemma NewFormatDetected(columns: seq<string>)
    requires columns == [ThinkingColumn, IntentColumn, CategoryColumn]
    ensures DetectFormat(columns) == Some(NewFormat)
  {
    assert columns[0] == ThinkingColumn && columns[1] == IntentColumn;
  }

  lemma MissingOfExample(columns: seq<string>)
    requires columns == [ThinkingColumn, IntentColumn, CategoryColumn]
    ensures MissingOf(RequiredColumns(NewFormat), columns) == [DateColumn, AmountColumn, UsageColumn]
  {
    MissingOfTail(columns);
    ColumnNamesDistinct();
    assert DateColumn !in columns && AmountColumn !in columns;
    assert columns[2] == CategoryColumn;
    assert MissingOf([AmountColumn, ThinkingColumn, IntentColumn, UsageColumn], columns) == [AmountColumn, UsageColumn];
    assert MissingOf([CategoryColumn, AmountColumn, ThinkingColumn, IntentColumn, UsageColumn], columns)
      == [AmountColumn, UsageColumn];
  }

  lemma MissingOfTail(columns: seq<string>)
    requires columns == [ThinkingColumn, IntentColumn, CategoryColumn]
    ensures MissingOf([ThinkingColumn, IntentColumn, UsageColumn], columns) == [UsageColumn]
  {
    ColumnNamesDistinct();
    assert columns[0] == ThinkingColumn && columns[1] == IntentColumn;
    assert UsageColumn !in columns;
    assert MissingOf([UsageColumn], columns) == [UsageColumn];
    assert MissingOf([IntentColumn, UsageColumn], columns) == [UsageColumn];
  }

  /** The rating checks use `between(1, 5)` on the number itself, so a
      fractional rating such as 2.5 passes; only values outside [1, 5] and NaN
      fail. */
  lemma FractionalRatingsPass(x: real)
    ensures InRatingRange(Real(x)) <==> 1.0 <= x <= 5.0
    ensures InRatingRange(Real(2.5)) && !InRatingRange(Missing)
  {
  }
}
