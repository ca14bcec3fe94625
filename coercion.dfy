/** The cell conversions the CSV processor borrows from pandas, and the
    yes/no vocabulary of the repurchase-intent column
    (utils/csv_processor.py).

    Parsing text as a number (`pd.to_numeric`) and as a date
    (`pd.to_datetime`) are inputs to the model: each may fail on a cell. */
module Coercion {
  import opened Common
  import opened Frames
  import opened Purchases

  /** The two parsers: text to number, and a cell to a timestamp. */
  datatype Parsers = Parsers(parseNumber: string -> Option<real>, parseDate: Cell -> Option<Timestamp>)

  /** `pd.api.types.is_numeric_dtype(column)`: a column read without any
      text in it (NaN and booleans are numeric). */
  predicate IsNumericColumn(cells: seq<Cell>)
  {
    forall i :: 0 <= i < |cells| ==> !cells[i].Text?
  }

  /** One cell through `pd.to_numeric(..., errors='raise')`: numbers, booleans
      and NaN are kept, text is parsed or the conversion fails. */
  function ToNumberCell(c: Cell, p: Parsers): (r: Option<Cell>)
    ensures r.Some? ==> !r.value.Text?
    ensures !c.Text? ==> r == Some(c)
  {
    match c
    case Text(s) =>
      (match p.parseNumber(s)
       case Some(x) => Some(Real(x))
       case None => None)
    case _ => Some(c)
  }

  /** `pd.to_numeric(column, errors='raise')`: fails as a whole as soon as
      one cell fails. */
  function ToNumericColumn(cells: seq<Cell>, p: Parsers): (r: Option<seq<Cell>>)
    ensures r.Some? ==> |r.value| == |cells| && IsNumericColumn(r.value)
    ensures r.Some? ==> forall i :: 0 <= i < |cells| ==> ToNumberCell(cells[i], p) == Some(r.value[i])
    ensures r.None? <==> exists i :: 0 <= i < |cells| && ToNumberCell(cells[i], p).None?
  {
    if |cells| == 0 then Some([])
    else
      match ToNumberCell(cells[0], p)
      case None => None
      case Some(c) =>
        var rest := ToNumericColumn(cells[1..], p);
        if rest.None? then
          var i :| 0 <= i < |cells[1..]| && ToNumberCell(cells[1..][i], p).None?;
          assert ToNumberCell(cells[i + 1], p).None?;
          None
        else
          assert forall i :: 1 <= i < |cells| ==> cells[i] == cells[1..][i - 1];
          Some([c] + rest.value)
  }

  /** A numeric column is left as it is by the conversion. */
  lemma {:induction false} NumericColumnUnchanged(cells: seq<Cell>, p: Parsers)
    requires IsNumericColumn(cells)
    ensures ToNumericColumn(cells, p) == Some(cells)
  {
    if |cells| > 0 {
      assert IsNumericColumn(cells[1..]) by {
        assert forall i :: 0 <= i < |cells[1..]| ==> cells[1..][i] == cells[i + 1];
      }
      NumericColumnUnchanged(cells[1..], p);
      assert cells == [cells[0]] + cells[1..];
    }
  }

  /** `pd.to_datetime(column)`: every cell must parse. */
  function ToDateColumn(cells: seq<Cell>, p: Parsers): (r: Option<seq<Timestamp>>)
    ensures r.Some? ==> |r.value| == |cells|
    ensures r.Some? ==> forall i :: 0 <= i < |cells| ==> p.parseDate(cells[i]) == Some(r.value[i])
    ensures r.None? <==> exists i :: 0 <= i < |cells| && p.parseDate(cells[i]).None?
  {
    if |cells| == 0 then Some([])
    else
      match p.parseDate(cells[0])
      case None => None
      case Some(t) =>
        var rest := ToDateColumn(cells[1..], p);
        if rest.None? then
          var i :| 0 <= i < |cells[1..]| && p.parseDate(cells[1..][i]).None?;
          assert p.parseDate(cells[i + 1]).None?;
          None
        else
          assert forall i :: 1 <= i < |cells| ==> cells[i] == cells[1..][i - 1];
          Some([t] + rest.value)
  }

  // ---------------------------------------------------------------------------
  // Repurchase intent

  /** `valid_yes`. */
  const ValidYes: set<string> := {"예", "y", "yes", "1", "true", "o", "はい"}
  /** `valid_no`. */
  const ValidNo: set<string> := {"아니오", "n", "no", "0", "false", "x", "いいえ"}

  /** `str(val).strip().lower()` for the cells whose text can be a yes or no
      word; every other cell (a float, NaN, any other integer) prints as
      something outside both sets and maps to None. */
  function IntentWord(c: Cell): Option<string>
  {
    match c
    case Text(s) => Some(Lower(Strip(s)))
    case Bool(b) => Some(if b then "true" else "false")
    case Int(i) => if i == 1 then Some("1") else if i == 0 then Some("0") else None
    case Real(_) => None
    case Missing => None
  }

  /** The intent check of `validate_csv`: the normalised word is a yes or a
      no word. */
  predicate IntentValid(c: Cell)
  {
    match IntentWord(c)
    case Some(w) => w in ValidYes || w in ValidNo
    case None => false
  }

  /** `isin(valid_yes)` after the same normalisation, as `process_csv_data`
      derives the boolean intent. */
  predicate IsYes(c: Cell)
  {
    match IntentWord(c)
    case Some(w) => w in ValidYes
    case None => false
  }

  /** Every yes word starts with one of 예 y 1 t o は. */
  lemma YesFirstCharacters(w: string)
    requires w in ValidYes
    ensures |w| > 0 && w[0] in {'예', 'y', '1', 't', 'o', 'は'}
  {
  }

  /** Every no word starts with one of 아 n 0 f x い. */
  lemma NoFirstCharacters(w: string)
    requires |w| > 0
    ensures w in ValidNo ==> w[0] in {'아', 'n', '0', 'f', 'x', 'い'}
  {
  }

  /** The two word sets do not overlap. */
  lemma YesNoDisjoint(w: string)
    ensures w in ValidYes ==> w !in ValidNo
  {
    if w in ValidYes {
      YesFirstCharacters(w);
      NoFirstCharacters(w);
    }
  }

  /** A valid intent is a yes exactly when it is not a no. */
  lemma ValidIntentIsYesOrNo(c: Cell)
    requires IntentValid(c)
    ensures IsYes(c) <==> IntentWord(c).value !in ValidNo
  {
    YesNoDisjoint(IntentWord(c).value);
  }

  /** Upper case and surrounding spaces do not matter: " YES " is a yes. */
  lemma PaddedUpperYes()
    ensures IsYes(Text(" YES "))
  {
    assert LeadingSpaces(" YES ") == 1;
    assert TrailingStart(" YES ") == 4;
    assert Strip(" YES ") == "YES";
    assert Lower("YES") == "yes";
  }

  /** Booleans and the integers 1 and 0 are valid intents; a float, NaN or
      any other word is not. */
  lemma IntentExamples()
    ensures IsYes(Bool(true)) && IsYes(Int(1))
    ensures IntentValid(Int(0)) && !IsYes(Int(0))
    ensures !IntentValid(Real(1.0)) && !IntentValid(Missing) && !IntentValid(Int(2))
  {
  }
}
