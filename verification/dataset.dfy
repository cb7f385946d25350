/**
 * The loaded table and `abbrev`, which rewrites one text column of it in
 * place: every cell is stripped of surrounding whitespace and, when the
 * stripped text is a full name of the dictionary, replaced by its code.
 */
module Dataset {
  import opened Wrappers
  import opened Text
  import opened StateCodes

  /** One row of percent_languages.csv: the State and Language cells and the
      percentage columns by name. A column absent from `percents` is an empty
      (NaN) cell. */
  datatype Row = Row(state: string, language: string, percents: map<string, real>)

  /** The text columns of the table, the ones `.str.strip()` applies to. */
  datatype TextColumn = StateColumn | LanguageColumn

  function Cell(r: Row, col: TextColumn): string {
    match col
    case StateColumn => r.state
    case LanguageColumn => r.language
  }

  function WithCell(r: Row, col: TextColumn, v: string): Row {
    match col
    case StateColumn => r.(state := v)
    case LanguageColumn => r.(language := v)
  }

  /** One cell of `df[col].str.strip().replace(state2abbrev)`: the stripped
      text, or its code when the stripped text is a key of the dictionary. */
  function NormalizeCell(cell: string): string {
    var s := Strip(cell);
    match Abbreviation(s)
    case Some(code) => code
    case None => s
  }

  /** A normalized cell has no whitespace at its ends and is no longer than
      the cell it came from. */
  lemma NormalizeCellShape(cell: string)
    ensures var r := NormalizeCell(cell); r == [] || (!IsSpace(r[0]) && !IsSpace(r[|r| - 1]))
    ensures |NormalizeCell(cell)| <= |cell|
  {
    if Abbreviation(Strip(cell)).Some? {
      AbbreviationIsCode(Strip(cell));
    }
  }

  /** A cell whose stripped text is the key of line `i` of the dictionary
      becomes that line's code. */
  lemma NormalizeCellOfName(cell: string, i: int)
    requires 0 <= i < |Table| && Strip(cell) == Table[i].name
    ensures NormalizeCell(cell) == Table[i].code
  {
    AbbreviationOfName();
  }

  /** A cell whose stripped text is no key comes out stripped and otherwise
      unchanged. */
  lemma NormalizeCellOfOther(cell: string)
    requires forall i :: 0 <= i < |Table| ==> Table[i].name != Strip(cell)
    ensures NormalizeCell(cell) == Strip(cell)
  {
    LookupMissing(Table, Strip(cell));
  }

  /** Normalizing a normalized cell changes nothing: a code has no whitespace
      around it and is not itself a key, and a stripped non-key stays one. */
  lemma NormalizeCellIdempotent(cell: string)
    ensures NormalizeCell(NormalizeCell(cell)) == NormalizeCell(cell)
  {
    var s := Strip(cell);
    StripIdempotent(cell);
    match Abbreviation(s)
    case Some(code) =>
      AbbreviationIsCode(s);
      StripFixed(code);
    case None =>
  }

  function AbbrevRow(r: Row, col: TextColumn): Row {
    WithCell(r, col, NormalizeCell(Cell(r, col)))
  }

  /** The table `abbrev(df, col)` leaves behind: same rows in the same order,
      column `col` normalized, every other column as it was. */
  function AbbrevColumn(t: seq<Row>, col: TextColumn): (r: seq<Row>)
    ensures |r| == |t|
    ensures forall i :: 0 <= i < |t| ==> Cell(r[i], col) == NormalizeCell(Cell(t[i], col))
    ensures forall i :: 0 <= i < |t| ==> r[i].percents == t[i].percents
    ensures forall i, other :: 0 <= i < |t| && other != col ==> Cell(r[i], other) == Cell(t[i], other)
  {
    seq(|t|, i requires 0 <= i < |t| => AbbrevRow(t[i], col))
  }

  /** `abbrev` is idempotent: applying it to its own output changes nothing. */
  lemma AbbrevColumnIdempotent(t: seq<Row>, col: TextColumn)
    ensures AbbrevColumn(AbbrevColumn(t, col), col) == AbbrevColumn(t, col)
  {
    var once := AbbrevColumn(t, col);
    forall i | 0 <= i < |t| ensures AbbrevRow(once[i], col) == once[i] {
      NormalizeCellIdempotent(Cell(t[i], col));
    }
  }

  /** When every cell of `col` holds a full name, possibly padded with
      whitespace, `abbrev` leaves in every cell the code of that name: two
      upper-case letters. */
  lemma AbbrevColumnAllCodes(t: seq<Row>, col: TextColumn)
    requires forall i :: 0 <= i < |t| ==> Abbreviation(Strip(Cell(t[i], col))).Some?
    ensures forall i :: 0 <= i < |t| ==>
              Cell(AbbrevColumn(t, col)[i], col) == Abbreviation(Strip(Cell(t[i], col))).value
    ensures forall i :: 0 <= i < |t| ==>
              var c := Cell(AbbrevColumn(t, col)[i], col);
              |c| == 2 && IsUpper(c[0]) && IsUpper(c[1])
  {
    forall i | 0 <= i < |t|
      ensures var c := Cell(AbbrevColumn(t, col)[i], col);
              c == Abbreviation(Strip(Cell(t[i], col))).value && |c| == 2 && IsUpper(c[0]) && IsUpper(c[1])
    {
      AbbreviationIsCode(Strip(Cell(t[i], col)));
    }
  }

  /** Row by row, a cell holding (padded) line `j`'s name of the dictionary
      ends up holding line `j`'s code. */
  lemma AbbrevColumnOfNames(t: seq<Row>, col: TextColumn)
    ensures forall i, j :: 0 <= i < |t| && 0 <= j < |Table| && Strip(Cell(t[i], col)) == Table[j].name ==>
              Cell(AbbrevColumn(t, col)[i], col) == Table[j].code
  {
    forall i, j | 0 <= i < |t| && 0 <= j < |Table| && Strip(Cell(t[i], col)) == Table[j].name
      ensures Cell(AbbrevColumn(t, col)[i], col) == Table[j].code
    {
      NormalizeCellOfName(Cell(t[i], col), j);
    }
  }

  /** `abbrev(df, col)`: rewrites column `col` of `df` row by row and returns
      the same table object. */
  method Abbrev(df: array<Row>, col: TextColumn) returns (result: array<Row>)
    modifies df
    ensures result == df
    ensures df[..] == AbbrevColumn(old(df[..]), col)
  {
    forall i | 0 <= i < df.Length {
      df[i] := AbbrevRow(df[i], col);
    }
    result := df;
    AbbrevColumnAt(old(df[..]), df[..], col);
  }

  /** A table whose every row is the abbreviated row of another is that
      table's `AbbrevColumn`. */
  lemma AbbrevColumnAt(before: seq<Row>, after: seq<Row>, col: TextColumn)
    requires |after| == |before|
    requires forall k :: 0 <= k < |before| ==> after[k] == AbbrevRow(before[k], col)
    ensures after == AbbrevColumn(before, col)
  {
  }
}
