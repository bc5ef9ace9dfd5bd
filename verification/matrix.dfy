/**
  The dense two-dimensional container `mat<T>`: construction with fixed
  dimensions, `fill`, and `print`.

  The C++ class keeps `n_rows`, `n_cols` and a `T**` array of rows. Here a
  matrix is an immutable value holding the two dimensions and the rows as a
  `seq<seq<T>>`; an operation that mutates in place returns the new value, and
  a `const` operation takes the value and returns nothing of it, so it cannot
  change the grid or its dimensions.
 */
module Matrix {
  import opened Text

  datatype Mat<T> = Mat(nRows: nat, nCols: nat, data: seq<seq<T>>)
  {
    /** The storage holds exactly `nRows` rows of `nCols` cells each. */
    predicate Valid() {
      |data| == nRows && forall i :: 0 <= i < |data| ==> |data[i]| == nCols
    }
  }

  /** Every cell of a well-shaped matrix equals `v`. */
  ghost predicate AllCells<T>(m: Mat<T>, v: T)
    requires m.Valid()
  {
    forall i, j :: 0 <= i < m.nRows && 0 <= j < m.nCols ==> m.data[i][j] == v
  }

  // ---------------------------------------------------------------------------
  // Construction
  // ---------------------------------------------------------------------------

  /**
    `mat(n_rows, n_cols)`: records the dimensions and allocates `nRows` rows of
    `nCols` cells, one row per loop iteration. Zero is allowed for either
    dimension. `init` stands for the value a default-initialised `T` holds.
   */
  method Create<T>(nRows: nat, nCols: nat, init: T) returns (m: Mat<T>)
    ensures m.Valid()
    ensures m.nRows == nRows && m.nCols == nCols
    ensures AllCells(m, init)
  {
    var data: seq<seq<T>> := [];
    var i := 0;
    while i < nRows
      invariant i <= nRows
      invariant |data| == i
      invariant forall k :: 0 <= k < i ==> |data[k]| == nCols
      invariant forall k, l :: 0 <= k < i && 0 <= l < nCols ==> data[k][l] == init
    {
      data := data + [seq(nCols, _ => init)];
      i := i + 1;
    }
    m := Mat(nRows, nCols, data);
  }

  // ---------------------------------------------------------------------------
  // fill
  // ---------------------------------------------------------------------------

  /** Reference definition of the matrix `fill(value)` leaves behind. */
  function Filled<T>(m: Mat<T>, value: T): (r: Mat<T>)
    ensures r.Valid()
    ensures r.nRows == m.nRows && r.nCols == m.nCols
    ensures AllCells(r, value)
  {
    Mat(m.nRows, m.nCols, seq(m.nRows, _ => seq(m.nCols, _ => value)))
  }

  /**
    A well-shaped matrix is determined by its shape and its cells: any matrix
    of the given shape whose every cell is `value` is `Filled(m, value)`.
   */
  lemma FilledUnique<T>(m: Mat<T>, r: Mat<T>, value: T)
    requires r.Valid()
    requires r.nRows == m.nRows && r.nCols == m.nCols
    requires AllCells(r, value)
    ensures r == Filled(m, value)
  {
    var f := Filled(m, value);
    forall i | 0 <= i < r.nRows
      ensures r.data[i] == f.data[i]
    {
      assert |r.data[i]| == |f.data[i]|;
    }
  }

  /**
    `fill(value)`: overwrites every cell, row by row and cell by cell. The
    dimensions are unchanged and only the contents differ.
   */
  method Fill<T>(m: Mat<T>, value: T) returns (r: Mat<T>)
    requires m.Valid()
    ensures r.Valid()
    ensures r.nRows == m.nRows && r.nCols == m.nCols
    ensures AllCells(r, value)
    ensures r == Filled(m, value)
  {
    var data := m.data;
    var i := 0;
    while i < m.nRows
      invariant i <= m.nRows
      invariant |data| == m.nRows
      invariant forall k :: 0 <= k < |data| ==> |data[k]| == m.nCols
      invariant forall k, l :: 0 <= k < i && 0 <= l < m.nCols ==> data[k][l] == value
    {
      var j := 0;
      while j < m.nCols
        invariant j <= m.nCols
        invariant |data| == m.nRows
        invariant forall k :: 0 <= k < |data| ==> |data[k]| == m.nCols
        invariant forall k, l :: 0 <= k < i && 0 <= l < m.nCols ==> data[k][l] == value
        invariant forall l :: 0 <= l < j ==> data[i][l] == value
      {
        data := data[i := data[i][j := value]];
        j := j + 1;
      }
      i := i + 1;
    }
    r := Mat(m.nRows, m.nCols, data);
    FilledUnique(m, r, value);
  }

  /**
    Two fills in a row: the last one wins, whatever the first wrote, and so
    filling twice with the same value is the same as filling once.
   */
  lemma FillLastWins<T>(m: Mat<T>, v: T, w: T)
    requires m.Valid()
    ensures Filled(Filled(m, v), w) == Filled(m, w)
    ensures AllCells(Filled(Filled(m, v), w), w)
    ensures Filled(Filled(m, v), v) == Filled(m, v)
  {
  }

  // ---------------------------------------------------------------------------
  // print
  // ---------------------------------------------------------------------------

  /** The text of one row's elements, each followed by a space. */
  function RowText<T>(row: seq<T>, show: T -> string): string
    decreases |row|
  {
    if |row| == 0 then "" else RowText(row[..|row| - 1], show) + show(row[|row| - 1]) + " "
  }

  /**
    The printed line of one row: its elements, then a line break after the
    last element. A row with no elements prints nothing, not even the break.
   */
  function Line<T>(row: seq<T>, show: T -> string): string {
    if |row| == 0 then "" else RowText(row, show) + "\n"
  }

  /** The rows printed one after another, in row-major order. */
  function GridText<T>(rows: seq<seq<T>>, show: T -> string): string
    decreases |rows|
  {
    if |rows| == 0 then "" else GridText(rows[..|rows| - 1], show) + Line(rows[|rows| - 1], show)
  }

  /**
    The fixed part of the diagnostic, after the call site. It is spelled in
    three pieces so that the verifier can see each is free of line breaks.
   */
  const Unsupported := " Provided template" + " argument does not support" + " the << operator with std::ostream."

  /**
    The diagnostic printed for an element type that does not satisfy the
    `printable` concept (`std::cout << value` yielding `std::ostream&`),
    without its line break; it names the call site's file and line.
   */
  function DiagnosticLine(file: string, line: nat): string {
    "PRINT IGNORED (" + file + " -> L" + DecimalText(line) + "):" + Unsupported
  }

  /** The diagnostic as written, ended by `std::endl`. */
  function Diagnostic(file: string, line: nat): string {
    DiagnosticLine(file, line) + "\n"
  }

  /** What `print` writes to the console, and the flag it returns. */
  datatype PrintOutcome = PrintOutcome(text: string, ok: bool)

  /**
    The behaviour of `print` as a pure function of the grid, whether the
    element type is printable, and the call site. The diagnostic sits inside
    the cell loop, so a matrix without cells reports success and prints
    nothing even when its element type is not printable.
   */
  function Printed<T>(m: Mat<T>, printable: bool, file: string, line: nat, show: T -> string): PrintOutcome
    requires m.Valid()
  {
    if printable then PrintOutcome(GridText(m.data, show), true)
    else if m.nRows == 0 || m.nCols == 0 then PrintOutcome("", true)
    else PrintOutcome(Diagnostic(file, line), false)
  }

  lemma RowTextStep<T>(row: seq<T>, j: nat, show: T -> string)
    requires j < |row|
    ensures RowText(row[..j + 1], show) == RowText(row[..j], show) + show(row[j]) + " "
  {
    assert row[..j + 1][..j] == row[..j];
  }

  lemma GridTextStep<T>(rows: seq<seq<T>>, i: nat, show: T -> string)
    requires i < |rows|
    ensures GridText(rows[..i + 1], show) == GridText(rows[..i], show) + Line(rows[i], show)
  {
    assert rows[..i + 1][..i] == rows[..i];
  }

  /**
    `print()`. The printability test is `if constexpr`, decided by the
    element type alone and never by the cells, so each instantiation of the
    C++ template runs one of two loops; `printable` picks which.
   */
  method Print<T>(m: Mat<T>, printable: bool, file: string, line: nat, show: T -> string)
    returns (out: string, ok: bool)
    requires m.Valid()
    ensures PrintOutcome(out, ok) == Printed(m, printable, file, line, show)
  {
    if printable {
      out := PrintElements(m, show);
      ok := true;
    } else {
      out, ok := PrintIgnored(m, file, line);
    }
  }

  /**
    `print()` for a printable element type: walks the cells in row-major
    order, writing each element and a space, and a line break after the last
    cell of each row.
   */
  method PrintElements<T>(m: Mat<T>, show: T -> string) returns (out: string)
    requires m.Valid()
    ensures out == GridText(m.data, show)
  {
    out := "";
    var i := 0;
    while i < m.nRows
      invariant i <= m.nRows
      invariant out == GridText(m.data[..i], show)
    {
      var text := PrintRow(m.data[i], show);
      GridTextStep(m.data, i, show);
      out := out + text;
      i := i + 1;
    }
    assert m.data[..i] == m.data;
  }

  /**
    The inner loop of `print()` for a printable element type: each cell of
    one row and a space, then a line break once the last cell is written.
   */
  method PrintRow<T>(row: seq<T>, show: T -> string) returns (text: string)
    ensures text == Line(row, show)
  {
    text := "";
    var j := 0;
    while j < |row|
      invariant j <= |row|
      invariant text == RowText(row[..j], show) + (if 0 < j == |row| then "\n" else "")
    {
      RowTextStep(row, j, show);
      text := text + show(row[j]) + " ";
      if j == |row| - 1 {
        text := text + "\n";
      }
      j := j + 1;
    }
    assert row[..j] == row;
  }

  /**
    `print()` for an element type that is not printable: the first cell
    visited writes the diagnostic and returns `false` at once; a matrix with
    no cells leaves both loops without writing anything and returns `true`.
   */
  method PrintIgnored<T>(m: Mat<T>, file: string, line: nat) returns (out: string, ok: bool)
    requires m.Valid()
    ensures ok <==> m.nRows == 0 || m.nCols == 0
    ensures ok ==> out == ""
    ensures !ok ==> out == Diagnostic(file, line)
  {
    out := "";
    var i := 0;
    while i < m.nRows
      invariant i <= m.nRows
      invariant out == ""
      invariant i == 0 || m.nCols == 0
    {
      for j := 0 to m.nCols
        invariant j == 0
        invariant out == ""
      {
        out := out + Diagnostic(file, line);
        return out, false;
      }
      i := i + 1;
    }
    ok := true;
  }

  /** Rows printed in sequence: the text of two blocks of rows is the text of each, in order. */
  lemma {:induction false} GridTextAppend<T>(a: seq<seq<T>>, b: seq<seq<T>>, show: T -> string)
    ensures GridText(a + b, show) == GridText(a, show) + GridText(b, show)
    decreases |b|
  {
    if |b| > 0 {
      var b', last := b[..|b| - 1], b[|b| - 1];
      var ab := a + b;
      assert ab[..|ab| - 1] == a + b';
      assert ab[|ab| - 1] == last;
      assert GridText(ab, show) == GridText(a + b', show) + Line(last, show);
      assert GridText(b, show) == GridText(b', show) + Line(last, show);
      GridTextAppend(a, b', show);
    } else {
      assert a + b == a;
    }
  }

  /** Rows with no cells print nothing at all. */
  lemma {:induction false} GridTextOfEmptyRows<T>(rows: seq<seq<T>>, show: T -> string)
    requires forall i :: 0 <= i < |rows| ==> |rows[i]| == 0
    ensures GridText(rows, show) == ""
    decreases |rows|
  {
    if |rows| > 0 {
      GridTextOfEmptyRows(rows[..|rows| - 1], show);
    }
  }

  /**
    A matrix with no rows or no columns prints nothing and reports success,
    whether or not its element type is printable.
   */
  lemma PrintEmptyIsSilent<T>(m: Mat<T>, printable: bool, file: string, line: nat, show: T -> string)
    requires m.Valid()
    requires m.nRows == 0 || m.nCols == 0
    ensures Printed(m, printable, file, line, show) == PrintOutcome("", true)
  {
    GridTextOfEmptyRows(m.data, show);
  }

  /** A row's element text holds no line break when none of its cells' texts does. */
  lemma {:induction false} RowTextIsOneLine<T>(row: seq<T>, show: T -> string)
    requires forall j :: 0 <= j < |row| ==> OneLine(show(row[j]))
    ensures OneLine(RowText(row, show))
    decreases |row|
  {
    if |row| > 0 {
      var x := row[|row| - 1];
      RowTextIsOneLine(row[..|row| - 1], show);
      OneLineAppend(RowText(row[..|row| - 1], show), show(x));
      OneLineAppend(RowText(row[..|row| - 1], show) + show(x), " ");
    }
  }

  /** Each row of `n > 0` cells contributes exactly one line break. */
  lemma {:induction false} GridTextLineCount<T>(rows: seq<seq<T>>, n: nat, show: T -> string)
    requires forall i, j :: 0 <= i < |rows| && 0 <= j < |rows[i]| ==> OneLine(show(rows[i][j]))
    requires n > 0
    requires forall i :: 0 <= i < |rows| ==> |rows[i]| == n
    ensures Newlines(GridText(rows, show)) == |rows|
    decreases |rows|
  {
    if |rows| > 0 {
      var last := rows[|rows| - 1];
      GridTextLineCount(rows[..|rows| - 1], n, show);
      RowTextIsOneLine(last, show);
      OneLineHasNoNewlines(RowText(last, show));
      NewlinesAppend(RowText(last, show), "\n");
      NewlinesAppend(GridText(rows[..|rows| - 1], show), Line(last, show));
    }
  }

  /**
    For a printable element type `print` succeeds and writes one line per
    row when the matrix has columns (and no cell's text breaks a line).
   */
  lemma PrintableWritesOneLinePerRow<T>(m: Mat<T>, file: string, line: nat, show: T -> string)
    requires m.Valid()
    requires m.nCols > 0
    requires forall i, j :: 0 <= i < m.nRows && 0 <= j < m.nCols ==> OneLine(show(m.data[i][j]))
    ensures Printed(m, true, file, line, show).ok
    ensures Newlines(Printed(m, true, file, line, show).text) == m.nRows
  {
    GridTextLineCount(m.data, m.nCols, show);
  }

  /** The fixed message holds no line break. */
  lemma UnsupportedIsOneLine()
    ensures OneLine(Unsupported)
  {
  }

  /** The diagnostic is a single line when the file name is. */
  lemma DiagnosticIsOneLine(file: string, line: nat)
    requires OneLine(file)
    ensures OneLine(DiagnosticLine(file, line))
    ensures Newlines(Diagnostic(file, line)) == 1
  {
    var d := DecimalText(line);
    DecimalTextIsOneLine(line);
    UnsupportedIsOneLine();
    assert OneLine("PRINT IGNORED (") && OneLine(" -> L") && OneLine("):");
    OneLineAppend("PRINT IGNORED (", file);
    OneLineAppend("PRINT IGNORED (" + file, " -> L");
    OneLineAppend("PRINT IGNORED (" + file + " -> L", d);
    OneLineAppend("PRINT IGNORED (" + file + " -> L" + d, "):");
    OneLineAppend("PRINT IGNORED (" + file + " -> L" + d + "):", Unsupported);
    OneLineHasNoNewlines(DiagnosticLine(file, line));
    NewlinesAppend(DiagnosticLine(file, line), "\n");
  }

  /**
    For an element type that is not printable and a matrix with cells,
    `print` fails and writes the diagnostic and its line break, nothing else;
    what it writes depends only on the call site, never on the cells, their
    number or the element text.
   */
  lemma NonPrintableWritesDiagnostic<T>(m: Mat<T>, m': Mat<T>, file: string, line: nat,
                                        show: T -> string, show': T -> string)
    requires m.Valid() && m'.Valid()
    requires m.nRows > 0 && m.nCols > 0 && m'.nRows > 0 && m'.nCols > 0
    ensures !Printed(m, false, file, line, show).ok
    ensures Printed(m, false, file, line, show).text == DiagnosticLine(file, line) + "\n"
    ensures Printed(m, false, file, line, show) == Printed(m', false, file, line, show')
  {
    var d := Diagnostic(file, line);
    assert Printed(m, false, file, line, show) == PrintOutcome(d, false);
    assert Printed(m', false, file, line, show') == PrintOutcome(d, false);
  }

  /**
    The same, counting lines: when the file name holds no line break, what
    `print` writes is exactly one line.
   */
  lemma NonPrintableWritesOneDiagnostic<T>(m: Mat<T>, m': Mat<T>, file: string, line: nat,
                                           show: T -> string, show': T -> string)
    requires m.Valid() && m'.Valid()
    requires m.nRows > 0 && m.nCols > 0 && m'.nRows > 0 && m'.nCols > 0
    requires OneLine(file)
    ensures !Printed(m, false, file, line, show).ok
    ensures Printed(m, false, file, line, show).text == DiagnosticLine(file, line) + "\n"
    ensures Newlines(Printed(m, false, file, line, show).text) == 1
    ensures Printed(m, false, file, line, show) == Printed(m', false, file, line, show')
  {
    NonPrintableWritesDiagnostic(m, m', file, line, show, show');
    DiagnosticIsOneLine(file, line);
  }

  /** A concrete case: a 2 x 2 matrix of 1s prints "1 1 " twice, each on its own line. */
  lemma PrintTwoByTwoOfOnes()
    ensures var m: Mat<nat> := Mat(2, 2, [[1, 1], [1, 1]]);
            Printed(m, true, "main.cpp", 7, DecimalText) == PrintOutcome("1 1 \n1 1 \n", true)
  {
    var m: Mat<nat> := Mat(2, 2, [[1, 1], [1, 1]]);
    var row := m.data[0];
    assert DecimalText(1) == "1";
    assert row[..1][..0] == [];
    assert RowText(row[..1], DecimalText) == "1 ";
    assert row[..2] == row;
    assert RowText(row, DecimalText) == "1 1 ";
    assert m.data[..1] == [row];
    assert m.data[..1][..0] == [];
    assert GridText(m.data[..1], DecimalText) == "1 1 \n";
  }
}
