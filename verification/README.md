# mat: a dense two-dimensional container, in Dafny

This project models the generic C++ class template `mat<T>` of the lawcat
repository (`src/mat.cpp`). A `mat<T>` records its dimensions `n_rows` and
`n_cols` and owns `n_rows` heap-allocated rows of `n_cols` cells. It offers
three operations:

- the constructor, which fixes the dimensions and allocates the rows;
- `fill(value)`, which overwrites every cell;
- `print()`, which writes the grid to standard output and returns a success
  flag. For an element type that does not satisfy the `printable` concept
  (`std::cout << value` must yield exactly `std::ostream&`), and a matrix with
  at least one cell, it writes one diagnostic line that names the call site,
  and returns `false`.

The model has two modules.

- `Matrix` (`matrix.dfy`) holds the datatype `Mat<T>`. It is an immutable
  value with `nRows`, `nCols` and the rows as `seq<seq<T>>`. `Mat.Valid()`
  is the storage invariant: `nRows` rows of `nCols` cells each. `fill`
  returns the new value in place of mutating the old one. `print` is
  `const` in C++. Here it is a method over a value that returns only the
  output text and the flag, so the grid and its dimensions are unchanged by
  construction. The pure function `Printed` states what `print` writes and
  returns. The method `Print` follows the C++ loops and is proved to agree
  with `Printed`.
- `Text` (`text.dfy`) holds the decimal rendering of the call-site line
  number and its inverse, and the "one line" predicate used to state that
  the diagnostic is a single line.

Two of the C++ inputs become parameters:

- `show: T -> string` is the text `operator<<` writes for an element.
- `printable: bool` says whether `T` satisfies the `printable` concept.

In C++ the printability branch is an `if constexpr`, so the element type
decides it and the cells never do. `Print` therefore dispatches once on
`printable`, to `PrintElements` (the loops of the printable instantiation) or
to `PrintIgnored` (the loops of the other one).

Two details of the code matter.

- The call site is written `(<file> -> L<line>)` (src/mat.cpp:53-55).
- The diagnostic is written inside the cell loop. So a matrix with no rows or
  no columns prints nothing and returns `true` even when `T` is not
  printable (src/mat.cpp:45-58, 65).

## Model

| member | source | states |
|---|---|---|
| Matrix.Create | src/mat.cpp:32-40 | Construction with `(r, c)` gives `nRows == r` and `nCols == c`. Storage has exactly `r` rows of `c` cells, every cell holds the default-initialised value, and zero is allowed for either dimension. |
| Matrix.Fill | src/mat.cpp:69-74 | After `fill(v)` every cell `(i, j)` with `i < nRows`, `j < nCols` equals `v`. The dimensions and the storage shape are unchanged. The result is the reference `Filled(m, v)`. |
| Matrix.FilledUnique | src/mat.cpp:69-74 | A matrix of a given shape whose every cell is `v` is exactly the result of `fill(v)`. So the result of `fill` does not depend on the previous contents. |
| Matrix.FillLastWins | src/mat.cpp:71-73 | `fill(v)` followed by `fill(w)` leaves every cell equal to `w`, the same as `fill(w)` alone. `fill(v)` twice equals `fill(v)` once. |
| Matrix.Print | src/mat.cpp:43-66 | What `print` writes and returns equals the pure `Printed`. For printable `T` that is the row-major rendering and `true`. For other `T` it is nothing and `true` when the matrix has no cells, and otherwise the diagnostic line and `false`. |
| Matrix.PrintElements | src/mat.cpp:45-64 | For printable `T` the loops write, row after row, each row's line: every element's text followed by a space, then a line break after the last element. |
| Matrix.PrintRow | src/mat.cpp:47-63 | One pass of the inner loop writes each cell's text and a space, then a line break when the last column is reached. An empty row writes nothing. |
| Matrix.PrintIgnored | src/mat.cpp:45-65 | Both loops as written; the inner one returns on its first cell. For non-printable `T`, `print` returns `true` exactly when there are no rows or no columns, and then writes nothing. Otherwise it writes the diagnostic once and returns `false`. |
| Matrix.GridTextAppend | src/mat.cpp:45-64 | The output is row-major: printing rows `a` then rows `b` writes the text of `a` followed by the text of `b`. |
| Matrix.GridTextOfEmptyRows | src/mat.cpp:47-63 | Rows without cells contribute no text, not even a line break. |
| Matrix.PrintEmptyIsSilent | src/mat.cpp:45-65 | A matrix with `nRows == 0` or `nCols == 0` prints nothing and returns `true`, whether or not `T` is printable. |
| Matrix.PrintableWritesOneLinePerRow | src/mat.cpp:49-62 | For printable `T` and `nCols > 0`, `print` returns `true` and writes exactly `nRows` line breaks, one per row, provided no cell of this matrix renders with a line break. The condition is on the matrix's own cells, so it applies to matrices of strings. |
| Matrix.DiagnosticIsOneLine | src/mat.cpp:53-57 | The diagnostic `PRINT IGNORED (<file> -> L<line>): Provided template argument ...` has no line break before its final `std::endl`. So it holds exactly one line break, when the file name has none. |
| Matrix.NonPrintableWritesDiagnostic | src/mat.cpp:49-58 | For non-printable `T` and a matrix with cells, `print` returns `false`. It writes the diagnostic line and a line break, and nothing else. No element text is written. The text is the same for every such matrix, whatever its cells, size or element text. These facts hold for every file name, and the text depends only on the file name and line. |
| Matrix.NonPrintableWritesOneDiagnostic | src/mat.cpp:49-58 | The same facts, and when the file name has no line break, the text holds exactly one line break. |
| Matrix.PrintTwoByTwoOfOnes | src/mat.cpp:45-65 | A concrete case: a 2 x 2 matrix of `1`s prints `"1 1 \n1 1 \n"` and returns `true`. |
| Text.DecimalText | src/mat.cpp:54-55 | The call-site line number is written as decimal digits. There is at least one digit, and the leading digit is `0` only for zero. |
| Text.DecimalRoundTrip | src/mat.cpp:54-55 | The decimal text of the line number reads back as that line number, so the diagnostic identifies the call site's line. |

## Left out

- `operator+` (src/mat.cpp:85-91) is not modelled. When the shapes match it returns the integer `1` where a `mat<T>` is expected. When they differ it falls off the end without a return, which is undefined behaviour. There is no addition semantics in the code to model. `set`, `get`, subtraction and the compound assignments do not exist in this source, so they are not modelled either.
- Copies of a `mat` are not modelled. The class declares a destructor but no copy constructor or copy assignment (src/mat.cpp:14-29), so a C++ copy duplicates the `T** data` pointer. After `mat b = a; b.fill(v);` the cells of `a` change too, and both destructors delete the same rows (src/mat.cpp:77-82). A Dafny value cannot share storage, so this aliasing is not shown.
- Memory management is not modelled: the raw `new[]`/`delete[]` and the destructor (src/mat.cpp:36-39, 77-82). Storage is a `seq<seq<T>>` owned by the value, and allocation failure is out of scope.
- Matrix.Create: `new T[n_cols]` default-initialises the cells. For class types that is `T`'s default constructor. For scalar types the values are indeterminate. Both are modelled as one caller-supplied value `init`, so the model does not capture indeterminate contents.
- Standard output is not modelled as a stream. The output of `print` is returned as a string. `std::endl` is modelled as `"\n"`, and its flush is not modelled.
- The text `operator<<` writes for an element is the parameter `show`. It is not derived from `T`.
- `std::source_location` capture and the `printable` concept (src/mat.cpp:8-12, 27) are not modelled. The file name, line number and printability are plain parameters.
- `size_t` dimensions are unbounded `nat`s. The loops never overflow their counters. The one subtraction `n_cols - 1` (src/mat.cpp:61) is reached only when `n_cols > 0`, so its wrap-around at zero never matters.
- Matrix.PrintableWritesOneLinePerRow counts lines only when no cell of the matrix renders with a line break. Matrix.NonPrintableWritesOneDiagnostic and Matrix.DiagnosticIsOneLine count them only when the file name contains none. Otherwise those texts add line breaks of their own. The exact output text is still stated for every input by Matrix.Print.
