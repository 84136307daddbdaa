# Calculator with history — a Dafny model

This project models a small Python calculator. It has two parts:

- `Calculation` is an immutable record of one performed operation. It holds the operation tag (`"add"`, `"subtract"`, `"multiply"` or `"divide"`), the two operands in call order, and the result. It also renders itself as `"Add: [1, 2] = 3"`.
- `Calculator` offers `add`, `subtract`, `multiply` and `divide`. Each one checks that both operands are numeric (`ValueError`, "Operands must be numeric.") and `divide` also rejects a zero divisor (`ZeroDivisionError`). A successful call appends one `Calculation` to a shared history and returns the result. The history queries are `get_history`, `clear_history`, `get_last_calculation` and `get_calculations_by_type`. `get_last_calculation` raises `IndexError` ("No calculations in history.") when the history is empty.

The behaviour modelled is the behaviour the test suite `tests/test_calculator.py` pins down. Where the tests are silent, the model uses Python's semantics, as stated below.

Modelling choices:

- The history is a process-wide class attribute in Python. Here it is an explicit `History = seq<Calculation>`. Every operation takes the history and returns a `Reply(answer, history)`.
- Python's dynamic operands are a tagged `Value`: `Int`, `Float`, `Str` or `NoneValue`. `IsNumeric` is the numeric check.
- Floats are exact reals. Python's promotion rules are kept. `+`, `-` and `*` on two ints give an int; a float on either side gives a float. True division `/` always gives a float, so `6 / 3` is `Float(2.0)`. Python's numeric equality makes that equal to `2` (`NumEq`).
- Exceptions become `Result.Err` with a closed `Error` type: `InvalidOperand`, `DivisionByZero` and `EmptyHistory`.
- Module `Session` models a run of calls and clears. It proves what the history holds after any such run.

Files: `values.dfy` (operands and Python arithmetic), `calculation.dfy` (the record and its rendering), `calculator.dfy` (operations and history queries), `session.dfy` (runs of calls), `scenarios.dfy` (the test suite's concrete cases).

## Model

| member | source | states |
|---|---|---|
| Values.Plus | tests/test_calculator.py:12-20 | the sum denotes a + b exactly; it is an int exactly when both operands are ints |
| Values.Minus | tests/test_calculator.py:22-30 | the difference denotes a - b exactly; it is an int exactly when both operands are ints |
| Values.Times | tests/test_calculator.py:32-40 | the product denotes a * b exactly; it is an int exactly when both operands are ints |
| Values.Quotient | tests/test_calculator.py:42-50 | true division always yields a float, and the quotient times the divisor gives back the dividend |
| Values.MinusUndoesPlus | tests/test_calculator.py:12-30 | subtracting b after adding b gives back a, up to numeric equality |
| Values.TimesUndoesQuotient | tests/test_calculator.py:42-50 | multiplying a quotient by its non-zero divisor gives back the dividend |
| Calculator.Message | tests/test_calculator.py:94-98 | the invalid-operand error, and only it, carries "Operands must be numeric."; the empty-history error, and only it, carries "No calculations in history." (also matched at lines 116-146) |
| Calculator.Compute | tests/test_calculator.py:42-56 | invalid-operand error exactly when an operand is non-numeric; division error exactly when both are numeric and a divide has a zero divisor; otherwise the exact sum, difference, product or quotient; never the empty-history error |
| Calculator.Perform | tests/test_calculator.py:58-66 | a successful call appends exactly one Calculation with the tag, the operands in call order and the result; a failed call leaves the history unchanged |
| Calculator.Add | tests/test_calculator.py:12-20 | succeeds exactly on two numeric operands, returns a + b and appends an "add" entry; otherwise the invalid-operand error with the history untouched |
| Calculator.Subtract | tests/test_calculator.py:22-30 | succeeds exactly on two numeric operands, returns a - b and appends a "subtract" entry; otherwise the invalid-operand error with the history untouched |
| Calculator.Multiply | tests/test_calculator.py:32-40 | succeeds exactly on two numeric operands, returns a * b and appends a "multiply" entry; otherwise the invalid-operand error with the history untouched |
| Calculator.Divide | tests/test_calculator.py:42-56 | invalid operands are rejected before the zero check; a zero divisor is the division error with no history change; otherwise the quotient times b is a, and a "divide" entry is appended |
| Calculator.TagInjective | tests/test_calculator.py:85-92 | the four operations are stored under four distinct tags |
| Calculator.GetHistory | tests/test_calculator.py:58-66 | returns every recorded entry, unchanged and in the recorded order |
| Calculator.ClearHistory | tests/test_calculator.py:68-73 | the history after clearing is empty whatever it held before |
| Calculator.GetLastCalculation | tests/test_calculator.py:94-98 | succeeds exactly on a non-empty history and returns its final entry; otherwise the empty-history error |
| Calculator.LastIsMostRecent | tests/test_calculator.py:75-83 | after a successful call, the last calculation is that call's entry: its tag, operands in call order, and result |
| Calculator.FailureChangesNothing | tests/test_calculator.py:52-56 | a failed call changes neither the history, nor the last calculation, nor any filtered list |
| Calculator.ClearEmpties | tests/test_calculator.py:68-73 | after a clear the history is empty, the last calculation is the empty-history error, no tag matches, and clearing again changes nothing |
| Calculator.GetCalculationsByType | tests/test_calculator.py:85-92 | every returned entry carries the requested tag, and there are no more of them than history entries |
| Calculator.ByTypeIsSubsequence | tests/test_calculator.py:85-92 | the filtered entries appear in the history in the same order |
| Calculator.ByTypeCounts | tests/test_calculator.py:85-92 | each entry with the tag appears in the result as often as in the history, and entries with other tags do not appear |
| Calculator.ByTypeConcat | tests/test_calculator.py:85-92 | filtering a concatenation of histories is concatenating the filtered parts |
| Calculator.ByTypeAfterPerform | tests/test_calculator.py:85-92 | a new entry goes to the end of its own tag's list and leaves every other tag's list unchanged |
| Calculator.ByTypeTwice | tests/test_calculator.py:85-92 | filtering twice by one tag equals filtering once; filtering by two different tags gives nothing |
| Calculator.ByTypePartition | tests/test_calculator.py:85-92 | when every entry has one of the four tags, the four filtered lists together are as long as the history |
| Session.ExecuteAppendsEntry | tests/test_calculator.py:58-66 | a call appends exactly the entry its arithmetic determines: one entry on success, none on failure |
| Session.RunHistory | tests/test_calculator.py:58-73 | after any run of calls and clears, the history is the starting history (only if nothing was cleared), then one entry per successful call since the last clear, in call order |
| Session.HistoryLength | tests/test_calculator.py:58-66 | the history length is the number of successful calls since the last clear, plus the starting length when there was no clear |
| Session.OnlyGrowsWithoutClear | tests/test_calculator.py:58-66 | without a clear, the earlier history is kept in place as a prefix |
| Session.EndsWithClear | tests/test_calculator.py:68-73 | a run ending with a clear leaves an empty history, whatever came before, and the last calculation is then the empty-history error |
| Calculations.AccessorsReturnStored | tests/test_calculator.py:106-114 | get_operands, get_result and the tag return exactly what the constructor was given |
| Calculations.Calculation.GetOperands | tests/test_calculator.py:106-109 | returns the stored operands unchanged |
| Calculations.Calculation.GetResult | tests/test_calculator.py:111-114 | returns the stored result unchanged |
| Calculations.Capitalize | tests/test_calculator.py:101-104 | the length is unchanged, every character after the first is unchanged, a lower-case first letter becomes the matching upper-case letter, and any other first character stays as it is |
| Calculations.ShowNat | tests/test_calculator.py:101-104 | a non-negative integer is shown as decimal digits, with no leading zero |
| Calculations.ShowInt | tests/test_calculator.py:101-104 | an integer is shown as a numeral (optional minus, then digits), with the minus sign exactly when the integer is negative |
| Calculations.ParseShowInt | tests/test_calculator.py:101-104 | an integer's decimal rendering parses back to the same integer |
| Calculations.Repr | tests/test_calculator.py:101-104 | an int operand renders as a numeral that parses back to it; a float uses the given formatter; a string is quoted; None renders as "None" |
| Calculations.Show | tests/test_calculator.py:101-104 | a string result shows as its own text; any other result shows as its repr |
| Calculations.JoinReprs | tests/test_calculator.py:101-104 | an empty list renders as nothing, a list starts with its first element's repr, and a pair renders as the two reprs separated by ", " |
| Calculations.Render | tests/test_calculator.py:101-104 | the rendering starts with the capitalised tag, then ": [" |
| Scenarios.ArithmeticCases | tests/test_calculator.py:12-40 | add, subtract and multiply give the tabulated integer results |
| Scenarios.DivisionCases | tests/test_calculator.py:42-56 | 6/3 equals 2, -10/2 equals -5, 5/2 is 2.5, and dividing by 0 is the division error |
| Scenarios.InvalidOperandCases | tests/test_calculator.py:116-146 | a string or None in either position (the eight tested calls and their swapped positions) makes all four operations fail with "Operands must be numeric." |
| Scenarios.AddThenSubtractHistory | tests/test_calculator.py:58-92 | after add(1,1) and subtract(2,1) the history has two entries in call order, the last is the subtraction with result 1 and operands [2, 1], and exactly one entry is an "add" |
| Scenarios.AddThenClear | tests/test_calculator.py:68-73 | add(1,1) followed by a clear leaves an empty history |
| Scenarios.LastOnEmpty | tests/test_calculator.py:94-98 | on a cleared history, get_last_calculation is the empty-history error with message "No calculations in history." |
| Scenarios.CalculationCases | tests/test_calculator.py:101-114 | Calculation("add", [1, 2], 3) renders as "Add: [1, 2] = 3", and the accessors return the stored operands and result |

## Left out

- The `calculator` module's own source is not part of this model. Behaviour its test suite does not constrain follows Python's semantics.
- Floating point: floats are exact reals. There is no rounding, no infinity and no NaN. This means `0.1 + 0.2` gives exactly `0.3` here, which Python does not.
- Float formatting: `Render` takes the float-to-text conversion as a parameter (`showFloat`). Python's shortest-repr algorithm is not modelled. Integers are rendered in decimal.
- String escaping in `repr`: a `Str` operand renders as its text between single quotes. Python's escaping rules are not modelled.
- Calculations.Capitalize: upper-cases ASCII letters only, and leaves the rest of the tag untouched. Python's `str.capitalize` would also lower-case the rest; the two agree on the four lower-case tags.
- `bool` operands are not modelled. In Python `True` and `False` are ints and might pass the numeric check, but the tests say nothing about them.
- Calculator.Message: the text for `DivisionByZero` is a placeholder, because the tests check only the error kind there. The contract fixes only the two messages the tests match.
- Mixed-type division result: an implementation could return an int for evenly divisible ints. The model follows Python's `/`, which always gives a float. The test values (`6/3 == 2`, `-10/2 == -5`) hold under numeric equality either way.
- Shared class-level history across `Calculator` instances: the history is explicit state passed in and returned, so there are no instances.
- Test-harness plumbing (pytest fixtures, parametrisation) and the `isinstance(history[i], Calculation)` checks: the datatype guarantees these.
