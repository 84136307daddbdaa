/**
 The `Calculator` facade: four validated binary operations that record each
 successful call in a history, and the queries over that history. The
 history, a process-wide class attribute of the Python `Calculator`, is
 passed in and handed back explicitly.
 */
module Calculator {
  import opened Values
  import opened Calculations

  /** The ordered log of performed operations, oldest first. */
  type History = seq<Calculation>

  /** The three error kinds the calculator raises. */
  datatype Error =
    | InvalidOperand   // ValueError
    | DivisionByZero   // ZeroDivisionError
    | EmptyHistory     // IndexError

  /** The text each error carries. The division-by-zero text is a placeholder:
      only the error kind is fixed for that case. */
  function Message(e: Error): (r: string)
    ensures r == "Operands must be numeric." <==> e == InvalidOperand
    ensures r == "No calculations in history." <==> e == EmptyHistory
  {
    match e
    case InvalidOperand => "Operands must be numeric."
    case DivisionByZero => "division by zero"
    case EmptyHistory => "No calculations in history."
  }

  datatype Result<+T> = Ok(value: T) | Err(error: Error)

  /** What a call returns to its caller together with the history after it. */
  datatype Reply<+T> = Reply(answer: Result<T>, history: History)

  datatype Operation = Addition | Subtraction | Multiplication | Division

  /** The tag a `Calculation` of this operation is stored under. */
  function Tag(op: Operation): string {
    match op
    case Addition => "add"
    case Subtraction => "subtract"
    case Multiplication => "multiply"
    case Division => "divide"
  }

  /** Distinct operations are stored under distinct tags. */
  lemma TagInjective(op1: Operation, op2: Operation)
    ensures Tag(op1) == Tag(op2) <==> op1 == op2
  {
  }

  /** The exact arithmetic each operation stands for, on the numbers the
      operands denote. */
  function Exact(op: Operation, x: real, y: real): real
    requires op == Division ==> y != 0.0
  {
    match op
    case Addition => x + y
    case Subtraction => x - y
    case Multiplication => x * y
    case Division => x / y
  }

  /** Validation, then the zero-divisor check, then the arithmetic. */
  function Compute(op: Operation, a: Value, b: Value): (r: Result<Value>)
    ensures r == Err(InvalidOperand) <==> !IsNumeric(a) || !IsNumeric(b)
    ensures r == Err(DivisionByZero) <==>
      op == Division && IsNumeric(a) && IsNumeric(b) && AsReal(b) == 0.0
    ensures r.Ok? ==> IsNumeric(r.value) && AsReal(r.value) == Exact(op, AsReal(a), AsReal(b))
    ensures r.Ok? && op != Division ==> (r.value.Int? <==> a.Int? && b.Int?)
    ensures r.Ok? && op == Division ==> r.value.Float?
    ensures r != Err(EmptyHistory)
  {
    if !IsNumeric(a) || !IsNumeric(b) then Err(InvalidOperand)
    else
      match op
      case Addition => Ok(Plus(a, b))
      case Subtraction => Ok(Minus(a, b))
      case Multiplication => Ok(Times(a, b))
      case Division => if AsReal(b) == 0.0 then Err(DivisionByZero) else Ok(Quotient(a, b))
  }

  /** One arithmetic call: on success the history gains exactly one
      `Calculation` at its end, recording the tag, the operands in call order
      and the result; on failure the history is untouched. */
  function Perform(op: Operation, a: Value, b: Value, h: History): (r: Reply<Value>)
    ensures r.answer == Compute(op, a, b)
    ensures r.answer.Ok? ==>
      r.history == h + [Calculation(Tag(op), [a, b], r.answer.value)]
    ensures r.answer.Err? ==> r.history == h
  {
    match Compute(op, a, b)
    case Ok(v) => Reply(Ok(v), h + [Calculation(Tag(op), [a, b], v)])
    case Err(e) => Reply(Err(e), h)
  }

  /** `add(a, b)`. */
  function Add(a: Value, b: Value, h: History): (r: Reply<Value>)
    ensures r.answer.Ok? <==> IsNumeric(a) && IsNumeric(b)
    ensures r.answer.Err? ==> r.answer.error == InvalidOperand && r.history == h
    ensures r.answer.Ok? ==>
      IsNumeric(r.answer.value) && AsReal(r.answer.value) == AsReal(a) + AsReal(b)
      && r.history == h + [Calculation("add", [a, b], r.answer.value)]
  {
    Perform(Addition, a, b, h)
  }

  /** `subtract(a, b)`. */
  function Subtract(a: Value, b: Value, h: History): (r: Reply<Value>)
    ensures r.answer.Ok? <==> IsNumeric(a) && IsNumeric(b)
    ensures r.answer.Err? ==> r.answer.error == InvalidOperand && r.history == h
    ensures r.answer.Ok? ==>
      IsNumeric(r.answer.value) && AsReal(r.answer.value) == AsReal(a) - AsReal(b)
      && r.history == h + [Calculation("subtract", [a, b], r.answer.value)]
  {
    Perform(Subtraction, a, b, h)
  }

  /** `multiply(a, b)`. */
  function Multiply(a: Value, b: Value, h: History): (r: Reply<Value>)
    ensures r.answer.Ok? <==> IsNumeric(a) && IsNumeric(b)
    ensures r.answer.Err? ==> r.answer.error == InvalidOperand && r.history == h
    ensures r.answer.Ok? ==>
      IsNumeric(r.answer.value) && AsReal(r.answer.value) == AsReal(a) * AsReal(b)
      && r.history == h + [Calculation("multiply", [a, b], r.answer.value)]
  {
    Perform(Multiplication, a, b, h)
  }

  /** `divide(a, b)`: the operand check comes first, then the zero check. */
  function Divide(a: Value, b: Value, h: History): (r: Reply<Value>)
    ensures !IsNumeric(a) || !IsNumeric(b) ==> r == Reply(Err(InvalidOperand), h)
    ensures IsNumeric(a) && IsNumeric(b) && AsReal(b) == 0.0 ==>
      r == Reply(Err(DivisionByZero), h)
    ensures r.answer.Ok? <==> IsNumeric(a) && IsNumeric(b) && AsReal(b) != 0.0
    ensures r.answer.Ok? ==>
      IsNumeric(b) && IsNumeric(r.answer.value) && AsReal(r.answer.value) * AsReal(b) == AsReal(a)
      && r.history == h + [Calculation("divide", [a, b], r.answer.value)]
  {
    Perform(Division, a, b, h)
  }

  // ---------------------------------------------------------------------
  // History queries

  /** `get_history()`: every recorded calculation, oldest first. */
  function GetHistory(h: History): (r: History)
    ensures |r| == |h| && forall k :: 0 <= k < |r| ==> r[k] == h[k]
  {
    h
  }

  /** `clear_history()`: the history after clearing, whatever it held. */
  function ClearHistory(h: History): (r: History)
    ensures |r| == 0
  {
    []
  }

  /** `get_last_calculation()`: the newest entry, or the empty-history error. */
  function GetLastCalculation(h: History): (r: Result<Calculation>)
    ensures r.Ok? <==> |h| > 0
    ensures r.Ok? ==> r.value == h[|h| - 1]
    ensures r.Err? ==> r.error == EmptyHistory
  {
    if |h| == 0 then Err(EmptyHistory) else Ok(h[|h| - 1])
  }

  /** `xs` occurs in `ys` in the same order, possibly with gaps. */
  predicate Subsequence<T(==)>(xs: seq<T>, ys: seq<T>)
    decreases |ys|
  {
    xs == []
    || (ys != []
        && ((xs[0] == ys[0] && Subsequence(xs[1..], ys[1..])) || Subsequence(xs, ys[1..])))
  }

  /** `get_calculations_by_type(tag)`: the entries stored under `tag`, in
      their original order. */
  function GetCalculationsByType(h: History, tag: string): (r: History)
    ensures forall k :: 0 <= k < |r| ==> r[k].operation == tag
    ensures |r| <= |h|
    decreases |h|
  {
    if h == [] then []
    else if h[0].operation == tag then [h[0]] + GetCalculationsByType(h[1..], tag)
      else GetCalculationsByType(h[1..], tag)
  }

  // ---------------------------------------------------------------------
  // Properties relating the operations

  /** The most recently appended entry is what `get_last_calculation` returns:
      its tag, its operands in call order and its result. */
  lemma LastIsMostRecent(op: Operation, a: Value, b: Value, h: History)
    requires Compute(op, a, b).Ok?
    ensures GetLastCalculation(Perform(op, a, b, h).history)
      == Ok(Calculation(Tag(op), [a, b], Compute(op, a, b).value))
  {
  }

  /** A failed call leaves everything a query can see unchanged. */
  lemma FailureChangesNothing(op: Operation, a: Value, b: Value, h: History, tag: string)
    requires Compute(op, a, b).Err?
    ensures GetHistory(Perform(op, a, b, h).history) == GetHistory(h)
    ensures GetLastCalculation(Perform(op, a, b, h).history) == GetLastCalculation(h)
    ensures GetCalculationsByType(Perform(op, a, b, h).history, tag)
      == GetCalculationsByType(h, tag)
  {
  }

  /** After a clear nothing is left: the history is empty, the last
      calculation is the empty-history error, and no tag matches. Clearing
      again changes nothing. */
  lemma ClearEmpties(h: History, tag: string)
    ensures GetHistory(ClearHistory(h)) == []
    ensures GetLastCalculation(ClearHistory(h)) == Err(EmptyHistory)
    ensures GetCalculationsByType(ClearHistory(h), tag) == []
    ensures ClearHistory(ClearHistory(h)) == ClearHistory(h)
  {
  }

  /** Filtering distributes over concatenation of histories. */
  lemma {:induction false} ByTypeConcat(h1: History, h2: History, tag: string)
    ensures GetCalculationsByType(h1 + h2, tag)
      == GetCalculationsByType(h1, tag) + GetCalculationsByType(h2, tag)
    decreases |h1|
  {
    if h1 != [] {
      var h := h1 + h2;
      assert h[0] == h1[0];
      assert h[1..] == h1[1..] + h2;
      ByTypeConcat(h1[1..], h2, tag);
    } else {
      assert h1 + h2 == h2;
    }
  }

  /** The filtered list keeps the history's order: it is a subsequence. */
  lemma {:induction false} ByTypeIsSubsequence(h: History, tag: string)
    ensures Subsequence(GetCalculationsByType(h, tag), h)
    decreases |h|
  {
    if h != [] {
      ByTypeIsSubsequence(h[1..], tag);
    }
  }

  /** The filtered list holds every entry stored under the tag, as many times
      as the history does, and nothing else. */
  lemma {:induction false} ByTypeCounts(h: History, tag: string, c: Calculation)
    ensures multiset(GetCalculationsByType(h, tag))[c]
      == if c.operation == tag then multiset(h)[c] else 0
    decreases |h|
  {
    if h != [] {
      assert h == [h[0]] + h[1..];
      ByTypeCounts(h[1..], tag, c);
    }
  }

  /** A new entry appears at the end of the filtered list for its own tag and
      leaves every other tag's list unchanged. */
  lemma ByTypeAfterPerform(op: Operation, a: Value, b: Value, h: History, tag: string)
    requires Compute(op, a, b).Ok?
    ensures tag == Tag(op) ==>
      GetCalculationsByType(Perform(op, a, b, h).history, tag)
        == GetCalculationsByType(h, tag) + [Calculation(Tag(op), [a, b], Compute(op, a, b).value)]
    ensures tag != Tag(op) ==>
      GetCalculationsByType(Perform(op, a, b, h).history, tag) == GetCalculationsByType(h, tag)
  {
    var c := Calculation(Tag(op), [a, b], Compute(op, a, b).value);
    ByTypeConcat(h, [c], tag);
  }

  /** Filtering twice by the same tag is filtering once; filtering by two
      different tags leaves nothing. */
  lemma {:induction false} ByTypeTwice(h: History, tag: string, other: string)
    ensures GetCalculationsByType(GetCalculationsByType(h, tag), tag)
      == GetCalculationsByType(h, tag)
    ensures other != tag ==>
      GetCalculationsByType(GetCalculationsByType(h, tag), other) == []
    decreases |h|
  {
    if h != [] {
      ByTypeTwice(h[1..], tag, other);
    }
  }

  /** Every entry of the history lies in exactly one of the four filtered
      lists when all entries carry one of the four tags. */
  lemma {:induction false} ByTypePartition(h: History)
    requires forall k :: 0 <= k < |h| ==>
      h[k].operation in {"add", "subtract", "multiply", "divide"}
    ensures |GetCalculationsByType(h, "add")| + |GetCalculationsByType(h, "subtract")|
      + |GetCalculationsByType(h, "multiply")| + |GetCalculationsByType(h, "divide")| == |h|
    decreases |h|
  {
    if h != [] {
      ByTypePartition(h[1..]);
    }
  }
}
