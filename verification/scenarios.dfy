/**
 The concrete cases the calculator's test suite pins down, stated over the
 model. Every case starts from an arbitrary history `h0` that the fixture
 clears, as `Calculator.clear_history()` does before each test.
 */
module Scenarios {
  import opened Values
  import opened Calculations
  import opened Calculator
  import opened Session

  /** `add`, `subtract` and `multiply` on the tabulated integer pairs. */
  lemma ArithmeticCases(h0: History)
    ensures Add(Int(1), Int(2), ClearHistory(h0)).answer == Ok(Int(3))
    ensures Add(Int(5), Int(3), ClearHistory(h0)).answer == Ok(Int(8))
    ensures Add(Int(-1), Int(-1), ClearHistory(h0)).answer == Ok(Int(-2))
    ensures Subtract(Int(5), Int(3), ClearHistory(h0)).answer == Ok(Int(2))
    ensures Subtract(Int(10), Int(5), ClearHistory(h0)).answer == Ok(Int(5))
    ensures Subtract(Int(0), Int(0), ClearHistory(h0)).answer == Ok(Int(0))
    ensures Multiply(Int(2), Int(3), ClearHistory(h0)).answer == Ok(Int(6))
    ensures Multiply(Int(-1), Int(5), ClearHistory(h0)).answer == Ok(Int(-5))
    ensures Multiply(Int(0), Int(5), ClearHistory(h0)).answer == Ok(Int(0))
  {
  }

  /** `divide` on the tabulated pairs, compared with Python's numeric `==`;
      dividing by zero is the division error. */
  lemma DivisionCases(h0: History)
    ensures Divide(Int(6), Int(3), ClearHistory(h0)).answer.Ok?
    ensures NumEq(Divide(Int(6), Int(3), ClearHistory(h0)).answer.value, Int(2))
    ensures Divide(Int(-10), Int(2), ClearHistory(h0)).answer.Ok?
    ensures NumEq(Divide(Int(-10), Int(2), ClearHistory(h0)).answer.value, Int(-5))
    ensures Divide(Int(5), Int(2), ClearHistory(h0)).answer == Ok(Float(2.5))
    ensures Divide(Int(6), Int(0), ClearHistory(h0)).answer == Err(DivisionByZero)
  {
  }

  /** A string or `None` in either position makes every operation fail with
      the invalid-operand error. */
  lemma InvalidOperandCases(h: History)
    ensures Add(Str("string"), Int(2), h).answer == Err(InvalidOperand)
    ensures Add(Int(2), NoneValue, h).answer == Err(InvalidOperand)
    ensures Subtract(Str("string"), Int(2), h).answer == Err(InvalidOperand)
    ensures Subtract(Int(2), NoneValue, h).answer == Err(InvalidOperand)
    ensures Multiply(Str("string"), Int(2), h).answer == Err(InvalidOperand)
    ensures Multiply(Int(2), NoneValue, h).answer == Err(InvalidOperand)
    ensures Divide(Str("string"), Int(2), h).answer == Err(InvalidOperand)
    ensures Divide(Int(2), NoneValue, h).answer == Err(InvalidOperand)
    ensures Add(NoneValue, Int(2), h).answer == Err(InvalidOperand)
    ensures Add(Int(2), Str("string"), h).answer == Err(InvalidOperand)
    ensures Subtract(NoneValue, Int(2), h).answer == Err(InvalidOperand)
    ensures Subtract(Int(2), Str("string"), h).answer == Err(InvalidOperand)
    ensures Multiply(NoneValue, Int(2), h).answer == Err(InvalidOperand)
    ensures Multiply(Int(2), Str("string"), h).answer == Err(InvalidOperand)
    ensures Divide(NoneValue, Int(2), h).answer == Err(InvalidOperand)
    ensures Divide(Int(2), Str("string"), h).answer == Err(InvalidOperand)
    ensures Message(InvalidOperand) == "Operands must be numeric."
  {
  }

  /** The calls `add(1, 1)` then `subtract(2, 1)` after the fixture's clear. */
  function AddThenSubtract(): seq<Command> {
    [Clear, Call(Addition, Int(1), Int(1)), Call(Subtraction, Int(2), Int(1))]
  }

  /** After `add(1, 1)` and `subtract(2, 1)`: two entries, in call order; the
      last one is the subtraction with result 1 and operands [2, 1]; exactly
      one entry is an addition. */
  lemma AddThenSubtractHistory(h0: History)
    ensures |GetHistory(Run(h0, AddThenSubtract()))| == 2
    ensures GetHistory(Run(h0, AddThenSubtract()))
      == [Calculation("add", [Int(1), Int(1)], Int(2)),
          Calculation("subtract", [Int(2), Int(1)], Int(1))]
    ensures GetLastCalculation(Run(h0, AddThenSubtract()))
      == Ok(Calculation("subtract", [Int(2), Int(1)], Int(1)))
    ensures |GetCalculationsByType(Run(h0, AddThenSubtract()), "add")| == 1
    ensures GetCalculationsByType(Run(h0, AddThenSubtract()), "add")[0].operation == "add"
  {
    var cmds := AddThenSubtract();
    assert cmds[..2][..1] == [Clear];
  }

  /** `add(1, 1)` followed by `clear_history()` leaves nothing. */
  lemma AddThenClear(h0: History)
    ensures GetHistory(Run(h0, [Clear, Call(Addition, Int(1), Int(1)), Clear])) == []
  {
    EndsWithClear(h0, [Clear, Call(Addition, Int(1), Int(1))]);
  }

  /** On a cleared history `get_last_calculation()` is the empty-history
      error with its fixed message. */
  lemma LastOnEmpty(h0: History)
    ensures GetLastCalculation(ClearHistory(h0)) == Err(EmptyHistory)
    ensures Message(EmptyHistory) == "No calculations in history."
  {
  }

  /** A `Calculation` built by hand: accessors and rendering. */
  lemma CalculationCases(showFloat: real -> string)
    ensures Render(Calculation("add", [Int(1), Int(2)], Int(3)), showFloat) == "Add: [1, 2] = 3"
    ensures Calculation("subtract", [Int(5), Int(3)], Int(2)).GetOperands() == [Int(5), Int(3)]
    ensures Calculation("multiply", [Int(2), Int(3)], Int(6)).GetResult() == Int(6)
  {
  }
}
