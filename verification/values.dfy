/**
 The operands the calculator receives. Python is dynamically typed, so an
 operand may be an integer, a float, a string, `None`, and so on; the
 calculator accepts the numeric ones and rejects the rest. Floats are
 modelled as exact reals, so there is no rounding anywhere in this model.
 */
module Values {

  /** A Python value as passed to the calculator. */
  datatype Value =
    | Int(i: int)
    | Float(f: real)
    | Str(s: string)
    | NoneValue

  /** Python's `isinstance(v, (int, float))`. */
  predicate IsNumeric(v: Value) {
    v.Int? || v.Float?
  }

  /** The number a numeric value denotes. */
  function AsReal(v: Value): real
    requires IsNumeric(v)
  {
    if v.Int? then v.i as real else v.f
  }

  /** Python's `==` on numbers compares values: `2.0 == 2` holds. */
  predicate NumEq(x: Value, y: Value)
    requires IsNumeric(x) && IsNumeric(y)
  {
    AsReal(x) == AsReal(y)
  }

  /** Python's `a + b`: exact on two ints, promoted to float otherwise. */
  function Plus(a: Value, b: Value): (r: Value)
    requires IsNumeric(a) && IsNumeric(b)
    ensures IsNumeric(r) && AsReal(r) == AsReal(a) + AsReal(b)
    ensures r.Int? <==> a.Int? && b.Int?
  {
    if a.Int? && b.Int? then Int(a.i + b.i) else Float(AsReal(a) + AsReal(b))
  }

  /** Python's `a - b`: exact on two ints, promoted to float otherwise. */
  function Minus(a: Value, b: Value): (r: Value)
    requires IsNumeric(a) && IsNumeric(b)
    ensures IsNumeric(r) && AsReal(r) == AsReal(a) - AsReal(b)
    ensures r.Int? <==> a.Int? && b.Int?
  {
    if a.Int? && b.Int? then Int(a.i - b.i) else Float(AsReal(a) - AsReal(b))
  }

  /** Python's `a * b`: exact on two ints, promoted to float otherwise. */
  function Times(a: Value, b: Value): (r: Value)
    requires IsNumeric(a) && IsNumeric(b)
    ensures IsNumeric(r) && AsReal(r) == AsReal(a) * AsReal(b)
    ensures r.Int? <==> a.Int? && b.Int?
  {
    if a.Int? && b.Int? then Int(a.i * b.i) else Float(AsReal(a) * AsReal(b))
  }

  /** Python's true division `a / b`: always a float, even for two ints. */
  function Quotient(a: Value, b: Value): (r: Value)
    requires IsNumeric(a) && IsNumeric(b) && AsReal(b) != 0.0
    ensures r.Float?
    ensures AsReal(r) * AsReal(b) == AsReal(a)
  {
    Float(AsReal(a) / AsReal(b))
  }

  /** Minus undoes Plus, up to Python's numeric equality. */
  lemma MinusUndoesPlus(a: Value, b: Value)
    requires IsNumeric(a) && IsNumeric(b)
    ensures NumEq(Minus(Plus(a, b), b), a)
  {
  }

  /** Multiplying the quotient back by the divisor gives the dividend. */
  lemma TimesUndoesQuotient(a: Value, b: Value)
    requires IsNumeric(a) && IsNumeric(b) && AsReal(b) != 0.0
    ensures NumEq(Times(Quotient(a, b), b), a)
  {
  }
}
