/**
 The `Calculation` record: one performed operation, stored verbatim, and its
 rendering as `"<Tag>: [op1, op2] = result"`.
 */
module Calculations {
  import opened Values

  /** An immutable record of one operation. The constructor stores its
      arguments as given; it neither recomputes nor revalidates them. */
  datatype Calculation = Calculation(operation: string, operands: seq<Value>, result: Value)
  {
    /** `get_operands()`: the stored operands, unchanged. */
    function GetOperands(): (r: seq<Value>)
      ensures r == operands
    {
      operands
    }

    /** `get_result()`: the stored result, unchanged. */
    function GetResult(): (r: Value)
      ensures r == result
    {
      result
    }
  }

  /** The accessors hand back exactly what the constructor was given. */
  lemma AccessorsReturnStored(op: string, xs: seq<Value>, res: Value)
    ensures Calculation(op, xs, res).GetOperands() == xs
    ensures Calculation(op, xs, res).GetResult() == res
    ensures Calculation(op, xs, res).operation == op
  {
  }

  // ---------------------------------------------------------------------
  // Rendering

  /** ASCII upper-casing of one character. */
  function Upper(c: char): char {
    if 'a' <= c <= 'z' then (c as int - 'a' as int + 'A' as int) as char else c
  }

  /** The tag with its first letter capitalised and the rest untouched. */
  function Capitalize(s: string): (r: string)
    ensures |r| == |s|
    ensures forall k :: 0 < k < |s| ==> r[k] == s[k]
    ensures |s| > 0 && 'a' <= s[0] <= 'z' ==>
      'A' <= r[0] <= 'Z' && r[0] as int - 'A' as int == s[0] as int - 'a' as int
    ensures |s| > 0 && !('a' <= s[0] <= 'z') ==> r[0] == s[0]
  {
    if s == [] then [] else [Upper(s[0])] + s[1..]
  }

  /** Capitalising twice is capitalising once. */
  lemma CapitalizeIdempotent(s: string)
    ensures Capitalize(Capitalize(s)) == Capitalize(s)
  {
  }

  function DigitChar(d: nat): char
    requires d < 10
  {
    ('0' as int + d) as char
  }

  predicate IsDigit(c: char) {
    '0' <= c <= '9'
  }

  function DigitValue(c: char): nat
    requires IsDigit(c)
  {
    c as int - '0' as int
  }

  /** Python's `str(n)` for a non-negative integer: its decimal digits,
      without leading zeros. */
  function ShowNat(n: nat): (r: string)
    ensures |r| >= 1
    ensures forall k :: 0 <= k < |r| ==> IsDigit(r[k])
    ensures r[0] == '0' ==> r == "0"
    decreases n
  {
    if n < 10 then [DigitChar(n)] else ShowNat(n / 10) + [DigitChar(n % 10)]
  }

  /** An optional minus sign followed by at least one decimal digit. */
  predicate IsNumeral(s: string) {
    |s| >= 1
    && (s[0] == '-' ==> |s| >= 2)
    && forall k :: (if s[0] == '-' then 1 else 0) <= k < |s| ==> IsDigit(s[k])
  }

  /** Python's `str(n)` for any integer. */
  function ShowInt(n: int): (r: string)
    ensures IsNumeral(r)
    ensures r[0] == '-' <==> n < 0
  {
    if n < 0 then "-" + ShowNat(-n) else ShowNat(n)
  }

  /** Reads a string of decimal digits back as a number. */
  function ParseNat(s: string): nat
    requires forall k :: 0 <= k < |s| ==> IsDigit(s[k])
    decreases |s|
  {
    if s == [] then 0 else ParseNat(s[..|s| - 1]) * 10 + DigitValue(s[|s| - 1])
  }

  /** Reads an optionally negated decimal numeral back as an integer. */
  function ParseInt(s: string): int
    requires IsNumeral(s)
  {
    if s[0] == '-' then -(ParseNat(s[1..]) as int) else ParseNat(s)
  }

  /** The decimal rendering loses nothing: parsing it gives back the number. */
  lemma {:induction false} ParseShowNat(n: nat)
    ensures ParseNat(ShowNat(n)) == n
    decreases n
  {
    if n >= 10 {
      var s := ShowNat(n);
      assert s[..|s| - 1] == ShowNat(n / 10);
      ParseShowNat(n / 10);
    }
  }

  /** The same for signed integers. */
  lemma ParseShowInt(n: int)
    ensures ParseInt(ShowInt(n)) == n
  {
    if n < 0 {
      assert ShowInt(n)[1..] == ShowNat(-n);
      ParseShowNat(-n);
    } else {
      ParseShowNat(n);
    }
  }

  /** Python's `repr(v)`, used for the elements of the operand list. The
      formatting of floats is a parameter; string escaping is not modelled. */
  function Repr(v: Value, showFloat: real -> string): (r: string)
    ensures v.Int? ==> IsNumeral(r) && ParseInt(r) == v.i
    ensures v.Float? ==> r == showFloat(v.f)
    ensures v.Str? ==> |r| == |v.s| + 2 && r[0] == '\'' == r[|r| - 1] && r[1..|r| - 1] == v.s
    ensures v.NoneValue? ==> r == "None"
  {
    match v
    case Int(i) => ParseShowInt(i); ShowInt(i)
    case Float(f) => showFloat(f)
    case Str(s) => "'" + s + "'"
    case NoneValue => "None"
  }

  /** Python's `str(v)`, used for the result: a string shows without quotes,
      every other value as its `repr`. */
  function Show(v: Value, showFloat: real -> string): (r: string)
    ensures v.Str? ==> r == v.s
    ensures !v.Str? ==> r == Repr(v, showFloat)
  {
    if v.Str? then v.s else Repr(v, showFloat)
  }

  /** The elements of a list, separated by `", "`. */
  function JoinReprs(xs: seq<Value>, showFloat: real -> string): (r: string)
    ensures xs == [] ==> r == ""
    ensures |xs| >= 1 ==>
      |r| >= |Repr(xs[0], showFloat)| && r[..|Repr(xs[0], showFloat)|] == Repr(xs[0], showFloat)
    ensures |xs| == 2 ==> r == Repr(xs[0], showFloat) + ", " + Repr(xs[1], showFloat)
    decreases |xs|
  {
    if xs == [] then ""
    else if |xs| == 1 then Repr(xs[0], showFloat)
    else Repr(xs[0], showFloat) + ", " + JoinReprs(xs[1..], showFloat)
  }

  /** `str(calculation)`: `"<Tag>: [op1, op2] = result"`. */
  function Render(c: Calculation, showFloat: real -> string): (r: string)
    ensures |r| > |c.operation| + 2
    ensures r[..|c.operation| + 2] == Capitalize(c.operation) + ": "
    ensures r[|c.operation| + 2] == '['
  {
    Capitalize(c.operation) + ": [" + JoinReprs(c.operands, showFloat) + "] = "
      + Show(c.result, showFloat)
  }
}
