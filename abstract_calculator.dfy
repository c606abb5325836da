/**
 * The skeleton shared by both calculators: the immutable state, digit entry, the arithmetic
 * with its overflow policy, clearing and the screen. The two key handlers that differ between
 * the calculators (operators and '=') live in modules SimpleCalculator and SmartCalculator, and
 * the key dispatcher in module Calculator.
 */
module AbstractCalculator {
  import opened Wrappers
  import opened Int32
  import opened Decimal

  /** One calculator snapshot. Each of the three slots carries a flag saying whether the screen
      leaves it out ("empty"); an empty slot may still hold a value the calculator remembers.
      `result` says that the first operand is the outcome of a completed operation. */
  datatype Calc = Calc(
    firstOp: int32, firstEmpty: bool,
    operator: char, operatorEmpty: bool,
    secondOp: int32, secondEmpty: bool,
    result: bool)

  /** The character stored in an operator slot that holds no operator. */
  const NO_OPERATOR: char := '0'

  predicate IsOperator(ch: char) {
    ch == '+' || ch == '-' || ch == '*'
  }

  /** The calculator a client creates: every slot empty and zero, and no result. */
  function NewCalculator(): (c: Calc)
    ensures c.firstEmpty && c.operatorEmpty && c.secondEmpty && !c.result
    ensures c.firstOp == 0 && c.secondOp == 0
    ensures GetResult(c) == ""
  {
    Calc(0, true, NO_OPERATOR, true, 0, true, false)
  }

  /** A lone first operand `n` that was typed, not computed: what digit entry produces. */
  function Typed(n: int32): Calc {
    Calc(n, false, NO_OPERATOR, true, 0, true, false)
  }

  /** Appends the digit `addition` to `original`, refusing (the source throws) when either the
      multiplication by ten or the addition leaves the 32-bit range. */
  function Combine(original: int32, addition: int32): (r: Option<int32>)
    ensures r.Some? <==> InRange(original * 10) && InRange(original * 10 + addition)
    ensures r.Some? ==> r.value == original * 10 + addition
  {
    match Exact(original * 10)
    case None => None
    case Some(shifted) => Exact(shifted + addition)
  }

  /** The unbounded value of `a op b` for the three operator keys. */
  function Arith(op: char, a: int, b: int): int
    requires IsOperator(op)
  {
    if op == '+' then a + b else if op == '-' then a - b else a * b
  }

  /** Applies the operator `op`, which callers always take from the state's operator slot, never
      from the key being handled. An exact result that leaves the 32-bit range becomes 0, and a
      slot holding no operator yields -1. */
  function PerformOperation(op: char, operand1: int32, operand2: int32): (r: int32)
    ensures IsOperator(op) && InRange(Arith(op, operand1, operand2)) ==> r == Arith(op, operand1, operand2)
    ensures IsOperator(op) && !InRange(Arith(op, operand1, operand2)) ==> r == 0
    ensures !IsOperator(op) ==> r == -1
  {
    var exact :=
      if op == '+' then Exact(operand1 + operand2)
      else if op == '-' then Exact(operand1 - operand2)
      else if op == '*' then Exact(operand1 * operand2)
      else Some(-1);
    if exact.Some? then exact.value else 0
  }

  /** A digit key, `button` being its value. */
  function HandleNumber(c: Calc, button: int): (r: Option<Calc>)
    requires 0 <= button <= 9
    // After a result, or on a blank calculator, the digit starts a new computation.
    ensures c.result || c.firstEmpty ==> r == Some(Typed(button))
    // While the first operand is being typed, the digit is appended to it, unless that overflows.
    ensures !c.result && !c.firstEmpty && c.operatorEmpty ==>
      (r.Some? <==> Combine(c.firstOp, button).Some?) &&
      (r.Some? ==> r.value == Typed(c.firstOp * 10 + button))
    // Once an operator is shown, the digit goes to the second operand and the screen shows it.
    ensures !c.result && !c.firstEmpty && !c.operatorEmpty && !c.secondEmpty ==>
      (r.Some? <==> Combine(c.secondOp, button).Some?) &&
      (r.Some? ==> GetResult(r.value) == IntToString(c.firstOp) + [c.operator] + IntToString(c.secondOp * 10 + button))
    ensures !c.result && !c.firstEmpty && !c.operatorEmpty && c.secondEmpty ==>
      r.Some? && GetResult(r.value) == IntToString(c.firstOp) + [c.operator] + [DigitChar(button)]
    ensures r.Some? ==> !r.value.result && !r.value.firstEmpty
  {
    if c.result || c.firstEmpty then
      Some(Typed(button))
    else if c.operatorEmpty then
      match Combine(c.firstOp, button)
      case None => None
      case Some(n) => Some(Typed(n))
    else if !c.secondEmpty then
      match Combine(c.secondOp, button)
      case None => None
      case Some(n) => Some(Calc(c.firstOp, false, c.operator, false, n, false, false))
    else
      Some(Calc(c.firstOp, false, c.operator, false, button, false, false))
  }

  /** The 'C' key: back to the state of a new calculator, whatever came before. */
  function HandleClear(): (r: Calc)
    ensures r == NewCalculator()
    ensures GetResult(r) == ""
  {
    NewCalculator()
  }

  /** The screen: nothing while the first slot is empty, otherwise the first operand in decimal,
      then the operator if it is shown, then the second operand if it and the operator are shown. */
  function GetResult(c: Calc): (screen: string)
    ensures screen == "" <==> c.firstEmpty
    ensures !c.firstEmpty ==> IntToString(c.firstOp) <= screen
  {
    if c.firstEmpty then
      ""
    else
      IntToString(c.firstOp) +
      (if c.operatorEmpty then "" else [c.operator] + (if c.secondEmpty then "" else IntToString(c.secondOp)))
  }

  /** What holds of every state a calculator can reach from a new one. */
  predicate Valid(c: Calc) {
    // a blank calculator holds zeros in both operand slots
    && (c.firstEmpty ==> c.operatorEmpty && c.firstOp == 0 && c.secondOp == 0)
    // no second operand is shown without an operator
    && (c.operatorEmpty ==> c.secondEmpty)
    && (!c.operatorEmpty ==> IsOperator(c.operator))
    // typed operands are never negative
    && (!c.secondEmpty ==> c.secondOp >= 0)
    && (!c.result && c.operatorEmpty ==> c.firstOp >= 0)
    // a result stands alone on the screen
    && (c.result ==> !c.firstEmpty && c.operatorEmpty)
    // a negative (remembered) second operand only ever follows '='
    && (c.secondOp < 0 ==> c.result)
  }

  lemma NewCalculatorValid()
    ensures Valid(NewCalculator())
  {
  }

  /** The screen reads only the three slots and their flags, never `result`. */
  lemma GetResultIgnoresResult(c: Calc, b: bool)
    ensures GetResult(c.(result := b)) == GetResult(c)
  {
  }
}
