/**
 * The extended calculator's operator and '=' keys. Operators may replace one another, '+' may
 * come first, and '=' repeats the last operation. To repeat it, the calculator remembers the
 * second operand by storing its negation, flagged empty, in the second slot: typed operands are
 * never negative, so a negative second slot marks a remembered operand.
 */
module SmartCalculator {
  import opened Wrappers
  import opened Int32
  import opened Decimal
  import opened AbstractCalculator

  /** The value stored in the hidden second slot when an operator key runs a pending operation:
      the character '0' widened to an int. */
  const CHAR_ZERO_CODE: int32 := '0' as int

  /** An operator key, `button` being '+', '-' or '*'. */
  function HandleOperator(c: Calc, button: char): (r: Option<Calc>)
    // refused only on a blank calculator, and there only for '-' and '*'
    ensures r.Some? <==> c.result || !c.secondEmpty || !c.firstEmpty || button == '+'
    // after a result, the result becomes the first operand of a new operation
    ensures c.result ==> r.Some? && GetResult(r.value) == IntToString(c.firstOp) + [button]
    // with both operands shown, the pending operation runs with the operator it was typed with
    ensures !c.result && !c.secondEmpty ==>
      && r.Some?
      && GetResult(r.value) == IntToString(PerformOperation(c.operator, c.firstOp, c.secondOp)) + [button]
      && r.value.secondOp == CHAR_ZERO_CODE
    // with a first operand shown, the key sets the operator or replaces the one shown
    ensures !c.result && c.secondEmpty && !c.firstEmpty ==>
      && r.Some?
      && GetResult(r.value) == IntToString(c.firstOp) + [button]
    // a '+' on a blank calculator leaves it as it is
    ensures !c.result && c.secondEmpty && c.firstEmpty && button == '+' ==> r == Some(c)
    ensures r.Some? && r != Some(c) ==> r.value.operator == button && r.value.secondEmpty && !r.value.result
  {
    if c.result then
      Some(Calc(c.firstOp, false, button, false, 0, true, false))
    else if !c.secondEmpty then
      Some(Calc(PerformOperation(c.operator, c.firstOp, c.secondOp), false, button, false, CHAR_ZERO_CODE, true, false))
    else if !c.firstEmpty then
      Some(Calc(c.firstOp, false, button, false, 0, true, false))
    else if button == '+' then
      Some(c)
    else
      None
  }

  /** The state '=' produces: `value` shown as a result, the operator kept (hidden) for repeats,
      and `memory` in the hidden second slot. */
  function Completed(value: int32, operator: char, memory: int32): Calc {
    Calc(value, false, operator, true, memory, true, true)
  }

  /** The '=' key. */
  function HandleEquals(c: Calc): (r: Option<Calc>)
    // refused only when neither value is zero-and-zero, nothing is remembered, no second operand
    // is shown and no operator is shown
    ensures r.Some? <==>
      (c.firstOp == 0 && c.secondOp == 0) || c.secondOp < 0 || !c.secondEmpty || !c.operatorEmpty
    // an accepted '=' always leaves a lone result on the screen
    ensures r.Some? ==> r.value.result && GetResult(r.value) == IntToString(r.value.firstOp)
    // zero with zero is zero, whatever the operator and the flags, a blank calculator included
    ensures c.firstOp == 0 && c.secondOp == 0 ==> r == Some(Calc(0, false, NO_OPERATOR, true, 0, true, true))
    // a remembered operand is applied again, and stays remembered
    ensures !(c.firstOp == 0 && c.secondOp == 0) && c.secondOp < 0 ==>
      r == Some(Completed(PerformOperation(c.operator, c.firstOp, Negate(c.secondOp)), c.operator, c.secondOp))
    // a shown second operand is applied, and remembered negated
    ensures !(c.firstOp == 0 && c.secondOp == 0) && c.secondOp >= 0 && !c.secondEmpty ==>
      r == Some(Completed(PerformOperation(c.operator, c.firstOp, c.secondOp), c.operator, Negate(c.secondOp)))
    // with no second operand, the first operand is applied to itself, and remembered negated
    ensures !(c.firstOp == 0 && c.secondOp == 0) && c.secondOp >= 0 && c.secondEmpty && !c.operatorEmpty ==>
      r == Some(Completed(PerformOperation(c.operator, c.firstOp, c.firstOp), c.operator, Negate(c.firstOp)))
  {
    if c.firstOp == 0 && c.secondOp == 0 then
      Some(Calc(0, false, NO_OPERATOR, true, 0, true, true))
    else if c.secondOp < 0 then
      Some(Completed(PerformOperation(c.operator, c.firstOp, Negate(c.secondOp)), c.operator, c.secondOp))
    else if !c.secondEmpty then
      Some(Completed(PerformOperation(c.operator, c.firstOp, c.secondOp), c.operator, Negate(c.secondOp)))
    else if !c.operatorEmpty then
      Some(Completed(PerformOperation(c.operator, c.firstOp, c.firstOp), c.operator, Negate(c.firstOp)))
    else
      None
  }
}
