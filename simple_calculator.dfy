/**
 * The basic calculator's operator and '=' keys. An operation runs only once both operands have
 * been typed, and repeating '=' after a result changes nothing.
 */
module SimpleCalculator {
  import opened Wrappers
  import opened Int32
  import opened Decimal
  import opened AbstractCalculator

  /** The '=' key. */
  function HandleEquals(c: Calc): (r: Option<Calc>)
    // accepted only right after a result or once a second operand is shown
    ensures r.Some? <==> c.result || !c.secondEmpty
    // a further '=' after a result is the same calculator
    ensures c.result ==> r == Some(c)
    // otherwise the stored operation runs and its value stands alone on the screen as a result
    ensures !c.result && r.Some? ==>
      && r.value.result
      && r.value.operatorEmpty && r.value.secondEmpty
      && r.value.firstOp == PerformOperation(c.operator, c.firstOp, c.secondOp)
      && GetResult(r.value) == IntToString(r.value.firstOp)
  {
    if c.result then
      Some(c)
    else if !c.secondEmpty then
      Some(Calc(PerformOperation(c.operator, c.firstOp, c.secondOp), false, NO_OPERATOR, true, 0, true, true))
    else
      None
  }

  /** An operator key, `button` being '+', '-' or '*'. */
  function HandleOperator(c: Calc, button: char): (r: Option<Calc>)
    // accepted with both operands shown, or with a lone first operand and no operator
    ensures r.Some? <==> !c.secondEmpty || (!c.firstEmpty && c.operatorEmpty)
    // with both operands shown, the pending operation runs with the operator it was typed with
    ensures !c.secondEmpty ==>
      && r.Some?
      && GetResult(r.value) == IntToString(PerformOperation(c.operator, c.firstOp, c.secondOp)) + [button]
    ensures c.secondEmpty && r.Some? ==> GetResult(r.value) == IntToString(c.firstOp) + [button]
    // the key pressed becomes the pending operator, waiting for a second operand
    ensures r.Some? ==> r.value.operator == button && r.value.secondEmpty && !r.value.result
  {
    if !c.secondEmpty then
      Some(Calc(PerformOperation(c.operator, c.firstOp, c.secondOp), false, button, false, 0, true, false))
    else if !c.firstEmpty && c.operatorEmpty then
      Some(Calc(c.firstOp, false, button, false, 0, true, false))
    else
      None
  }
}
