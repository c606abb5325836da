/**
 * Short key sequences over any operands: one complete operation in either calculator, and the
 * two ways the calculators treat an operator that follows an operand or another operator.
 */
module Sessions {
  import opened Wrappers
  import opened Int32
  import opened Decimal
  import opened AbstractCalculator
  import opened Calculator
  import opened DigitEntry
  import opened RepeatedEquals
  import SmartCalculator

  /** The state an operator key leaves when a lone first operand is shown. */
  function AwaitingSecond(c: Calc, op: char): Calc {
    Calc(c.firstOp, false, op, false, 0, true, false)
  }

  lemma OperatorOnLoneFirst(v: Variant, c: Calc, op: char)
    requires Valid(c) && !c.firstEmpty && c.operatorEmpty && IsOperator(op)
    ensures Input(v, c, op) == Some(AwaitingSecond(c, op))
  {
  }

  lemma EqualsOnBothOperands(v: Variant, d: Calc)
    requires !d.result && !d.firstEmpty && !d.operatorEmpty && !d.secondEmpty
    requires d.secondOp >= 0 && IsOperator(d.operator)
    ensures Input(v, d, '=').Some?
    ensures Input(v, d, '=').value.result
    ensures GetResult(Input(v, d, '=').value) == IntToString(PerformOperation(d.operator, d.firstOp, d.secondOp))
  {
    var p := PerformOperation(d.operator, d.firstOp, d.secondOp);
    match v
    case Simple =>
      assert Input(v, d, '=') == Some(Calc(p, false, NO_OPERATOR, true, 0, true, true));
    case Smart =>
      if d.firstOp == 0 && d.secondOp == 0 {
        assert p == 0;
        assert Input(v, d, '=') == Some(Calc(0, false, NO_OPERATOR, true, 0, true, true));
      } else {
        assert Input(v, d, '=') == Some(SmartCalculator.Completed(p, d.operator, Negate(d.secondOp)));
      }
  }

  /** With a lone first operand x shown (typed, or the result of an earlier '='), an operator,
      the digits of y and '=' show x op y in both calculators. After a result this continues
      from it: "... = + 5828 =" adds 5828 to the total. */
  lemma OneOperation(v: Variant, c: Calc, op: char, ds: string)
    requires Valid(c) && !c.firstEmpty && c.operatorEmpty && IsOperator(op)
    requires ds != [] && AllDigits(ds) && Value(ds) <= MAX
    ensures Run(v, c, [op] + ds + "=").Some?
    ensures Run(v, c, [op] + ds + "=").value.result
    ensures GetResult(Run(v, c, [op] + ds + "=").value) == IntToString(PerformOperation(op, c.firstOp, Value(ds)))
  {
    var d := AwaitingSecond(c, op);
    OperatorOnLoneFirst(v, c, op);
    RunSingle(v, c, op);
    RunAppend(v, c, [op], ds);
    TypingSecondOperand(v, d, ds);
    RunSnoc(v, c, [op] + ds, '=');
    EqualsOnBothOperands(v, WithSecond(d, Value(ds)));
  }

  /** The basic calculator, "x op1 y op2": the operation runs with op1 and op2 waits. */
  lemma SimpleChainsOperators(c: Calc, op: char)
    requires !c.secondEmpty && IsOperator(op)
    ensures Input(Simple, c, op).Some?
    ensures GetResult(Input(Simple, c, op).value) ==
      IntToString(PerformOperation(c.operator, c.firstOp, c.secondOp)) + [op]
  {
  }

  /** The extended calculator, "x op1 op2": the second operator replaces the first. */
  lemma SmartReplacesOperator(c: Calc, op1: char, op2: char)
    requires Valid(c) && !c.firstEmpty && c.operatorEmpty && IsOperator(op1) && IsOperator(op2)
    ensures Run(Smart, c, [op1, op2]) == Some(AwaitingSecond(c, op2))
  {
    var d := AwaitingSecond(c, op1);
    OperatorOnLoneFirst(Smart, c, op1);
    assert Input(Smart, d, op2) == Some(AwaitingSecond(c, op2));
    assert [op1, op2] == [op1] + [op2];
    RunSingle(Smart, c, op1);
    RunSnoc(Smart, c, [op1], op2);
  }
}
