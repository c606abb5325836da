/**
 * Pressing '=' again and again. The basic calculator shows the same result each time; the
 * extended one applies the last operation once more per press, using the operand it remembers in
 * sign-encoded form. The encoding works for positive operands (and, through the wrap-around of
 * the negation, for the minimum int), but a remembered 0 or a negative operand is lost.
 */
module RepeatedEquals {
  import opened Wrappers
  import opened Int32
  import opened Decimal
  import opened AbstractCalculator
  import opened Calculator
  import opened SmartCalculator

  /** `n` presses of '='. */
  function EqualsKeys(n: nat): (keys: string)
    ensures |keys| == n
  {
    if n == 0 then "" else "=" + EqualsKeys(n - 1)
  }

  /** Reference for repetition: starting from `x`, apply `op` with the operand `m` `n` times,
      each time under the overflow policy of PerformOperation. */
  function Repeat(op: char, x: int32, m: int32, n: nat): int32
    decreases n
  {
    if n == 0 then x else Repeat(op, PerformOperation(op, x, m), m, n - 1)
  }

  /** Basic calculator: after a result, any number of '=' leaves the calculator as it is. */
  lemma {:induction false} SimpleEqualsIdempotent(c: Calc, n: nat)
    requires c.result
    ensures Run(Simple, c, EqualsKeys(n)) == Some(c)
    decreases n
  {
    if n > 0 {
      SimpleEqualsIdempotent(c, n - 1);
    }
  }

  /** Extended calculator: with a remembered operand (a negative second slot), `n` presses of '='
      apply the stored operator with its magnitude `n` times and keep remembering it. */
  lemma {:induction false} SmartEqualsRepeats(c: Calc, n: nat)
    requires c.secondOp < 0 && n > 0
    ensures Run(Smart, c, EqualsKeys(n)) ==
      Some(Completed(Repeat(c.operator, c.firstOp, Negate(c.secondOp), n), c.operator, c.secondOp))
    decreases n
  {
    var next := Completed(PerformOperation(c.operator, c.firstOp, Negate(c.secondOp)), c.operator, c.secondOp);
    assert Input(Smart, c, '=') == Some(next);
    if n > 1 {
      SmartEqualsRepeats(next, n - 1);
    }
  }

  /** Extended calculator, "x op y = = ...": with a positive second operand `y` on the screen,
      `n` presses of '=' give x op y op y ... with `n` applications of y. */
  lemma SmartEqualsAfterSecondOperand(c: Calc, n: nat)
    requires !c.secondEmpty && c.secondOp > 0 && n > 0
    ensures Run(Smart, c, EqualsKeys(n)) ==
      Some(Completed(Repeat(c.operator, c.firstOp, c.secondOp, n), c.operator, -c.secondOp))
  {
    var next := Completed(PerformOperation(c.operator, c.firstOp, c.secondOp), c.operator, -c.secondOp);
    assert Input(Smart, c, '=') == Some(next);
    if n > 1 {
      SmartEqualsRepeats(next, n - 1);
    }
  }

  /** Extended calculator, "x op = = ...": with no second operand, `n` presses of '=' apply the
      operator with x itself `n` times. This holds for positive x, and for the minimum int only
      because its negation wraps back to itself. */
  lemma SmartEqualsWithoutSecondOperand(c: Calc, n: nat)
    requires !c.operatorEmpty && c.secondEmpty && c.secondOp >= 0
    requires c.firstOp > 0 || c.firstOp == MIN
    requires n > 0
    ensures Run(Smart, c, EqualsKeys(n)) ==
      Some(Completed(Repeat(c.operator, c.firstOp, c.firstOp, n), c.operator, Negate(c.firstOp)))
  {
    var next := Completed(PerformOperation(c.operator, c.firstOp, c.firstOp), c.operator, Negate(c.firstOp));
    assert Input(Smart, c, '=') == Some(next);
    if n > 1 {
      SmartEqualsRepeats(next, n - 1);
    }
  }

  /** Extended calculator, "x + 0 = =" or "x - 0 = =" with x non-zero: the first '=' is
      accepted, but 0 cannot be remembered (its negation is not negative), so the second is refused. */
  lemma SmartRememberedZeroLost(c: Calc)
    requires !c.secondEmpty && c.secondOp == 0 && c.firstOp != 0
    requires c.operator == '+' || c.operator == '-'
    ensures Run(Smart, c, "=") == Some(Completed(c.firstOp, c.operator, 0))
    ensures Run(Smart, c, "==") == None
  {
    assert "=="[1..] == "=";
  }

  /** Extended calculator, "x op = =" with x negative (but not the minimum int): the first '='
      is accepted, but the remembered -x is positive and so not recognised; the second is refused. */
  lemma SmartNegativeOperandLost(c: Calc)
    requires !c.operatorEmpty && c.secondEmpty && c.secondOp >= 0
    requires MIN < c.firstOp < 0
    ensures Run(Smart, c, "=").Some?
    ensures Run(Smart, c, "==") == None
  {
    assert "=="[1..] == "=";
  }
}
