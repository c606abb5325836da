/**
 * Concrete sessions, key by key, with what the screen shows at the end. They are the examples
 * the calculators' documentation and tests give, and the inputs that exhibit the extended
 * calculator's sign-encoded memory at its edges. Each session is cut where its state is worth
 * naming: a lemma gives the state a prefix of keys reaches from a new calculator, and the next
 * one continues from that state.
 */
module Scenarios {
  import opened Wrappers
  import opened Int32
  import opened Decimal
  import opened AbstractCalculator
  import opened Calculator
  import opened DigitEntry
  import opened Sessions
  import opened SmartCalculator

  lemma SingleDigit(v: Variant)
    ensures Run(v, NewCalculator(), "5") == Some(Typed(5))
    ensures GetResult(Typed(5)) == "5"
  {
  }

  lemma TypedNine(v: Variant)
    ensures Run(v, NewCalculator(), "9") == Some(Typed(9))
  {
  }

  /** "9" then "-10=" shows "-1": in the basic calculator, and in the extended one, which also
      remembers "-10". */
  lemma NegativeResult()
    ensures Run(Simple, Typed(9), "-10=") == Some(Calc(-1, false, NO_OPERATOR, true, 0, true, true))
    ensures GetResult(Calc(-1, false, NO_OPERATOR, true, 0, true, true)) == "-1"
  {
  }

  lemma SmartNegativeResult()
    ensures Run(Smart, Typed(9), "-10=") == Some(Completed(-1, '-', -10))
    ensures GetResult(Completed(-1, '-', -10)) == "-1"
  {
  }

  /** An operation whose exact value passes MAX shows 0 rather than a wrapped value: after
      "2147483647" (TypingMax), "+1" waits for '=' and '=' leaves 0 on the screen. */
  lemma OverflowingSumWaits(v: Variant)
    ensures Run(v, Typed(MAX), "+1") == Some(Calc(MAX, false, '+', false, 1, false, false))
  {
  }

  lemma OverflowingSumGivesZero()
    ensures Run(Simple, Calc(MAX, false, '+', false, 1, false, false), "=") ==
      Some(Calc(0, false, NO_OPERATOR, true, 0, true, true))
    ensures GetResult(Calc(0, false, NO_OPERATOR, true, 0, true, true)) == "0"
  {
  }

  /** The same in the extended calculator, which also remembers "+1" for a further '='. */
  lemma SmartOverflowingSumGivesZero()
    ensures Run(Smart, Calc(MAX, false, '+', false, 1, false, false), "=") == Some(Completed(0, '+', -1))
    ensures GetResult(Completed(0, '+', -1)) == "0"
  {
  }

  /** The basic calculator, "2+5-": the sum runs when '-' is pressed. */
  lemma SimpleChainedOperator()
    ensures Run(Simple, NewCalculator(), "2+5-") == Some(Calc(7, false, '-', false, 0, true, false))
    ensures GetResult(Calc(7, false, '-', false, 0, true, false)) == "7-"
  {
  }

  lemma FivePlusThree(v: Variant)
    ensures Run(v, NewCalculator(), "5+3") == Some(Calc(5, false, '+', false, 3, false, false))
  {
  }

  /** "5+3=" shows 8 in both calculators. */
  lemma SimpleEqualsOnce(v: Variant)
    ensures Run(v, Calc(5, false, '+', false, 3, false, false), "=").Some?
    ensures GetResult(Run(v, Calc(5, false, '+', false, 3, false, false), "=").value) == "8"
  {
  }

  lemma SevenPlusEight(v: Variant)
    ensures Run(v, NewCalculator(), "7+8") == Some(Calc(7, false, '+', false, 8, false, false))
  {
  }

  /** The basic calculator, "7+8==": the second '=' shows the same 15. */
  lemma SimpleEqualsTwice()
    ensures Run(Simple, Calc(7, false, '+', false, 8, false, false), "==") ==
      Some(Calc(15, false, NO_OPERATOR, true, 0, true, true))
    ensures GetResult(Calc(15, false, NO_OPERATOR, true, 0, true, true)) == "15"
  {
  }

  lemma SimpleRefusals()
    ensures Run(Simple, NewCalculator(), "+") == None
    ensures Run(Simple, NewCalculator(), "=") == None
    ensures Run(Simple, NewCalculator(), "5+-") == None
    ensures Run(Simple, NewCalculator(), "5+=") == None
    ensures Run(Simple, NewCalculator(), "5x") == None
  {
  }

  /** The extended calculator takes '+' first and shows nothing, but refuses '-' and '*'. */
  lemma SmartFirstOperator()
    ensures Run(Smart, NewCalculator(), "+") == Some(NewCalculator())
    ensures Run(Smart, NewCalculator(), "-") == None
    ensures Run(Smart, NewCalculator(), "*") == None
  {
  }

  lemma SmartEqualsOnNewCalculator()
    ensures Run(Smart, NewCalculator(), "=") == Some(Calc(0, false, NO_OPERATOR, true, 0, true, true))
    ensures GetResult(Calc(0, false, NO_OPERATOR, true, 0, true, true)) == "0"
  {
  }

  lemma SmartOperatorReplaced()
    ensures Run(Smart, NewCalculator(), "5+-") == Some(Calc(5, false, '-', false, 0, true, false))
    ensures GetResult(Calc(5, false, '-', false, 0, true, false)) == "5-"
  {
  }

  /** The extended calculator, "7+8===": 7+8, then +8 twice more, shows 31. */
  lemma SmartRepeatWithSecondOperand()
    ensures Run(Smart, Calc(7, false, '+', false, 8, false, false), "=") == Some(Completed(15, '+', -8))
    ensures Run(Smart, Completed(15, '+', -8), "=") == Some(Completed(23, '+', -8))
    ensures Run(Smart, Completed(23, '+', -8), "=") == Some(Completed(31, '+', -8))
    ensures GetResult(Completed(31, '+', -8)) == "31"
  {
  }

  /** The extended calculator, "5+3===" shows 14. */
  lemma SmartRepeatFiveAndThree()
    ensures Run(Smart, Calc(5, false, '+', false, 3, false, false), "=") == Some(Completed(8, '+', -3))
    ensures Run(Smart, Completed(8, '+', -3), "=") == Some(Completed(11, '+', -3))
    ensures Run(Smart, Completed(11, '+', -3), "=") == Some(Completed(14, '+', -3))
    ensures GetResult(Completed(14, '+', -3)) == "14"
  {
  }

  lemma SevenPlus(v: Variant)
    ensures Run(v, NewCalculator(), "7+") == Some(Calc(7, false, '+', false, 0, true, false))
  {
  }

  /** The extended calculator, "7+=" shows 14 and one more '=' shows 21. */
  lemma SmartWithoutSecondOperand()
    ensures Run(Smart, Calc(7, false, '+', false, 0, true, false), "=") == Some(Completed(14, '+', -7))
    ensures GetResult(Completed(14, '+', -7)) == "14"
    ensures Run(Smart, Completed(14, '+', -7), "=") == Some(Completed(21, '+', -7))
    ensures GetResult(Completed(21, '+', -7)) == "21"
  {
  }

  lemma FivePlusZero(v: Variant)
    ensures Run(v, NewCalculator(), "5+0") == Some(Calc(5, false, '+', false, 0, false, false))
  {
  }

  /** The extended calculator, "5+0==": the first '=' shows 5, the second is refused. */
  lemma SmartRememberedZero()
    ensures Run(Smart, Calc(5, false, '+', false, 0, false, false), "=") == Some(Completed(5, '+', 0))
    ensures GetResult(Completed(5, '+', 0)) == "5"
    ensures Run(Smart, Completed(5, '+', 0), "=") == None
  {
  }

  lemma MinusFiveThenPlus()
    ensures Run(Smart, NewCalculator(), "0-5=") == Some(Completed(-5, '-', -5))
    ensures Run(Smart, Completed(-5, '-', -5), "+") == Some(Calc(-5, false, '+', false, 0, true, false))
  {
  }

  /** The extended calculator, "0-5=+==": -5 + -5 shows -10, then the remembered 5 is not
      recognised and the last '=' is refused. */
  lemma SmartNegativeFirstOperand()
    ensures Run(Smart, Calc(-5, false, '+', false, 0, true, false), "=") == Some(Completed(-10, '+', 5))
    ensures GetResult(Completed(-10, '+', 5)) == "-10"
    ensures Run(Smart, Completed(-10, '+', 5), "=") == None
  {
  }
}
