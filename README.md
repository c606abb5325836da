# Key-by-key calculators

This project models the two calculators of `assignment2/src/calculator` in Dafny. Both are
immutable values that take one key at a time (`0`-`9`, `+`, `-`, `*`, `=`, `C`) and return a new
calculator, or refuse the key. Both render their screen as a string. The basic calculator
(`SimpleCalculator`) runs an operation only when both operands are typed, and repeated `=`
changes nothing. The extended calculator (`SmartCalculator`) lets `+` come first, lets one
operator replace another, applies an operator to the first operand itself when no second operand
is typed, and repeats the last operation on every further `=`.

The model is a set of pure functions over a datatype:

- `AbstractCalculator.Calc` holds the three slots: first operand, operator and second operand.
  Each slot has a flag that hides it from the screen. A seventh field, `result`, marks a computed
  first operand.
- Operands are 32-bit ints (`Int32.int32`). Java's `Math.*Exact` becomes `Int32.Exact`, which
  returns `None` for the `ArithmeticException`. Java's plain `x * -1`, which wraps at the minimum
  int, becomes `Int32.Negate`.
- `Calculator.Input(variant, state, key)` is the `input` dispatcher. `None` stands for the
  `IllegalArgumentException`, including when a handler returns `null`. The two subclasses become
  the tag `Variant = Simple | Smart`, which selects the operator and `=` handlers.
- `AbstractCalculator.GetResult` is the screen. `Calculator.Run` presses a string of keys one
  after another.

The model reproduces the code's quirks as written:

- An operation always uses the operator stored in the state, never the key being handled.
- A non-operator in the operator slot makes the operation yield -1.
- When an extended-calculator operator runs a pending operation, the hidden second slot receives
  the character `'0'` widened to 48.
- `=` on a blank extended calculator gives a result of 0.
- The extended calculator remembers its operand by storing the negation in the hidden second
  slot. This loses a remembered 0 and a negative first operand. At the minimum int it works only
  because the negation wraps.

The model keeps the code's sign encoding of the remembered operand; it has no separate field for
it.

## Model

| member | source | states |
|---|---|---|
| AbstractCalculator.NewCalculator | assignment2/src/calculator/AbstractCalculator.java:46-54 | a new calculator has all three slots empty, both operands 0, no result, and a blank screen |
| AbstractCalculator.NewCalculatorValid | assignment2/src/calculator/AbstractCalculator.java:46-54 | the new calculator satisfies the reachable-state invariant `Valid` |
| AbstractCalculator.Combine | assignment2/src/calculator/AbstractCalculator.java:81-89 | appending a digit succeeds exactly when both `original*10` and `original*10+digit` fit in 32 bits, and then yields that value |
| AbstractCalculator.PerformOperation | assignment2/src/calculator/AbstractCalculator.java:93-114 | for `+`, `-`, `*` the exact result when it fits in 32 bits and 0 when it does not; -1 for any other operator character |
| AbstractCalculator.HandleNumber | assignment2/src/calculator/AbstractCalculator.java:117-136 | after a result or on a blank screen the digit starts a lone new first operand; without an operator it is appended to the first operand, refused on overflow; after an operator it is appended to the second operand (refused on overflow) or starts it; the screen shows the new digits; the outcome is never a result |
| AbstractCalculator.HandleClear | assignment2/src/calculator/AbstractCalculator.java:146-148 | clearing gives exactly the new calculator, with a blank screen |
| AbstractCalculator.GetResult | assignment2/src/calculator/AbstractCalculator.java:193-208 | the screen is empty exactly when the first slot is empty, and otherwise starts with the first operand in decimal |
| AbstractCalculator.GetResultIgnoresResult | assignment2/src/calculator/AbstractCalculator.java:193-208 | the screen never depends on the `result` flag |
| Display.ScreenRoundTrip | assignment2/src/calculator/AbstractCalculator.java:193-208 | reading the screen back yields the shown slots: the first operand, then the operator if shown, then the second operand if shown |
| Display.SameScreenIffSameContents | assignment2/src/calculator/AbstractCalculator.java:193-208 | on reachable states, two screens are equal exactly when the shown slots are equal |
| Decimal.ValueOfNatToString | assignment2/src/calculator/AbstractCalculator.java:199 | the decimal digits written for a natural number read back as that number |
| Decimal.IntToString | assignment2/src/calculator/AbstractCalculator.java:199-204 | a `-` exactly for negative values, then only decimal digits, with no leading zero except in `0` itself; Decimal.IntToStringRoundTrip reads it back through ParseInt |
| Int32.Exact | assignment2/src/calculator/AbstractCalculator.java:83-84 | `Some(i)` exactly when i fits in 32 bits, and `None` (the ArithmeticException of `Math.*Exact`) otherwise |
| Decimal.IntToStringRoundTrip | assignment2/src/calculator/AbstractCalculator.java:199-204 | the decimal text of any int, a leading `-` included, parses back to that int |
| Calculator.Input | assignment2/src/calculator/AbstractCalculator.java:164-183 | a key outside `0-9 + - * = C` is refused; `C` is always accepted and gives the new calculator with a blank screen |
| Calculator.HandleOperator | assignment2/src/calculator/AbstractCalculator.java:169-170 | dispatch of the operator hook: in either calculator a shown second operand (outside a result) runs the stored operation; an operator that changes the calculator waits for a second operand with no result; on a blank calculator only the extended one accepts, and only `+` |
| Calculator.HandleEquals | assignment2/src/calculator/AbstractCalculator.java:171-172 | dispatch of the `=` hook: in either calculator a shown second operand (outside a result, with an operator stored) runs the stored operation; an accepted `=` always gives a result, shown alone unless it is the calculator itself |
| Calculator.DigitsIgnoreVariant | assignment2/src/calculator/AbstractCalculator.java:166-168 | both calculators handle a digit key identically |
| Calculator.InputPreservesValid | assignment2/src/calculator/AbstractCalculator.java:14-38 | every accepted key keeps the invariant: a blank first slot hides everything; a hidden operator hides the second operand; typed operands are non-negative; a result stands alone; a negative second slot occurs only in a result |
| Calculator.RunPreservesValid | assignment2/src/calculator/AbstractCalculator.java:14-38 | every state that a key sequence reaches from a valid state is valid, and so is every state reachable from a new calculator |
| Calculator.RunAppend | assignment2/src/calculator/AbstractCalculator.java:164-183 | running two key sequences one after the other is running their concatenation; a refusal ends the run |
| Calculator.KeysOnBlankCalculator | assignment2/src/calculator/SmartCalculator.java:36-53 | on a blank calculator the basic calculator refuses every operator and `=`; the extended one keeps `+` as a no-op, refuses `-` and `*`, and turns `=` into a shown result 0 |
| DigitEntry.TypingFirstOperand | assignment2/src/calculator/AbstractCalculator.java:117-126 | typing digits into a new calculator yields exactly the number they spell, or a refusal once that number passes 2147483647 |
| DigitEntry.TypingSecondOperand | assignment2/src/calculator/AbstractCalculator.java:127-134 | after an operator, typed digits become exactly the second operand they spell, or a refusal once it passes 2147483647 |
| DigitEntry.TypingBackTheScreen | assignment2/src/calculator/AbstractCalculator.java:117-126 | typing the decimal digits of any number up to 2147483647 recreates it, and the screen shows exactly those digits |
| DigitEntry.TypingMax | assignment2/src/calculator/AbstractCalculator.java:81-89 | typing 2147483647 is accepted |
| DigitEntry.OperandOverflowRefused | assignment2/src/calculator/AbstractCalculator.java:81-89 | typing 2147483648 or 2147483649 into a new calculator is refused |
| DigitEntry.TenDigitsAccepted | assignment2/src/calculator/AbstractCalculator.java:81-89 | ten digits whose first nine read below 214748365 and whose last is 0-7 are accepted, as the number they spell |
| SimpleCalculator.HandleEquals | assignment2/src/calculator/SimpleCalculator.java:41-50 | `=` is accepted exactly after a result or with a shown second operand; after a result it returns the same calculator; otherwise the stored operation runs, and its value stands alone on the screen as a result |
| SimpleCalculator.HandleOperator | assignment2/src/calculator/SimpleCalculator.java:61-70 | an operator is accepted exactly with a shown second operand or with a lone first operand; the pending operation runs with the stored operator and the screen shows its value followed by the new operator; otherwise the screen shows the first operand and the operator |
| SmartCalculator.HandleOperator | assignment2/src/calculator/SmartCalculator.java:36-53 | an operator is refused only on a blank calculator, and there only for `-` and `*`; after a result, or with a lone first operand, the screen shows the first operand and the key; a pending operation runs with the stored operator and leaves 48 in the hidden second slot; `+` on a blank calculator returns it unchanged |
| SmartCalculator.HandleEquals | assignment2/src/calculator/SmartCalculator.java:67-86 | `=` is refused exactly when the values are not both 0, nothing is remembered, no second operand is shown and no operator is shown; zero with zero gives 0; a remembered operand is applied again and kept; a shown second operand, or without one the first operand, is applied and remembered negated |
| Int32.Negate | assignment2/src/calculator/SmartCalculator.java:73-83 | Java's `x * -1` is the two's-complement reduction of `-x` |
| Int32.NegateInvolution | assignment2/src/calculator/SmartCalculator.java:73-83 | negation is an involution; it flips the sign of every value except 0 and the minimum int, which it fixes |
| RepeatedEquals.SimpleEqualsIdempotent | assignment2/src/calculator/SimpleCalculator.java:42-44 | after a result, any number of `=` presses leaves the basic calculator unchanged |
| RepeatedEquals.SmartEqualsRepeats | assignment2/src/calculator/SmartCalculator.java:71-74 | with a remembered operand, n presses of `=` apply the stored operator with its magnitude n times (the reference fold `Repeat`) and keep it remembered |
| RepeatedEquals.SmartEqualsAfterSecondOperand | assignment2/src/calculator/SmartCalculator.java:75-79 | "x op y" followed by n presses of `=`, with y positive, gives x op y applied n times |
| RepeatedEquals.SmartEqualsWithoutSecondOperand | assignment2/src/calculator/SmartCalculator.java:80-83 | "x op" followed by n presses of `=` applies op with x itself n times, for positive x and for the minimum int |
| RepeatedEquals.SmartRememberedZeroLost | assignment2/src/calculator/SmartCalculator.java:75-79 | with a shown second operand 0 and a `+` or `-`, the first `=` shows the first operand, and a second `=` is refused |
| RepeatedEquals.SmartNegativeOperandLost | assignment2/src/calculator/SmartCalculator.java:80-83 | with a negative first operand (not the minimum int) and no second operand, the first `=` is accepted and the second is refused |
| Sessions.OperatorOnLoneFirst | assignment2/src/calculator/SimpleCalculator.java:66-67 | in both calculators, an operator after a lone first operand is recorded and waits for a second operand |
| Sessions.EqualsOnBothOperands | assignment2/src/calculator/SimpleCalculator.java:45-47 | in both calculators, `=` with both operands shown gives a result showing the stored operation's value |
| Sessions.OneOperation | assignment2/src/calculator/SimpleCalculator.java:45-47 | in both calculators, from a lone first operand x (typed or an earlier result), the keys "op", the digits of y and `=` show `PerformOperation(op, x, y)` |
| Sessions.SimpleChainsOperators | assignment2/src/calculator/SimpleCalculator.java:62-65 | in the basic calculator, "x op1 y op2" runs x op1 y and shows its value followed by op2 |
| Sessions.SmartReplacesOperator | assignment2/src/calculator/SmartCalculator.java:47-48 | in the extended calculator, a second operator right after the first replaces it |
| Scenarios.SimpleChainedOperator | assignment2/src/calculator/SimpleCalculator.java:58-65 | `2+5-` shows `7-` |
| Scenarios.NegativeResult | assignment2/src/calculator/SimpleCalculator.java:45-47 | from the state that `9` reaches (TypedNine), `-10=` shows `-1` in the basic calculator |
| Scenarios.SmartNegativeResult | assignment2/src/calculator/SmartCalculator.java:75-79 | from the state that `9` reaches (TypedNine), `-10=` shows `-1` in the extended calculator and remembers 10 negated |
| Scenarios.OverflowingSumGivesZero | assignment2/src/calculator/AbstractCalculator.java:109-112 | from the state that `2147483647+1` reaches (TypingMax, then OverflowingSumWaits), `=` shows `0` |
| Scenarios.SimpleEqualsTwice | assignment2/src/calculator/SimpleCalculator.java:42-47 | from the state that `7+8` reaches (SevenPlusEight), `==` shows `15` |
| Scenarios.SimpleRefusals | assignment2/src/calculator/SimpleCalculator.java:66-69 | a first `+` or `=`, an operator or `=` right after an operator, and the key `x` are refused |
| Scenarios.SmartFirstOperator | assignment2/src/calculator/SmartCalculator.java:49-52 | a first `+` leaves the new calculator; a first `-` or `*` is refused |
| Scenarios.SmartEqualsOnNewCalculator | assignment2/src/calculator/SmartCalculator.java:68-70 | `=` on a new extended calculator shows `0` |
| Scenarios.SmartOperatorReplaced | assignment2/src/calculator/SmartCalculator.java:47-48 | `5+-` shows `5-` |
| Scenarios.SmartRepeatWithSecondOperand | assignment2/src/calculator/SmartCalculator.java:55-59 | from the state that `7+8` reaches (SevenPlusEight), three `=` presses show 15, 23 and then `31` |
| Scenarios.SmartRepeatFiveAndThree | assignment2/src/calculator/SmartCalculator.java:71-79 | from the state that `5+3` reaches (FivePlusThree), three `=` presses show 8, 11 and then `14` |
| Scenarios.SmartWithoutSecondOperand | assignment2/src/calculator/SmartCalculator.java:57-59 | from the state that `7+` reaches (SevenPlus), `=` shows `14`, and a further `=` shows `21` |
| Scenarios.SmartRememberedZero | assignment2/src/calculator/SmartCalculator.java:75-79 | from the state that `5+0` reaches (FivePlusZero), `=` shows `5`, and a further `=` is refused |
| Scenarios.SmartNegativeFirstOperand | assignment2/src/calculator/SmartCalculator.java:80-83 | from the state that `0-5=+` reaches (MinusFiveThenPlus), `=` shows `-10`, and a further `=` is refused |

## Left out

- `Calculator.java` is an interface with signatures only. It becomes the signatures of `Calculator.Input` and `AbstractCalculator.GetResult`.
- The lab sources and tests under `labs/` are not part of this model. They hold unrelated floating-point code.
- The randomised tests and their loops are not modelled. Their concrete sessions appear as the lemmas of module `Scenarios`.
- The model expresses Java exceptions as `None`. It does not model the exception message text.
- The model replaces inheritance and the `makeCalc` factory with the `Variant` tag. No calculator of one kind can turn into the other, and the tag reproduces that.
- The model does not state the receiver's immutability as a lemma. It holds by construction: a datatype value cannot change, so the old state's screen stays the same after any key.
- AbstractCalculator.HandleNumber: requires a digit value 0-9. Only the dispatcher calls it, and the dispatcher passes the numeric value of `0`-`9` only.
- AbstractCalculator.GetResult: its own contract states only emptiness and the leading first operand. The exact layout of the screen is stated by `Display.ScreenRoundTrip`.
- Scenarios.SmartRepeatWithSecondOperand and the other multi-key sessions start from the state that their prefix reaches. The prefix has its own lemma (for example `Scenarios.SevenPlusEight`, or `DigitEntry.TypingMax` for `2147483647`), and `Calculator.RunAppend` joins the two runs.
