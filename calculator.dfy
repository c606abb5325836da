/**
 * The public surface of a calculator: feed it one key and get a new calculator or a refusal,
 * and read its screen with AbstractCalculator.GetResult. The two calculators share this dispatcher
 * and differ only in the operator and '=' handlers the variant selects.
 */
module Calculator {
  import opened Wrappers
  import opened Int32
  import opened Decimal
  import opened AbstractCalculator
  import SimpleCalculator
  import SmartCalculator

  datatype Variant = Simple | Smart

  /** The keys a calculator has: digits, the three operators, '=' and 'C'. */
  predicate IsButton(ch: char) {
    IsDigit(ch) || IsOperator(ch) || ch == '=' || ch == 'C'
  }

  /** The operator hook of the variant. Whichever it is, a shown second operand makes the
      pending operation run, an operator that changes the calculator leaves the key waiting for a
      second operand, and on a blank calculator only the extended one accepts, and only '+'. */
  function HandleOperator(v: Variant, c: Calc, button: char): (r: Option<Calc>)
    ensures !c.result && !c.secondEmpty ==>
      && r.Some?
      && r.value.firstOp == PerformOperation(c.operator, c.firstOp, c.secondOp)
    ensures r.Some? && r != Some(c) ==> r.value.operator == button && r.value.secondEmpty && !r.value.result
    ensures c.firstEmpty && c.secondEmpty && !c.result ==> (r.Some? <==> v == Smart && button == '+')
  {
    match v
    case Simple => SimpleCalculator.HandleOperator(c, button)
    case Smart => SmartCalculator.HandleOperator(c, button)
  }

  /** The '=' hook of the variant. Whichever it is, a shown second operand is always accepted and
      runs the stored operation, and an accepted '=' leaves a result, which stands alone on the
      screen unless it is the calculator itself. */
  function HandleEquals(v: Variant, c: Calc): (r: Option<Calc>)
    ensures !c.result && !c.secondEmpty && c.secondOp >= 0 && IsOperator(c.operator) ==>
      && r.Some?
      && r.value.firstOp == PerformOperation(c.operator, c.firstOp, c.secondOp)
    ensures r.Some? ==> r.value.result
    ensures r.Some? && r != Some(c) ==> GetResult(r.value) == IntToString(r.value.firstOp)
  {
    match v
    case Simple => SimpleCalculator.HandleEquals(c)
    case Smart => SmartCalculator.HandleEquals(c)
  }

  /** One key press. `None` is the source's IllegalArgumentException: a key the calculator does
      not have, a key its state does not accept, or a digit that would overflow an operand. */
  function Input(v: Variant, c: Calc, button: char): (r: Option<Calc>)
    ensures !IsButton(button) ==> r == None
    // 'C' is always accepted and blanks the screen
    ensures button == 'C' ==> r == Some(NewCalculator()) && GetResult(r.value) == ""
  {
    if IsDigit(button) then
      HandleNumber(c, DigitValue(button))
    else if IsOperator(button) then
      HandleOperator(v, c, button)
    else if button == '=' then
      HandleEquals(v, c)
    else if button == 'C' then
      Some(HandleClear())
    else
      None
  }

  /** Digits are handled alike by both calculators. */
  lemma DigitsIgnoreVariant(c: Calc, button: char)
    requires IsDigit(button)
    ensures Input(Simple, c, button) == Input(Smart, c, button)
  {
  }

  /** The keys of `keys` pressed one after the other; the first refusal ends the run. */
  function Run(v: Variant, c: Calc, keys: string): Option<Calc>
    decreases |keys|
  {
    if keys == [] then
      Some(c)
    else
      match Input(v, c, keys[0])
      case None => None
      case Some(next) => Run(v, next, keys[1..])
  }

  lemma RunSingle(v: Variant, c: Calc, key: char)
    ensures Run(v, c, [key]) == Input(v, c, key)
  {
    assert [key][1..] == [];
  }

  /** Pressing one more key after a run. */
  lemma {:induction false} RunSnoc(v: Variant, c: Calc, keys: string, key: char)
    ensures Run(v, c, keys + [key]) ==
      match Run(v, c, keys)
      case None => None
      case Some(d) => Input(v, d, key)
    decreases |keys|
  {
    if keys != [] {
      assert (keys + [key])[1..] == keys[1..] + [key];
      match Input(v, c, keys[0])
      case None =>
      case Some(next) => RunSnoc(v, next, keys[1..], key);
    }
  }

  /** A run of `first + second` is the run of `second` from wherever `first` ends. */
  lemma {:induction false} RunAppend(v: Variant, c: Calc, first: string, second: string)
    ensures Run(v, c, first + second) ==
      match Run(v, c, first)
      case None => None
      case Some(d) => Run(v, d, second)
    decreases |first|
  {
    if first == [] {
      assert first + second == second;
    } else {
      assert (first + second)[0] == first[0];
      assert (first + second)[1..] == first[1..] + second;
      match Input(v, c, first[0])
      case None =>
      case Some(next) => RunAppend(v, next, first[1..], second);
    }
  }

  /** Every accepted key keeps the reachable-state invariant. */
  lemma InputPreservesValid(v: Variant, c: Calc, button: char)
    requires Valid(c)
    ensures Input(v, c, button).Some? ==> Valid(Input(v, c, button).value)
  {
  }

  /** Every state reached from a valid one, in particular from a new calculator, is valid. */
  lemma {:induction false} RunPreservesValid(v: Variant, c: Calc, keys: string)
    requires Valid(c)
    ensures Run(v, c, keys).Some? ==> Valid(Run(v, c, keys).value)
    decreases |keys|
  {
    if keys != [] {
      InputPreservesValid(v, c, keys[0]);
      if Input(v, c, keys[0]).Some? {
        RunPreservesValid(v, Input(v, c, keys[0]).value, keys[1..]);
      }
    }
  }

  /** An operator or '=' on a blank calculator: the basic calculator refuses them all; the
      extended one keeps a '+' as a no-op, refuses '-' and '*', and turns '=' into a result 0. */
  lemma KeysOnBlankCalculator(c: Calc, button: char)
    requires Valid(c) && c.firstEmpty
    ensures IsOperator(button) || button == '=' ==> Input(Simple, c, button) == None
    ensures Input(Smart, c, '+') == Some(c) && GetResult(c) == ""
    ensures button == '-' || button == '*' ==> Input(Smart, c, button) == None
    ensures Input(Smart, c, '=') == Some(Calc(0, false, NO_OPERATOR, true, 0, true, true))
    ensures GetResult(Input(Smart, c, '=').value) == "0"
  {
  }
}
