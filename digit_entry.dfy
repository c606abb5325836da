/**
 * Typing an operand digit by digit. The calculator accepts the digits of a number exactly when
 * the number fits in 32 bits, and then holds that number; the first digit that would overflow
 * is refused.
 */
module DigitEntry {
  import opened Wrappers
  import opened Int32
  import opened Decimal
  import opened AbstractCalculator
  import opened Calculator

  /** The state reached by typing the second operand `n` after the pending operation of `c`. */
  function WithSecond(c: Calc, n: int32): Calc {
    Calc(c.firstOp, false, c.operator, false, n, false, false)
  }

  /** One more digit on a typed first operand `n`: appended unless the result passes MAX. */
  lemma AppendToFirst(v: Variant, n: int32, key: char)
    requires n >= 0 && IsDigit(key)
    ensures Input(v, Typed(n), key) ==
      if n * 10 + DigitValue(key) <= MAX then Some(Typed(n * 10 + DigitValue(key))) else None
  {
    assert Input(v, Typed(n), key) == HandleNumber(Typed(n), DigitValue(key));
  }

  /** One more digit on a typed second operand `n`: appended unless the result passes MAX. */
  lemma AppendToSecond(v: Variant, c: Calc, n: int32, key: char)
    requires !c.operatorEmpty && n >= 0 && IsDigit(key)
    ensures Input(v, WithSecond(c, n), key) ==
      if n * 10 + DigitValue(key) <= MAX then Some(WithSecond(c, n * 10 + DigitValue(key))) else None
  {
    assert Input(v, WithSecond(c, n), key) == HandleNumber(WithSecond(c, n), DigitValue(key));
  }

  /** What typing the digits of `n` as the first operand leaves: `n`, unless it passes MAX. */
  function FirstAfter(n: nat): Option<Calc> {
    if n <= MAX then Some(Typed(n)) else None
  }

  /** What typing the digits of `n` as the second operand of `c` leaves. */
  function SecondAfter(c: Calc, n: nat): Option<Calc> {
    if n <= MAX then Some(WithSecond(c, n)) else None
  }

  lemma FirstOperandStep(v: Variant, ds: string)
    requires |ds| > 1 && AllDigits(ds)
    requires Run(v, NewCalculator(), ds[..|ds| - 1]) == FirstAfter(Value(ds[..|ds| - 1]))
    ensures Run(v, NewCalculator(), ds) == FirstAfter(Value(ds))
  {
    var prefix, last := ds[..|ds| - 1], ds[|ds| - 1];
    assert ds == prefix + [last];
    RunSnoc(v, NewCalculator(), prefix, last);
    ValueSnoc(prefix, last);
    var p := Value(prefix);
    if p <= MAX {
      AppendToFirst(v, p, last);
    }
  }

  lemma SecondOperandStep(v: Variant, c: Calc, ds: string)
    requires !c.operatorEmpty
    requires |ds| > 1 && AllDigits(ds)
    requires Run(v, c, ds[..|ds| - 1]) == SecondAfter(c, Value(ds[..|ds| - 1]))
    ensures Run(v, c, ds) == SecondAfter(c, Value(ds))
  {
    var prefix, last := ds[..|ds| - 1], ds[|ds| - 1];
    assert ds == prefix + [last];
    RunSnoc(v, c, prefix, last);
    ValueSnoc(prefix, last);
    var p := Value(prefix);
    if p <= MAX {
      AppendToSecond(v, c, p, last);
    }
  }

  /** The first digit after an operator starts the second operand. */
  lemma StartSecond(v: Variant, c: Calc, key: char)
    requires !c.result && !c.firstEmpty && !c.operatorEmpty && c.secondEmpty && IsDigit(key)
    ensures Input(v, c, key) == Some(WithSecond(c, DigitValue(key)))
  {
    assert Input(v, c, key) == HandleNumber(c, DigitValue(key));
  }

  lemma FirstOperandFirstDigit(v: Variant, ds: string)
    requires |ds| == 1 && AllDigits(ds)
    ensures Run(v, NewCalculator(), ds) == FirstAfter(Value(ds))
  {
    var key := ds[0];
    assert ds == [] + [key];
    RunSingle(v, NewCalculator(), key);
    ValueSnoc([], key);
  }

  lemma SecondOperandFirstDigit(v: Variant, c: Calc, ds: string)
    requires !c.result && !c.firstEmpty && !c.operatorEmpty && c.secondEmpty
    requires |ds| == 1 && AllDigits(ds)
    ensures Run(v, c, ds) == SecondAfter(c, Value(ds))
  {
    var key := ds[0];
    assert ds == [] + [key];
    RunSingle(v, c, key);
    ValueSnoc([], key);
    StartSecond(v, c, key);
  }

  /** Digits typed into a new calculator form the first operand, refused once it passes MAX. */
  lemma {:induction false} TypingFirstOperand(v: Variant, ds: string)
    requires ds != [] && AllDigits(ds)
    ensures Run(v, NewCalculator(), ds) == FirstAfter(Value(ds))
    decreases |ds|
  {
    if |ds| == 1 {
      FirstOperandFirstDigit(v, ds);
    } else {
      TypingFirstOperand(v, ds[..|ds| - 1]);
      FirstOperandStep(v, ds);
    }
  }

  /** Digits typed after an operator form the second operand, refused once it passes MAX. */
  lemma {:induction false} TypingSecondOperand(v: Variant, c: Calc, ds: string)
    requires !c.result && !c.firstEmpty && !c.operatorEmpty && c.secondEmpty
    requires ds != [] && AllDigits(ds)
    ensures Run(v, c, ds) == SecondAfter(c, Value(ds))
    decreases |ds|
  {
    if |ds| == 1 {
      SecondOperandFirstDigit(v, c, ds);
    } else {
      TypingSecondOperand(v, c, ds[..|ds| - 1]);
      SecondOperandStep(v, c, ds);
    }
  }

  /** Typing back the digits of any screen number up to MAX recreates it: the screen then shows
      exactly what was typed. */
  lemma TypingBackTheScreen(v: Variant, n: nat)
    requires n <= MAX
    ensures Run(v, NewCalculator(), NatToString(n)) == Some(Typed(n))
    ensures GetResult(Typed(n)) == NatToString(n)
  {
    ValueOfNatToString(n);
    TypingFirstOperand(v, NatToString(n));
  }

  lemma ValueSnoc(s: string, d: char)
    requires AllDigits(s) && IsDigit(d)
    ensures AllDigits(s + [d]) && Value(s + [d]) == Value(s) * 10 + DigitValue(d)
  {
    assert (s + [d])[..|s|] == s;
  }

  lemma ValueOfShortPrefix()
    ensures AllDigits("21474") && Value("21474") == 21474
  {
    ValueSnoc("", '2'); assert "" + ['2'] == "2";
    ValueSnoc("2", '1'); assert "2" + ['1'] == "21";
    ValueSnoc("21", '4'); assert "21" + ['4'] == "214";
    ValueSnoc("214", '7'); assert "214" + ['7'] == "2147";
    ValueSnoc("2147", '4'); assert "2147" + ['4'] == "21474";
  }

  /** The decimal string 214748364, the first nine digits of MAX, reads as that number. */
  lemma ValueOfMaxPrefix()
    ensures AllDigits("214748364") && Value("214748364") == 214748364
  {
    ValueOfShortPrefix();
    ValueSnoc("21474", '8'); assert "21474" + ['8'] == "214748";
    ValueSnoc("214748", '3'); assert "214748" + ['3'] == "2147483";
    ValueSnoc("2147483", '6'); assert "2147483" + ['6'] == "21474836";
    ValueSnoc("21474836", '4'); assert "21474836" + ['4'] == "214748364";
  }

  /** The largest int can be typed. */
  lemma TypingMax(v: Variant)
    ensures Run(v, NewCalculator(), "2147483647") == Some(Typed(MAX))
  {
    ValueOfMaxPrefix();
    ValueSnoc("214748364", '7');
    assert "214748364" + ['7'] == "2147483647";
    TypingFirstOperand(v, "2147483647");
  }

  /** A last digit 8 or 9 after 214748364 is refused. */
  lemma OperandOverflowRefused(v: Variant)
    ensures Run(v, NewCalculator(), "2147483648") == None
    ensures Run(v, NewCalculator(), "2147483649") == None
  {
    ValueOfMaxPrefix();
    ValueSnoc("214748364", '8');
    assert "214748364" + ['8'] == "2147483648";
    ValueSnoc("214748364", '9');
    assert "214748364" + ['9'] == "2147483649";
    TypingFirstOperand(v, "2147483648");
    TypingFirstOperand(v, "2147483649");
  }

  /** Ten digits are accepted when the first nine read below 214748365 and the last is 0-7. */
  lemma TenDigitsAccepted(v: Variant, ds: string)
    requires |ds| == 10 && AllDigits(ds)
    requires Value(ds[..9]) < 214748365 && ds[9] <= '7'
    ensures Run(v, NewCalculator(), ds) == Some(Typed(Value(ds)))
  {
    TypingFirstOperand(v, ds);
    assert ds[..|ds| - 1] == ds[..9];
  }
}
