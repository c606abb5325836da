/**
 * What the screen shows, slot by slot, and the proof that the screen string determines it: the
 * text GetResult produces can be read back into the shown operands and operator.
 */
module Display {
  import opened Wrappers
  import opened Decimal
  import opened AbstractCalculator

  /** The shown part of a calculator. */
  datatype Screen =
    | Blank
    | One(first: int)
    | Pending(first: int, op: char)
    | Full(first: int, op: char, second: int)

  function Visible(c: Calc): Screen {
    if c.firstEmpty then Blank
    else if c.operatorEmpty then One(c.firstOp)
    else if c.secondEmpty then Pending(c.firstOp, c.operator)
    else Full(c.firstOp, c.operator, c.secondOp)
  }

  /** Reads a screen: an optionally negative number, then optionally one operator character,
      then optionally a second (optionally negative) number. */
  function ParseScreen(s: string): Option<Screen> {
    if s == [] then
      Some(Blank)
    else
      var sign := if s[0] == '-' then 1 else 0;
      var k := sign + DigitRun(s[sign..]);
      match ParseInt(s[..k])
      case None => None
      case Some(a) =>
        if k == |s| then Some(One(a))
        else if k + 1 == |s| then Some(Pending(a, s[k]))
        else
          match ParseInt(s[k + 1..])
          case None => None
          case Some(b) => Some(Full(a, s[k], b))
  }

  /** The first number on a screen ends exactly where its decimal text ends. */
  lemma FirstNumberEnds(a: int, rest: string)
    requires rest == [] || !IsDigit(rest[0])
    ensures var s := IntToString(a) + rest;
      var sign := if s[0] == '-' then 1 else 0;
      sign + DigitRun(s[sign..]) == |IntToString(a)|
  {
    var t := IntToString(a);
    var s := t + rest;
    var sign := if s[0] == '-' then 1 else 0;
    assert s[0] == t[0];
    assert s[sign..] == t[sign..] + rest;
    DigitRunStopsAfterDigits(t[sign..], rest);
  }

  /** Reading the screen back gives what it shows, whenever the shown operator is not a digit. */
  lemma ScreenRoundTrip(c: Calc)
    requires c.operatorEmpty || !IsDigit(c.operator)
    ensures ParseScreen(GetResult(c)) == Some(Visible(c))
  {
    if !c.firstEmpty {
      var t := IntToString(c.firstOp);
      var rest := if c.operatorEmpty then "" else [c.operator] + (if c.secondEmpty then "" else IntToString(c.secondOp));
      var s := GetResult(c);
      assert s == t + rest;
      FirstNumberEnds(c.firstOp, rest);
      assert s[..|t|] == t;
      IntToStringRoundTrip(c.firstOp);
      if !c.operatorEmpty && !c.secondEmpty {
        assert s[|t| + 1..] == IntToString(c.secondOp);
        IntToStringRoundTrip(c.secondOp);
      }
    }
  }

  /** On reachable states the screen string and the shown slots determine each other. */
  lemma SameScreenIffSameContents(c1: Calc, c2: Calc)
    requires Valid(c1) && Valid(c2)
    ensures GetResult(c1) == GetResult(c2) <==> Visible(c1) == Visible(c2)
  {
    ScreenRoundTrip(c1);
    ScreenRoundTrip(c2);
  }
}
