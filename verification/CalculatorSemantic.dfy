/** A spoken calculation compiled to button presses, and what the presses do.

    The calculator is the ideal one: integers of any size, and a result that is no whole number is
    shown as something else. */
module CalculatorSemantic {

  import opened Options
  import opened PythonText

  datatype Operator = Multiply | Plus | Minus | Divide

  datatype Error = NegativeResult | DivisionByZero | NotWhole

  datatype Plan = Plan(buttons: seq<string>, expectedDisplay: string, result: nat)

  datatype Result = Ok(plan: Plan) | Err(error: Error)

  const CLEAR := "clearButton"
  const EQUAL := "equalButton"
  const DISPLAY := "Display is "

  predicate Digits(s: string): (b: bool)
    ensures b ==> Numeric(s)
  {
    s != "" && forall c | c in s :: '0' <= c <= '9'
  }

  function DigitButton(c: char): string {
    "num" + [c] + "Button"
  }

  function OperatorButton(o: Operator): string {
    match o
    case Multiply => "multiplyButton"
    case Plus => "plusButton"
    case Minus => "minusButton"
    case Divide => "divideButton"
  }

  function DigitButtons(s: string): seq<string> {
    seq(|s|, i requires 0 <= i < |s| => DigitButton(s[i]))
  }

  datatype Expectation = Whole(n: nat) | Refused(error: Error)

  /** `_expected_result`. */
  function Expected(left: nat, o: Operator, right: nat): Expectation {
    match o
    case Multiply => Whole(left * right)
    case Plus => Whole(left + right)
    case Minus => if left - right < 0 then Refused(NegativeResult) else Whole(left - right)
    case Divide =>
      if right == 0 then Refused(DivisionByZero)
      else if left % right != 0 then Refused(NotWhole)
      else Whole(left / right)
  }

  function Compile(left: string, o: Operator, right: string): Result
    requires Digits(left) && Digits(right)
  {
    var e := Expected(NumeralValue(left), o, NumeralValue(right));
    if e.Refused? then Err(e.error)
    else Ok(Plan([CLEAR] + DigitButtons(left) + [OperatorButton(o)] + DigitButtons(right) + [EQUAL],
                 DISPLAY + Numeral(e.n), e.n))
  }

  // -------------------------------------------------------------- the calculator

  /** `shown` is missing when the display shows no whole number from zero up. */
  datatype Calculator = Calculator(shown: Option<nat>, typing: bool, left: Option<nat>, pending: Option<Operator>)

  const CLEARED := Calculator(Some(0), false, None, None)

  function Apply(left: Option<nat>, o: Operator, right: Option<nat>): Option<nat> {
    if left.None? || right.None? then None
    else match o
      case Multiply => Some(left.value * right.value)
      case Plus => Some(left.value + right.value)
      case Minus => if right.value <= left.value then Some(left.value - right.value) else None
      case Divide => if right.value != 0 && left.value % right.value == 0 then Some(left.value / right.value) else None
  }

  function Evaluated(c: Calculator): Option<nat> {
    if c.pending.Some? then Apply(c.left, c.pending.value, c.shown) else c.shown
  }

  function Typed(c: Calculator, d: nat): Calculator {
    var shown := if !c.typing then Some(d) else if c.shown.Some? then Some(c.shown.value * 10 + d) else None;
    c.(shown := shown, typing := true)
  }

  function Press(c: Calculator, button: string): Calculator {
    if button == CLEAR then CLEARED
    else if button == EQUAL then Calculator(Evaluated(c), false, None, None)
    else if button == OperatorButton(Multiply) then Calculator(Evaluated(c), false, Evaluated(c), Some(Multiply))
    else if button == OperatorButton(Plus) then Calculator(Evaluated(c), false, Evaluated(c), Some(Plus))
    else if button == OperatorButton(Minus) then Calculator(Evaluated(c), false, Evaluated(c), Some(Minus))
    else if button == OperatorButton(Divide) then Calculator(Evaluated(c), false, Evaluated(c), Some(Divide))
    else if |button| == 10 && '0' <= button[3] <= '9' && button == DigitButton(button[3]) then
      Typed(c, button[3] as int - '0' as int)
    else c
  }

  function PressAll(c: Calculator, buttons: seq<string>): Calculator {
    if buttons == [] then c else Press(PressAll(c, buttons[..|buttons| - 1]), buttons[|buttons| - 1])
  }

  function Display(c: Calculator): string {
    if c.shown.Some? then DISPLAY + Numeral(c.shown.value) else "error"
  }

  lemma {:induction false} PressAppend(c: Calculator, a: seq<string>, b: seq<string>)
    ensures PressAll(c, a + b) == PressAll(PressAll(c, a), b)
  {
    hide Press;
    if b == [] {
      assert a + b == a;
    } else {
      assert (a + b)[..|a + b| - 1] == a + b[..|b| - 1];
      PressAppend(c, a, b[..|b| - 1]);
    }
  }

  lemma PressDigit(c: Calculator, d: char)
    requires '0' <= d <= '9'
    ensures Press(c, DigitButton(d)) == Typed(c, d as int - '0' as int)
  {
    var b := DigitButton(d);
    assert |b| == 10 && b[3] == d && b[0] == 'n';
  }

  /** Typing a digit string enters its value, leading zeros or not. */
  lemma {:induction false} TypesNumber(c: Calculator, s: string)
    requires Digits(s) && !c.typing
    ensures PressAll(c, DigitButtons(s)) == c.(shown := Some(NumeralValue(s)), typing := true)
  {
    hide Press, DigitButton;
    var k := |s| - 1;
    var buttons := DigitButtons(s);
    assert s[k] in s && '0' <= s[k] <= '9';
    assert buttons[k] == DigitButton(s[k]) && buttons[..k] == DigitButtons(s[..k]);
    if k == 0 {
      PressDigit(c, s[0]);
      assert s[..0] == "" && buttons == [DigitButton(s[0])] && NumeralValue(s[..0]) == 0;
    } else {
      assert forall x | x in s[..k] :: x in s;
      TypesNumber(c, s[..k]);
      PressDigit(PressAll(c, buttons[..k]), s[k]);
    }
  }

  lemma PressOperator(c: Calculator, o: Operator)
    ensures Press(c, OperatorButton(o)) == Calculator(Evaluated(c), false, Evaluated(c), Some(o))
  {
    assert CLEAR[0] == 'c' && EQUAL[0] == 'e' && OperatorButton(Multiply)[1] == 'u' && OperatorButton(Plus)[0] == 'p';
    assert OperatorButton(Minus)[1] == 'i' && OperatorButton(Divide)[0] == 'd';
    assert OperatorButton(Multiply)[0] == OperatorButton(Minus)[0] == 'm';
  }

  lemma PressEqual(c: Calculator)
    ensures Press(c, EQUAL) == Calculator(Evaluated(c), false, None, None)
  {
    assert CLEAR[0] == 'c';
  }

  /** What a plan types, from any state of the calculator. */
  lemma PlanTypes(c: Calculator, left: string, o: Operator, right: string)
    requires Digits(left) && Digits(right)
    ensures var buttons := [CLEAR] + DigitButtons(left) + [OperatorButton(o)] + DigitButtons(right) + [EQUAL];
            PressAll(c, buttons).shown == Apply(Some(NumeralValue(left)), o, Some(NumeralValue(right)))
  {
    hide Press, DigitButtons, OperatorButton, NumeralValue, Apply;
    var a := [CLEAR];
    var b := a + DigitButtons(left);
    var d := b + [OperatorButton(o)];
    var e := d + DigitButtons(right);
    PressClear(c);
    PressAppend(c, a, DigitButtons(left));
    TypesNumber(CLEARED, left);
    PressAppend(c, b, [OperatorButton(o)]);
    PressOperator(PressAll(c, b), o);
    PressAppend(c, d, DigitButtons(right));
    TypesNumber(PressAll(c, d), right);
    PressAppend(c, e, [EQUAL]);
    PressEqual(PressAll(c, e));
  }

  lemma PressClear(c: Calculator)
    ensures Press(c, CLEAR) == CLEARED
  {
  }

  /** A command is compiled exactly when its result is a whole number from zero up, and running the
      compiled presses, whatever the calculator was doing before, ends with the display the plan
      expects. */
  lemma PlanIsCorrect(c: Calculator, left: string, o: Operator, right: string)
    requires Digits(left) && Digits(right)
    ensures Compile(left, o, right).Ok? <==> Apply(Some(NumeralValue(left)), o, Some(NumeralValue(right))).Some?
    ensures Compile(left, o, right).Ok? ==>
              var plan := Compile(left, o, right).plan;
              Display(PressAll(c, plan.buttons)) == plan.expectedDisplay
  {
    hide DigitButtons, OperatorButton, PressAll, Numeral;
    PlanTypes(c, left, o, right);
  }

  // ----------------------------------------------------------------- the presses

  /** What happens at one step: Stop before it, a failure (with or without the press having gone out), a
      press of the element with the given runtime id, and Stop while waiting after it. */
  datatype Happening = StopBefore | Fails(out: bool) | Pressed(runtimeId: string, stopAfter: bool)

  datatype Ending = Succeeded | Cancelled | Failed

  /** `pressed` counts the presses that went out, `recovered` tells whether Clear was tried. */
  datatype Run = Run(ending: Ending, invoked: seq<string>, pressed: nat, recovered: bool)

  /** After the last step: the name of the display element found under its runtime id, and whether the
      window is still the bound one. */
  datatype Final = Final(shown: Option<string>, bound: bool)

  /** The press reached its element, and Stop did not cut the wait short. */
  predicate Lands(h: Happening, element: string) {
    h == Pressed(element, false)
  }

  /** The first step that does not land, or their number. */
  function FirstMiss(elements: seq<string>, happening: nat -> Happening, from: nat): (n: nat)
    requires from <= |elements|
    ensures from <= n <= |elements| && (forall i | from <= i < n :: Lands(happening(i), elements[i]))
    ensures n < |elements| ==> !Lands(happening(n), elements[n])
    decreases |elements| - from
  {
    if from < |elements| && Lands(happening(from), elements[from]) then FirstMiss(elements, happening, from + 1)
    else from
  }

  /** Whether Stop ended the run at step `n`, before the press or after it. */
  predicate StopsAt(elements: seq<string>, happening: nat -> Happening, n: nat)
    requires n < |elements|
  {
    happening(n) == StopBefore || happening(n) == Pressed(elements[n], true)
  }

  function Outcome(elements: seq<string>, happening: nat -> Happening, final: Final, expected: string, clears: nat): Run
  {
    var n := FirstMiss(elements, happening, 0);
    if n == |elements| then
      if final == Final(Some(expected), true) then Run(Succeeded, elements, n, false)
      else Run(Failed, elements, n, n > 0 && clears == 1)
    else if happening(n) == StopBefore then Run(Cancelled, elements[..n], n, false)
    else if happening(n) == Pressed(elements[n], true) then Run(Cancelled, elements[..n + 1], n + 1, false)
    else Run(Failed, elements[..n], if happening(n) == Fails(false) then n else n + 1, n > 0 && clears == 1)
  }

  /** The loop over the discovered elements, the check of the display and the recovery. */
  method Execute(elements: seq<string>, happening: nat -> Happening, final: Final, expected: string, clears: nat)
    returns (run: Run)
    ensures run == Outcome(elements, happening, final, expected, clears)
  {
    var invoked: seq<string>, pressed: nat, ending := [], 0, Succeeded;
    var i := 0;
    while i < |elements| && ending == Succeeded
      invariant i <= |elements|
      invariant ending == Succeeded ==>
                  && invoked == elements[..i] && pressed == i
                  && FirstMiss(elements, happening, 0) == FirstMiss(elements, happening, i)
      invariant ending != Succeeded ==>
                  var n := FirstMiss(elements, happening, 0);
                  && n < |elements| && (ending == Cancelled <==> StopsAt(elements, happening, n))
                  && invoked == elements[..if happening(n) == Pressed(elements[n], true) then n + 1 else n]
                  && pressed == if happening(n) == StopBefore || happening(n) == Fails(false) then n else n + 1
      decreases |elements| - i, if ending == Succeeded then 1 else 0
    {
      match happening(i) {
        case StopBefore =>
          ending := Cancelled;
        case Fails(out) =>
          pressed := if out then pressed + 1 else pressed;
          ending := Failed;
        case Pressed(runtimeId, stopAfter) =>
          pressed := pressed + 1;
          if runtimeId != elements[i] {
            ending := Failed;
          } else {
            invoked := invoked + [runtimeId];
            if stopAfter {
              ending := Cancelled;
            } else {
              i := i + 1;
            }
          }
      }
    }
    if ending == Succeeded && (final.shown != Some(expected) || !final.bound) {
      ending := Failed;
    }
    run := Run(ending, invoked, pressed, ending == Failed && invoked != [] && clears == 1);
  }

  /** A run succeeds exactly if every step lands, the display shows what the plan expects and the window
      is still the bound one; it is cancelled exactly if Stop meets the first step that does not land.
      Whatever happens, the invoked steps are a prefix of the plan: all before the first that does not
      land, and that one too if Stop only came while waiting after it. */
  lemma EndsExactly(elements: seq<string>, happening: nat -> Happening, final: Final, expected: string, clears: nat)
    ensures var run := Outcome(elements, happening, final, expected, clears);
            && (run.ending == Succeeded <==>
                  && (forall i | 0 <= i < |elements| :: Lands(happening(i), elements[i]))
                  && final == Final(Some(expected), true))
            && (run.ending == Cancelled <==>
                  exists n | 0 <= n < |elements| :: StopsAt(elements, happening, n)
                                                    && forall i | 0 <= i < n :: Lands(happening(i), elements[i]))
            && run.invoked <= elements
            && (forall i | 0 <= i < |run.invoked| :: happening(i).Pressed? && happening(i).runtimeId == elements[i])
            && (|run.invoked| < |elements| ==> !Lands(happening(|run.invoked|), elements[|run.invoked|])
                                               || (run.ending == Cancelled && happening(|run.invoked| - 1).stopAfter))
            && run.pressed == |run.invoked| + if run.ending == Failed && |run.invoked| < |elements|
                                                 && happening(|run.invoked|) != Fails(false) then 1 else 0
  {
    var n := FirstMiss(elements, happening, 0);
    var run := Outcome(elements, happening, final, expected, clears);
    forall m | 0 <= m < |elements| && StopsAt(elements, happening, m)
               && forall i | 0 <= i < m :: Lands(happening(i), elements[i])
      ensures m == n
    {
      assert !Lands(happening(m), elements[m]);
    }
    if n < |elements| && run.ending == Cancelled {
      assert StopsAt(elements, happening, n);
    }
  }

  /** After a failure with any press out, Clear is tried exactly if the first step landed and there is one
      Clear button; it is never tried after Stop. */
  lemma RecoveryExactly(elements: seq<string>, happening: nat -> Happening, final: Final, expected: string, clears: nat)
    ensures var run := Outcome(elements, happening, final, expected, clears);
            && (run.ending == Failed && run.pressed > 0 ==>
                  (run.recovered <==> clears == 1 && Lands(happening(0), elements[0])))
            && (run.recovered ==> run.ending == Failed && run.pressed > 0)
  {}

  /** So input can stay behind: the first press goes to an element with another runtime id, and nothing
      clears it. */
  lemma StrayFirstPressStays(elements: seq<string>, happening: nat -> Happening, final: Final, expected: string,
                             clears: nat)
    requires elements != [] && happening(0).Pressed? && happening(0).runtimeId != elements[0]
    ensures Outcome(elements, happening, final, expected, clears) == Run(Failed, [], 1, false)
  {}

  /** An instance: element 0 was discovered, the press resolved to element 1. */
  lemma StrayFirstPressExists()
    ensures Outcome(["0"], i => Pressed("1", false), Final(None, true), "Display is 7", 1) == Run(Failed, [], 1, false)
  {
    StrayFirstPressStays(["0"], i => Pressed("1", false), Final(None, true), "Display is 7", 1);
  }

  /** Compiler and loop together, buttons standing for their elements: if every press lands on the ideal
      calculator, a compiled command succeeds. */
  lemma CompiledCommandSucceeds(c: Calculator, left: string, o: Operator, right: string, happening: nat -> Happening,
                                clears: nat)
    requires Digits(left) && Digits(right) && Compile(left, o, right).Ok?
    requires var buttons := Compile(left, o, right).plan.buttons;
             forall i | 0 <= i < |buttons| :: Lands(happening(i), buttons[i])
    ensures var plan := Compile(left, o, right).plan;
            var shown := Display(PressAll(c, plan.buttons));
            Outcome(plan.buttons, happening, Final(Some(shown), true), plan.expectedDisplay, clears).ending == Succeeded
  {
    PlanIsCorrect(c, left, o, right);
    hide Compile, Outcome, Display, PressAll;
    var plan := Compile(left, o, right).plan;
    var final := Final(Some(Display(PressAll(c, plan.buttons))), true);
    EndsExactly(plan.buttons, happening, final, plan.expectedDisplay, clears);
  }
}
