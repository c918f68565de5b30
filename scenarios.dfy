/** Key sequences run on a fresh calculator, with the stack and the display
    they leave behind. */
module Scenarios {
  import opened Calc
  import Parsing

  /** x ENTER y minus: the second entry minus the top. */
  method SubtractsTopFromSecond(lib: FloatLibrary, x: int, y: int) returns (stack: seq<real>, display: Display)
    ensures stack == [x as real - y as real] && display == Number(x as real - y as real)
  {
    Parsing.ReadingSingleDigit(x);
    var c := new Calculator(lib);
    DigitIntoEmptyBuffer(lib, c.Current(), x);
    c.Take(Digit(x));
    c.Take(Enter);
    assert c.Current() == State(Number(x as real), [], [x as real]);
    DigitIntoEmptyBuffer(lib, c.Current(), y);
    c.Take(Digit(y));
    assert c.Current() == State(Number(y as real), [Parsing.Digit(y)], [x as real]);
    assert Committed([Parsing.Digit(y)], [x as real]) == [y as real, x as real];
    assert Evaluate(lib, Subtraction, [y as real, x as real]) == [x as real - y as real];
    c.Take(Op(Subtraction));
    stack, display := c.operationStack, c.currentDisplay;
  }

  /** x square-root: the typed number is committed, then replaced by its root. */
  method SquareRootOfTyped(lib: FloatLibrary, x: int) returns (stack: seq<real>, display: Display)
    ensures stack == [lib.squareRoot(x as real)] && display == Number(lib.squareRoot(x as real))
  {
    Parsing.ReadingSingleDigit(x);
    var c := new Calculator(lib);
    c.Take(Digit(x));
    c.Take(Op(SquareRoot));
    stack, display := c.operationStack, c.currentDisplay;
  }

  /** x minus: a lone operand is negated. */
  method NegatesLoneOperand(lib: FloatLibrary, x: int) returns (stack: seq<real>, display: Display)
    ensures stack == [-(x as real)] && display == Number(-(x as real))
  {
    Parsing.ReadingSingleDigit(x);
    var c := new Calculator(lib);
    c.Take(Digit(x));
    c.Take(Op(Subtraction));
    stack, display := c.operationStack, c.currentDisplay;
  }

  /** x minus minus: negating the lone operand twice gives x back. */
  method NegatesTwice(lib: FloatLibrary, x: int) returns (stack: seq<real>, display: Display)
    ensures stack == [x as real] && display == Number(x as real)
  {
    Parsing.ReadingSingleDigit(x);
    var c := new Calculator(lib);
    c.Take(Digit(x));
    c.Take(Op(Subtraction));
    c.Take(Op(Subtraction));
    stack, display := c.operationStack, c.currentDisplay;
  }

  /** An operation on a fresh calculator: too shallow for every operation,
      so nothing changes. */
  method ShallowOperationDoesNothing(lib: FloatLibrary, op: Operation) returns (stack: seq<real>, display: Display)
    ensures stack == [] && display == Text(InitialText)
  {
    var c := new Calculator(lib);
    c.Take(Op(op));
    stack, display := c.operationStack, c.currentDisplay;
  }

  /** x plus: addition needs two entries, so the committed x stays alone and
      the display keeps showing the typed x. */
  method AdditionNeedsTwo(lib: FloatLibrary, x: int) returns (stack: seq<real>, display: Display)
    ensures stack == [x as real] && display == Number(x as real)
  {
    Parsing.ReadingSingleDigit(x);
    var c := new Calculator(lib);
    c.Take(Digit(x));
    c.Take(Op(Addition));
    stack, display := c.operationStack, c.currentDisplay;
  }

  /** x ENTER ENTER: the second enter duplicates the top. */
  method EnterDuplicates(lib: FloatLibrary, x: int) returns (stack: seq<real>, display: Display)
    ensures stack == [x as real, x as real] && display == Number(x as real)
  {
    Parsing.ReadingSingleDigit(x);
    var c := new Calculator(lib);
    c.Take(Digit(x));
    c.Take(Enter);
    c.Take(Enter);
    stack, display := c.operationStack, c.currentDisplay;
  }

  /** x ENTER y backspace: the buffer is empty again and the display reads 0
      (not the error text); a second backspace clears the stack and shows
      the reset text. */
  method BackspaceToZeroThenReset(lib: FloatLibrary, x: int, y: int) returns (first: Display, second: Display, stack: seq<real>)
    ensures first == Number(0.0)
    ensures second == Text(ResetText) && stack == []
  {
    Parsing.ReadingEmpty();
    var c := new Calculator(lib);
    DigitIntoEmptyBuffer(lib, c.Current(), x);
    c.Take(Digit(x));
    c.Take(Enter);
    assert c.Current() == State(Number(x as real), [], [x as real]);
    DigitIntoEmptyBuffer(lib, c.Current(), y);
    c.Take(Digit(y));
    assert c.Current() == State(Number(y as real), [Parsing.Digit(y)], [x as real]);
    assert [Parsing.Digit(y)][..0] == [];
    c.Take(Backspace);
    assert c.Current() == State(Number(0.0), [], [x as real]);
    first := c.currentDisplay;
    c.Take(Backspace);
    second, stack := c.currentDisplay, c.operationStack;
  }
}
