/** The RPN calculator engine.  One object owns an input buffer of typed
    digit and period keys, an operand stack whose index 0 is the top, and the
    display.  Every key press goes through `Take`: digit, double-zero, period
    and backspace edit the buffer; enter and the operation keys commit the
    buffer to the stack, and an operation key then runs its operation. */
module Calc {
  import opened Stack
  import Parsing

  /** The operations the calculator knows. */
  datatype Operation =
    | Addition
    | Subtraction
    | Multiplication
    | Division
    | SquareRoot
    | Exponentiation

  /** How many stack entries an operation needs before it runs: one for
      subtraction (which negates a lone operand) and square root, two for the
      others. */
  function RequiredDepth(op: Operation): (depth: nat)
    ensures depth == 1 <==> op == Subtraction || op == SquareRoot
    ensures depth == 2 <==> op != Subtraction && op != SquareRoot
  {
    match op
    case Addition => 2
    case Subtraction => 1
    case Multiplication => 2
    case Division => 2
    case SquareRoot => 1
    case Exponentiation => 2
  }

  /** The keys of the calculator. */
  datatype Button =
    | Digit(digit: int)
    | DoubleZero
    | Enter
    | Backspace
    | Period
    | Op(operation: Operation)

  /** What the display shows: a number (standing for its default text
      rendering) or a fixed text. */
  datatype Display = Number(value: real) | Text(text: string)

  const InitialText := "0"
  const ResetText := "0.0"
  const ErrorText := "Error"

  /** Single-precision division, square root and power are library behaviour
      the model does not fix; a calculator is built with whatever functions
      stand for them. */
  datatype FloatLibrary = FloatLibrary(
    divide: (real, real) -> real,
    squareRoot: real -> real,
    power: (real, real) -> real)

  /** The number of stack entries `op` consumes when the stack holds `depth`
      of them: one for square root and for subtraction on a lone operand,
      two otherwise. */
  function Arity(op: Operation, depth: nat): (n: nat)
    ensures 1 <= n <= 2
    ensures depth >= RequiredDepth(op) ==> n <= depth
  {
    if op == SquareRoot || (op == Subtraction && depth == 1) then 1 else 2
  }

  /** The value `op` computes from the top of stack `s` (at least its
      required depth deep): the non-commutative operations take
      `second OP top`, and subtraction on a lone operand negates it. */
  function Apply(lib: FloatLibrary, op: Operation, s: seq<real>): real
    requires |s| >= RequiredDepth(op)
  {
    match op
    case Addition => s[0] + s[1]
    case Multiplication => s[0] * s[1]
    case SquareRoot => lib.squareRoot(s[0])
    case Subtraction => if |s| == 1 then -s[0] else s[1] - s[0]
    case Division => lib.divide(s[1], s[0])
    case Exponentiation => lib.power(s[1], s[0])
  }

  /** The stack after `op` runs on stack `s`: unchanged below the required
      depth; otherwise the operands it consumes replaced by its value. */
  function Evaluate(lib: FloatLibrary, op: Operation, s: seq<real>): seq<real>
  {
    if |s| < RequiredDepth(op) then s else [Apply(lib, op, s)] + s[Arity(op, |s|)..]
  }

  /** The stack after committing `buffer`: its reading pushed on top when it
      is not empty, the stack as it was otherwise. */
  function Committed(buffer: seq<Parsing.Input>, s: seq<real>): seq<real>
  {
    if buffer == [] then s else [Parsing.Reading(buffer)] + s
  }

  /** A snapshot of the three parts of the calculator's state. */
  datatype State = State(display: Display, buffer: seq<Parsing.Input>, stack: seq<real>)

  /** The state of a newly made calculator. */
  const Initial := State(Text(InitialText), [], [])

  /** The buffer holds at most one period. */
  predicate AtMostOnePeriod(buffer: seq<Parsing.Input>)
  {
    multiset(buffer)[Parsing.Period] <= 1
  }

  /** The states a calculator can reach: at most one period in the buffer,
      and the display never shows the error text. */
  predicate Sound(st: State)
  {
    AtMostOnePeriod(st.buffer) && st.display != Text(ErrorText)
  }

  /** What a key press does to the state.  Digit, double-zero, period and
      backspace edit the buffer and show its reading (a second period is
      ignored; backspace on an empty buffer clears the stack and shows the
      reset text).  Enter commits the buffer, or duplicates the top when the
      buffer is empty, and leaves the display alone.  An operation key
      commits the buffer and runs the operation, showing the new top when it
      ran. */
  function Press(lib: FloatLibrary, st: State, button: Button): State
  {
    match button
    case Digit(d) =>
      var b := st.buffer + [Parsing.Digit(d)];
      State(Number(Parsing.Reading(b)), b, st.stack)
    case DoubleZero =>
      var b := st.buffer + [Parsing.Digit(0), Parsing.Digit(0)];
      State(Number(Parsing.Reading(b)), b, st.stack)
    case Period =>
      if Parsing.Period in st.buffer then st
      else
        var b := st.buffer + [Parsing.Period];
        State(Number(Parsing.Reading(b)), b, st.stack)
    case Backspace =>
      if st.buffer != [] then
        var b := st.buffer[..|st.buffer| - 1];
        State(Number(Parsing.Reading(b)), b, st.stack)
      else
        State(Text(ResetText), [], [])
    case Enter =>
      State(st.display, [],
            if st.buffer != [] then [Parsing.Reading(st.buffer)] + st.stack
            else if st.stack != [] then [st.stack[0]] + st.stack
            else [])
    case Op(op) =>
      var operands := Committed(st.buffer, st.stack);
      var result := Evaluate(lib, op, operands);
      State(if |operands| < RequiredDepth(op) then st.display else Number(Apply(lib, op, operands)), [], result)
  }

  class Calculator {
    const lib: FloatLibrary

    var currentDisplay: Display

    /** Digit and period keys typed since the last commit. */
    var inputBuffer: seq<Parsing.Input>

    /** The operand stack; index 0 is the top. */
    var operationStack: seq<real>

    /** The current state as a value. */
    function Current(): State
      reads this
    {
      State(currentDisplay, inputBuffer, operationStack)
    }

    ghost predicate Valid()
      reads this
    {
      Sound(Current())
    }

    constructor (lib: FloatLibrary)
      ensures Valid()
      ensures this.lib == lib
      ensures Current() == Initial
    {
      this.lib := lib;
      currentDisplay := Text(InitialText);
      inputBuffer := [];
      operationStack := [];
    }

    /** Takes one key press. */
    method Take(button: Button)
      requires Valid()
      modifies this
      ensures Valid()
      ensures Current() == Press(lib, old(Current()), button)
    {
      PressKeepsSound(lib, Current(), button);
      match button {
        case Digit(digit) => TakeDigit(digit);
        case DoubleZero => TakeDoubleZero();
        case Period => TakePeriod();
        case Backspace => TakeBackspace();
        case Enter => TakeEnter();
        case Op(operation) => TakeOperation(operation);
      }
    }

    /** A digit key: append the digit and show the buffer's reading. */
    method TakeDigit(digit: int)
      modifies this
      ensures Current() == Press(lib, old(Current()), Digit(digit))
    {
      inputBuffer := inputBuffer + [Parsing.Digit(digit)];
      UpdateDisplayFromInputBuffer();
    }

    /** The double-zero key: two zero digits in a row. */
    method TakeDoubleZero()
      modifies this
      ensures Current() == Press(lib, old(Current()), DoubleZero)
    {
      inputBuffer := inputBuffer + [Parsing.Digit(0)];
      inputBuffer := inputBuffer + [Parsing.Digit(0)];
      assert inputBuffer == old(inputBuffer) + [Parsing.Digit(0), Parsing.Digit(0)];
      UpdateDisplayFromInputBuffer();
    }

    /** The period key: taken only when the buffer has no period yet. */
    method TakePeriod()
      modifies this
      ensures Current() == Press(lib, old(Current()), Period)
    {
      if Parsing.Period !in inputBuffer {
        inputBuffer := inputBuffer + [Parsing.Period];
        UpdateDisplayFromInputBuffer();
      }
    }

    /** The backspace key: drop the last typed key, or with nothing typed
        clear the stack and show the reset text. */
    method TakeBackspace()
      modifies this
      ensures Current() == Press(lib, old(Current()), Backspace)
    {
      if |inputBuffer| > 0 {
        inputBuffer := inputBuffer[..|inputBuffer| - 1];
        UpdateDisplayFromInputBuffer();
      } else {
        operationStack := [];
        currentDisplay := Text(ResetText);
      }
    }

    /** The enter key: commit the buffer, or with nothing typed duplicate the
        top of the stack (an empty stack stays empty). */
    method TakeEnter()
      modifies this
      ensures Current() == Press(lib, old(Current()), Enter)
    {
      if |inputBuffer| > 0 {
        var inputAsFloat := Parsing.FloatValue(inputBuffer);
        inputBuffer := [];
        operationStack := Push(operationStack, inputAsFloat);
      } else {
        match Top(operationStack) {
          case Some(stackTop) => operationStack := Push(operationStack, stackTop);
          case None =>
        }
      }
    }

    /** An operation key: commit the buffer, then run the operation. */
    method TakeOperation(operation: Operation)
      modifies this
      ensures Current() == Press(lib, old(Current()), Op(operation))
    {
      if |inputBuffer| > 0 {
        var inputAsFloat := Parsing.FloatValue(inputBuffer);
        inputBuffer := [];
        operationStack := Push(operationStack, inputAsFloat);
      }
      assert operationStack == Committed(old(inputBuffer), old(operationStack));
      RunOperation(operation);
    }

    /** Runs `op` on the stack when it is deep enough, then shows the new top;
        below the required depth nothing changes. */
    method RunOperation(op: Operation)
      modifies this`operationStack, this`currentDisplay
      ensures operationStack == Evaluate(lib, op, old(operationStack))
      ensures |old(operationStack)| < RequiredDepth(op) ==> currentDisplay == old(currentDisplay)
      ensures |old(operationStack)| >= RequiredDepth(op) ==> currentDisplay == Number(operationStack[0])
    {
      if Depth(operationStack) < RequiredDepth(op) {
        return;
      }
      ghost var s := operationStack;
      var depth := Depth(operationStack);
      var a: real, b: real;
      match op {
        case Addition =>
          a, operationStack := Pop(operationStack);
          b, operationStack := Pop(operationStack);
          assert a == s[0] && b == s[1] && operationStack == s[2..];
          operationStack := Push(operationStack, a + b);
          assert operationStack == Evaluate(lib, op, s);

        case Multiplication =>
          a, operationStack := Pop(operationStack);
          b, operationStack := Pop(operationStack);
          assert a == s[0] && b == s[1] && operationStack == s[2..];
          assert a * b == Apply(lib, op, s);
          operationStack := Push(operationStack, a * b);
          assert operationStack == Evaluate(lib, op, s);

        case SquareRoot =>
          a, operationStack := Pop(operationStack);
          operationStack := Push(operationStack, lib.squareRoot(a));
          assert operationStack == Evaluate(lib, op, s);

        case Subtraction =>
          if depth == 1 {
            a, operationStack := Pop(operationStack);
            operationStack := Push(operationStack, a * -1.0);
            assert operationStack == Evaluate(lib, op, s);
          } else {
            a, operationStack := Pop(operationStack);
            b, operationStack := Pop(operationStack);
            assert a == s[0] && b == s[1] && operationStack == s[2..];
            operationStack := Push(operationStack, b - a);
            assert operationStack == Evaluate(lib, op, s);
          }

        case Division =>
          a, operationStack := Pop(operationStack);
          b, operationStack := Pop(operationStack);
          assert a == s[0] && b == s[1] && operationStack == s[2..];
          operationStack := Push(operationStack, lib.divide(b, a));
          assert operationStack == Evaluate(lib, op, s);

        case Exponentiation =>
          a, operationStack := Pop(operationStack);
          b, operationStack := Pop(operationStack);
          assert a == s[0] && b == s[1] && operationStack == s[2..];
          operationStack := Push(operationStack, lib.power(b, a));
          assert operationStack == Evaluate(lib, op, s);
      }
      UpdateDisplayFromStack();
    }

    /** Shows the reading of the input buffer. */
    method UpdateDisplayFromInputBuffer()
      modifies this`currentDisplay
      ensures currentDisplay == Number(Parsing.Reading(inputBuffer))
    {
      var inputAsFloat := Parsing.FloatValue(inputBuffer);
      currentDisplay := Number(inputAsFloat);
    }

    /** Shows the top of the stack, or the error text when it is empty. */
    method UpdateDisplayFromStack()
      modifies this`currentDisplay
      ensures operationStack != [] ==> currentDisplay == Number(operationStack[0])
      ensures operationStack == [] ==> currentDisplay == Text(ErrorText)
    {
      match Top(operationStack) {
        case Some(topOfStack) => currentDisplay := Number(topOfStack);
        case None => currentDisplay := Text(ErrorText);
      }
    }
  }

  // ---- Properties of an operation -------------------------------------------

  /** Below its required depth an operation leaves the stack as it is, and
      at or above it the stack is never left empty. */
  lemma OperationGuard(lib: FloatLibrary, op: Operation, s: seq<real>)
    ensures |s| < RequiredDepth(op) ==> Evaluate(lib, op, s) == s
    ensures |s| >= RequiredDepth(op) ==> Evaluate(lib, op, s) != []
  {
  }

  /** A binary operation consumes the top two entries and pushes one result,
      `second OP top`, computed from those two alone; the entries below are
      untouched and the depth drops by one. */
  lemma BinaryOperation(lib: FloatLibrary, op: Operation, s: seq<real>)
    requires op != SquareRoot && |s| >= 2
    ensures |Evaluate(lib, op, s)| == |s| - 1
    ensures Evaluate(lib, op, s)[1..] == s[2..]
    ensures Evaluate(lib, op, s)[0] == Apply(lib, op, s[..2])
    ensures op == Addition ==> Evaluate(lib, op, s)[0] == s[1] + s[0]
    ensures op == Multiplication ==> Evaluate(lib, op, s)[0] == s[1] * s[0]
    ensures op == Subtraction ==> Evaluate(lib, op, s)[0] == s[1] - s[0]
    ensures op == Division ==> Evaluate(lib, op, s)[0] == lib.divide(s[1], s[0])
    ensures op == Exponentiation ==> Evaluate(lib, op, s)[0] == lib.power(s[1], s[0])
  {
    assert |s| != 1;
    assert s[..2][0] == s[0] && s[..2][1] == s[1];
    if op == Multiplication {
      assert s[0] * s[1] == s[1] * s[0];
    }
  }

  /** Square root, and subtraction on a lone operand, replace the top entry
      by a value of it alone (its square root, its negation) and keep the
      depth. */
  lemma UnaryOperation(lib: FloatLibrary, op: Operation, s: seq<real>)
    requires (op == SquareRoot && |s| >= 1) || (op == Subtraction && |s| == 1)
    ensures |Evaluate(lib, op, s)| == |s|
    ensures Evaluate(lib, op, s)[1..] == s[1..]
    ensures Evaluate(lib, op, s)[0] == (if op == SquareRoot then lib.squareRoot(s[0]) else -s[0])
  {
  }

  // ---- Properties of a key press ---------------------------------------------

  /** Appending a digit, or a period to a buffer without one, keeps at most
      one period. */
  lemma AppendKeepsOnePeriod(buffer: seq<Parsing.Input>, x: Parsing.Input)
    requires AtMostOnePeriod(buffer)
    requires x == Parsing.Period ==> Parsing.Period !in buffer
    ensures AtMostOnePeriod(buffer + [x])
  {
    assert multiset(buffer + [x]) == multiset(buffer) + multiset{x};
  }

  /** Dropping the last element of a buffer never adds a period. */
  lemma DropLastKeepsOnePeriod(buffer: seq<Parsing.Input>)
    requires AtMostOnePeriod(buffer) && buffer != []
    ensures AtMostOnePeriod(buffer[..|buffer| - 1])
  {
    assert buffer == buffer[..|buffer| - 1] + [buffer[|buffer| - 1]];
  }

  /** Every key press keeps the state sound: a period is only taken when the
      buffer has none, and every stack refresh follows an operation that
      left the stack non-empty. */
  lemma PressKeepsSound(lib: FloatLibrary, st: State, button: Button)
    requires Sound(st)
    ensures Sound(Press(lib, st, button))
  {
    match button {
      case Digit(d) => AppendKeepsOnePeriod(st.buffer, Parsing.Digit(d));
      case DoubleZero => DoubleZeroKeepsSound(lib, st);
      case Period => PeriodKeepsSound(lib, st);
      case Backspace => BackspaceKeepsSound(lib, st);
      case Enter =>
      case Op(op) =>
    }
  }

  lemma DoubleZeroKeepsSound(lib: FloatLibrary, st: State)
    requires Sound(st)
    ensures Sound(Press(lib, st, DoubleZero))
  {
    var once := st.buffer + [Parsing.Digit(0)];
    AppendKeepsOnePeriod(st.buffer, Parsing.Digit(0));
    AppendKeepsOnePeriod(once, Parsing.Digit(0));
    assert once + [Parsing.Digit(0)] == st.buffer + [Parsing.Digit(0), Parsing.Digit(0)];
  }

  lemma PeriodKeepsSound(lib: FloatLibrary, st: State)
    requires Sound(st)
    ensures Sound(Press(lib, st, Period))
  {
    if Parsing.Period !in st.buffer {
      AppendKeepsOnePeriod(st.buffer, Parsing.Period);
    }
  }

  lemma BackspaceKeepsSound(lib: FloatLibrary, st: State)
    requires Sound(st)
    ensures Sound(Press(lib, st, Backspace))
  {
    if st.buffer != [] {
      DropLastKeepsOnePeriod(st.buffer);
    }
  }

  /** A digit appends exactly that digit and double-zero exactly two zero
      digits; the stack stays and the display shows the new buffer's
      reading. */
  lemma DigitsAppend(lib: FloatLibrary, st: State, d: int)
    ensures var next := Press(lib, st, Digit(d));
      |next.buffer| == |st.buffer| + 1 && next.buffer[..|st.buffer|] == st.buffer
      && next.buffer[|st.buffer|] == Parsing.Digit(d)
      && next.stack == st.stack && next.display == Number(Parsing.Reading(next.buffer))
    ensures var next := Press(lib, st, DoubleZero);
      |next.buffer| == |st.buffer| + 2 && next.buffer[..|st.buffer|] == st.buffer
      && next.buffer[|st.buffer|] == next.buffer[|st.buffer| + 1] == Parsing.Digit(0)
      && next.stack == st.stack && next.display == Number(Parsing.Reading(next.buffer))
  {
    assert (st.buffer + [Parsing.Digit(d)])[..|st.buffer|] == st.buffer;
    assert (st.buffer + [Parsing.Digit(0), Parsing.Digit(0)])[..|st.buffer|] == st.buffer;
  }

  /** A period when the buffer already has one changes nothing, so a second
      press of the period key is the same as one. */
  lemma PeriodTakenOnce(lib: FloatLibrary, st: State)
    ensures Parsing.Period in st.buffer ==> Press(lib, st, Period) == st
    ensures Press(lib, Press(lib, st, Period), Period) == Press(lib, st, Period)
  {
  }

  /** The double-zero key is two presses of the zero digit. */
  lemma DoubleZeroIsTwoZeros(lib: FloatLibrary, st: State)
    ensures Press(lib, st, DoubleZero) == Press(lib, Press(lib, st, Digit(0)), Digit(0))
  {
    assert st.buffer + [Parsing.Digit(0)] + [Parsing.Digit(0)] == st.buffer + [Parsing.Digit(0), Parsing.Digit(0)];
  }

  /** Backspace right after a digit restores the buffer and the stack, and
      shows the reading of the restored buffer. */
  lemma BackspaceUndoesDigit(lib: FloatLibrary, st: State, d: int)
    ensures Press(lib, Press(lib, st, Digit(d)), Backspace).buffer == st.buffer
    ensures Press(lib, Press(lib, st, Digit(d)), Backspace).stack == st.stack
    ensures Press(lib, Press(lib, st, Digit(d)), Backspace).display == Number(Parsing.Reading(st.buffer))
  {
    assert (st.buffer + [Parsing.Digit(d)])[..|st.buffer|] == st.buffer;
  }

  /** Backspace drops exactly the last typed key, keeping the stack; with
      nothing typed it empties the stack and shows the reset text. */
  lemma BackspaceEdits(lib: FloatLibrary, st: State)
    ensures st.buffer != [] ==>
      var next := Press(lib, st, Backspace);
      next.buffer + [st.buffer[|st.buffer| - 1]] == st.buffer && next.stack == st.stack
    ensures st.buffer == [] ==> Press(lib, st, Backspace) == State(Text(ResetText), [], [])
  {
    if st.buffer != [] {
      assert st.buffer[..|st.buffer| - 1] + [st.buffer[|st.buffer| - 1]] == st.buffer;
    }
  }

  /** Enter empties the buffer and keeps the display.  A typed number goes on
      top of the stack; with nothing typed the top is duplicated (one entry
      more, the top two equal, the rest as it was); with the buffer and the
      stack both empty nothing changes. */
  lemma EnterCommits(lib: FloatLibrary, st: State)
    ensures Press(lib, st, Enter).buffer == [] && Press(lib, st, Enter).display == st.display
    ensures st.buffer != [] ==>
      var r := Press(lib, st, Enter).stack;
      r != [] && r[0] == Parsing.Reading(st.buffer) && r[1..] == st.stack
    ensures st.buffer == [] && st.stack != [] ==>
      var r := Press(lib, st, Enter).stack;
      |r| == |st.stack| + 1 && r[0] == r[1] && r[1..] == st.stack
    ensures st.buffer == [] && st.stack == [] ==> Press(lib, st, Enter) == st
  {
  }

  /** With a number typed, an operation key does what enter followed by the
      same operation key does. */
  lemma OperationCommitsFirst(lib: FloatLibrary, st: State, op: Operation)
    requires st.buffer != []
    ensures Press(lib, st, Op(op)) == Press(lib, Press(lib, st, Enter), Op(op))
  {
  }

  /** An operation key always empties the buffer.  Below the required depth
      of the committed stack nothing else happens; at or above it the
      display shows the new top. */
  lemma OperationDisplay(lib: FloatLibrary, st: State, op: Operation)
    ensures Press(lib, st, Op(op)).buffer == []
    ensures |Committed(st.buffer, st.stack)| < RequiredDepth(op) ==>
      Press(lib, st, Op(op)).stack == Committed(st.buffer, st.stack)
      && Press(lib, st, Op(op)).display == st.display
    ensures |Committed(st.buffer, st.stack)| >= RequiredDepth(op) ==>
      var next := Press(lib, st, Op(op));
      next.stack != [] && next.display == Number(next.stack[0])
  {
  }

  /** Enter then addition, with nothing typed, doubles the top. */
  lemma EnterThenAddDoubles(lib: FloatLibrary, st: State)
    requires st.buffer == [] && st.stack != []
    ensures Press(lib, Press(lib, st, Enter), Op(Addition)).stack == [2.0 * st.stack[0]] + st.stack[1..]
  {
    var duplicated := [st.stack[0]] + st.stack;
    assert duplicated[2..] == st.stack[1..];
  }

  /** A digit typed into an empty buffer reads as its own value. */
  lemma DigitIntoEmptyBuffer(lib: FloatLibrary, st: State, d: int)
    requires st.buffer == []
    ensures Press(lib, st, Digit(d)) == State(Number(d as real), [Parsing.Digit(d)], st.stack)
  {
    Parsing.ReadingSingleDigit(d);
    assert st.buffer + [Parsing.Digit(d)] == [Parsing.Digit(d)];
  }
}
