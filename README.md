# RPN calculator engine

A model of the `Calculator` class of a watch calculator app. The calculator works in reverse Polish notation (RPN). It holds three pieces of state:

- an input buffer of typed digit and period keys;
- an operand stack, whose index 0 is the top;
- the display.

Every key press goes through `take`:

- digit, double-zero, period and backspace edit the buffer;
- enter commits the buffer's number to the stack, or duplicates the top when nothing is typed;
- an operation key commits the buffer and then runs the operation on the stack.

Modules:

- `Stack`: the stack adapter the program puts on arrays. These are `Push`, `Pop`, `Top` and `Depth` on sequences, with index 0 as the top.
- `Parsing`: the buffer elements and the number a buffer reads as.
  - `FloatValue` is the calculator's left-to-right loop. It is proved equal to the fold `Reading`.
  - `ReadingIsDecimal` proves that `Reading` agrees with the positional reading `Decimal`: the integer digits before the first period, plus the sum of the fraction digits `d_i * 10^-i` after it.
- `Calc`: the class `Calculator`, whose fields are updated in place by `Take` and `RunOperation`.
  - `Take` and the six per-key methods behind it are proved against the pure step function `Press` (`Current() == Press(lib, old(Current()), button)`).
  - `RunOperation` is proved against `Evaluate`, and the constructor against the initial state.
  - The two display helpers are proved against `Reading` and against the top of the stack.
  - The lemmas state what a key press does.
  - `PressKeepsSound` is the invariant every press preserves: at most one period in the buffer, and the display never showing "Error".
- `Scenarios`: short key sequences run on a fresh calculator, with the stack and display they leave behind.

Numbers are reals. Addition, subtraction and multiplication are exact. Division, square root and power are parameters of the calculator (a `FloatLibrary` value), so the proofs are about which operands reach them and in which order.

Three behaviours of the code are easy to misread, and each can be seen in the source; the model follows the code:

- `floatValue` is declared `Float?` (calc/Calculator.swift:218), but it always returns its accumulator (calc/Calculator.swift:248). The comment above that return, about prepending a zero, describes nothing the code does.
  - An empty buffer reads as 0, so backspacing the last typed key shows 0 and never "Error".
  - The "Error" branch of `updateDisplayFromInputBuffer` cannot be taken, so the model has no such branch.
- `requiredDepth` is 2 for addition (calc/Calculator.swift:203). With one entry, the guard at calc/Calculator.swift:92-96 stops addition, so it does nothing; there is no identity case.
- Enter does not refresh the display (calc/Calculator.swift:59-70).

## Model

| member | source | states |
|---|---|---|
| Stack.Depth | calc/Calculator.swift:290-293 | the depth is the element count, and is zero exactly when there is no top |
| Stack.Top | calc/Calculator.swift:285-288 | there is a top exactly when the stack is non-empty, and it is element 0 |
| Stack.Push | calc/Calculator.swift:275-278 | the new element is at index 0 with the old elements behind it in order; depth grows by one |
| Stack.Pop | calc/Calculator.swift:280-283 | on a non-empty stack, returns the old top and leaves the rest; depth drops by one; putting the element back in front gives the old stack |
| Stack.PushThenPop | calc/Calculator.swift:275-283 | a pop right after a push returns the pushed element and the stack as it was |
| Stack.PopThenPush | calc/Calculator.swift:275-283 | pushing back what a pop returned restores the stack |
| Parsing.Same | calc/Calculator.swift:140-148 | the case-by-case equality of buffer elements is exactly value equality |
| Parsing.FloatValue | calc/Calculator.swift:218-249 | the loop's result is the reading of the buffer, for every buffer (it never fails) |
| Parsing.ReadingIsDecimal | calc/Calculator.swift:218-249 | the loop's reading equals integer digits plus fraction digits, and the loop's exponent is 0 before any period and -1 minus the number of fraction digits after it |
| Parsing.ReadingDigitBeforePeriod | calc/Calculator.swift:228-230 | before any period a digit makes the reading `10 * old + d` |
| Parsing.ReadingFirstPeriod | calc/Calculator.swift:233-234 | the first period leaves the reading unchanged and starts an empty fraction |
| Parsing.ReadingDigitAfterPeriod | calc/Calculator.swift:237-239 | after the first period the i-th digit adds `d * 10^-i` |
| Parsing.ReadingLaterPeriod | calc/Calculator.swift:241-243 | a later period leaves the whole loop state (accumulator and exponent) as it was, so neither the reading nor the fraction digits change |
| Parsing.ReadingWithoutPeriod | calc/Calculator.swift:227-230 | a buffer without a period reads as the decimal integer of its digits |
| Parsing.ReadingAtFirstPeriod | calc/Calculator.swift:218-249 | a buffer `a . b` with no period in `a` reads as the digits of `a` plus the fraction of the digits of `b`, with any later period skipped |
| Parsing.ReadingEmpty | calc/Calculator.swift:220-248 | the empty buffer reads as 0 |
| Parsing.ReadingSingleDigit | calc/Calculator.swift:228-230 | a lone digit reads as its value |
| Parsing.ReadingExample | calc/Calculator.swift:218-249 | 3 . 1 4 reads as 3.14 |
| Parsing.SplitAtFirstPeriod | calc/Calculator.swift:225-243 | the digits before the first period are the integer digits; the digits after it, later periods dropped, are the fraction digits |
| Calc.RequiredDepth | calc/Calculator.swift:199-210 | the depth is 1 exactly for subtraction and square root, and 2 exactly for the others |
| Calc.Arity | calc/Calculator.swift:99-128 | an operation consumes one or two entries, never more than a deep-enough stack holds |
| Calc.Calculator.constructor | calc/Calculator.swift:14-20 | a new calculator shows "0" with an empty buffer and an empty stack, and is sound |
| Calc.Calculator.Take | calc/Calculator.swift:23-87 | a key press moves the state to `Press` of the old state and keeps the state sound |
| Calc.Calculator.TakeDigit | calc/Calculator.swift:27-29 | the digit key's state change is `Press` for that digit |
| Calc.Calculator.TakeDoubleZero | calc/Calculator.swift:31-35 | the double-zero key's state change is `Press` for double zero |
| Calc.Calculator.TakePeriod | calc/Calculator.swift:37-43 | the period key's state change is `Press` for the period |
| Calc.Calculator.TakeBackspace | calc/Calculator.swift:45-57 | the backspace key's state change is `Press` for backspace |
| Calc.Calculator.TakeEnter | calc/Calculator.swift:59-70 | the enter key's state change is `Press` for enter |
| Calc.Calculator.TakeOperation | calc/Calculator.swift:72-86 | an operation key's state change is `Press` for that operation: commit the buffer, then run |
| Calc.Calculator.RunOperation | calc/Calculator.swift:89-132 | the new stack is `Evaluate` of the old one; below the required depth the display is unchanged, otherwise it shows the new top |
| Calc.Calculator.UpdateDisplayFromInputBuffer | calc/Calculator.swift:152-162 | the display shows the buffer's reading |
| Calc.Calculator.UpdateDisplayFromStack | calc/Calculator.swift:165-175 | the display shows the top, or "Error" when the stack is empty |
| Calc.OperationGuard | calc/Calculator.swift:91-96 | below the required depth an operation leaves the stack unchanged; otherwise the stack is not left empty |
| Calc.BinaryOperation | calc/Calculator.swift:102-128 | a binary operation consumes the top two entries and pushes `second OP top`; depth drops by one and the entries below are untouched |
| Calc.UnaryOperation | calc/Calculator.swift:108-114 | square root, and subtraction at depth 1, replace the top by its root or its negation and keep the depth and the rest |
| Calc.AppendKeepsOnePeriod | calc/Calculator.swift:37-43 | appending a digit, or a period to a buffer without one, keeps at most one period |
| Calc.DropLastKeepsOnePeriod | calc/Calculator.swift:45-51 | dropping the last key keeps at most one period |
| Calc.DoubleZeroKeepsSound | calc/Calculator.swift:31-35 | double zero keeps the state sound |
| Calc.PeriodKeepsSound | calc/Calculator.swift:37-43 | the period key keeps the state sound |
| Calc.BackspaceKeepsSound | calc/Calculator.swift:45-57 | backspace keeps the state sound |
| Calc.PressKeepsSound | calc/Calculator.swift:23-87 | every key press keeps at most one period in the buffer and never shows "Error" |
| Calc.PeriodTakenOnce | calc/Calculator.swift:37-43 | a period when the buffer has one changes nothing, so pressing period twice is the same as once |
| Calc.DigitsAppend | calc/Calculator.swift:27-35 | a digit appends exactly that digit and double zero exactly two zeros; the stack stays and the display shows the new buffer's reading |
| Calc.DoubleZeroIsTwoZeros | calc/Calculator.swift:31-35 | double zero is the same as two presses of the zero digit |
| Calc.BackspaceUndoesDigit | calc/Calculator.swift:27-51 | backspace right after a digit restores the buffer and the stack, and shows the restored buffer's reading |
| Calc.BackspaceEdits | calc/Calculator.swift:45-57 | backspace drops exactly the last key and keeps the stack; with nothing typed it empties the stack and shows "0.0" |
| Calc.EnterCommits | calc/Calculator.swift:59-70 | enter empties the buffer and keeps the display; it pushes the typed number, or duplicates the top (depth one more, top two equal, rest unchanged), or changes nothing when both are empty |
| Calc.OperationCommitsFirst | calc/Calculator.swift:59-86 | with a number typed, an operation key acts like enter followed by the operation key |
| Calc.OperationDisplay | calc/Calculator.swift:72-132 | an operation key empties the buffer; below the required depth the committed stack and the display stay, otherwise the display shows the new top |
| Calc.EnterThenAddDoubles | calc/Calculator.swift:59-103 | with nothing typed, enter then addition doubles the top and keeps the rest |
| Calc.DigitIntoEmptyBuffer | calc/Calculator.swift:27-29 | a digit typed into an empty buffer shows its own value |
| Scenarios.SubtractsTopFromSecond | calc/Calculator.swift:117-119 | x ENTER y minus leaves `[x - y]` and shows `x - y` |
| Scenarios.SquareRootOfTyped | calc/Calculator.swift:108-109 | x square-root leaves and shows the root of x |
| Scenarios.NegatesLoneOperand | calc/Calculator.swift:111-114 | x minus leaves and shows `-x` |
| Scenarios.NegatesTwice | calc/Calculator.swift:111-114 | x minus minus leaves `[x]` and shows x |
| Scenarios.ShallowOperationDoesNothing | calc/Calculator.swift:92-96 | any operation on a fresh calculator leaves the stack empty and the display "0" |
| Scenarios.AdditionNeedsTwo | calc/Calculator.swift:203 | x plus leaves `[x]` and keeps showing x |
| Scenarios.EnterDuplicates | calc/Calculator.swift:66-70 | x ENTER ENTER leaves `[x, x]` |
| Scenarios.BackspaceToZeroThenReset | calc/Calculator.swift:45-57 | x ENTER y backspace shows 0; a second backspace empties the stack and shows "0.0" |

## Left out

- IEEE single-precision arithmetic: rounding of the accumulator, of `+`, `-` and `*`, and of the computed powers of ten. The model computes over exact reals. Division by zero, the square root of a negative and `powf` are opaque `FloatLibrary` functions, not infinities or NaN.
- Text rendering of numbers on the display: a `Number(v)` display stands for Swift's default text of `v`. Only the fixed texts "0", "0.0" and "Error" are literal.
- The trap of `remove(at: 0)` on an empty array: `Stack.Pop` requires a non-empty stack. Every call is behind the depth guard.
- The optional result of `floatValue` and the "Error" branch of `updateDisplayFromInputBuffer`: the parser always returns a number, so these cannot occur and are not modelled.
- Digit values: the source's 64-bit `Int` is widened to an unbounded `int`, and digits are not restricted to 0-9 (the source does not restrict them either). This loses nothing, because a digit only reaches `Float(digit)` (calc/Calculator.swift:230, 238) and `==` (calc/Calculator.swift:144); no integer arithmetic is done on it.
- The `Stack` protocol and its `Array` conformance are modelled as module-level functions and value-returning methods on sequences; there is no protocol type. Arrays are values in Swift, so nothing is lost by this.
- The watch user interface that turns taps into `Button` values, and the display update it reads, are not part of this model.
