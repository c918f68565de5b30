/** The stack adapter the calculator puts on its arrays: index 0 of the
    sequence is the top of the stack, so a push inserts at the front and a
    pop removes the front.  Arrays are values in the modelled program, so the
    mutating operations take the old sequence and return the new one. */
module Stack {

  datatype Option<T> = None | Some(value: T)

  /** The number of elements on the stack. */
  function Depth<T>(s: seq<T>): (n: nat)
    ensures n == |s|
    ensures n == 0 <==> Top(s).None?
  {
    |s|
  }

  /** The element a pop would return, without popping it; none when empty. */
  function Top<T>(s: seq<T>): (t: Option<T>)
    ensures t.Some? <==> s != []
    ensures t.Some? ==> t.value == s[0]
  {
    if |s| > 0 then Some(s[0]) else None
  }

  /** Inserts `x` at the top: the new sequence has `x` at index 0 and the
      old elements, in their order, behind it. */
  method Push<T>(s: seq<T>, x: T) returns (r: seq<T>)
    ensures Depth(r) == Depth(s) + 1
    ensures Top(r) == Some(x)
    ensures r == [x] + s
  {
    r := [x] + s;
  }

  /** Removes and returns the top element.  The modelled pop traps on an
      empty array, so a caller must establish that the stack is not empty. */
  method Pop<T>(s: seq<T>) returns (x: T, r: seq<T>)
    requires s != []
    ensures Top(s) == Some(x)
    ensures Depth(r) == Depth(s) - 1
    ensures r == s[1..]
    ensures [x] + r == s
  {
    x := s[0];
    r := s[1..];
  }

  /** Popping right after a push gives back the pushed element and the
      stack as it was before the push. */
  method PushThenPop<T>(s: seq<T>, x: T) returns (y: T, r: seq<T>)
    ensures y == x && r == s
  {
    var pushed := Push(s, x);
    y, r := Pop(pushed);
  }

  /** Pushing back what a pop returned restores the stack. */
  method PopThenPush<T>(s: seq<T>) returns (r: seq<T>)
    requires s != []
    ensures r == s
  {
    var x, rest := Pop(s);
    r := Push(rest, x);
  }
}
