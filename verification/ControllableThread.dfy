/** The scheduler's handle on one thread: its call stack and the signal that gives it its turn. */
module ControllableThread {
  import opened Instructions

  datatype Call = Enter(f: string) | Exit(f: string)

  /** The answer to a call; Finished and Invalid are exceptions. */
  datatype Answer = GoingOn | Finished | Invalid

  function Answered(stack: seq<string>, call: Call): Answer {
    match call
    case Enter(_) => GoingOn
    case Exit(f) =>
      if stack == [] || stack[|stack| - 1] != f then Invalid
      else if |stack| == 1 then Finished
      else GoingOn
  }

  function Called(stack: seq<string>, call: Call): seq<string> {
    match call
    case Enter(f) => stack + [f]
    case Exit(_) => if Answered(stack, call) == Invalid then stack else stack[..|stack| - 1]
  }

  /** The stack after a sequence of calls none of which is invalid. */
  function StackAfter(stack: seq<string>, calls: seq<Call>): Option<seq<string>>
    decreases |calls|
  {
    if calls == [] then Some(stack)
    else if Answered(stack, calls[0]) == Invalid then None
    else StackAfter(Called(stack, calls[0]), calls[1..])
  }

  /** What really happens: functions that call others before they return. */
  datatype Activity = Idle | Body(f: string, inner: Activity, rest: Activity)

  function CallsOf(a: Activity): seq<Call> {
    match a
    case Idle => []
    case Body(f, inner, rest) => [Enter(f)] + (CallsOf(inner) + ([Exit(f)] + CallsOf(rest)))
  }

  lemma {:induction false} ActivityKeepsStack(stack: seq<string>, a: Activity, more: seq<Call>)
    ensures StackAfter(stack, CallsOf(a) + more) == StackAfter(stack, more)
    decreases a
  {
    match a
    case Idle => assert [] + more == more;
    case Body(f, inner, rest) =>
      var after := [Exit(f)] + (CallsOf(rest) + more);
      assert (CallsOf(a) + more)[1..] == CallsOf(inner) + after;
      ActivityKeepsStack(stack + [f], inner, after);
      assert after[1..] == CallsOf(rest) + more && (stack + [f])[..|stack|] == stack;
      ActivityKeepsStack(stack, rest, more);
  }

  lemma Regroup(h: string, a: seq<Call>, c: seq<Call>, x: seq<Call>)
    ensures [Enter(h)] + (a + ([Exit(h)] + (c + x))) == [Enter(h)] + (a + ([Exit(h)] + c)) + x
  {
  }

  /** If g is not on the stack in the end, there is a call that leaves it. */
  lemma {:induction false} ReturnOf(stack: seq<string>, g: string, calls: seq<Call>)
    returns (inner: Activity, rest: seq<Call>)
    requires StackAfter(stack + [g], calls).Some? && |StackAfter(stack + [g], calls).value| <= |stack|
    ensures calls == CallsOf(inner) + ([Exit(g)] + rest)
    ensures StackAfter(stack, rest) == StackAfter(stack + [g], calls)
    decreases |calls|
  {
    match calls[0]
    case Exit(_) =>
      inner, rest := Idle, calls[1..];
      assert (stack + [g])[..|stack|] == stack;
    case Enter(h) =>
      assert calls == [Enter(h)] + calls[1..];
      var a, b := ReturnOf(stack + [g], h, calls[1..]);
      var c, d := ReturnOf(stack, g, b);
      inner, rest := Body(h, a, c), d;
      Regroup(h, CallsOf(a), CallsOf(c), [Exit(g)] + d);
  }

  lemma {:induction false} EmptyMeansActivity(calls: seq<Call>) returns (a: Activity)
    requires StackAfter([], calls) == Some([])
    ensures CallsOf(a) == calls
    decreases |calls|
  {
    if calls == [] { return Idle; }
    var f := calls[0].f;
    assert [] + [f] == [f] && calls == [calls[0]] + calls[1..];
    var inner, rest := ReturnOf([], f, calls[1..]);
    var more := EmptyMeansActivity(rest);
    a := Body(f, inner, more);
  }

  /** The calls are those of functions that all have returned. */
  ghost predicate Nested(calls: seq<Call>) { exists a :: CallsOf(a) == calls }

  lemma {:induction false} StackAfterBoth(stack: seq<string>, a: seq<Call>, b: seq<Call>)
    ensures StackAfter(stack, a + b)
            == if StackAfter(stack, a).None? then None else StackAfter(StackAfter(stack, a).value, b)
    decreases |a|
  {
    if a == [] {
      assert a + b == b;
    } else {
      assert (a + b)[1..] == a[1..] + b;
      if Answered(stack, a[0]) != Invalid { StackAfterBoth(Called(stack, a[0]), a[1..], b); }
    }
  }

  /** A thread is reported as finished exactly when the return leaves no function entered: its calls and
      returns, this one included, are well nested. */
  lemma FinishedIffNested(calls: seq<Call>, f: string)
    requires StackAfter([], calls).Some?
    ensures Answered(StackAfter([], calls).value, Exit(f)) == Finished <==> Nested(calls + [Exit(f)])
  {
    var stack := StackAfter([], calls).value;
    StackAfterBoth([], calls, [Exit(f)]);
    if Nested(calls + [Exit(f)]) {
      var a :| CallsOf(a) == calls + [Exit(f)];
      ActivityKeepsStack([], a, []);
      assert CallsOf(a) + [] == CallsOf(a);
    } else if Answered(stack, Exit(f)) == Finished {
      assert stack[..|stack| - 1] == [];
      var a := EmptyMeansActivity(calls + [Exit(f)]);
    }
  }

  /** The returns that empty the stack. */
  function Returns(stack: seq<string>): seq<Call> {
    if stack == [] then [] else [Exit(stack[|stack| - 1])] + Returns(stack[..|stack| - 1])
  }

  lemma {:induction false} ReturnsEmpty(stack: seq<string>)
    ensures StackAfter(stack, Returns(stack)) == Some([])
  {
    if stack != [] {
      ReturnsEmpty(stack[..|stack| - 1]);
      assert Returns(stack)[1..] == Returns(stack[..|stack| - 1]);
    }
  }

  lemma NestedMeansAccepted(calls: seq<Call>, more: seq<Call>)
    requires Nested(calls + more)
    ensures StackAfter([], calls).Some?
  {
    var a :| CallsOf(a) == calls + more;
    ActivityKeepsStack([], a, []);
    assert CallsOf(a) + [] == calls + more;
    StackAfterBoth([], calls, more);
  }

  /** A return is accepted exactly when the calls and returns, this one included, can be continued to well nested
      ones. */
  lemma InvalidIffNotNested(calls: seq<Call>, f: string)
    requires StackAfter([], calls).Some?
    ensures Answered(StackAfter([], calls).value, Exit(f)) == Invalid
            <==> !exists more: seq<Call> :: Nested(calls + [Exit(f)] + more)
  {
    var stack := StackAfter([], calls).value;
    StackAfterBoth([], calls, [Exit(f)]);
    if Answered(stack, Exit(f)) == Invalid {
      forall more: seq<Call> ensures !Nested(calls + [Exit(f)] + more) {
        if Nested(calls + [Exit(f)] + more) { NestedMeansAccepted(calls + [Exit(f)], more); }
      }
    } else {
      var left := Called(stack, Exit(f));
      ReturnsEmpty(left);
      StackAfterBoth([], calls + [Exit(f)], Returns(left));
      var a := EmptyMeansActivity(calls + [Exit(f)] + Returns(left));
      assert Nested(calls + [Exit(f)] + Returns(left));
    }
  }

  // The binary semaphore on which a thread waits for its turn.

  /** Where a thread is with respect to it: outside, on its way after a post, or blocked on it. */
  datatype Place = Away | Posted | AtSemaphore

  datatype Handle = Handle(place: Place, signalled: bool) {
    /** Setting the signal twice is setting it once. */
    function Granted(): Handle { this.(signalled := true) }
    function Arrived(): Handle { this.(place := AtSemaphore) }
    predicate CanResume() { place == AtSemaphore && signalled }
    function Resumed(): Handle { Handle(Away, false) }
  }

  const NEW_HANDLE := Handle(Away, false)

  class ControllableThread {
    var stack: seq<string>
    var place: Place
    var signalled: bool

    function View(): Handle
      reads this
    {
      Handle(place, signalled)
    }

    constructor ()
      ensures stack == [] && View() == NEW_HANDLE
    {
      stack, place, signalled := [], Away, false;
    }

    /** A copy with the given state of the semaphore. */
    constructor Of(h: Handle)
      ensures stack == [] && View() == h
    {
      stack, place, signalled := [], h.place, h.signalled;
    }

    method EnterFunction(f: string)
      modifies `stack
      ensures stack == Called(old(stack), Enter(f))
    {
      stack := stack + [f];
    }

    method ExitFunction(f: string) returns (answer: Answer)
      modifies `stack
      ensures answer == Answered(old(stack), Exit(f)) && stack == Called(old(stack), Exit(f))
    {
      if stack == [] || stack[|stack| - 1] != f { return Invalid; }
      stack := stack[..|stack| - 1];
      return if stack == [] then Finished else GoingOn;
    }

    method GrantExecutionRight()
      modifies `signalled
      ensures View() == old(View()).Granted()
    {
      signalled := true;
    }

    /** The thread begins to wait. */
    method Arrive()
      modifies `place
      ensures View() == old(View()).Arrived()
    {
      place := AtSemaphore;
    }

    /** The wait returns and takes the signal. */
    method Resume()
      requires View().CanResume()
      modifies `place, `signalled
      ensures View() == old(View()).Resumed()
    {
      place, signalled := Away, false;
    }
  }
}
