/** Printing a whole execution and reading it, possibly into one that holds a prefix of it already. */
module RecordTexts {
  import opened Instructions
  import opened PoolSpec
  import opened ExecutionRecord
  import opened Tokens
  import opened Readers
  import opened StateTexts

  // Transitions.

  function StepText(t: Transition): string { Spaced(IntText(t.index), InstructionText(t.instr)) }

  function TransitionText(t: Transition): string { Joined(StepText(t), "\n", StateText(t.post)) }

  /** What is read of a transition: index and instruction, and the state. */
  type Step = (int, Instruction)
  type Entered = (Step, State)

  function MakeStep(index: int, i: Instruction): Step { (index, i) }

  function ParseStep(s: string): (r: Parse<Step>)
    ensures r.Ok? ==> |r.rest| < |s|
  {
    Pair(s, ParseInt, ParseInstruction, MakeStep)
  }

  function MakeEntered(step: Step, post: State): Entered { (step, post) }

  function ParseTransition(s: string): (r: Parse<Entered>)
    ensures r.Ok? ==> |r.rest| < |s|
  {
    Pair(s, ParseStep, ParseState, MakeEntered)
  }

  function ParseStatus(s: string): (r: Parse<Status>)
    ensures r.Ok? ==> |r.rest| < |s|
  {
    ParseOf(s, StatusOf)
  }

  /** What can be printed and read back of a transition. */
  predicate Restores(t: Transition) {
    && FitsInt(t.index) && Fits(t.instr) && Named(t.instr)
    && FitsState(t.post) && NamedState(t.post)
  }

  lemma TransitionUndoes(t: Transition)
    requires Restores(t)
    ensures Undoes(ParseTransition, TransitionText(t), ((t.index, t.instr), t.post))
  {
    IntUndoes(t.index);
    InstructionUndoes(t.instr);
    StateUndoes(t.post);
    forall pre, k | Blank(pre) && Ends(k) ensures ParseStep(pre + (StepText(t) + k)) == Ok((t.index, t.instr), k) {
      PairUndoes(pre, k, IntText(t.index), t.index, " ", InstructionText(t.instr), t.instr, ParseInt, ParseInstruction,
          MakeStep);
    }
    forall pre, k | Blank(pre) && Ends(k)
      ensures ParseTransition(pre + (TransitionText(t) + k)) == Ok(((t.index, t.instr), t.post), k)
    {
      PairUndoes(pre, k, StepText(t), (t.index, t.instr), "\n", StateText(t.post), t.post, ParseStep, ParseState,
          MakeEntered);
    }
  }

  lemma StatusUndoes(status: Status)
    ensures Undoes(ParseStatus, StatusText(status), status)
  {
    assert IsWord(StatusText(status)) && StatusOf(StatusText(status)) == Some(status);
    WordUndoes(StatusText(status), status, StatusOf, ParseStatus);
  }

  // The loop. It is a function of the three readers it uses.

  /** The execution read, and whether the stream is still good. */
  datatype Reading = Reading(record: Record, good: bool)

  /** The status after the line of equal signs. If it cannot be read, what is set is not initialised. */
  function ReadEnd(s: string, E: Record, junk: Status, status: string -> Parse<Status>): Reading {
    match SkipLines(s, 1)
    case NoLine => Reading(E.(status := junk), false)
    case Line(r) =>
      match status(r)
      case Fail => Reading(E.(status := junk), false)
      case Ok(v, _) => Reading(E.(status := v), true)
  }

  /** The initial state, or nothing but its line if the execution has one. */
  function ReadStart(s: string, E: Record, state: string -> Parse<State>): (r: Parse<Record>)
    requires Consumes(state)
    ensures r.Ok? ==> |r.rest| < |s| && r.value.s0.Some? && r.value.transitions == E.transitions
  {
    if E.s0.None? then
      match state(s)
      case Fail => Fail
      case Ok(st, r) => Ok(E.(s0 := Some(st)), r)
    else
      match SkipLines(s, 1)
      case NoLine => Fail
      case Line(r) => Ok(E, r)
  }

  /** From the i-th transition on, given a text that does not start with a space. */
  function ReadTransition(s: string, E: Record, i: nat, transition: string -> Parse<Entered>): (r: Parse<Record>)
    requires Consumes(transition) && i <= |E.transitions| && E.s0.Some?
    ensures r.Ok? ==> |r.rest| < |s| && r.value.s0.Some? && i < |r.value.transitions|
  {
    if i == |E.transitions| then
      match transition(s)
      case Fail => Fail
      case Ok(e, r) => Ok(E.PushBack(e.0.1, e.1), r)
    else
      match SkipLines(s, 2)
      case NoLine => Fail
      case Line(r) => Ok(E, r)
  }

  function ReadFrom(s: string, E: Record, i: nat, junk: Status,
                    state: string -> Parse<State>, transition: string -> Parse<Entered>,
                    status: string -> Parse<Status>): Reading
    requires Consumes(state) && Consumes(transition)
    requires i <= |E.transitions| && (i > 0 ==> E.s0.Some?)
    decreases |s|
  {
    var t := SkipSpace(s);
    if t != "" && t[0] == '=' then ReadEnd(t, E, junk, status)
    else
      match if i > 0 then Ok(E, t) else ReadStart(t, E, state)
      case Fail => Reading(E, false)
      case Ok(F, u) =>
        match ReadTransition(u, F, i, transition)
        case Fail => Reading(F, false)
        case Ok(G, v) => ReadFrom(v, G, i + 1, junk, state, transition, status)
  }

  function ReadRecord(s: string, E: Record, junk: Status): Reading {
    ReadFrom(s, E, 0, junk, ParseState, ParseTransition, ParseStatus)
  }

  // The text.

  const EQUALS := "====="

  /** The text from the i-th transition on: two lines for each, and the status after the equal signs. */
  function TailText(steps: seq<string>, posts: seq<string>, i: nat, end: string): string
    requires i <= |steps| == |posts|
    decreases |steps| - i
  {
    if i == |steps| then EQUALS + ("\n" + end)
    else Joined(steps[i], "\n", posts[i]) + ("\n" + TailText(steps, posts, i + 1, end))
  }

  function Steps(E: Record): seq<string> {
    seq(|E.transitions|, i requires 0 <= i < |E.transitions| => StepText(E.transitions[i]))
  }

  function Posts(E: Record): seq<string> {
    seq(|E.transitions|, i requires 0 <= i < |E.transitions| => StateText(E.transitions[i].post))
  }

  /** Nothing is printed of an execution without an initial state. */
  function RecordText(E: Record): string {
    if E.s0.None? then "" else StateText(E.s0.value) + ("\n" + TailText(Steps(E), Posts(E), 0, StatusText(E.status)))
  }

  /** E before its transitions from the k-th on were recorded. */
  predicate IsPrefix(F: Record, E: Record, k: nat)
    requires k <= |E.transitions|
  {
    && F.transitions == E.transitions[..k]
    && F.threads == {0} + SpawnedIn(F.transitions)
    && (F.s0 == E.s0 || (k == 0 && F.s0 == None))
  }

  // How the parts are met by the loop.

  /** The first character decides between a further transition and the end. */
  predicate Starts(s: string) { s != "" && !IsSpace(s[0]) && s[0] != '=' }

  /** The i-th transition can be skipped and read. */
  ghost predicate LegibleAt(E: Record, steps: seq<string>, posts: seq<string>, i: nat,
      transition: string -> Parse<Entered>)
    requires i < |E.transitions| == |steps| == |posts|
  {
    && Starts(steps[i]) && IsLine(steps[i]) && IsLine(posts[i])
    && Undoes(transition, Joined(steps[i], "\n", posts[i]), ((i + 1, E.transitions[i].instr), E.transitions[i].post))
  }

  ghost predicate Legible(E: Record, steps: seq<string>, posts: seq<string>, end: string,
                          transition: string -> Parse<Entered>, status: string -> Parse<Status>) {
    && |E.transitions| == |steps| == |posts|
    && (forall i: nat | i < |steps| :: LegibleAt(E, steps, posts, i, transition))
    && Undoes(status, end, E.status)
  }

  lemma EndUndoes(E: Record, F: Record, junk: Status, text: string, status: string -> Parse<Status>)
    requires Undoes(status, text, E.status)
    ensures ReadEnd(EQUALS + ("\n" + text), F, junk, status) == Reading(F.(status := E.status), true)
  {
    SkipLineOf(EQUALS, text, 1);
    assert Blank("") && Ends("") && "" + (text + "") == text;
    assert status("" + (text + "")) == Ok(E.status, "");
  }

  lemma {:induction false} SpawnedInPrefix(ts: seq<Transition>, t: Transition)
    ensures SpawnedIn(ts + [t]) == SpawnedIn(ts) + SpawnedBy(t.instr)
  {
    assert (ts + [t])[..|ts|] == ts;
  }

  /** Recording the next transition once more. */
  lemma PushBackRestores(E: Record, F: Record, k: nat)
    requires E.Chained() && k < |E.transitions| && IsPrefix(F, E, k) && F.s0 == E.s0
    ensures var t := E.transitions[k]; IsPrefix(F.PushBack(t.instr, t.post), E, k + 1)
  {
    var t := E.transitions[k];
    assert E.LinkedAt(k);
    assert F.Final() == E.StateAt(k);
    assert E.transitions[..k + 1] == E.transitions[..k] + [t];
    SpawnedInPrefix(F.transitions, t);
  }

  lemma TransitionIsRead(pre: string, E: Record, F: Record, i: nat, rest: string, text: string,
      transition: string -> Parse<Entered>)
    requires E.Chained() && i < |E.transitions| && IsPrefix(F, E, i) && F.s0 == E.s0 && Blank(pre)
    requires Consumes(transition) && Undoes(transition, text, ((i + 1, E.transitions[i].instr), E.transitions[i].post))
    ensures var t := E.transitions[i];
            ReadTransition(pre + (text + ("\n" + rest)), F, i, transition)
                == Ok(F.PushBack(t.instr, t.post), "\n" + rest)
  {
    assert Ends("\n" + rest);
    assert transition(pre + (text + ("\n" + rest)))
        == Ok(((i + 1, E.transitions[i].instr), E.transitions[i].post), "\n" + rest);
  }

  lemma TransitionIsSkipped(step: string, post: string, F: Record, i: nat, rest: string,
      transition: string -> Parse<Entered>)
    requires Consumes(transition) && i < |F.transitions| && F.s0.Some? && IsLine(step) && IsLine(post)
    ensures ReadTransition(Joined(step, "\n", post) + ("\n" + rest), F, i, transition) == Ok(F, rest)
  {
    assert Joined(step, "\n", post) + ("\n" + rest) == step + ("\n" + (post + ("\n" + rest)));
    SkipLineOf(step, post + ("\n" + rest), 2);
    SkipLineOf(post, rest, 1);
  }

  // One round of the loop each.

  lemma RoundTakes(pre: string, t: string, F: Record, i: nat, junk: Status, G: Record, rest: string,
                   state: string -> Parse<State>, transition: string -> Parse<Entered>, status: string -> Parse<Status>)
    requires Consumes(state) && Consumes(transition) && 0 < i <= |F.transitions| && F.s0.Some? && Blank(pre)
    requires Starts(t) && ReadTransition(t, F, i, transition) == Ok(G, rest)
    ensures G.s0.Some? && i < |G.transitions|
    ensures ReadFrom(pre + t, F, i, junk, state, transition, status)
            == ReadFrom(rest, G, i + 1, junk, state, transition, status)
  {
    SkipBlank(pre, t);
  }

  lemma RoundEnds(pre: string, t: string, F: Record, i: nat, junk: Status,
                  state: string -> Parse<State>, transition: string -> Parse<Entered>, status: string -> Parse<Status>)
    requires Consumes(state) && Consumes(transition) && i <= |F.transitions| && (i > 0 ==> F.s0.Some?) && Blank(pre)
    requires t != "" && t[0] == '='
    ensures ReadFrom(pre + t, F, i, junk, state, transition, status) == ReadEnd(t, F, junk, status)
  {
    SkipBlank(pre, t);
  }

  lemma AllRead(E: Record, F: Record)
    requires E.Chained() && IsPrefix(F, E, |E.transitions|) && F.s0 == E.s0
    ensures F.(status := E.status) == E
  {
    assert E.transitions[..|E.transitions|] == E.transitions;
  }

  lemma {:induction false} TailRoundTrip(pre: string, E: Record, steps: seq<string>, posts: seq<string>, end: string,
      F: Record, k: nat, i: nat, junk: Status,
      state: string -> Parse<State>, transition: string -> Parse<Entered>, status: string -> Parse<Status>)
    requires Consumes(state) && Consumes(transition) && Legible(E, steps, posts, end, transition, status)
    requires E.Chained() && 0 < i <= k <= |E.transitions| && IsPrefix(F, E, k) && F.s0 == E.s0 && Blank(pre)
    ensures ReadFrom(pre + TailText(steps, posts, i, end), F, i, junk, state, transition, status) == Reading(E, true)
    decreases |E.transitions| - i
  {
    var t := TailText(steps, posts, i, end);
    if i == |E.transitions| {
      RoundEnds(pre, t, F, i, junk, state, transition, status);
      EndUndoes(E, F, junk, end, status);
      AllRead(E, F);
    } else {
      var rest := TailText(steps, posts, i + 1, end);
      assert LegibleAt(E, steps, posts, i, transition);
      assert t[0] == steps[i][0];
      if i < k {
        TransitionIsSkipped(steps[i], posts[i], F, i, rest, transition);
        RoundTakes(pre, t, F, i, junk, F, rest, state, transition, status);
        TailRoundTrip("", E, steps, posts, end, F, k, i + 1, junk, state, transition, status);
        assert "" + rest == rest;
      } else {
        var G := F.PushBack(E.transitions[i].instr, E.transitions[i].post);
        TransitionIsRead("", E, F, i, rest, Joined(steps[i], "\n", posts[i]), transition);
        assert "" + t == t;
        PushBackRestores(E, F, i);
        RoundTakes(pre, t, F, i, junk, G, "\n" + rest, state, transition, status);
        TailRoundTrip("\n", E, steps, posts, end, G, i + 1, i + 1, junk, state, transition, status);
      }
    }
  }

  /** The loop starts with the initial state, read or skipped, and the first transition, read or skipped. */
  lemma StartIsTaken(E: Record, F: Record, k: nat, first: string, rest: string, state: string -> Parse<State>)
    requires Consumes(state) && E.s0.Some? && Undoes(state, first, E.s0.value) && IsLine(first)
    requires k <= |E.transitions| && IsPrefix(F, E, k)
    ensures ReadStart(first + ("\n" + rest), F, state) == Ok(F.(s0 := E.s0), if F.s0.None? then "\n" + rest else rest)
  {
    if F.s0.None? {
      assert Blank("") && Ends("\n" + rest) && "" + (first + ("\n" + rest)) == first + ("\n" + rest);
      assert state("" + (first + ("\n" + rest))) == Ok(E.s0.value, "\n" + rest);
    } else {
      SkipLineOf(first, rest, 1);
    }
  }

  lemma FirstRound(s: string, F: Record, junk: Status, G: Record, u: string, H: Record, v: string,
                   state: string -> Parse<State>, transition: string -> Parse<Entered>, status: string -> Parse<Status>)
    requires Consumes(state) && Consumes(transition) && Starts(s)
    requires ReadStart(s, F, state) == Ok(G, u) && G.s0.Some? && ReadTransition(u, G, 0, transition) == Ok(H, v)
    ensures H.s0.Some? && 0 < |H.transitions|
    ensures ReadFrom(s, F, 0, junk, state, transition, status) == ReadFrom(v, H, 1, junk, state, transition, status)
  {
  }

  lemma FirstRoundFails(s: string, F: Record, junk: Status, G: Record, u: string,
                        state: string -> Parse<State>, transition: string -> Parse<Entered>,
                        status: string -> Parse<Status>)
    requires Consumes(state) && Consumes(transition) && Starts(s)
    requires ReadStart(s, F, state) == Ok(G, u) && G.s0.Some? && ReadTransition(u, G, 0, transition).Fail?
    ensures ReadFrom(s, F, 0, junk, state, transition, status) == Reading(G, false)
  {
  }

  lemma HeadRoundTrip(E: Record, first: string, steps: seq<string>, posts: seq<string>, end: string,
      F: Record, k: nat, junk: Status,
      state: string -> Parse<State>, transition: string -> Parse<Entered>, status: string -> Parse<Status>)
    requires Consumes(state) && Consumes(transition) && Legible(E, steps, posts, end, transition, status)
    requires E.Chained() && E.transitions != [] && k <= |E.transitions| && IsPrefix(F, E, k)
    requires Starts(first) && IsLine(first) && Undoes(state, first, E.s0.value)
    ensures ReadFrom(first + ("\n" + TailText(steps, posts, 0, end)), F, 0, junk, state, transition, status)
            == Reading(E, true)
  {
    var (t, rest) := (TailText(steps, posts, 0, end), TailText(steps, posts, 1, end));
    var (s, G) := (first + ("\n" + t), F.(s0 := E.s0));
    StartIsTaken(E, F, k, first, t, state);
    assert LegibleAt(E, steps, posts, 0, transition);
    assert s[0] == first[0];
    if k == 0 {
      var pre := if F.s0.None? then "\n" else "";
      assert pre + t == if F.s0.None? then "\n" + t else t;
      var H := G.PushBack(E.transitions[0].instr, E.transitions[0].post);
      TransitionIsRead(pre, E, G, 0, rest, Joined(steps[0], "\n", posts[0]), transition);
      PushBackRestores(E, G, 0);
      FirstRound(s, F, junk, G, pre + t, H, "\n" + rest, state, transition, status);
      TailRoundTrip("\n", E, steps, posts, end, H, 1, 1, junk, state, transition, status);
    } else {
      TransitionIsSkipped(steps[0], posts[0], G, 0, rest, transition);
      FirstRound(s, F, junk, G, t, G, rest, state, transition, status);
      TailRoundTrip("", E, steps, posts, end, G, k, 1, junk, state, transition, status);
      assert "" + rest == rest;
    }
  }

  /** Without transitions the loop tries to read one before it looks for the equal signs again. */
  lemma HeadOfNothing(E: Record, first: string, end: string, F: Record, junk: Status,
      state: string -> Parse<State>, transition: string -> Parse<Entered>, status: string -> Parse<Status>)
    requires Consumes(state) && Consumes(transition) && E.Chained() && E.transitions == [] && IsPrefix(F, E, 0)
    requires Starts(first) && IsLine(first) && Undoes(state, first, E.s0.value)
    requires forall pre, t | Blank(pre) && t != "" && t[0] == '=' :: transition(pre + t).Fail?
    ensures ReadFrom(first + ("\n" + (EQUALS + ("\n" + end))), F, 0, junk, state, transition, status)
            == Reading(F.(s0 := E.s0), false)
  {
    var t := EQUALS + ("\n" + end);
    var (s, G) := (first + ("\n" + t), F.(s0 := E.s0));
    StartIsTaken(E, F, 0, first, t, state);
    assert s[0] == first[0];
    var pre := if F.s0.None? then "\n" else "";
    assert pre + t == if F.s0.None? then "\n" + t else t;
    assert Blank(pre) && t[0] == '=' && transition(pre + t).Fail?;
    FirstRoundFails(s, F, junk, G, pre + t, state, transition, status);
  }

  // The readers at hand are such readers.

  /** What the text form keeps: numbers of their types, and file names that are words. */
  predicate Restorable(E: Record) {
    && E.s0.Some? && FitsState(E.s0.value) && NamedState(E.s0.value)
    && forall t | t in E.transitions :: Restores(t)
  }

  lemma FirstOfNumber(n: nat, x: string)
    ensures Starts(IntText(n) + x)
  {
    var d := NatText(n, 10);
    NatTextIsNumeral(n, 10);
    assert (d + x)[0] == d[0] && IsDigit(d[0], 10);
  }

  lemma TransitionIsLegible(E: Record, i: nat)
    requires E.Chained() && Restorable(E) && i < |E.transitions|
    ensures LegibleAt(E, Steps(E), Posts(E), i, ParseTransition)
  {
    var t := E.transitions[i];
    assert E.LinkedAt(i) && t in E.transitions;
    IntIsLine(t.index);
    InstructionIsLine(t.instr);
    SpacedIsLine(IntText(t.index), InstructionText(t.instr));
    StateIsLine(t.post);
    FirstOfNumber(t.index, " " + InstructionText(t.instr));
    TransitionUndoes(t);
  }

  lemma RecordIsLegible(E: Record)
    requires E.Chained() && Restorable(E)
    ensures Legible(E, Steps(E), Posts(E), StatusText(E.status), ParseTransition, ParseStatus)
  {
    forall i: nat | i < |E.transitions|
      ensures LegibleAt(E, Steps(E), Posts(E), i, ParseTransition)
    {
      TransitionIsLegible(E, i);
    }
    StatusUndoes(E.status);
  }

  lemma EqualsAreNoNumber(pre: string, t: string)
    requires Blank(pre) && t != "" && t[0] == '='
    ensures ParseInt(pre + t).Fail?
  {
    SkipBlank(pre, t);
  }

  lemma EqualsAreNoTransition(pre: string, t: string)
    requires Blank(pre) && t != "" && t[0] == '='
    ensures ParseTransition(pre + t).Fail?
  {
    EqualsAreNoNumber(pre, t);
  }

  /** Printing an execution and reading it into an empty one, or into any of its prefixes, restores it with
      its threads and its status, exactly if it has a transition or the reader happens to have its status:
      of an execution without transitions the status is not read back. */
  lemma RoundTrip(E: Record, F: Record, k: nat, junk: Status)
    requires E.Chained() && Restorable(E) && k <= |E.transitions| && IsPrefix(F, E, k)
    ensures ReadRecord(RecordText(E), F, junk).record == E <==> E.transitions != [] || F.status == E.status
    ensures ReadRecord(RecordText(E), F, junk).good <==> E.transitions != []
  {
    var first := StateText(E.s0.value);
    StateUndoes(E.s0.value);
    StateIsLine(E.s0.value);
    assert first[0] == 'S';
    if E.transitions != [] {
      RecordIsLegible(E);
      HeadRoundTrip(E, first, Steps(E), Posts(E), StatusText(E.status), F, k, junk, ParseState, ParseTransition,
          ParseStatus);
    } else {
      forall pre, t | Blank(pre) && t != "" && t[0] == '='
        ensures ParseTransition(pre + t).Fail?
      {
        EqualsAreNoTransition(pre, t);
      }
      HeadOfNothing(E, first, StatusText(E.status), F, junk, ParseState, ParseTransition, ParseStatus);
    }
  }

  // What cannot be restored.

  predicate NamedTransition(t: Transition) { Named(t.instr) && NamedState(t.post) }

  predicate NamedRecord(E: Record) {
    && (E.s0.Some? ==> NamedState(E.s0.value))
    && forall t | t in E.transitions :: NamedTransition(t)
  }

  ghost predicate NamesAll(state: string -> Parse<State>, transition: string -> Parse<Entered>) {
    && (forall s :: state(s).Ok? ==> NamedState(state(s).value))
    && (forall s :: transition(s).Ok? ==> Named(transition(s).value.0.1) && NamedState(transition(s).value.1))
  }

  lemma {:induction false} ReadsOnlyNamed(s: string, E: Record, i: nat, junk: Status,
      state: string -> Parse<State>, transition: string -> Parse<Entered>, status: string -> Parse<Status>)
    requires Consumes(state) && Consumes(transition) && NamesAll(state, transition)
    requires i <= |E.transitions| && (i > 0 ==> E.s0.Some?) && NamedRecord(E)
    ensures NamedRecord(ReadFrom(s, E, i, junk, state, transition, status).record)
    decreases |s|
  {
    var t := SkipSpace(s);
    if !(t != "" && t[0] == '=') {
      var f := if i > 0 then Ok(E, t) else ReadStart(t, E, state);
      if f.Ok? {
        var g := ReadTransition(f.rest, f.value, i, transition);
        if g.Ok? { ReadsOnlyNamed(g.rest, g.value, i + 1, junk, state, transition, status); }
      }
    }
  }

  lemma TransitionsReadAreNamed(s: string)
    ensures ParseTransition(s).Ok? ==> Named(ParseTransition(s).value.0.1) && NamedState(ParseTransition(s).value.1)
  {
    var step := ParseStep(s);
    if step.Ok? { StatesReadAreNamed(step.rest); }
  }

  lemma ReadersNameAll()
    ensures NamesAll(ParseState, ParseTransition)
  {
    forall s
      ensures ParseState(s).Ok? ==> NamedState(ParseState(s).value)
      ensures ParseTransition(s).Ok? ==> Named(ParseTransition(s).value.0.1) && NamedState(ParseTransition(s).value.1)
    {
      StatesReadAreNamed(s);
      TransitionsReadAreNamed(s);
    }
  }

  /** The numbers of an execution fit their types. */
  predicate FitsRecord(E: Record) {
    && (E.s0.Some? ==> FitsState(E.s0.value))
    && forall t | t in E.transitions :: FitsInt(t.index) && Fits(t.instr) && FitsState(t.post)
  }

  /** An execution that is printed and read into an empty one is restored exactly if every file name in it
      is one word, and it has a transition or is still RUNNING. */
  lemma RestoredIff(E: Record, junk: Status)
    requires E.Chained() && FitsRecord(E)
    ensures ReadRecord(RecordText(E), NewRecord(None), junk).record == E
            <==> NamedRecord(E) && (E.transitions != [] || E.status == RUNNING)
  {
    if NamedRecord(E) {
      forall t | t in E.transitions ensures Restores(t) { assert NamedTransition(t); }
      assert IsPrefix(NewRecord(None), E, 0);
      RoundTrip(E, NewRecord(None), 0, junk);
    } else {
      ReadersNameAll();
      ReadsOnlyNamed(RecordText(E), NewRecord(None), 0, junk, ParseState, ParseTransition, ParseStatus);
    }
  }

  // The two ways in which a text loses something.

  /** An execution without transitions comes back RUNNING. */
  lemma EmptyExecutionIsLost(junk: Status)
    ensures var E := Record([], Some(State({}, map[])), {0}, DONE);
            E.Chained() && ReadRecord(RecordText(E), NewRecord(None), junk).record != E
  {
    RestoredIff(Record([], Some(State({}, map[])), {0}, DONE), junk);
  }

  /** A file name with a space in it does not come back. */
  lemma SpacedNameIsLost(junk: Status)
    ensures var i := MemoryInstruction(0, Load, 5, false, MetaData("my file.cpp", 1));
            var E := Record([], Some(State({0}, map[0 := Next(i, true)])), {0}, RUNNING);
            E.Chained() && ReadRecord(RecordText(E), NewRecord(None), junk).record != E
  {
    var i := MemoryInstruction(0, Load, 5, false, MetaData("my file.cpp", 1));
    var s := State({0}, map[0 := Next(i, true)]);
    assert !IsWord("my file.cpp") by { assert "my file.cpp"[2] == ' ' && IsSpace(' ') && ' ' in "my file.cpp"; }
    assert !NamedState(s) by { assert 0 in s.next && s.next[0].instr == i && !Named(i); }
    RestoredIff(Record([], Some(s), {0}, RUNNING), junk);
  }
}
