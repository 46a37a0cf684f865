/** Texts of executions that break off: what is read of them, and that reading can be resumed. */
module CutTexts {
  import opened PoolSpec
  import opened ExecutionRecord
  import opened Tokens
  import opened Readers
  import opened StateTexts
  import opened RecordTexts

  /** The text from the i-th transition up to the k-th, and what follows. */
  function TextTo(steps: seq<string>, posts: seq<string>, i: nat, k: nat, tail: string): string
    requires i <= k <= |steps| == |posts|
    decreases k - i
  {
    if i == k then tail else Joined(steps[i], "\n", posts[i]) + ("\n" + TextTo(steps, posts, i + 1, k, tail))
  }

  /** The text of an execution up to the k-th transition, and what follows. */
  function CutText(E: Record, k: nat, tail: string): string
    requires E.s0.Some? && k <= |E.transitions|
  {
    StateText(E.s0.value) + ("\n" + TextTo(Steps(E), Posts(E), 0, k, tail))
  }

  lemma {:induction false} TextGoesOn(steps: seq<string>, posts: seq<string>, i: nat, k: nat, end: string)
    requires i <= k <= |steps| == |posts|
    ensures TextTo(steps, posts, i, k, TailText(steps, posts, k, end)) == TailText(steps, posts, i, end)
    decreases k - i
  {
    if i < k { TextGoesOn(steps, posts, i + 1, k, end); }
  }

  /** A text that is cut between two transitions: the rest is missing. */
  lemma CutOfText(E: Record, k: nat)
    requires E.s0.Some? && k <= |E.transitions|
    ensures CutText(E, k, TailText(Steps(E), Posts(E), k, StatusText(E.status))) == RecordText(E)
  {
    TextGoesOn(Steps(E), Posts(E), 0, k, StatusText(E.status));
  }

  /** The first k transitions of an execution, read by someone with that status. */
  function First(E: Record, k: nat, status: Status): Record
    requires k <= |E.transitions|
  {
    Record(E.transitions[..k], E.s0, {0} + SpawnedIn(E.transitions[..k]), status)
  }

  /** There is neither a transition to be read nor the line of equal signs. */
  ghost predicate BreaksOff(tail: string, transition: string -> Parse<Entered>) {
    && (var t := SkipSpace(tail); (t == "" || t[0] != '=') && transition(t).Fail?)
    && forall pre | Blank(pre) :: transition(pre + tail).Fail?
  }

  // What is read, for any readers.

  lemma RoundFails(pre: string, tail: string, F: Record, i: nat, junk: Status,
                   state: string -> Parse<State>, transition: string -> Parse<Entered>, status: string -> Parse<Status>)
    requires Consumes(state) && Consumes(transition) && 0 < i == |F.transitions| && F.s0.Some? && Blank(pre)
    requires BreaksOff(tail, transition)
    ensures ReadFrom(pre + tail, F, i, junk, state, transition, status) == Reading(F, false)
  {
    SkipBlank(pre, tail);
  }

  lemma PrefixIsFirst(E: Record, F: Record, k: nat)
    requires k <= |E.transitions| && IsPrefix(F, E, k) && F.s0 == E.s0
    ensures F == First(E, k, F.status)
  {
  }

  /** What the loop makes of the tail once it has the first k transitions. */
  ghost predicate TailGives(E: Record, tail: string, k: nat, start: Status, junk: Status, r: Reading,
      state: string -> Parse<State>, transition: string -> Parse<Entered>, status: string -> Parse<Status>)
    requires Consumes(state) && Consumes(transition) && k <= |E.transitions| && E.s0.Some?
  {
    forall pre | Blank(pre) :: ReadFrom(pre + tail, First(E, k, start), k, junk, state, transition, status) == r
  }

  lemma {:induction false} TailIsRead(pre: string, E: Record, steps: seq<string>, posts: seq<string>, end: string,
      tail: string, F: Record, j: nat, k: nat, i: nat, junk: Status, r: Reading,
      state: string -> Parse<State>, transition: string -> Parse<Entered>, status: string -> Parse<Status>)
    requires Consumes(state) && Consumes(transition) && Legible(E, steps, posts, end, transition, status)
    requires E.Chained() && 0 < i <= j <= k <= |E.transitions| && IsPrefix(F, E, j) && F.s0 == E.s0 && Blank(pre)
    requires TailGives(E, tail, k, F.status, junk, r, state, transition, status)
    ensures ReadFrom(pre + TextTo(steps, posts, i, k, tail), F, i, junk, state, transition, status) == r
    decreases k - i
  {
    var t := TextTo(steps, posts, i, k, tail);
    if i == k {
      PrefixIsFirst(E, F, k);
    } else {
      var rest := TextTo(steps, posts, i + 1, k, tail);
      assert LegibleAt(E, steps, posts, i, transition);
      assert t[0] == steps[i][0];
      if i < j {
        TransitionIsSkipped(steps[i], posts[i], F, i, rest, transition);
        RoundTakes(pre, t, F, i, junk, F, rest, state, transition, status);
        TailIsRead("", E, steps, posts, end, tail, F, j, k, i + 1, junk, r, state, transition, status);
        assert "" + rest == rest;
      } else {
        var G := F.PushBack(E.transitions[i].instr, E.transitions[i].post);
        TransitionIsRead("", E, F, i, rest, Joined(steps[i], "\n", posts[i]), transition);
        assert "" + t == t;
        PushBackRestores(E, F, i);
        RoundTakes(pre, t, F, i, junk, G, "\n" + rest, state, transition, status);
        TailIsRead("\n", E, steps, posts, end, tail, G, i + 1, k, i + 1, junk, r, state, transition, status);
      }
    }
  }

  /** Nothing but the initial state is there to be read. */
  lemma OnlyStart(E: Record, first: string, tail: string, F: Record, junk: Status,
      state: string -> Parse<State>, transition: string -> Parse<Entered>, status: string -> Parse<Status>)
    requires Consumes(state) && Consumes(transition) && E.Chained() && IsPrefix(F, E, 0) && BreaksOff(tail, transition)
    requires Starts(first) && IsLine(first) && Undoes(state, first, E.s0.value)
    ensures ReadFrom(first + ("\n" + tail), F, 0, junk, state, transition, status)
            == Reading(First(E, 0, F.status), false)
  {
    var (s, G) := (first + ("\n" + tail), F.(s0 := E.s0));
    StartIsTaken(E, F, 0, first, tail, state);
    assert s[0] == first[0];
    var pre := if F.s0.None? then "\n" else "";
    assert pre + tail == if F.s0.None? then "\n" + tail else tail;
    FirstRoundFails(s, F, junk, G, pre + tail, state, transition, status);
    PrefixIsFirst(E, G, 0);
  }

  lemma StartAndTail(E: Record, first: string, steps: seq<string>, posts: seq<string>, end: string,
      tail: string, F: Record, j: nat, k: nat, junk: Status, r: Reading,
      state: string -> Parse<State>, transition: string -> Parse<Entered>, status: string -> Parse<Status>)
    requires Consumes(state) && Consumes(transition) && Legible(E, steps, posts, end, transition, status)
    requires E.Chained() && j <= k <= |E.transitions| && 0 < k && IsPrefix(F, E, j)
    requires TailGives(E, tail, k, F.status, junk, r, state, transition, status)
    requires Starts(first) && IsLine(first) && Undoes(state, first, E.s0.value)
    ensures ReadFrom(first + ("\n" + TextTo(steps, posts, 0, k, tail)), F, 0, junk, state, transition, status)
            == r
  {
    var (t, rest) := (TextTo(steps, posts, 0, k, tail), TextTo(steps, posts, 1, k, tail));
    var (s, G) := (first + ("\n" + t), F.(s0 := E.s0));
    StartIsTaken(E, F, j, first, t, state);
    assert LegibleAt(E, steps, posts, 0, transition);
    assert s[0] == first[0];
    if j == 0 {
      var pre := if F.s0.None? then "\n" else "";
      assert pre + t == if F.s0.None? then "\n" + t else t;
      var H := G.PushBack(E.transitions[0].instr, E.transitions[0].post);
      TransitionIsRead(pre, E, G, 0, rest, Joined(steps[0], "\n", posts[0]), transition);
      PushBackRestores(E, G, 0);
      FirstRound(s, F, junk, G, pre + t, H, "\n" + rest, state, transition, status);
      TailIsRead("\n", E, steps, posts, end, tail, H, 1, k, 1, junk, r, state, transition, status);
    } else {
      TransitionIsSkipped(steps[0], posts[0], G, 0, rest, transition);
      FirstRound(s, F, junk, G, t, G, rest, state, transition, status);
      TailIsRead("", E, steps, posts, end, tail, G, j, k, 1, junk, r, state, transition, status);
      assert "" + rest == rest;
    }
  }

  // The readers at hand.

  lemma {:induction false} SkipSpaceSkipsAll(s: string)
    ensures SkipSpace(SkipSpace(s)) == SkipSpace(s)
  {
  }

  lemma SameNumber(s: string, t: string)
    requires SkipSpace(s) == SkipSpace(t)
    ensures ParseInt(s) == ParseInt(t)
  {
    assert ParseDigits(s, 10) == ParseDigits(t, 10);
  }

  lemma SamePair<A, B, C>(s: string, t: string, first: string -> Parse<A>, second: string -> Parse<B>,
                          make: (A, B) -> C)
    requires Consumes(first) && Consumes(second) && first(s) == first(t)
    ensures Pair(s, first, second, make) == Pair(t, first, second, make)
  {
  }

  /** A transition is found or missed behind spaces as well. */
  lemma SameTransition(s: string, t: string)
    requires SkipSpace(s) == SkipSpace(t)
    ensures ParseTransition(s) == ParseTransition(t)
  {
    SameNumber(s, t);
    SamePair(s, t, ParseInt, ParseInstruction, MakeStep);
    assert ParseStep(s) == ParseStep(t);
    SamePair(s, t, ParseStep, ParseState, MakeEntered);
  }

  lemma SpacesDoNotMatter(pre: string, s: string)
    requires Blank(pre)
    ensures ParseTransition(SkipSpace(s)) == ParseTransition(s) && ParseTransition(pre + s) == ParseTransition(s)
  {
    SkipSpaceSkipsAll(s);
    SkipBlank(pre, s);
    SameTransition(SkipSpace(s), s);
    SameTransition(pre + s, s);
  }

  /** Neither a transition nor a line of equal signs follows: the text may end here, or inside of a transition. */
  predicate IsBroken(tail: string) {
    ParseTransition(tail).Fail? && var t := SkipSpace(tail); t == "" || t[0] != '='
  }

  /** A text that breaks off after k transitions, read into an execution that has the first j of them, leaves exactly
      the first k behind, and the fail bit set; the status stays what it was. */
  lemma CutIsRead(E: Record, F: Record, j: nat, k: nat, tail: string, junk: Status)
    requires E.Chained() && RecordTexts.Restorable(E) && j <= k <= |E.transitions| && IsPrefix(F, E, j)
    requires IsBroken(tail)
    ensures ReadRecord(CutText(E, k, tail), F, junk) == Reading(First(E, k, F.status), false)
  {
    var first := StateText(E.s0.value);
    StateUndoes(E.s0.value);
    StateIsLine(E.s0.value);
    assert first[0] == 'S';
    RecordIsLegible(E);
    assert BreaksOff(tail, ParseTransition) by {
      SpacesDoNotMatter("", tail);
      forall pre | Blank(pre) ensures ParseTransition(pre + tail).Fail? { SpacesDoNotMatter(pre, tail); }
    }
    if k == 0 {
      OnlyStart(E, first, tail, F, junk, ParseState, ParseTransition, ParseStatus);
    } else {
      var G := First(E, k, F.status);
      forall pre | Blank(pre)
        ensures ReadFrom(pre + tail, G, k, junk, ParseState, ParseTransition, ParseStatus) == Reading(G, false)
      {
        RoundFails(pre, tail, G, k, junk, ParseState, ParseTransition, ParseStatus);
      }
      StartAndTail(E, first, Steps(E), Posts(E), StatusText(E.status), tail, F, j, k, junk, Reading(G, false),
                   ParseState, ParseTransition, ParseStatus);
    }
  }

  /** The line of equal signs, with whatever else on it, is there, but no status behind it. */
  predicate IsUnsealed(tail: string) {
    tail != "" && tail[0] == '=' && match SkipLines(tail, 1) case NoLine => true case Line(r) => ParseStatus(r).Fail?
  }

  /** A text that breaks off behind the equal signs leaves its k transitions behind, and the fail bit set; the status is
      what happened to be in the variable. */
  lemma UnsealedIsRead(E: Record, F: Record, j: nat, k: nat, tail: string, junk: Status)
    requires E.Chained() && RecordTexts.Restorable(E) && j <= k <= |E.transitions| && 0 < k && IsPrefix(F, E, j)
    requires IsUnsealed(tail)
    ensures ReadRecord(CutText(E, k, tail), F, junk) == Reading(First(E, k, junk), false)
  {
    var first := StateText(E.s0.value);
    StateUndoes(E.s0.value);
    StateIsLine(E.s0.value);
    assert first[0] == 'S';
    RecordIsLegible(E);
    var G := First(E, k, F.status);
    forall pre | Blank(pre)
      ensures ReadFrom(pre + tail, G, k, junk, ParseState, ParseTransition, ParseStatus)
              == Reading(First(E, k, junk), false)
    {
      RoundEnds(pre, tail, G, k, junk, ParseState, ParseTransition, ParseStatus);
    }
    StartAndTail(E, first, Steps(E), Posts(E), StatusText(E.status), tail, F, j, k, junk,
                 Reading(First(E, k, junk), false), ParseState, ParseTransition, ParseStatus);
  }

  /** Reading the text that breaks off and then the whole text into the same execution restores it. */
  lemma CutAndResumed(E: Record, F: Record, j: nat, k: nat, tail: string, junk: Status)
    requires E.Chained() && RecordTexts.Restorable(E) && j <= k <= |E.transitions| && IsPrefix(F, E, j)
    requires IsBroken(tail)
    ensures var G := ReadRecord(CutText(E, k, tail), F, junk).record;
            ReadRecord(RecordText(E), G, junk).record == E <==> E.transitions != [] || F.status == E.status
  {
    CutIsRead(E, F, j, k, tail, junk);
    RoundTrip(E, First(E, k, F.status), k, junk);
  }

  /** Whatever the text, what has been there before stays. */
  lemma {:induction false} ReadingKeeps(s: string, F: Record, i: nat, junk: Status,
      state: string -> Parse<State>, transition: string -> Parse<Entered>, status: string -> Parse<Status>)
    requires Consumes(state) && Consumes(transition) && i <= |F.transitions| && (i > 0 ==> F.s0.Some?)
    ensures var G := ReadFrom(s, F, i, junk, state, transition, status).record;
            F.transitions <= G.transitions && F.threads <= G.threads && (F.s0.Some? ==> G.s0 == F.s0)
    decreases |s|
  {
    var t := SkipSpace(s);
    if !(t != "" && t[0] == '=') {
      var f := if i > 0 then Ok(F, t) else ReadStart(t, F, state);
      if f.Ok? {
        var g := ReadTransition(f.rest, f.value, i, transition);
        if g.Ok? { ReadingKeeps(g.rest, g.value, i + 1, junk, state, transition, status); }
      }
    }
  }
}
