/** Whose turns a run hands out, and how it ends. */
module Accounting {
  import opened Instructions
  import opened PoolSpec
  import opened System
  import opened Base
  import opened Rounds
  import opened SchedulingPoint
  import opened ExecutionRecord
  import opened Selector
  import opened Runs

  /** The threads that were granted a turn, in order. */
  function Turns<L, M>(P: Program<L, M>, cfg: Config, es: seq<Event>): seq<Tid> {
    if es == [] then []
    else
      var (s, e) := (After(P, cfg, es[..|es| - 1]), es[|es| - 1]);
      Turns(P, cfg, es[..|es| - 1])
      + if e.Iteration? && CanApply(cfg, s, e) && Iterate(cfg, s, e.pick).status == RUNNING then [e.pick] else []
  }

  /** How a run ended: DONE and DEADLOCK only after the whole schedule, with nothing left to run, or
      nothing that can run; ERROR if the thread selected is not enabled at its turn. */
  ghost predicate Outcome<L, M>(cfg: Config, s: Run<L, M>) {
    match s.status
    case RUNNING => true
    case DONE => s.taskNr >= |cfg.schedule| && s.core.pool.tasks == map[]
    case DEADLOCK => s.taskNr >= |cfg.schedule| && s.core.pool.tasks != map[] && EnabledSet(s.core.pool) == {}
    case BLOCKED => false
    case ERROR =>
      if s.taskNr < |cfg.schedule|
      then cfg.schedule[s.taskNr] in s.core.pool.threads && !IsEnabled(s.core.pool, cfg.schedule[s.taskNr])
      else EnabledSet(s.core.pool) != {}
           && exists t :: t !in EnabledSet(s.core.pool)
               && cfg.strategy(s.core.pool, EnabledSet(s.core.pool), s.taskNr, t)
  }

  ghost predicate Obeyed<L, M>(cfg: Config, s: Run<L, M>, turns: seq<Tid>) {
    && |turns| == s.taskNr
    && (forall i | 0 <= i < |turns| && i < |cfg.schedule| :: turns[i] == cfg.schedule[i])
    && Outcome(cfg, s)
  }

  /** The turns follow the schedule as far as it goes, and the outcome is justified. */
  lemma {:induction false} RunsObey<L, M>(P: Program<L, M>, cfg: Config, es: seq<Event>)
    requires IsRun(P, cfg, es)
    ensures Obeyed(cfg, After(P, cfg, es), Turns(P, cfg, es))
  {
    if es != [] {
      RunsObey(P, cfg, es[..|es| - 1]);
      var (s, e) := (After(P, cfg, es[..|es| - 1]), es[|es| - 1]);
      if e.Iteration? {
        var p := s.core.pool;
        assert Selected(cfg, s, e.pick).Turn? && s.taskNr >= |cfg.schedule| ==>
            cfg.strategy(p, EnabledSet(p), s.taskNr, e.pick);
      }
    }
  }

  /** A strategy that only answers with enabled threads. */
  ghost predicate Sound(strategy: Strategy) {
    forall p: Pool, enabled: set<Tid>, nr: nat, t: Tid :: strategy(p, enabled, nr, t) ==> t in enabled
  }

  /** With a strategy that only answers with enabled threads, a closed run is in ERROR exactly if its
      schedule asks for a thread that is not enabled in the last recorded state. */
  lemma ErrorIffRefused<L, M>(P: Program<L, M>, cfg: Config, es: seq<Event>)
    requires IsRun(P, cfg, es) && Sound(cfg.strategy)
    requires After(P, cfg, es).status != RUNNING
    ensures After(P, cfg, es).record.Some? && After(P, cfg, es).record.value.HasFinal()
    ensures var s := After(P, cfg, es);
            s.status == ERROR
            <==> s.taskNr < |cfg.schedule| && cfg.schedule[s.taskNr] !in s.record.value.Final().enabled
  {
    RunsObey(P, cfg, es);
    RunsKeepInv(P, cfg, es);
    var s := After(P, cfg, es);
    if s.taskNr < |cfg.schedule| { assert ThreadAt(s.core, cfg.schedule[s.taskNr]); }
  }

  /** The number of recorded transitions is the number of turns, plus one on a deadlock; a run is DONE
      only when every registered thread has finished. */
  lemma RecordedTransitions<L, M>(P: Program<L, M>, cfg: Config, es: seq<Event>)
    requires IsRun(P, cfg, es) && After(P, cfg, es).status != RUNNING
    ensures var s := After(P, cfg, es);
            && s.record.Some?
            && |s.record.value.transitions| == |Turns(P, cfg, es)| + (if s.status == DEADLOCK then 1 else 0)
            && (s.status == DONE ==> forall t | t in s.core.pool.threads :: s.core.pool.threads[t] == FINISHED)
  {
    RunsObey(P, cfg, es);
    RunsKeepInv(P, cfg, es);
  }

  // When a closed execution is empty, which the original asserts it is not.

  /** Before the first turn there is only the main thread, with the first instruction of the program. */
  ghost predicate NotBegun<L, M>(P: Program<L, M>, s: Run<L, M>) {
    if s.taskNr == 0 then
      && InRange(s.core, 0)
      && (forall t | 0 < t < |s.core.phases| :: s.core.phases[t].Reserved?)
      && match s.core.phases[0]
         case Running(l) => l == P.start
         case Ready(_, task) => task.None? <==> P.next(P.start).None?
         case Yielded(_, task) => task.None? <==> P.next(P.start).None?
         case Waiting(_, _) => P.next(P.start).Some?
         case Finished => P.next(P.start).None?
         case _ => false
    else P.next(P.start).Some?
  }

  lemma {:induction false} RunsBegin<L, M>(P: Program<L, M>, cfg: Config, es: seq<Event>)
    requires IsRun(P, cfg, es)
    ensures NotBegun(P, After(P, cfg, es))
  {
    if es != [] {
      var (s, e) := (After(P, cfg, es[..|es| - 1]), es[|es| - 1]);
      RunsBegin(P, cfg, es[..|es| - 1]);
      RunsKeepInv(P, cfg, es[..|es| - 1]);
      if e.Iteration? { assert ThreadAt(s.core, e.pick); }
    }
  }

  /** The execution has no transition exactly if the run ends before the first turn: it is DONE exactly because the
      main thread has no visible instruction, or in ERROR because the first thread asked for is refused. */
  lemma EmptyAtClose<L, M>(P: Program<L, M>, cfg: Config, es: seq<Event>)
    requires IsRun(P, cfg, es) && After(P, cfg, es).status != RUNNING
    ensures var s := After(P, cfg, es);
            && s.record.Some?
            && (s.record.value.transitions == [] <==> s.taskNr == 0 && s.status != DEADLOCK)
            && (s.status == DONE ==> (s.record.value.transitions == [] <==> P.next(P.start).None?))
  {
    RunsBegin(P, cfg, es);
    RecordedTransitions(P, cfg, es);
    RunsObey(P, cfg, es);
    RunsKeepInv(P, cfg, es);
    assert ThreadAt(After(P, cfg, es).core, 0);
  }

  /** The transitions of a record that were executed: all but the one added by a deadlock. */
  function ExecutedPart<L, M>(s: Run<L, M>): seq<Transition> {
    if s.record.None? then []
    else if s.status == DEADLOCK && s.record.value.transitions != [] then
      s.record.value.transitions[..|s.record.value.transitions| - 1]
    else s.record.value.transitions
  }

  /** The schedule read off the executed transitions is the sequence of turns, of an open run without the
      turn that is not over. */
  ghost predicate TurnsRecorded<L, M>(s: Run<L, M>, turns: seq<Tid>) {
    if s.status == RUNNING then
      turns != [] ==>
        && s.core.pool.current.Some? && s.core.pool.current.value.tid == turns[|turns| - 1]
        && Schedule(ExecutedPart(s)) == turns[..|turns| - 1]
    else Schedule(ExecutedPart(s)) == turns
  }

  lemma RecordedTurns<L, M>(s: Run<L, M>, turns: seq<Tid>)
    requires RunInv(s) && s.status == RUNNING && |turns| == s.taskNr && TurnsRecorded(s, turns)
    ensures Schedule(Recorded(s).transitions) == turns
  {
    RecordedChains(s);
    if turns != [] {
      assert Recorded(s).transitions == ExecutedPart(s) + [Recorded(s).transitions[|turns| - 1]];
      ScheduleExtends(ExecutedPart(s), Recorded(s).transitions[|turns| - 1]);
      assert turns == turns[..|turns| - 1] + [turns[|turns| - 1]];
    } else {
      assert Recorded(s).transitions == [];
    }
  }

  lemma EndRecordsTurns<L, M>(cfg: Config, s: Run<L, M>, turns: seq<Tid>, pick: Tid)
    requires RunInv(s) && |turns| == s.taskNr && TurnsRecorded(s, turns) && CanSchedule(cfg, s, pick)
    requires Iterate(cfg, s, pick).status != RUNNING
    ensures ExecutedPart(Iterate(cfg, s, pick)) == Recorded(s).transitions
            && TurnsRecorded(Iterate(cfg, s, pick), turns)
  {
    RecordedTurns(s, turns);
    EndKeepsRecord(cfg, s, pick);
    assert ExecutedPart(Iterate(cfg, s, pick)) == Recorded(s).transitions;
  }

  lemma TurnRecordsTurns<L, M>(cfg: Config, s: Run<L, M>, turns: seq<Tid>, pick: Tid)
    requires RunInv(s) && |turns| == s.taskNr && TurnsRecorded(s, turns) && CanSchedule(cfg, s, pick)
    requires Iterate(cfg, s, pick).status == RUNNING
    ensures ExecutedPart(Iterate(cfg, s, pick)) == Recorded(s).transitions
            && TurnsRecorded(Iterate(cfg, s, pick), turns + [pick])
  {
    RecordedTurns(s, turns);
    assert ThreadAt(s.core, pick) && CarriedAt(s.core, pick);
    assert (turns + [pick])[..|turns|] == turns;
  }

  lemma {:induction false} RunsRecordTheirTurns<L, M>(P: Program<L, M>, cfg: Config, es: seq<Event>)
    requires IsRun(P, cfg, es)
    ensures TurnsRecorded(After(P, cfg, es), Turns(P, cfg, es))
  {
    if es != [] {
      var before := es[..|es| - 1];
      var (s, e, turns) := (After(P, cfg, before), es[|es| - 1], Turns(P, cfg, before));
      RunsRecordTheirTurns(P, cfg, before);
      RunsKeepInv(P, cfg, before);
      RunsObey(P, cfg, before);
      assert turns + [] == turns;
      match e
      case Section(t) => StepKeepsCurrent(P, s.core, t);
      case Iteration(pick) =>
        if Iterate(cfg, s, pick).status == RUNNING { TurnRecordsTurns(cfg, s, turns, pick); }
        else { EndRecordsTurns(cfg, s, turns, pick); }
    }
  }

  /** What a deadlock adds: a pending instruction, from the last state to itself. */
  lemma AddedByDeadlock<L, M>(P: Program<L, M>, cfg: Config, es: seq<Event>) returns (t: Tid)
    requires IsRun(P, cfg, es) && After(P, cfg, es).status == DEADLOCK
    ensures After(P, cfg, es).record.Some?
    ensures var (s, ts) := (After(P, cfg, es), After(P, cfg, es).record.value.transitions);
            && t in s.core.pool.tasks && ts != []
            && var now := ProgramState(s.core.pool);
               ts[|ts| - 1] == Transition(|ts|, now, s.core.pool.tasks[t], now)
  {
    RunsKeepInv(P, cfg, es[..|es| - 1]);
    t := es[|es| - 1].pick;
    EndKeepsRecord(cfg, After(P, cfg, es[..|es| - 1]), t);
  }

  // How long a run is.

  lemma {:induction false} NoWork<L>(phases: seq<Phase<L>>)
    requires forall ph | ph in phases :: !ph.Outstanding()
    ensures Work(phases) == 0
  {
    if phases != [] {
      assert phases[|phases| - 1] in phases;
      NoWork(phases[..|phases| - 1]);
    }
  }

  lemma PostedMeansNoWork<L, M>(c: Core<L, M>)
    requires Inv(c) && AllPosted(c.pool)
    ensures Work(c.phases) == 0
  {
    PostedMeansQuiet(c);
    forall ph | ph in c.phases ensures !ph.Outstanding() {
      var t :| 0 <= t < |c.phases| && c.phases[t] == ph;
    }
    NoWork(c.phases);
  }

  /** A turn is followed by at most eight sections, and the first one is preceded by at most three: every run
      is bounded by its turns, whatever the order of the sections. */
  lemma {:induction false} RunsAreBounded<L, M>(P: Program<L, M>, cfg: Config, es: seq<Event>)
    requires IsRun(P, cfg, es)
    ensures var s := After(P, cfg, es);
            |es| + Work(s.core.phases) <= 9 * s.taskNr + (if s.status == RUNNING then 3 else 4)
  {
    if es == [] {
      assert Work([Running(P.start)]) == 3 by { assert [Running(P.start)][..0] == []; }
    } else {
      var (s, e) := (After(P, cfg, es[..|es| - 1]), es[|es| - 1]);
      RunsAreBounded(P, cfg, es[..|es| - 1]);
      RunsKeepInv(P, cfg, es[..|es| - 1]);
      match e
      case Section(t) => StepWorks(P, s.core, t);
      case Iteration(pick) =>
        PostedMeansNoWork(s.core);
        if Iterate(cfg, s, pick).status == RUNNING {
          assert ThreadAt(s.core, pick);
          WorkUpdate(s.core.phases, pick, Granted(s.core.phases[pick].l, s.core.phases[pick].posted));
        }
    }
  }
}
