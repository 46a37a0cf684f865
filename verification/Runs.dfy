/** Whole controlled runs: the scheduler's loop interleaved with the critical sections of the threads. */
module Runs {
  import opened Instructions
  import opened PoolSpec
  import opened System
  import opened Base
  import opened SchedulingPoint
  import opened ExecutionRecord
  import opened Selector

  datatype Config = Config(schedule: seq<Tid>, strategy: Strategy)

  /** record: the execution E, created when the main thread has posted; taskNr: the turns handed out. */
  datatype Run<L, M> = Run(core: Core<L, M>, record: Option<Record>, taskNr: nat, status: Status)

  function Start<L, M>(P: Program<L, M>): Run<L, M> {
    Run(Initial(P), None, 0, RUNNING)
  }

  // One iteration of the loop.

  /** The record once the scheduler has added the state it sees. */
  function Recorded<L, M>(s: Run<L, M>): Record {
    var now := ProgramState(s.core.pool);
    var E := if s.record.None? then NewRecord(Some(now)) else s.record.value;
    if s.taskNr > 0 && s.core.pool.current.Some? && E.HasFinal() then E.PushBack(s.core.pool.current.value, now) else E
  }

  function Selected<L, M>(cfg: Config, s: Run<L, M>, pick: Tid): Selection {
    if s.taskNr < |cfg.schedule| then Turn(pick)
    else if s.core.pool.tasks == map[] then AllDone
    else if EnabledSet(s.core.pool) == {} then NoneEnabled
    else Turn(pick)
  }

  /** `pick` is the thread selected, or on a deadlock the first task in the pool's own order. */
  predicate CanSchedule<L, M>(cfg: Config, s: Run<L, M>, pick: Tid) {
    var sel := Selected(cfg, s, pick);
    && s.status == RUNNING
    && AllPosted(s.core.pool)
    && MaySelect(cfg.strategy, s.core.pool, cfg.schedule, s.taskNr, sel)
    && (sel.Turn? ==> pick in s.core.pool.threads)
    && (sel.NoneEnabled? ==> pick in s.core.pool.tasks)
  }

  /** The end of a record: the last state is set once more, an empty record has none. */
  function Ended(E: Record, now: State, status: Status): Record {
    (if E.transitions != [] then E.SetLastPost(now) else E).(status := status)
  }

  function Closed<L, M>(s: Run<L, M>, E: Record, status: Status): Run<L, M> {
    s.(record := Some(Ended(E, ProgramState(s.core.pool), status)), status := status)
  }

  function Iterate<L, M>(cfg: Config, s: Run<L, M>, pick: Tid): Run<L, M>
    requires CanSchedule(cfg, s, pick)
  {
    var E := Recorded(s);
    match Selected(cfg, s, pick)
    case Turn(t) =>
      if IsEnabled(s.core.pool, t)
      then s.(core := Grant(s.core, t), record := Some(E), taskNr := s.taskNr + 1)
      else Closed(s, E, ERROR)
    case AllDone => Closed(s, E, DONE)
    case NoneEnabled =>
      Closed(s, if E.HasFinal() then E.PushBack(s.core.pool.tasks[pick], ProgramState(s.core.pool)) else E, DEADLOCK)
  }

  // Sequences of critical sections.

  datatype Event = Section(tid: Tid) | Iteration(pick: Tid)

  predicate CanApply<L, M>(cfg: Config, s: Run<L, M>, e: Event) {
    match e
    case Section(t) => s.status == RUNNING && CanStep(s.core, t)
    case Iteration(pick) => CanSchedule(cfg, s, pick)
  }

  function Apply<L, M>(P: Program<L, M>, cfg: Config, s: Run<L, M>, e: Event): Run<L, M> {
    if !CanApply(cfg, s, e) then s
    else match e
      case Section(t) => s.(core := Step(P, s.core, t))
      case Iteration(pick) => Iterate(cfg, s, pick)
  }

  function After<L, M>(P: Program<L, M>, cfg: Config, es: seq<Event>): Run<L, M> {
    if es == [] then Start(P)
    else Apply(P, cfg, After(P, cfg, es[..|es| - 1]), es[|es| - 1])
  }

  predicate IsRun<L, M>(P: Program<L, M>, cfg: Config, es: seq<Event>) {
    es != [] ==>
      && IsRun(P, cfg, es[..|es| - 1])
      && CanApply(cfg, After(P, cfg, es[..|es| - 1]), es[|es| - 1])
  }

  // What is recorded, and how much.

  /** How the number of transitions, the number of turns and the outcome fit. */
  predicate Accounted<L, M>(s: Run<L, M>) {
    match s.status
    case RUNNING =>
      && (s.record.None? <==> s.taskNr == 0)
      && (s.core.pool.current.None? <==> s.taskNr == 0)
      && (s.record.Some? ==> |s.record.value.transitions| + 1 == s.taskNr)
    case BLOCKED => false
    case DEADLOCK => s.record.Some? && |s.record.value.transitions| == s.taskNr + 1
    case _ => s.record.Some? && |s.record.value.transitions| == s.taskNr
  }

  ghost predicate RunInv<L, M>(s: Run<L, M>) {
    && Inv(s.core)
    && Accounted(s)
    && (s.record.Some? ==> s.record.value.Chained() && s.record.value.status == s.status)
    && (s.status != RUNNING ==>
          && AllPosted(s.core.pool)
          && s.record.value.Final() == ProgramState(s.core.pool)
          && (s.status == DONE ==> s.core.pool.tasks == map[]))
  }

  lemma RecordedChains<L, M>(s: Run<L, M>)
    requires RunInv(s) && s.status == RUNNING
    ensures Recorded(s).Chained() && Recorded(s).status == RUNNING && |Recorded(s).transitions| == s.taskNr
    ensures Recorded(s).Final() == ProgramState(s.core.pool)
  {
    if s.taskNr > 0 {
      PushBackChains(s.record.value, s.core.pool.current.value, ProgramState(s.core.pool));
    }
  }

  lemma ClosedChains<L, M>(s: Run<L, M>, E: Record, status: Status)
    requires E.Chained() && E.Final() == ProgramState(s.core.pool)
    ensures var F := Closed(s, E, status).record.value;
            F.Chained() && F.status == status && F.transitions == E.transitions && F.s0 == E.s0
                && F.Final() == E.Final()
  {
    if E.transitions != [] { SetLastPostChains(E, ProgramState(s.core.pool)); }
    var F := if E.transitions != [] then E.SetLastPost(ProgramState(s.core.pool)) else E;
    forall i: nat | i < |F.transitions| ensures F.(status := status).LinkedAt(i) { assert F.LinkedAt(i); }
  }

  lemma IterateKeepsRunInv<L, M>(cfg: Config, s: Run<L, M>, pick: Tid)
    requires RunInv(s) && CanSchedule(cfg, s, pick)
    ensures RunInv(Iterate(cfg, s, pick))
  {
    RecordedChains(s);
    var E := Recorded(s);
    match Selected(cfg, s, pick)
    case Turn(t) =>
      if IsEnabled(s.core.pool, t) {
        assert ThreadAt(s.core, t);
        GrantKeepsInv(s.core, t);
      } else {
        ClosedChains(s, E, ERROR);
      }
    case AllDone => ClosedChains(s, E, DONE);
    case NoneEnabled =>
      var F := E.PushBack(s.core.pool.tasks[pick], ProgramState(s.core.pool));
      PushBackChains(E, s.core.pool.tasks[pick], ProgramState(s.core.pool));
      ClosedChains(s, F, DEADLOCK);
  }

  /** The iteration that ends a run keeps what has been recorded, and on a deadlock adds one entry. */
  lemma EndKeepsRecord<L, M>(cfg: Config, s: Run<L, M>, pick: Tid)
    requires RunInv(s) && CanSchedule(cfg, s, pick) && Iterate(cfg, s, pick).status != RUNNING
    ensures var (E, d) := (Recorded(s), Iterate(cfg, s, pick));
            && d.core == s.core && d.status in {DONE, ERROR, DEADLOCK}
            && d.record.Some? && d.record.value.s0 == E.s0
            && E.transitions <= d.record.value.transitions
            && |d.record.value.transitions| == |E.transitions| + (if d.status == DEADLOCK then 1 else 0)
    ensures Iterate(cfg, s, pick).status == DEADLOCK ==>
              var (ts, now) := (Iterate(cfg, s, pick).record.value.transitions, ProgramState(s.core.pool));
              pick in s.core.pool.tasks && ts != []
              && ts[|ts| - 1] == Transition(|ts|, now, s.core.pool.tasks[pick], now)
  {
    RecordedChains(s);
    var (E, d) := (Recorded(s), Iterate(cfg, s, pick));
    if d.status == DEADLOCK {
      PushBackChains(E, s.core.pool.tasks[pick], ProgramState(s.core.pool));
      ClosedChains(s, E.PushBack(s.core.pool.tasks[pick], ProgramState(s.core.pool)), DEADLOCK);
    } else {
      ClosedChains(s, E, d.status);
    }
  }

  lemma ApplyKeepsRunInv<L, M>(P: Program<L, M>, cfg: Config, s: Run<L, M>, e: Event)
    requires RunInv(s) && CanApply(cfg, s, e)
    ensures RunInv(Apply(P, cfg, s, e))
  {
    match e
    case Section(t) =>
      StepKeepsInv(P, s.core, t);
      StepKeepsCurrent(P, s.core, t);
    case Iteration(pick) =>
      IterateKeepsRunInv(cfg, s, pick);
  }

  lemma StepKeepsCurrent<L, M>(P: Program<L, M>, c: Core<L, M>, t: Tid)
    requires CanStep(c, t)
    ensures Step(P, c, t).pool.current == c.pool.current
  {
  }

  lemma {:induction false} RunsKeepInv<L, M>(P: Program<L, M>, cfg: Config, es: seq<Event>)
    requires IsRun(P, cfg, es)
    ensures RunInv(After(P, cfg, es))
  {
    if es == [] {
      InitialInv(P);
    } else {
      RunsKeepInv(P, cfg, es[..|es| - 1]);
      ApplyKeepsRunInv(P, cfg, After(P, cfg, es[..|es| - 1]), es[|es| - 1]);
    }
  }
}
