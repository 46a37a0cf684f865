/** What the non-preemptive strategy means for whole records. */
module NonPreemption {
  import opened Instructions
  import opened PoolSpec
  import opened System
  import opened Base
  import opened ExecutionRecord
  import opened Selector
  import opened IntSets
  import opened Runs

  /** The strategy answers as NonPreemptive::select does. */
  ghost predicate IsNonPreemptive(strategy: Strategy) {
    forall p: Pool, enabled: set<Tid>, nr: nat, t: Tid :: strategy(p, enabled, nr, t) ==>
      enabled != {} && (nr > 0 ==> p.current.Some?) && t == NonPreemptive(p, enabled, nr)
  }

  /** The thread before goes on if it is enabled, otherwise the smallest enabled identifier is taken. */
  predicate Choice(st: State, before: Option<Tid>, t: Tid) {
    if before.Some? && before.value in st.enabled then t == before.value else IsLeast(st.enabled, t)
  }

  function Last(ts: seq<Transition>): Option<Tid> {
    if ts == [] then None else Some(ts[|ts| - 1].instr.tid)
  }

  /** From transition `start` on, the first n transitions are chosen without preemption. */
  ghost predicate NotPreempted(E: Record, start: nat, n: nat)
    requires E.s0.Some? && n <= |E.transitions|
  {
    forall i: nat | start <= i < n :: Choice(E.StateAt(i), Last(E.transitions[..i]), E.transitions[i].instr.tid)
  }

  ghost predicate ChosenFreely<L, M>(cfg: Config, s: Run<L, M>) {
    && RunInv(s)
    && (s.record.Some? ==>
          var E := s.record.value;
          && NotPreempted(E, |cfg.schedule|, if s.status == DEADLOCK then |E.transitions| - 1 else |E.transitions|)
          && (s.status == RUNNING && s.taskNr > |cfg.schedule| ==>
                Choice(E.Final(), Last(E.transitions), s.core.pool.current.value.tid)))
  }

  lemma EnabledIsRecorded<L, M>(c: Core<L, M>)
    requires Inv(c) && AllPosted(c.pool)
    ensures ProgramState(c.pool).enabled == EnabledSet(c.pool)
  {
    forall t ensures t in ProgramState(c.pool).enabled <==> t in EnabledSet(c.pool) { assert ThreadAt(c, t); }
  }

  lemma ExtensionKeepsChoices(E: Record, F: Record, start: nat, n: nat)
    requires E.s0.Some? && F.s0 == E.s0 && n <= |E.transitions| && E.transitions <= F.transitions
    requires NotPreempted(E, start, n)
    ensures NotPreempted(F, start, n)
  {
    forall i: nat | start <= i < n ensures Choice(F.StateAt(i), Last(F.transitions[..i]), F.transitions[i].instr.tid) {
      assert F.transitions[..i] == E.transitions[..i] && F.StateAt(i) == E.StateAt(i);
    }
  }

  lemma RecordedIsChosen<L, M>(cfg: Config, s: Run<L, M>)
    requires ChosenFreely(cfg, s) && s.status == RUNNING && AllPosted(s.core.pool)
    ensures Recorded(s).s0.Some? && NotPreempted(Recorded(s), |cfg.schedule|, |Recorded(s).transitions|)
    ensures Last(Recorded(s).transitions) == if s.taskNr > 0 then Some(s.core.pool.current.value.tid) else None
  {
    RecordedChains(s);
    if s.taskNr > 0 {
      var (E, F) := (s.record.value, Recorded(s));
      ExtensionKeepsChoices(E, F, |cfg.schedule|, |E.transitions|);
      assert F.transitions[..|E.transitions|] == E.transitions;
    }
  }

  lemma PickIsChoice<L, M>(cfg: Config, s: Run<L, M>, pick: Tid)
    requires RunInv(s) && CanSchedule(cfg, s, pick) && IsNonPreemptive(cfg.strategy)
    requires s.taskNr >= |cfg.schedule| && Selected(cfg, s, pick).Turn?
    ensures Choice(ProgramState(s.core.pool), if s.taskNr > 0 then Some(s.core.pool.current.value.tid) else None, pick)
  {
    EnabledIsRecorded(s.core);
    assert cfg.strategy(s.core.pool, EnabledSet(s.core.pool), s.taskNr, pick);
  }

  lemma TurnChoosesFreely<L, M>(cfg: Config, s: Run<L, M>, pick: Tid)
    requires ChosenFreely(cfg, s) && CanSchedule(cfg, s, pick) && IsNonPreemptive(cfg.strategy)
    requires Iterate(cfg, s, pick).status == RUNNING
    ensures ChosenFreely(cfg, Iterate(cfg, s, pick))
  {
    IterateKeepsRunInv(cfg, s, pick);
    RecordedIsChosen(cfg, s);
    RecordedChains(s);
    assert ThreadAt(s.core, pick) && CarriedAt(s.core, pick);
    if s.taskNr >= |cfg.schedule| { PickIsChoice(cfg, s, pick); }
  }

  lemma EndChoosesFreely<L, M>(cfg: Config, s: Run<L, M>, pick: Tid)
    requires ChosenFreely(cfg, s) && CanSchedule(cfg, s, pick) && Iterate(cfg, s, pick).status != RUNNING
    ensures ChosenFreely(cfg, Iterate(cfg, s, pick))
  {
    IterateKeepsRunInv(cfg, s, pick);
    RecordedIsChosen(cfg, s);
    EndKeepsRecord(cfg, s, pick);
    ExtensionKeepsChoices(Recorded(s), Iterate(cfg, s, pick).record.value, |cfg.schedule|, |Recorded(s).transitions|);
  }

  /** Past the schedule, two consecutive steps are by different threads only if the first one is not
      enabled in the state between them, and then the smallest enabled identifier is taken. */
  lemma {:induction false} RunsAreNotPreempted<L, M>(P: Program<L, M>, cfg: Config, es: seq<Event>)
    requires IsRun(P, cfg, es) && IsNonPreemptive(cfg.strategy)
    ensures ChosenFreely(cfg, After(P, cfg, es))
  {
    if es == [] {
      InitialInv(P);
    } else {
      var (s, e) := (After(P, cfg, es[..|es| - 1]), es[|es| - 1]);
      RunsAreNotPreempted(P, cfg, es[..|es| - 1]);
      ApplyKeepsRunInv(P, cfg, s, e);
      match e
      case Section(t) => StepKeepsCurrent(P, s.core, t);
      case Iteration(pick) =>
        if Iterate(cfg, s, pick).status == RUNNING { TurnChoosesFreely(cfg, s, pick); }
        else { EndChoosesFreely(cfg, s, pick); }
    }
  }
}
