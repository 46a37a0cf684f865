/** Runs of programs that use mutexes and joins as intended: locks exclude, turns never block, and a
    deadlock report is a real deadlock. */
module MutualExclusion {
  import opened Instructions
  import opened PoolSpec
  import opened System
  import opened Base
  import opened Discipline
  import opened SchedulingPoint
  import opened Deadlock
  import opened ExecutionRecord
  import opened Runs
  import opened Accounting
  import IntSets

  /** In the run no thread created an instruction that breaks the assumptions on programs. */
  predicate DisciplinedRun<L, M>(P: Program<L, M>, cfg: Config, es: seq<Event>) {
    es != [] ==>
      && DisciplinedRun(P, cfg, es[..|es| - 1])
      && (es[|es| - 1].Section? ==> Disciplined(P, After(P, cfg, es[..|es| - 1]).core, es[|es| - 1].tid))
  }

  lemma {:induction false} RunsStayStrict<L, M>(P: Program<L, M>, cfg: Config, es: seq<Event>)
    requires IsRun(P, cfg, es) && DisciplinedRun(P, cfg, es)
    ensures Strict(P, After(P, cfg, es).core)
  {
    if es == [] {
      InitialStrict(P);
    } else {
      var (s, e) := (After(P, cfg, es[..|es| - 1]), es[|es| - 1]);
      RunsStayStrict(P, cfg, es[..|es| - 1]);
      match e
      case Section(t) => StepKeepsStrict(P, s.core, t);
      case Iteration(t) =>
        if Iterate(cfg, s, t).status == RUNNING {
          assert ThreadAt(s.core, t);
          GrantKeepsStrict(P, s.core, t);
        }
    }
  }

  /** The schedule's next thread is registered, or after the schedule the strategy answers, with a registered
      thread, whenever some thread is enabled. */
  ghost predicate Answers<L, M>(cfg: Config, s: Run<L, M>) {
    var p := s.core.pool;
    if s.taskNr < |cfg.schedule| then cfg.schedule[s.taskNr] in p.threads
    else p.tasks != map[] && EnabledSet(p) != {} ==>
           exists t :: t in p.threads && cfg.strategy(p, EnabledSet(p), s.taskNr, t)
  }

  /** At a scheduling point the scheduler goes on exactly if it gets an answer it can use. */
  lemma RoundIsPossibleIff<L, M>(cfg: Config, s: Run<L, M>)
    requires s.status == RUNNING && AllPosted(s.core.pool)
    ensures (exists pick :: CanSchedule(cfg, s, pick)) <==> Answers(cfg, s)
  {
    var p := s.core.pool;
    if Answers(cfg, s) {
      var pick: Tid;
      if s.taskNr < |cfg.schedule| { pick := cfg.schedule[s.taskNr]; }
      else if p.tasks == map[] { pick := 0; }
      else if EnabledSet(p) == {} { pick := IntSets.Key(p.tasks); }
      else { pick :| pick in p.threads && cfg.strategy(p, EnabledSet(p), s.taskNr, pick); }
      assert CanSchedule(cfg, s, pick);
    }
  }

  /** A disciplined run that is not closed is never stuck: some thread can go on, or the scheduler is at a
      scheduling point and goes on if its schedule and strategy answer. A turn that was handed out never
      blocks. */
  lemma RunsGoOn<L, M>(P: Program<L, M>, cfg: Config, es: seq<Event>)
    requires IsRun(P, cfg, es) && DisciplinedRun(P, cfg, es) && After(P, cfg, es).status == RUNNING
    ensures var s := After(P, cfg, es);
            (exists e :: CanApply(cfg, s, e)) <==> !AllPosted(s.core.pool) || Answers(cfg, s)
    ensures var c := After(P, cfg, es).core; forall t | InRange(c, t) && c.phases[t].Granted? :: CanStep(c, t)
  {
    RunsStayStrict(P, cfg, es);
    var s := After(P, cfg, es);
    Progress(P, s.core);
    forall t | InRange(s.core, t) && s.core.phases[t].Granted? ensures CanStep(s.core, t) {
      assert IntendedAt(P, s.core, t);
    }
    if AllPosted(s.core.pool) {
      RoundIsPossibleIff(cfg, s);
      if pick :| CanSchedule(cfg, s, pick) { assert CanApply(cfg, s, Iteration(pick)); }
      QuietMeansNoSection(s.core);
    } else {
      var t :| CanStep(s.core, t);
      assert CanApply(cfg, s, Section(t));
    }
  }

  lemma QuietMeansNoSection<L, M>(c: Core<L, M>)
    requires Inv(c) && AllPosted(c.pool)
    ensures forall t :: !CanStep(c, t)
  {
    PostedMeansQuiet(c);
  }

  /** The last recorded state of a closed run marks exactly those threads as enabled whose instruction can
      really run; in a deadlock every pending task waits for a held mutex or an unfinished thread, and
      leads to a cycle or to a mutex whose holder has finished. */
  lemma ClosedRunsReportTruly<L, M>(P: Program<L, M>, cfg: Config, es: seq<Event>, t: Tid)
    requires IsRun(P, cfg, es) && DisciplinedRun(P, cfg, es) && After(P, cfg, es).status != RUNNING
    ensures After(P, cfg, es).record.Some? && After(P, cfg, es).record.value.HasFinal()
    ensures var (s, c) := (After(P, cfg, es), After(P, cfg, es).core);
            && (t in s.record.value.Final().enabled
                <==> InRange(c, t) && c.phases[t].Waiting? && !Blocks(c, c.phases[t].posted))
            && (s.status == DEADLOCK && t in c.pool.tasks ==>
                  && Blocks(c, c.pool.tasks[t])
                  && ((exists n: nat :: n < |c.pool.tasks| && AbandonedAt(c, t, n))
                      || (exists i: nat, j: nat :: j <= |c.pool.tasks| && CycleAt(c, t, i, j))))
  {
    var s := After(P, cfg, es);
    RunsStayStrict(P, cfg, es);
    RunsKeepInv(P, cfg, es);
    RunsObey(P, cfg, es);
    EnabledIffRunnable(P, s.core, t);
    assert ThreadAt(s.core, t);
    if s.status == DEADLOCK && t in s.core.pool.tasks {
      assert t !in EnabledSet(s.core.pool);
      DeadlockHasCause(P, s.core, t);
    }
  }

  // Lock operations in records.

  /** Who holds which mutex after the recorded instructions. */
  function Holders(ts: seq<Transition>): map<Addr, Tid> {
    if ts == [] then map[] else RealOwners(Holders(ts[..|ts| - 1]), ts[|ts| - 1].instr)
  }

  predicate LegalLock(holders: map<Addr, Tid>, i: Instruction) {
    && (i.IsLock() ==> i.obj !in holders)
    && (i.IsUnlock() ==> i.obj in holders && holders[i.obj] == i.tid)
  }

  /** Every Lock finds its mutex free, every Unlock is by the holder. */
  ghost predicate Exclusive(ts: seq<Transition>) {
    ts != [] ==> Exclusive(ts[..|ts| - 1]) && LegalLock(Holders(ts[..|ts| - 1]), ts[|ts| - 1].instr)
  }

  /** Between two Locks of a mutex, the thread of the first one unlocks it. */
  lemma {:induction false} UnlockBetween(ts: seq<Transition>, i: nat, j: nat, x: Addr) returns (k: nat)
    requires Exclusive(ts) && i < j < |ts|
    requires ts[i].instr.IsLock() && ts[i].instr.obj == x && ts[j].instr.IsLock() && ts[j].instr.obj == x
    ensures i < k < j && ts[k].instr.IsUnlock() && ts[k].instr.obj == x && ts[k].instr.tid == ts[i].instr.tid
  {
    ExclusivePrefix(ts, j + 1);
    assert ts[..j + 1][..j] == ts[..j];
    k := ReleasedSince(ts, i, j, x);
  }

  lemma {:induction false} ExclusivePrefix(ts: seq<Transition>, n: nat)
    requires Exclusive(ts) && n <= |ts|
    ensures Exclusive(ts[..n])
  {
    if n < |ts| {
      ExclusivePrefix(ts[..|ts| - 1], n);
      assert ts[..|ts| - 1][..n] == ts[..n];
    } else {
      assert ts[..n] == ts;
    }
  }

  /** If a mutex locked at i is free before j, its holder has unlocked it in between. */
  lemma {:induction false} ReleasedSince(ts: seq<Transition>, i: nat, j: nat, x: Addr) returns (k: nat)
    requires Exclusive(ts) && i < j < |ts|
    requires ts[i].instr.IsLock() && ts[i].instr.obj == x
    requires !(x in Holders(ts[..j]) && Holders(ts[..j])[x] == ts[i].instr.tid)
    ensures i < k < j && ts[k].instr.IsUnlock() && ts[k].instr.obj == x && ts[k].instr.tid == ts[i].instr.tid
    decreases j
  {
    assert ts[..j][..j - 1] == ts[..j - 1];
    ExclusivePrefix(ts, j);
    if x in Holders(ts[..j - 1]) && Holders(ts[..j - 1])[x] == ts[i].instr.tid {
      k := j - 1;
      assert i < k by { assert ts[..i + 1][..i] == ts[..i]; ExclusivePrefix(ts, i + 1); }
    } else {
      assert i < j - 1;
      k := ReleasedSince(ts, i, j - 1, x);
    }
  }

  // Records of disciplined runs.

  /** The real owners are those of the record, up to the instruction whose turn it is. */
  ghost predicate OwnersRecorded<L, M>(s: Run<L, M>) {
    match s.status
    case RUNNING =>
      if s.record.None? then s.core.owners == map[] && s.core.pool.current.None?
      else
        && s.core.pool.current.Some?
        && var (h, i) := (Holders(s.record.value.transitions), s.core.pool.current.value);
        && Exclusive(s.record.value.transitions)
        && LegalLock(h, i)
        && InRange(s.core, i.tid)
        && s.core.owners == if s.core.phases[i.tid].Granted? then h else RealOwners(h, i)
    case DEADLOCK =>
      s.record.Some? && s.record.value.transitions != []
      && Exclusive(s.record.value.transitions[..|s.record.value.transitions| - 1])
    case _ =>
      s.record.Some? && Exclusive(s.record.value.transitions)
  }

  lemma StepKeepsOwnersRecorded<L, M>(P: Program<L, M>, s: Run<L, M>, t: Tid)
    requires RunInv(s) && OwnersRecorded(s) && s.status == RUNNING && CanStep(s.core, t)
    ensures OwnersRecorded(s.(core := Step(P, s.core, t)))
  {
    assert TurnAt(s.core, t) && CarriedAt(s.core, t);
    StepKeepsCurrent(P, s.core, t);
  }

  lemma RecordedIsExclusive<L, M>(s: Run<L, M>)
    requires RunInv(s) && OwnersRecorded(s) && s.status == RUNNING && AllPosted(s.core.pool)
    ensures var E := Recorded(s); Exclusive(E.transitions) && Holders(E.transitions) == s.core.owners
  {
    var E := Recorded(s);
    PostedMeansQuiet(s.core);
    RecordedChains(s);
    if s.record.Some? {
      assert E.transitions[..|E.transitions| - 1] == s.record.value.transitions;
    }
  }

  lemma GrantKeepsOwnersRecorded<L, M>(P: Program<L, M>, cfg: Config, s: Run<L, M>, pick: Tid)
    requires RunInv(s) && Strict(P, s.core) && OwnersRecorded(s) && CanSchedule(cfg, s, pick)
    requires Iterate(cfg, s, pick).status == RUNNING
    ensures OwnersRecorded(Iterate(cfg, s, pick))
  {
    RecordedIsExclusive(s);
    GrantIsExclusive(P, s, pick);
  }

  lemma IterateKeepsOwnersRecorded<L, M>(P: Program<L, M>, cfg: Config, s: Run<L, M>, pick: Tid)
    requires RunInv(s) && Strict(P, s.core) && OwnersRecorded(s) && CanSchedule(cfg, s, pick)
    ensures OwnersRecorded(Iterate(cfg, s, pick))
  {
    var (E, d) := (Recorded(s), Iterate(cfg, s, pick));
    if d.status == RUNNING {
      GrantKeepsOwnersRecorded(P, cfg, s, pick);
    } else {
      RecordedIsExclusive(s);
      EndKeepsRecord(cfg, s, pick);
      ExtendsBy(E.transitions, d.record.value.transitions);
    }
  }

  lemma ExtendsBy(a: seq<Transition>, b: seq<Transition>)
    requires a <= b
    ensures |a| == |b| ==> a == b
    ensures |a| + 1 == |b| ==> b[..|b| - 1] == a
  {
  }

  /** A thread that gets its turn may take a mutex, or holds the one it gives back. */
  lemma GrantIsExclusive<L, M>(P: Program<L, M>, s: Run<L, M>, t: Tid)
    requires Strict(P, s.core) && AllPosted(s.core.pool) && IsEnabled(s.core.pool, t)
    ensures t in s.core.pool.tasks && InRange(s.core, t) && s.core.phases[t].Waiting?
            && s.core.phases[t].posted == s.core.pool.tasks[t]
    ensures var i := s.core.pool.tasks[t];
            i.tid == t && (i.IsLock() ==> i.obj !in s.core.owners)
                && (i.IsUnlock() ==> i.obj in s.core.owners && s.core.owners[i.obj] == t)
  {
    assert ThreadAt(s.core, t) && IntendedAt(P, s.core, t) && CarriedAt(s.core, t);
    EnabledIffRunnable(P, s.core, t);
  }

  /** Mutual exclusion in every record of a disciplined run. */
  lemma {:induction false} RecordsAreExclusive<L, M>(P: Program<L, M>, cfg: Config, es: seq<Event>)
    requires IsRun(P, cfg, es) && DisciplinedRun(P, cfg, es)
    ensures OwnersRecorded(After(P, cfg, es))
  {
    if es != [] {
      var (s, e) := (After(P, cfg, es[..|es| - 1]), es[|es| - 1]);
      RecordsAreExclusive(P, cfg, es[..|es| - 1]);
      RunsKeepInv(P, cfg, es[..|es| - 1]);
      match e
      case Section(t) => StepKeepsOwnersRecorded(P, s, t);
      case Iteration(pick) =>
        RunsStayStrict(P, cfg, es[..|es| - 1]);
        IterateKeepsOwnersRecorded(P, cfg, s, pick);
    }
  }
}
