/** The instructions that are posted and recorded are those of the program, and a record is one of its executions. */
module Programs {
  import opened Instructions
  import opened PoolSpec
  import opened System
  import opened Base
  import opened SchedulingPoint
  import opened ExecutionRecord
  import opened Runs
  import opened Accounting
  import opened ReplayLimits

  /** What an instruction does, read off the instruction. */
  function OpOf(i: Instruction): Op {
    match i
    case MemoryInstruction(_, op, x, isAtomic, meta) => MemoryOp(op, x, isAtomic, meta)
    case LockInstruction(_, op, x, meta) => LockOp(op, x, meta)
    case ThreadInstruction(_, Spawn, _, meta) => SpawnOp(meta)
    case ThreadInstruction(_, Join, u, meta) => JoinOp(u.tid, meta)
  }

  /** In local state l the program reaches the instruction, and thread t carries it. */
  predicate Says<L, M>(P: Program<L, M>, t: Tid, l: L, i: Instruction) {
    && i.tid == t
    && P.next(l).Some? && P.next(l).value == OpOf(i)
    && (i.ThreadInstruction? ==> i.operand.status == START)
  }

  predicate SaysTask<L, M>(P: Program<L, M>, t: Tid, l: L, task: Option<Instruction>) {
    if task.Some? then Says(P, t, l, task.value) else P.next(l).None?
  }

  // What a thread has created, posted or been given the turn for is its next instruction.

  predicate SaysAt<L, M>(P: Program<L, M>, c: Core<L, M>, t: Tid) {
    InRange(c, t) ==>
      match c.phases[t]
      case Ready(l, task) => SaysTask(P, t, l, task)
      case Yielded(l, task) => SaysTask(P, t, l, task)
      case Waiting(l, i) => Says(P, t, l, i)
      case Granted(l, i) => Says(P, t, l, i)
      case _ => true
  }

  lemma StepKeepsSays<L, M>(P: Program<L, M>, c: Core<L, M>, t: Tid, u: Tid)
    requires CanStep(c, t) && SaysAt(P, c, u) && SaysAt(P, c, t)
    ensures SaysAt(P, Step(P, c, t), u)
  {
  }

  lemma {:induction false} RunsSay<L, M>(P: Program<L, M>, cfg: Config, es: seq<Event>, t: Tid)
    requires IsRun(P, cfg, es)
    ensures SaysAt(P, After(P, cfg, es).core, t)
  {
    if es != [] {
      var (s, e) := (After(P, cfg, es[..|es| - 1]), es[|es| - 1]);
      RunsSay(P, cfg, es[..|es| - 1], t);
      match e
      case Section(u) =>
        RunsSay(P, cfg, es[..|es| - 1], u);
        StepKeepsSays(P, s.core, u, t);
      case Iteration(pick) =>
    }
  }

  /** Every instruction in the pool is the next one of its thread. */
  lemma PostedIsNext<L, M>(P: Program<L, M>, cfg: Config, es: seq<Event>, t: Tid)
    requires IsRun(P, cfg, es) && t in After(P, cfg, es).core.pool.tasks
    ensures var c := After(P, cfg, es).core;
            InRange(c, t) && c.phases[t].Waiting? && Says(P, t, c.phases[t].l, c.pool.tasks[t])
  {
    RunsSay(P, cfg, es, t);
    RunsKeepInv(P, cfg, es);
    assert ThreadAt(After(P, cfg, es).core, t);
  }

  // The program without a scheduler.

  /** Where every thread that exists is, the shared memory, and who holds which mutex. */
  datatype World<!L, M> = World(locals: map<Tid, L>, memory: M, holders: map<Addr, Tid>)

  function Begin<L, M>(P: Program<L, M>): World<L, M> { World(map[0 := P.start], P.memory, map[]) }

  /** The thread executes its next instruction; a Spawn creates the thread named. */
  function Executed<L, M>(P: Program<L, M>, w: World<L, M>, i: Instruction): World<L, M>
    requires i.tid in w.locals
  {
    var l := w.locals[i.tid];
    var locals := if i.IsSpawn() then w.locals[i.operand.tid := P.child(l)] else w.locals;
    World(locals[i.tid := P.local(l, w.memory, if i.IsSpawn() then i.operand.tid else -1)], P.effect(l, w.memory),
          if i.IsLock() then w.holders[i.obj := i.tid]
          else if i.IsUnlock() then map x | x in w.holders && x != i.obj :: w.holders[x]
          else w.holders)
  }

  /** The instruction is the next one of its thread; a Spawn creates a new thread, a Lock is on a mutex that nobody
      holds, and a Join waits for a thread that is at its end. */
  predicate MayExecute<L, M>(P: Program<L, M>, w: World<L, M>, i: Instruction) {
    && i.tid in w.locals && Says(P, i.tid, w.locals[i.tid], i)
    && (i.IsSpawn() ==> i.operand.tid !in w.locals)
    && (i.IsLock() ==> i.obj !in w.holders)
    && (i.IsJoin() ==> i.operand.tid in w.locals && P.next(w.locals[i.operand.tid]).None?)
  }

  ghost predicate IsExecution<L, M>(P: Program<L, M>, steps: seq<Instruction>)
    decreases |steps|, 0
  {
    steps != [] ==>
      && IsExecution(P, steps[..|steps| - 1])
      && MayExecute(P, WorldAfter(P, steps[..|steps| - 1]), steps[|steps| - 1])
  }

  ghost function WorldAfter<L, M>(P: Program<L, M>, steps: seq<Instruction>): World<L, M>
    requires IsExecution(P, steps)
    decreases |steps|, 1
  {
    if steps == [] then Begin(P)
    else Executed(P, WorldAfter(P, steps[..|steps| - 1]), steps[|steps| - 1])
  }

  // The scheduler's threads are where the program is.

  ghost predicate LocalAt<L, M>(c: Core<L, M>, w: World<L, M>, P: Program<L, M>, t: Tid) {
    && (t in w.locals <==> InRange(c, t) && !c.phases[t].Reserved?)
    && (t in w.locals ==> if c.phases[t].Finished? then P.next(w.locals[t]).None? else w.locals[t] == c.phases[t].l)
  }

  ghost predicate At<L, M>(P: Program<L, M>, c: Core<L, M>, w: World<L, M>) {
    && c.memory == w.memory && c.owners == w.holders
    && forall t: Tid :: LocalAt(c, w, P, t)
  }

  /** The instruction that was given the turn has not been executed yet. */
  predicate Unexecuted<L, M>(c: Core<L, M>) {
    c.pool.current.Some? && InRange(c, c.pool.current.value.tid) && c.phases[c.pool.current.value.tid].Granted?
  }

  /** steps: the instructions of the turns that were handed out, in order. The last one may still block. */
  ghost predicate Tells<L, M>(P: Program<L, M>, c: Core<L, M>, steps: seq<Instruction>) {
    && (c.pool.current.Some? <==> steps != [])
    && (steps != [] ==> steps[|steps| - 1] == c.pool.current.value)
    && var done := if Unexecuted(c) then steps[..|steps| - 1] else steps;
       IsExecution(P, done) && At(P, c, WorldAfter(P, done))
  }

  lemma {:induction false} BeginTells<L, M>(P: Program<L, M>)
    ensures Tells(P, Initial(P), [])
  {
  }

  /** Executing an instruction takes the scheduler's threads where it takes the program. */
  lemma ExecuteTells<L, M>(P: Program<L, M>, c: Core<L, M>, t: Tid, w: World<L, M>)
    requires Inv(c) && CanStep(c, t) && c.phases[t].Granted? && At(P, c, w) && SaysAt(P, c, t)
    ensures MayExecute(P, w, c.phases[t].posted) && At(P, Step(P, c, t), Executed(P, w, c.phases[t].posted))
  {
    var i := c.phases[t].posted;
    assert CarriedAt(c, t) && TurnAt(c, t) && LocalAt(c, w, P, t);
    if i.ThreadInstruction? { assert LocalAt(c, w, P, i.operand.tid); }
    forall u: Tid ensures LocalAt(Step(P, c, t), Executed(P, w, i), P, u) { assert LocalAt(c, w, P, u); }
  }

  /** The other sections leave the program where it is. */
  lemma OthersTell<L, M>(P: Program<L, M>, c: Core<L, M>, t: Tid, w: World<L, M>)
    requires Inv(c) && CanStep(c, t) && !c.phases[t].Granted? && At(P, c, w) && SaysAt(P, c, t)
    ensures At(P, Step(P, c, t), w)
  {
    assert LocalAt(c, w, P, t);
    forall u: Tid ensures LocalAt(Step(P, c, t), w, P, u) { assert LocalAt(c, w, P, u); }
  }

  lemma StaysUnexecuted<L, M>(P: Program<L, M>, c: Core<L, M>, t: Tid)
    requires Inv(c) && CanStep(c, t)
    ensures if c.phases[t].Granted?
            then Unexecuted(c) && c.pool.current == Some(c.phases[t].posted) && !Unexecuted(Step(P, c, t))
            else Unexecuted(Step(P, c, t)) <==> Unexecuted(c)
    ensures Step(P, c, t).pool.current == c.pool.current
  {
    StepKeepsCurrent(P, c, t);
    assert CarriedAt(c, t) && TurnAt(c, t);
  }

  lemma StepKeepsTells<L, M>(P: Program<L, M>, c: Core<L, M>, t: Tid, steps: seq<Instruction>)
    requires Inv(c) && CanStep(c, t) && Tells(P, c, steps) && SaysAt(P, c, t)
    ensures Tells(P, Step(P, c, t), steps)
  {
    StaysUnexecuted(P, c, t);
    if c.phases[t].Granted? {
      ExecuteTells(P, c, t, WorldAfter(P, steps[..|steps| - 1]));
    } else {
      OthersTell(P, c, t, WorldAfter(P, if Unexecuted(c) then steps[..|steps| - 1] else steps));
    }
  }

  lemma GrantedIsPosted<L, M>(c: Core<L, M>, t: Tid)
    requires Inv(c) && AllPosted(c.pool) && IsEnabled(c.pool, t)
    ensures t in c.pool.tasks && InRange(c, t) && c.phases[t].Waiting? && !Unexecuted(c)
    ensures Grant(c, t).pool.current == Some(c.pool.tasks[t]) && Unexecuted(Grant(c, t))
  {
    PostedMeansQuiet(c);
    assert ThreadAt(c, t) && CarriedAt(c, t);
  }

  lemma GrantStaysAt<L, M>(P: Program<L, M>, c: Core<L, M>, t: Tid, w: World<L, M>)
    requires At(P, c, w)
    ensures At(P, Grant(c, t), w)
  {
    forall u: Tid ensures LocalAt(Grant(c, t), w, P, u) { assert LocalAt(c, w, P, u); }
  }

  /** A turn begins with the instruction its thread has posted. */
  lemma GrantKeepsTells<L, M>(P: Program<L, M>, c: Core<L, M>, t: Tid, steps: seq<Instruction>)
    requires Inv(c) && AllPosted(c.pool) && IsEnabled(c.pool, t) && Tells(P, c, steps)
    ensures t in c.pool.tasks && Tells(P, Grant(c, t), steps + [c.pool.tasks[t]])
  {
    GrantedIsPosted(c, t);
    GrantStaysAt(P, c, t, WorldAfter(P, steps));
    assert (steps + [c.pool.tasks[t]])[..|steps|] == steps;
  }

  // What the record says.

  /** The instructions of the turns that were handed out. */
  function Handed<L, M>(s: Run<L, M>): seq<Instruction> {
    Instrs(ExecutedPart(s))
    + if s.status == RUNNING && s.core.pool.current.Some? then [s.core.pool.current.value] else []
  }

  function Instrs(ts: seq<Transition>): seq<Instruction> {
    seq(|ts|, i requires 0 <= i < |ts| => ts[i].instr)
  }

  /** The recorded state: every thread with a next instruction, and that instruction. */
  ghost predicate Shows<L, M>(P: Program<L, M>, w: World<L, M>, st: State) {
    && (forall t: Tid :: t in st.next <==> t in w.locals && P.next(w.locals[t]).Some?)
    && (forall t: Tid :: t in st.next ==> Says(P, t, w.locals[t], st.next[t].instr))
    && (forall t: Tid :: t in st.enabled <==> t in st.next && st.next[t].enabled)
  }

  lemma PointShows<L, M>(P: Program<L, M>, c: Core<L, M>, w: World<L, M>)
    requires Inv(c) && AllPosted(c.pool) && At(P, c, w) && forall t :: SaysAt(P, c, t)
    ensures Shows(P, w, ProgramState(c.pool))
  {
    PostedMeansQuiet(c);
    forall t: Tid
      ensures t in c.pool.tasks <==> t in w.locals && P.next(w.locals[t]).Some?
      ensures t in c.pool.tasks ==> Says(P, t, w.locals[t], c.pool.tasks[t])
    {
      assert LocalAt(c, w, P, t) && ThreadAt(c, t) && SaysAt(P, c, t);
    }
  }

  /** The transitions are an execution of the program, and every state shows where the program is. */
  ghost predicate Truthful<L, M>(P: Program<L, M>, s0: State, ts: seq<Transition>) {
    && IsExecution(P, Instrs(ts))
    && if ts == [] then Shows(P, Begin(P), s0)
       else Truthful(P, s0, ts[..|ts| - 1]) && Shows(P, WorldAfter(P, Instrs(ts)), ts[|ts| - 1].post)
  }

  // Along a run.

  ghost predicate RunTells<L, M>(P: Program<L, M>, s: Run<L, M>) {
    && (if s.status == RUNNING then Tells(P, s.core, Handed(s))
        else IsExecution(P, Handed(s)) && At(P, s.core, WorldAfter(P, Handed(s))))
    && (s.record.Some? ==> s.record.value.s0.Some? && Truthful(P, s.record.value.s0.value, ExecutedPart(s)))
  }

  lemma RecordedHands<L, M>(s: Run<L, M>)
    requires RunInv(s) && s.status == RUNNING
    ensures Instrs(Recorded(s).transitions) == Handed(s)
    ensures s.taskNr > 0 ==>
              var ts := Recorded(s).transitions;
              |ts| > 0 && ts[..|ts| - 1] == ExecutedPart(s) && ts[|ts| - 1].post == ProgramState(s.core.pool)
  {
    RecordedChains(s);
  }

  lemma RecordedIsTruthful<L, M>(P: Program<L, M>, s: Run<L, M>)
    requires RunInv(s) && s.status == RUNNING && AllPosted(s.core.pool) && RunTells(P, s)
    requires forall t :: SaysAt(P, s.core, t)
    ensures Recorded(s).s0.Some? && Truthful(P, Recorded(s).s0.value, Recorded(s).transitions)
    ensures !Unexecuted(s.core)
  {
    RecordedHands(s);
    PostedMeansQuiet(s.core);
    PointShows(P, s.core, WorldAfter(P, Handed(s)));
  }

  lemma TurnKeepsTells<L, M>(P: Program<L, M>, cfg: Config, s: Run<L, M>, pick: Tid)
    requires RunInv(s) && CanSchedule(cfg, s, pick) && RunTells(P, s) && Iterate(cfg, s, pick).status == RUNNING
    requires forall t :: SaysAt(P, s.core, t)
    ensures RunTells(P, Iterate(cfg, s, pick))
  {
    RecordedIsTruthful(P, s);
    RecordedHands(s);
    GrantKeepsTells(P, s.core, pick, Handed(s));
    assert ThreadAt(s.core, pick) && CarriedAt(s.core, pick);
    assert Handed(Iterate(cfg, s, pick)) == Handed(s) + [s.core.pool.tasks[pick]];
  }

  lemma EndHandsNothing<L, M>(cfg: Config, s: Run<L, M>, pick: Tid)
    requires RunInv(s) && CanSchedule(cfg, s, pick) && Iterate(cfg, s, pick).status != RUNNING
    ensures var d := Iterate(cfg, s, pick);
            && d.core == s.core && d.record.Some? && d.record.value.s0 == Recorded(s).s0
            && ExecutedPart(d) == Recorded(s).transitions && Handed(d) == Handed(s)
  {
    RecordedHands(s);
    EndKeepsRecord(cfg, s, pick);
    assert ExecutedPart(Iterate(cfg, s, pick)) == Recorded(s).transitions;
  }

  lemma EndKeepsTells<L, M>(P: Program<L, M>, cfg: Config, s: Run<L, M>, pick: Tid)
    requires RunInv(s) && CanSchedule(cfg, s, pick) && RunTells(P, s) && Iterate(cfg, s, pick).status != RUNNING
    requires forall t :: SaysAt(P, s.core, t)
    ensures RunTells(P, Iterate(cfg, s, pick))
  {
    RecordedIsTruthful(P, s);
    EndHandsNothing(cfg, s, pick);
  }

  lemma SectionKeepsTells<L, M>(P: Program<L, M>, s: Run<L, M>, t: Tid)
    requires RunInv(s) && s.status == RUNNING && CanStep(s.core, t) && RunTells(P, s) && SaysAt(P, s.core, t)
    ensures RunTells(P, s.(core := Step(P, s.core, t)))
  {
    StepKeepsCurrent(P, s.core, t);
    assert Handed(s.(core := Step(P, s.core, t))) == Handed(s);
    StepKeepsTells(P, s.core, t, Handed(s));
  }

  /** In every run of every program the executed transitions are an execution of the program, each with the next
      instruction of its thread, operation, operand, atomicity and meta data; every recorded state shows exactly the
      threads that have a next instruction, and that instruction; and the threads are where the program is. */
  lemma {:induction false} RecordsAreExecutions<L, M>(P: Program<L, M>, cfg: Config, es: seq<Event>)
    requires IsRun(P, cfg, es)
    ensures RunTells(P, After(P, cfg, es))
  {
    if es == [] {
      BeginTells(P);
    } else {
      var (before, e) := (es[..|es| - 1], es[|es| - 1]);
      var s := After(P, cfg, before);
      RecordsAreExecutions(P, cfg, before);
      RunsKeepInv(P, cfg, before);
      forall t ensures SaysAt(P, s.core, t) { RunsSay(P, cfg, before, t); }
      match e
      case Section(t) => SectionKeepsTells(P, s, t);
      case Iteration(pick) =>
        if Iterate(cfg, s, pick).status == RUNNING { TurnKeepsTells(P, cfg, s, pick); }
        else { EndKeepsTells(P, cfg, s, pick); }
    }
  }

  /** A run that is DONE has executed the program to its end. */
  lemma DoneIsTheEnd<L, M>(P: Program<L, M>, cfg: Config, es: seq<Event>)
    requires IsRun(P, cfg, es) && After(P, cfg, es).status == DONE
    ensures var s := After(P, cfg, es);
            && s.record.Some? && IsExecution(P, Instrs(s.record.value.transitions))
            && var w := WorldAfter(P, Instrs(s.record.value.transitions));
               s.core.memory == w.memory && forall t | t in w.locals :: P.next(w.locals[t]).None?
  {
    RecordsAreExecutions(P, cfg, es);
    RunsKeepInv(P, cfg, es);
    var s := After(P, cfg, es);
    PostedMeansQuiet(s.core);
    var w := WorldAfter(P, Handed(s));
    assert Handed(s) == Instrs(s.record.value.transitions);
    forall t | t in w.locals ensures P.next(w.locals[t]).None? {
      assert LocalAt(s.core, w, P, t) && ThreadAt(s.core, t);
    }
  }

  // The threads of a record.

  ghost predicate SpawnedBySteps(steps: seq<Instruction>, k: Tid) { exists i :: i in steps && i.Spawns(k) }

  lemma {:induction false} ThreadsOfWorld<L, M>(P: Program<L, M>, steps: seq<Instruction>, k: Tid)
    requires IsExecution(P, steps)
    ensures k in WorldAfter(P, steps).locals <==> k == 0 || SpawnedBySteps(steps, k)
  {
    if steps != [] {
      var before := steps[..|steps| - 1];
      var last := steps[|steps| - 1];
      ThreadsOfWorld(P, before, k);
      assert steps == before + [last];
      assert SpawnedBySteps(steps, k) <==> SpawnedBySteps(before, k) || last.Spawns(k) by {
        if SpawnedBySteps(before, k) {
          var i :| i in before && i.Spawns(k);
          assert i in steps;
        }
        assert last in steps;
      }
    }
  }

  lemma RecordSpawns(E: Record, k: Tid)
    requires E.Chained()
    ensures k in E.threads <==> k == 0 || SpawnedBySteps(Instrs(E.transitions), k)
  {
    ThreadsIff(E, k);
    var steps := Instrs(E.transitions);
    if t :| t in E.transitions && t.instr.IsSpawn() && t.instr.operand.tid == k {
      var n :| 0 <= n < |E.transitions| && E.transitions[n] == t;
      assert steps[n] == t.instr && t.instr in steps && t.instr.Spawns(k);
    }
    if i :| i in steps && i.Spawns(k) {
      var n :| 0 <= n < |steps| && steps[n] == i;
      var x := E.transitions[n];
      assert x in E.transitions && x.instr.IsSpawn() && x.instr.operand.tid == k;
    }
  }

  /** The transition a deadlock adds is of no Spawn. */
  lemma AddedSpawnsNothing<L, M>(P: Program<L, M>, cfg: Config, es: seq<Event>, k: Tid)
    requires IsRun(P, cfg, es) && After(P, cfg, es).status == DEADLOCK
    ensures var s := After(P, cfg, es);
            s.record.Some? && (SpawnedBySteps(Instrs(s.record.value.transitions), k) ==> SpawnedBySteps(Handed(s), k))
  {
    var s := After(P, cfg, es);
    var t := AddedByDeadlock(P, cfg, es);
    NoSpawnIsLeft(P, cfg, es, t);
    var ts := s.record.value.transitions;
    assert Instrs(ts) == Handed(s) + [ts[|ts| - 1].instr];
  }

  lemma SpawnsOfRecord<L, M>(P: Program<L, M>, cfg: Config, es: seq<Event>, k: Tid)
    requires IsRun(P, cfg, es) && After(P, cfg, es).status != RUNNING
    ensures var s := After(P, cfg, es);
            s.record.Some? && (SpawnedBySteps(Handed(s), k) <==> SpawnedBySteps(Instrs(s.record.value.transitions), k))
  {
    var s := After(P, cfg, es);
    RunsKeepInv(P, cfg, es);
    assert Handed(s) <= Instrs(s.record.value.transitions);
    if s.status == DEADLOCK { AddedSpawnsNothing(P, cfg, es, k); }
  }

  lemma WorldIsRegistered<L, M>(P: Program<L, M>, cfg: Config, es: seq<Event>, k: Tid)
    requires IsRun(P, cfg, es) && After(P, cfg, es).status != RUNNING
    ensures var s := After(P, cfg, es); k in s.core.pool.threads <==> k == 0 || SpawnedBySteps(Handed(s), k)
  {
    var s := After(P, cfg, es);
    RecordsAreExecutions(P, cfg, es);
    RunsKeepInv(P, cfg, es);
    PostedMeansQuiet(s.core);
    ThreadsOfWorld(P, Handed(s), k);
    assert LocalAt(s.core, WorldAfter(P, Handed(s)), P, k) && ThreadAt(s.core, k);
  }

  /** At the end of a run, the threads of the record are those the pool has registered: the main thread and the
      operands of the executed Spawns. */
  lemma ThreadsOfRecord<L, M>(P: Program<L, M>, cfg: Config, es: seq<Event>, k: Tid)
    requires IsRun(P, cfg, es) && After(P, cfg, es).status != RUNNING
    ensures var s := After(P, cfg, es);
            && s.record.Some?
            && (k in s.record.value.threads <==> k == 0 || SpawnedBySteps(Instrs(ExecutedPart(s)), k))
            && (k in s.record.value.threads <==> k in s.core.pool.threads)
  {
    RunsKeepInv(P, cfg, es);
    SpawnsOfRecord(P, cfg, es, k);
    WorldIsRegistered(P, cfg, es, k);
    RecordSpawns(After(P, cfg, es).record.value, k);
    assert Handed(After(P, cfg, es)) == Instrs(ExecutedPart(After(P, cfg, es)));
  }
}
