/** Small programs and runs that show what does not hold. */
module Witnesses {
  import opened Instructions
  import opened PoolSpec
  import opened System
  import opened Confluence
  import opened Rounds
  import opened SchedulingPoint
  import opened Deadlock
  import opened ExecutionRecord
  import opened Runs
  import opened Handshake
  import opened SecondJoins
  import opened Races

  const META := MetaData("file", 1)

  /** Thread-local states are program counters, a spawned thread starts at 10, and address 7 is a mutex. */
  function Code(next: int -> Option<Op>): Program<int, int> {
    Program(0, 0, next, (l, m, k) => l + 1, (l, m) => m, l => 10, x => x == 7)
  }

  function Driven(schedule: seq<Tid>): Config { Config(schedule, (p, enabled, nr, t) => true) }

  // Building a run.

  ghost predicate RunTo<L, M>(P: Program<L, M>, cfg: Config, es: seq<Event>, s: Run<L, M>) {
    IsRun(P, cfg, es) && After(P, cfg, es) == s
  }

  lemma Extend<L, M>(P: Program<L, M>, cfg: Config, es: seq<Event>, s: Run<L, M>, e: Event)
    returns (fs: seq<Event>, d: Run<L, M>)
    requires RunTo(P, cfg, es, s) && CanApply(cfg, s, e)
    ensures fs == es + [e] && RunTo(P, cfg, fs, d) && d == Apply(P, cfg, s, e)
  {
    fs := es + [e];
    assert fs[..|es|] == es;
    d := Apply(P, cfg, s, e);
  }

  /** The thread announces its next instruction, and may: it creates it, yields the one before and posts. */
  ghost predicate Announces<L, M>(P: Program<L, M>, c: Core<L, M>, t: Tid, d: Core<L, M>) {
    && InRange(c, t) && c.phases[t].Running? && P.next(c.phases[t].l).Some?
    && var l := c.phases[t].l;
    && var i := Created(P, c, t, l).value;
    && CanPost(Yield(c.pool, t), i) && !PostThrows(Yield(c.pool, t), i)
    && d == c.(pool := Post(Yield(c.pool, t), t, i),
               phases := (c.phases + if NextIsSpawn(P, l) then [Reserved] else [])[t := Waiting(l, i)])
  }

  lemma Announce<L, M>(P: Program<L, M>, cfg: Config, es: seq<Event>, s: Run<L, M>, t: Tid, c: Core<L, M>)
    returns (fs: seq<Event>, d: Run<L, M>)
    requires RunTo(P, cfg, es, s) && s.status == RUNNING && Announces(P, s.core, t, c)
    ensures fs == es + [Section(t)] + [Section(t)] + [Section(t)] && RunTo(P, cfg, fs, d) && d == s.(core := c)
  {
    var s1, s2;
    fs, s1 := Extend(P, cfg, es, s, Section(t));
    fs, s2 := Extend(P, cfg, fs, s1, Section(t));
    fs, d := Extend(P, cfg, fs, s2, Section(t));
    assert d.core.phases == c.phases;
  }

  /** A thread without a further instruction yields and finishes. */
  ghost predicate Ends<L, M>(P: Program<L, M>, c: Core<L, M>, t: Tid, d: Core<L, M>) {
    && InRange(c, t) && c.phases[t].Running? && P.next(c.phases[t].l).None?
    && d == c.(pool := Finish(Yield(c.pool, t), t), phases := c.phases[t := Finished])
  }

  lemma End<L, M>(P: Program<L, M>, cfg: Config, es: seq<Event>, s: Run<L, M>, t: Tid, c: Core<L, M>)
    returns (fs: seq<Event>, d: Run<L, M>)
    requires RunTo(P, cfg, es, s) && s.status == RUNNING && Ends(P, s.core, t, c)
    ensures fs == es + [Section(t)] + [Section(t)] + [Section(t)] && RunTo(P, cfg, fs, d) && d == s.(core := c)
  {
    var s1, s2;
    fs, s1 := Extend(P, cfg, es, s, Section(t));
    fs, s2 := Extend(P, cfg, fs, s1, Section(t));
    fs, d := Extend(P, cfg, fs, s2, Section(t));
    assert d.core.phases == c.phases;
  }

  /** The thread gets its turn and executes its instruction. */
  ghost predicate TakesTurn<L, M>(P: Program<L, M>, c: Core<L, M>, t: Tid, d: Core<L, M>) {
    && AllPosted(c.pool) && IsEnabled(c.pool, t) && CanStep(Grant(c, t), t)
    && d == Step(P, Grant(c, t), t)
  }

  lemma TakeTurn<L, M>(P: Program<L, M>, cfg: Config, es: seq<Event>, s: Run<L, M>, t: Tid, c: Core<L, M>)
    returns (fs: seq<Event>, d: Run<L, M>)
    requires RunTo(P, cfg, es, s) && s.status == RUNNING && TakesTurn(P, s.core, t, c)
    requires s.taskNr < |cfg.schedule| && cfg.schedule[s.taskNr] == t
    ensures fs == es + [Iteration(t)] + [Section(t)] && RunTo(P, cfg, fs, d)
    ensures d == s.(core := c, taskNr := s.taskNr + 1, record := Some(Recorded(s)))
  {
    var s1;
    fs, s1 := Extend(P, cfg, es, s, Iteration(t));
    fs, d := Extend(P, cfg, fs, s1, Section(t));
  }

  /** One more section of a thread. */
  lemma Go<L, M>(P: Program<L, M>, cfg: Config, es: seq<Event>, s: Run<L, M>, t: Tid, c: Core<L, M>)
    returns (fs: seq<Event>, d: Run<L, M>)
    requires RunTo(P, cfg, es, s) && s.status == RUNNING && CanStep(s.core, t) && c == Step(P, s.core, t)
    ensures fs == es + [Section(t)] && RunTo(P, cfg, fs, d) && d == s.(core := c)
  {
    fs, d := Extend(P, cfg, es, s, Section(t));
  }

  // One thread executes an operation on the mutex and then wants to lock it.

  function ThenLock(first: Op): Program<int, int> {
    Code(l => if l == 0 then Some(first) else if l == 1 then Some(LockOp(Lock, 7, META)) else None)
  }

  const LOCK := LockInstruction(0, Lock, 7, META)

  /** The operation as an instruction of the main thread, for the two operations used here. */
  predicate Begins(first: Op, i: Instruction) {
    || (first == MemoryOp(Store, 7, false, META) && i == MemoryInstruction(0, Store, 7, false, META))
    || (first == LockOp(Lock, 7, META) && i == LOCK)
  }

  /** The main thread alone, which has touched one object. */
  function Alone(tasks: map<Tid, Instruction>, current: Option<Instruction>, status: ThreadStatus, o: ObjectView,
                 ph: Phase<int>, owners: map<Addr, Tid>): Core<int, int> {
    Core(Pool(tasks, current, map[0 := status], map[7 := o], map[0 := map[]]), [ph], 0, owners, {})
  }

  function FirstPosted(i: Instruction): Core<int, int> {
    Alone(map[0 := i], None, ENABLED, ObjectView(map[], map[0 := i], 0), Waiting(0, i), map[])
  }

  function FirstExecuted(i: Instruction): Core<int, int> {
    Alone(map[], Some(i), ENABLED, ObjectView(map[], map[0 := i], 0), Running(1), RealOwners(map[], i))
  }

  function LockPosted(i: Instruction): Core<int, int> {
    Alone(map[0 := LOCK], Some(i), DISABLED, ObjectView(map[], map[0 := LOCK], 1), Waiting(1, LOCK),
        RealOwners(map[], i))
  }

  lemma FirstIsAnnounced(first: Op, i: Instruction)
    requires Begins(first, i)
    ensures Announces(ThenLock(first), Initial(ThenLock(first)), 0, FirstPosted(i))
  {
  }

  lemma FirstIsExecuted(first: Op, i: Instruction)
    requires Begins(first, i)
    ensures TakesTurn(ThenLock(first), FirstPosted(i), 0, FirstExecuted(i))
  {
  }

  lemma LockIsAnnounced(first: Op, i: Instruction)
    requires Begins(first, i)
    ensures Announces(ThenLock(first), FirstExecuted(i), 0, LockPosted(i))
  {
  }

  lemma LockIsDeadlocked(i: Instruction)
    ensures Deadlocked(LockPosted(i)) && LockPosted(i).pool.tasks == map[0 := LOCK]
    ensures i.MemoryInstruction? ==> LockPosted(i).owners == map[] && !Blocks(LockPosted(i), LOCK)
  {
    var p := LockPosted(i).pool;
    assert forall t | t in p.threads :: t == 0 && p.threads[t] == DISABLED;
    assert 0 in p.tasks;
  }

  /** The main thread announces an instruction, executes it and announces another one. */
  lemma TwoMoves<L, M>(P: Program<L, M>, cfg: Config, c1: Core<L, M>, c2: Core<L, M>)
    returns (es: seq<Event>, s: Run<L, M>)
    requires cfg.schedule != [] && cfg.schedule[0] == 0
    requires Announces(P, Initial(P), 0, c1) && TakesTurn(P, c1, 0, c2)
    ensures RunTo(P, cfg, es, s) && s.core == c2 && s.taskNr == 1 && s.status == RUNNING
    ensures es == [Section(0), Section(0), Section(0), Iteration(0), Section(0)]
  {
    var s1;
    es, s1 := Announce(P, cfg, [], Start(P), 0, c1);
    es, s := TakeTurn(P, cfg, es, s1, 0, c2);
  }

  lemma RunThenLock(first: Op, i: Instruction, cfg: Config) returns (es: seq<Event>, s: Run<int, int>)
    requires Begins(first, i) && cfg.schedule != [] && cfg.schedule[0] == 0
    ensures RunTo(ThenLock(first), cfg, es, s) && s.core == LockPosted(i) && s.taskNr == 1 && s.status == RUNNING
    ensures es == [Section(0), Section(0), Section(0), Iteration(0), Section(0), Section(0), Section(0), Section(0)]
  {
    var s2;
    FirstIsAnnounced(first, i);
    FirstIsExecuted(first, i);
    es, s2 := TwoMoves(ThenLock(first), cfg, FirstPosted(i), FirstExecuted(i));
    LockIsAnnounced(first, i);
    es, s := Announce(ThenLock(first), cfg, es, s2, 0, LockPosted(i));
  }

  /** A store to the address of a mutex, and the Lock posted next is reported as a deadlock, although nobody
      holds anything and the Lock would not block. */
  lemma AccessToMutex() returns (es: seq<Event>, s: Run<int, int>)
    ensures RunTo(ThenLock(MemoryOp(Store, 7, false, META)), Driven([0]), es, s) && s.status == RUNNING
    ensures es == [Section(0), Section(0), Section(0), Iteration(0), Section(0), Section(0), Section(0), Section(0)]
    ensures Deadlocked(s.core) && s.core.owners == map[] && s.core.pool.tasks == map[0 := LOCK] && !Blocks(s.core, LOCK)
  {
    var store := MemoryInstruction(0, Store, 7, false, META);
    es, s := RunThenLock(MemoryOp(Store, 7, false, META), store, Driven([0]));
    LockIsDeadlocked(store);
  }

  /** The deadlock after the first turn is reported, or, if the schedule goes on with it, refused. */
  lemma DeadlockCloses<L, M>(P: Program<L, M>, cfg: Config, es: seq<Event>, s: Run<L, M>)
    returns (fs: seq<Event>, d: Run<L, M>)
    requires RunTo(P, cfg, es, s) && s.status == RUNNING && s.taskNr == 1 && Deadlocked(s.core)
    requires 0 in s.core.pool.tasks && 0 in s.core.pool.threads && s.core.pool.tasks[0].tid == 0
    requires s.core.pool.current.Some? && s.core.pool.current.value.tid == 0
    requires cfg.schedule == [0] || cfg.schedule == [0, 0]
    ensures fs == es + [Iteration(0)] && RunTo(P, cfg, fs, d) && d.record.Some?
    ensures d.status == if cfg.schedule == [0] then DEADLOCK else ERROR
    ensures cfg.schedule == [0] ==> Schedule(d.record.value.transitions) == [0, 0]
  {
    assert 0 !in EnabledSet(s.core.pool);
    fs, d := Extend(P, cfg, es, s, Iteration(0));
    RunsKeepInv(P, cfg, es);
    RecordedChains(s);
  }

  /** A mutex is locked twice: the run deadlocks, and driven by the whole schedule of its record the same
      sections and rounds end in ERROR. */
  lemma DeadlockIsNoReplay() returns (es: seq<Event>, a: Run<int, int>, b: Run<int, int>)
    ensures RunTo(ThenLock(LockOp(Lock, 7, META)), Driven([0]), es, a) && a.status == DEADLOCK && a.record.Some?
    ensures Schedule(a.record.value.transitions) == [0, 0]
    ensures RunTo(ThenLock(LockOp(Lock, 7, META)), Driven([0, 0]), es, b) && b.status == ERROR
  {
    var (first, P) := (LockOp(Lock, 7, META), ThenLock(LockOp(Lock, 7, META)));
    var fs, s, t;
    LockIsDeadlocked(LOCK);
    es, s := RunThenLock(first, LOCK, Driven([0, 0]));
    es, b := DeadlockCloses(P, Driven([0, 0]), es, s);
    fs, t := RunThenLock(first, LOCK, Driven([0]));
    fs, a := DeadlockCloses(P, Driven([0]), fs, t);
  }

  // The main thread spawns another one; what either does then, differs.

  function Forking(a: Option<Op>, b: Option<Op>, child: Option<Op>): Program<int, int> {
    Code(l => if l == 0 then Some(SpawnOp(META)) else if l == 1 then a else if l == 2 then b
              else if l == 10 then child else None)
  }

  const SPAWN := ThreadInstruction(0, Spawn, Thread(1, START), META)

  /** Both threads, after the main thread has executed its Spawn. */
  function Two(tasks: map<Tid, Instruction>, current: Instruction, main: ThreadStatus, child: ThreadStatus,
               objects: map<Addr, ObjectView>, joiners: map<Tid, Instruction>,
               phases: seq<Phase<int>>, owners: map<Addr, Tid>): Core<int, int> {
    Core(Pool(tasks, Some(current), map[0 := main, 1 := child], objects, map[0 := map[], 1 := joiners]),
         phases, 0, owners, {})
  }

  const SPAWN_POSTED: Core<int, int> :=
    Core(Pool(map[0 := SPAWN], None, map[0 := ENABLED], map[], map[0 := map[]]),
         [Waiting(0, SPAWN), Reserved], 0, map[], {})
  const SPAWN_EXECUTED: Core<int, int> :=
    Core(Pool(map[], Some(SPAWN), map[0 := ENABLED], map[], map[0 := map[]]),
         [Registering(1, 1), Unregistered(10)], 0, map[], {})
  const FORKED: Core<int, int> := Two(map[], SPAWN, ENABLED, START, map[], map[], [Running(1), Running(10)], map[])

  lemma SpawnIsAnnounced(a: Option<Op>, b: Option<Op>, child: Option<Op>)
    ensures Announces(Forking(a, b, child), Initial(Forking(a, b, child)), 0, SPAWN_POSTED)
  {
  }

  lemma SpawnIsExecuted(a: Option<Op>, b: Option<Op>, child: Option<Op>)
    ensures TakesTurn(Forking(a, b, child), SPAWN_POSTED, 0, SPAWN_EXECUTED)
  {
    assert forall t | t in SPAWN_POSTED.pool.threads :: t == 0;
  }

  lemma ChildIsRegistered(a: Option<Op>, b: Option<Op>, child: Option<Op>)
    ensures CanStep(SPAWN_EXECUTED, 0) && Step(Forking(a, b, child), SPAWN_EXECUTED, 0) == FORKED
  {
    assert Register(SPAWN_EXECUTED.pool, 1) == FORKED.pool;
  }

  lemma Fork(a: Option<Op>, b: Option<Op>, child: Option<Op>, cfg: Config) returns (es: seq<Event>, s: Run<int, int>)
    requires cfg.schedule != [] && cfg.schedule[0] == 0
    ensures RunTo(Forking(a, b, child), cfg, es, s) && s.core == FORKED && s.taskNr == 1 && s.status == RUNNING
    ensures es == [Section(0), Section(0), Section(0), Iteration(0), Section(0), Section(0)]
  {
    var s2;
    var P := Forking(a, b, child);
    SpawnIsAnnounced(a, b, child);
    SpawnIsExecuted(a, b, child);
    es, s2 := TwoMoves(P, cfg, SPAWN_POSTED, SPAWN_EXECUTED);
    ChildIsRegistered(a, b, child);
    es, s := Go(P, cfg, es, s2, 0, FORKED);
  }

  // The second of two joins of the same thread.

  const JOIN_OP := Some(JoinOp(1, META))
  const JOIN := ThreadInstruction(0, Join, Thread(1, START), META)

  const CHILD_ENDED: Core<int, int> := Two(map[], SPAWN, ENABLED, FINISHED, map[], map[], [Running(1), Finished], map[])
  const JOIN_POSTED: Core<int, int> :=
    Two(map[0 := JOIN], SPAWN, ENABLED, FINISHED, map[], map[0 := JOIN], [Waiting(1, JOIN), Finished], map[])
  const JOIN_EXECUTED: Core<int, int> :=
    Two(map[], JOIN, ENABLED, FINISHED, map[], map[0 := JOIN], [Running(2), Finished], map[])
  const SECOND_JOIN: Core<int, int> :=
    Two(map[], JOIN, ENABLED, FINISHED, map[], map[0 := JOIN], [Yielded(2, Some(JOIN)), Finished], map[])

  lemma ChildEnds()
    ensures Ends(Forking(JOIN_OP, JOIN_OP, None), FORKED, 1, CHILD_ENDED)
  {
    assert Finish(FORKED.pool, 1) == CHILD_ENDED.pool;
  }

  lemma JoinIsAnnounced()
    ensures Announces(Forking(JOIN_OP, JOIN_OP, None), CHILD_ENDED, 0, JOIN_POSTED)
  {
    assert Post(CHILD_ENDED.pool, 0, JOIN) == JOIN_POSTED.pool;
  }

  lemma JoinIsExecuted()
    ensures TakesTurn(Forking(JOIN_OP, JOIN_OP, None), JOIN_POSTED, 0, JOIN_EXECUTED)
  {
    assert SetCurrent(JOIN_POSTED.pool, 0) == JOIN_EXECUTED.pool;
  }

  lemma SecondJoinIsCreated()
    ensures CanStep(JOIN_EXECUTED, 0)
    ensures var d := Step(Forking(JOIN_OP, JOIN_OP, None), JOIN_EXECUTED, 0);
            CanStep(d, 0) && Step(Forking(JOIN_OP, JOIN_OP, None), d, 0) == SECOND_JOIN
  {
  }

  const JOIN_THREW: Core<int, int> :=
    Core(Pool(map[0 := JOIN], Some(JOIN), map[0 := ENABLED, 1 := FINISHED], map[],
              map[0 := map[], 1 := map[0 := JOIN]]),
         [Waiting(2, JOIN), Finished], 0, map[], {0})

  lemma SecondJoinThrows()
    ensures CanStep(SECOND_JOIN, 0) && Throws(SECOND_JOIN, 0)
    ensures Step(Forking(JOIN_OP, JOIN_OP, None), SECOND_JOIN, 0) == JOIN_THREW
  {
    assert PostThrown(SECOND_JOIN.pool, 0, JOIN) == JOIN_THREW.pool;
  }

  lemma ThrownIsPosted()
    ensures AllPosted(JOIN_THREW.pool) && IsEnabled(JOIN_THREW.pool, 0)
  {
    var p := JOIN_THREW.pool;
    assert forall t | t in p.threads :: t == 0 || t == 1;
  }

  lemma JoinOnce(cfg: Config) returns (es: seq<Event>, s: Run<int, int>)
    requires cfg.schedule == [0, 0]
    ensures RunTo(Forking(JOIN_OP, JOIN_OP, None), cfg, es, s) && s.core == JOIN_EXECUTED
    ensures s.status == RUNNING && s.taskNr == 2
  {
    var P := Forking(JOIN_OP, JOIN_OP, None);
    var s1, s2, s3;
    es, s1 := Fork(JOIN_OP, JOIN_OP, None, cfg);
    ChildEnds();
    es, s2 := End(P, cfg, es, s1, 1, CHILD_ENDED);
    JoinIsAnnounced();
    es, s3 := Announce(P, cfg, es, s2, 0, JOIN_POSTED);
    JoinIsExecuted();
    es, s := TakeTurn(P, cfg, es, s3, 0, JOIN_EXECUTED);
  }

  /** A thread joins twice: the second post throws, leaves its task behind as an enabled one, and does not wake up
      the scheduler, which may sleep on although every unfinished thread has posted. */
  lemma SecondJoin() returns (es: seq<Event>, s: Run<int, int>)
    ensures RunTo(Forking(JOIN_OP, JOIN_OP, None), Driven([0, 0]), es, s) && s.status == RUNNING && s.core == JOIN_THREW
    ensures AllPosted(s.core.pool) && IsEnabled(s.core.pool, 0) && s.core.pool.tasks == map[0 := JOIN]
    ensures WakeupIsLost(Forking(JOIN_OP, JOIN_OP, None), Driven([0, 0]), es)
    ensures s.taskNr == 2 && HasThrown(Forking(JOIN_OP, JOIN_OP, None), Driven([0, 0]), es, 0)
  {
    var (P, cfg) := (Forking(JOIN_OP, JOIN_OP, None), Driven([0, 0]));
    var before, s1, s2, s3;
    before, s1 := JoinOnce(cfg);
    SecondJoinIsCreated();
    before, s2 := Go(P, cfg, before, s1, 0, Step(P, JOIN_EXECUTED, 0));
    before, s3 := Go(P, cfg, before, s2, 0, SECOND_JOIN);
    SecondJoinThrows();
    es, s := Go(P, cfg, before, s3, 0, JOIN_THREW);
    ThrownIsPosted();
    assert es[..|es| - 1] == before;
    WakeupIsLostIff(P, cfg, es);
  }

  /** If the scheduler is awake, it gives the turn to the thread that threw, and nothing happens any more. */
  lemma LostTurn() returns (es: seq<Event>, s: Run<int, int>)
    ensures RunTo(Forking(JOIN_OP, JOIN_OP, None), Driven([0, 0]), es, s) && s.status == RUNNING && s.taskNr == 3
    ensures s.core.pool.current == Some(JOIN) && s.core.pool.tasks == map[] && !AllPosted(s.core.pool)
    ensures forall e :: !CanApply(Driven([0, 0]), s, e)
  {
    var (P, cfg) := (Forking(JOIN_OP, JOIN_OP, None), Driven([0, 0]));
    var before, s1 := SecondJoin();
    assert EnabledSet(s1.core.pool) != {} by { assert 0 in EnabledSet(s1.core.pool); }
    es, s := Extend(P, cfg, before, s1, Iteration(0));
    assert es[..|es| - 1] == before;
    NobodyTakesTurn(P, cfg, es, s, 0);
  }

  lemma NobodyTakesTurn<L, M>(P: Program<L, M>, cfg: Config, es: seq<Event>, s: Run<L, M>, t: Tid)
    requires RunTo(P, cfg, es, s) && HasThrown(P, cfg, es, t) && InRange(s.core, t) && s.core.phases[t].Granted?
    ensures !AllPosted(s.core.pool) && forall e :: !CanApply(cfg, s, e)
  {
    ThrownLeavesTask(P, cfg, es, t);
    forall e ensures !CanApply(cfg, s, e) { SecondJoins.TurnIsLost(P, cfg, es, t, e); }
  }

  // Spawner and spawned thread both spawn next.

  const SPAWN_OP := Some(SpawnOp(META))

  lemma BothSpawnNext()
    ensures BothSpawn(Forking(SPAWN_OP, None, SPAWN_OP), FORKED, 0, 1) && CanStep(FORKED, 0) && CanStep(FORKED, 1)
    ensures IsEnabled(SPAWN_POSTED.pool, 0) && AllPosted(SPAWN_POSTED.pool) && 0 in SPAWN_POSTED.pool.tasks
    ensures !Apart(Forking(SPAWN_OP, None, SPAWN_OP), Grant(SPAWN_POSTED, 0))
  {
    assert Grant(SPAWN_POSTED, 0).phases == [Granted(0, SPAWN), Reserved];
  }

  /** The sections of the two threads do not commute, and the round has two different ends. */
  lemma TwoSpawners() returns (es: seq<Event>, s: Run<int, int>)
    ensures var P := Forking(SPAWN_OP, None, SPAWN_OP);
            && RunTo(P, Driven([0]), es, s) && CanStep(s.core, 0) && CanStep(s.core, 1)
            && CanStep(Step(P, s.core, 0), 1) && CanStep(Step(P, s.core, 1), 0)
            && Step(P, Step(P, s.core, 0), 1) != Step(P, Step(P, s.core, 1), 0)
  {
    es, s := Fork(SPAWN_OP, None, SPAWN_OP, Driven([0]));
    BothSpawnNext();
    RunsKeepInv(Forking(SPAWN_OP, None, SPAWN_OP), Driven([0]), es);
    StepsCommute(Forking(SPAWN_OP, None, SPAWN_OP), FORKED, 0, 1);
  }

  lemma TwoEnds() returns (es: seq<Event>, s: Run<int, int>)
    ensures RunTo(Forking(SPAWN_OP, None, SPAWN_OP), Driven([0]), es, s)
    ensures AllPosted(s.core.pool) && IsEnabled(s.core.pool, 0) && s.core.pool.tasks == map[0 := SPAWN]
    ensures !Confluent(Forking(SPAWN_OP, None, SPAWN_OP), Grant(s.core, 0))
  {
    var P := Forking(SPAWN_OP, None, SPAWN_OP);
    SpawnIsAnnounced(SPAWN_OP, None, SPAWN_OP);
    es, s := Announce(P, Driven([0]), [], Start(P), 0, SPAWN_POSTED);
    RunsKeepInv(P, Driven([0]), es);
    BothSpawnNext();
    GrantKeepsInv(SPAWN_POSTED, 0);
    RoundIsConfluent(P, Grant(SPAWN_POSTED, 0));
  }

  // Two stores race.

  const STORE_OP := Some(MemoryOp(Store, 5, false, META))

  function StoreOf(t: Tid): Instruction { MemoryInstruction(t, Store, 5, false, META) }

  const STORE_POSTED: Core<int, int> :=
    Two(map[0 := StoreOf(0)], SPAWN, ENABLED, START, map[5 := ObjectView(map[], map[0 := StoreOf(0)], 0)], map[],
        [Waiting(1, StoreOf(0)), Running(10)], map[])
  const STORES_POSTED: Core<int, int> :=
    Two(map[0 := StoreOf(0), 1 := StoreOf(1)], SPAWN, ENABLED, ENABLED,
        map[5 := ObjectView(map[], map[0 := StoreOf(0), 1 := StoreOf(1)], 0)], map[],
        [Waiting(1, StoreOf(0)), Waiting(10, StoreOf(1))], map[])

  lemma StoreIsAnnounced()
    ensures Announces(Forking(STORE_OP, None, STORE_OP), FORKED, 0, STORE_POSTED)
  {
    assert Post(FORKED.pool, 0, StoreOf(0)) == STORE_POSTED.pool;
  }

  lemma OtherStoreIsAnnounced()
    ensures Announces(Forking(STORE_OP, None, STORE_OP), STORE_POSTED, 1, STORES_POSTED)
  {
    assert Post(STORE_POSTED.pool, 1, StoreOf(1)) == STORES_POSTED.pool;
  }

  /** Two stores to one address are pending together, and the list stays empty. */
  lemma LostRace() returns (es: seq<Event>)
    ensures var P := Forking(STORE_OP, None, STORE_OP);
            && IsRun(P, Driven([0]), es) && Raced(P, Driven([0]), es, StoreOf(0), StoreOf(1))
            && RecordedRaces(P, Driven([0]), OnVariant, es) == multiset{}
            && !ListIsRight(P, Driven([0]), OnVariant, es)
  {
    var (P, cfg) := (Forking(STORE_OP, None, STORE_OP), Driven([0]));
    var s1, s2, s3;
    es, s1 := Fork(STORE_OP, None, STORE_OP, cfg);
    StoreIsAnnounced();
    es, s2 := Announce(P, cfg, es, s1, 0, STORE_POSTED);
    OtherStoreIsAnnounced();
    es, s3 := Announce(P, cfg, es, s2, 1, STORES_POSTED);
    RaceIsLost(P, cfg, es, 0, 1, StoreOf(0), StoreOf(1));
  }

  lemma RaceIsLost<L, M>(P: Program<L, M>, cfg: Config, es: seq<Event>, t: Tid, u: Tid, i: Instruction, j: Instruction)
    requires IsRun(P, cfg, es) && t != u && i.ConflictsWith(j)
    requires var p := After(P, cfg, es).core.pool;
             t in p.tasks && u in p.tasks && p.tasks[t] == i && p.tasks[u] == j
    ensures Raced(P, cfg, es, i, j) && RecordedRaces(P, cfg, OnVariant, es) == multiset{}
    ensures !ListIsRight(P, cfg, OnVariant, es)
  {
    assert PendingRace(After(P, cfg, es).core.pool, i, j);
    RacedIffFormed(P, cfg, es, i, j);
    VariantRecordsNothing(P, cfg, es);
    assert RecordedRaces(P, cfg, OnVariant, es)[(i, j)] == 0 && RecordedRaces(P, cfg, OnVariant, es)[(j, i)] == 0;
  }

  // A Lock disables a pending Unlock.

  const LOCK_OP := Some(LockOp(Lock, 7, META))
  const UNLOCK_OP := Some(LockOp(Unlock, 7, META))
  const UNLOCK := LockInstruction(1, Unlock, 7, META)

  const LOCK_WAITS: Core<int, int> :=
    Two(map[0 := LOCK], SPAWN, ENABLED, START, map[7 := ObjectView(map[], map[0 := LOCK], 0)], map[],
        [Waiting(1, LOCK), Running(10)], map[])
  const BOTH_WAIT: Core<int, int> :=
    Two(map[0 := LOCK, 1 := UNLOCK], SPAWN, ENABLED, ENABLED, map[7 := ObjectView(map[1 := UNLOCK], map[0 := LOCK], 0)],
        map[], [Waiting(1, LOCK), Waiting(10, UNLOCK)], map[])
  const LOCK_EXECUTED: Core<int, int> :=
    Two(map[1 := UNLOCK], LOCK, ENABLED, ENABLED, map[7 := ObjectView(map[1 := UNLOCK], map[0 := LOCK], 0)],
        map[], [Running(2), Waiting(10, UNLOCK)], map[7 := 0])
  const UNLOCK_DISABLED: Core<int, int> :=
    Two(map[1 := UNLOCK], LOCK, FINISHED, DISABLED, map[7 := ObjectView(map[1 := UNLOCK], map[], 1)],
        map[], [Finished, Waiting(10, UNLOCK)], map[7 := 0])

  lemma LockWaits()
    ensures Announces(Forking(LOCK_OP, None, UNLOCK_OP), FORKED, 0, LOCK_WAITS)
  {
    assert Post(FORKED.pool, 0, LOCK) == LOCK_WAITS.pool;
  }

  lemma UnlockWaits()
    ensures Announces(Forking(LOCK_OP, None, UNLOCK_OP), LOCK_WAITS, 1, BOTH_WAIT)
  {
    assert Post(LOCK_WAITS.pool, 1, UNLOCK) == BOTH_WAIT.pool;
  }

  lemma LockIsExecuted()
    ensures TakesTurn(Forking(LOCK_OP, None, UNLOCK_OP), BOTH_WAIT, 0, LOCK_EXECUTED)
  {
    assert SetCurrent(BOTH_WAIT.pool, 0) == LOCK_EXECUTED.pool;
  }

  const LOCK_YIELDED := Pool(map[1 := UNLOCK], Some(LOCK), map[0 := ENABLED, 1 := DISABLED],
                             map[7 := ObjectView(map[1 := UNLOCK], map[], 1)], map[0 := map[], 1 := map[]])

  lemma LockIsYielded()
    ensures Yield(LOCK_EXECUTED.pool, 0) == LOCK_YIELDED
  {
    assert ObjectAt(LOCK_EXECUTED.pool, 7).Performed(0) == ObjectView(map[1 := UNLOCK], map[], 1);
  }

  lemma LockerEnds()
    ensures Ends(Forking(LOCK_OP, None, UNLOCK_OP), LOCK_EXECUTED, 0, UNLOCK_DISABLED)
  {
    LockIsYielded();
    assert Finish(LOCK_YIELDED, 0) == UNLOCK_DISABLED.pool;
  }

  lemma UnlockIsDeadlocked()
    ensures Deadlocked(UNLOCK_DISABLED) && !Blocks(UNLOCK_DISABLED, UNLOCK)
  {
    var p := UNLOCK_DISABLED.pool;
    assert forall t | t in p.threads :: t == 0 || t == 1;
    assert 1 in p.tasks;
  }

  lemma LockAndUnlockWait(cfg: Config) returns (es: seq<Event>, s: Run<int, int>)
    requires cfg.schedule == [0, 0]
    ensures RunTo(Forking(LOCK_OP, None, UNLOCK_OP), cfg, es, s) && s.core == BOTH_WAIT && s.taskNr == 1
            && s.status == RUNNING
  {
    var P := Forking(LOCK_OP, None, UNLOCK_OP);
    var s1, s2;
    es, s1 := Fork(LOCK_OP, None, UNLOCK_OP, cfg);
    LockWaits();
    es, s2 := Announce(P, cfg, es, s1, 0, LOCK_WAITS);
    UnlockWaits();
    es, s := Announce(P, cfg, es, s2, 1, BOTH_WAIT);
  }

  /** A thread that waits for its turn to unlock a mutex for another one is disabled by the Lock it is to
      release, and a deadlock is reported although the Unlock would not block. */
  lemma UnlockByOther() returns (es: seq<Event>, s: Run<int, int>)
    ensures RunTo(Forking(LOCK_OP, None, UNLOCK_OP), Driven([0, 0]), es, s) && s.status == RUNNING
    ensures Deadlocked(s.core) && s.core.pool.tasks == map[1 := UNLOCK] && !Blocks(s.core, UNLOCK)
  {
    var P := Forking(LOCK_OP, None, UNLOCK_OP);
    var s1, s2;
    es, s1 := LockAndUnlockWait(Driven([0, 0]));
    LockIsExecuted();
    es, s2 := TakeTurn(P, Driven([0, 0]), es, s1, 0, LOCK_EXECUTED);
    LockerEnds();
    es, s := End(P, Driven([0, 0]), es, s2, 0, UNLOCK_DISABLED);
    UnlockIsDeadlocked();
  }
}
