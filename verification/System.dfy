/** A controlled program: threads that announce each visible instruction and wait for their turn. */
module System {
  import opened Instructions
  import opened PoolSpec

  /** What a thread is about to do next, before it knows the identifiers involved. */
  datatype Op =
    | MemoryOp(memoryOp: MemoryOperation, obj: Addr, isAtomic: bool, meta: MetaData)
    | LockOp(lockOp: LockOperation, obj: Addr, meta: MetaData)
    | SpawnOp(meta: MetaData)
    | JoinOp(target: Tid, meta: MetaData)

  /** A deterministic program. `next` is the visible instruction a thread with that local state
      reaches, None when it returns from its outermost function; `effect` and `local` execute that
      instruction together with the thread-local code up to the following one; a spawned thread
      starts in the local state `child`. `mutexes` says which addresses the program uses as mutexes. */
  datatype Program<!L, !M> = Program(
    start: L,
    memory: M,
    next: L -> Option<Op>,
    local: (L, M, Tid) -> L,
    effect: (L, M) -> M,
    child: L -> L,
    mutexes: Addr -> bool)

  /** Where a thread is between two of its turns. */
  datatype Phase<L> =
    | Reserved                                     // identifier taken, thread not created yet
    | Unregistered(l: L)                           // created, waits until it is registered
    | Running(l: L)                                // executes up to its next visible instruction
    | Ready(l: L, task: Option<Instruction>)       // instruction created, or about to return
    | Yielded(l: L, task: Option<Instruction>)     // has yielded the previous instruction
    | Waiting(l: L, posted: Instruction)           // has posted: waits for its turn, unless its post threw
    | Granted(l: L, posted: Instruction)           // its turn: executes the posted instruction, unless its post threw
    | Registering(l: L, childTid: Tid)             // has created a thread, must register it
    | Finished
  {
    predicate IsRegistered() { !Reserved? && !Unregistered? }
    predicate Outstanding() { !Reserved? && !Waiting? && !Finished? }
    function Instr(): Option<Instruction> {
      match this
      case Ready(_, t) => t
      case Yielded(_, t) => t
      case Waiting(_, j) => Some(j)
      case Granted(_, j) => Some(j)
      case _ => None
    }
  }

  /** phases: every thread whose identifier has been taken, by identifier; owners: who really holds
      which mutex; thrown: the threads whose post threw. Such a thread has left its instruction in the pool
      and takes no further step. */
  datatype Core<L, M> = Core(
    pool: Pool,
    phases: seq<Phase<L>>,
    memory: M,
    owners: map<Addr, Tid>,
    thrown: set<Tid>)

  /** The state right after the main thread has been registered. */
  function Initial<L, M>(P: Program<L, M>): Core<L, M> {
    Core(Register(EMPTY_POOL, 0), [Running(P.start)], P.memory, map[], {})
  }

  /** The instruction object a thread creates; a Spawn takes a fresh identifier. */
  function Created<L, M>(P: Program<L, M>, c: Core<L, M>, t: Tid, l: L): Option<Instruction> {
    match P.next(l)
    case None => None
    case Some(MemoryOp(op, x, a, meta)) => Some(MemoryInstruction(t, op, x, a, meta))
    case Some(LockOp(op, x, meta)) => Some(LockInstruction(t, op, x, meta))
    case Some(SpawnOp(meta)) => Some(ThreadInstruction(t, Spawn, Thread(|c.phases|, START), meta))
    case Some(JoinOp(u, meta)) => Some(ThreadInstruction(t, Join, Thread(u, START), meta))
  }

  predicate NextIsSpawn<L, M>(P: Program<L, M>, l: L) { P.next(l).Some? && P.next(l).value.SpawnOp? }

  predicate InRange<L, M>(c: Core<L, M>, t: Tid) { 0 <= t < |c.phases| }

  /** A real lock on a mutex that is held, and a real join of a thread that runs, block. */
  predicate Blocks<L, M>(c: Core<L, M>, i: Instruction) {
    || (i.IsLock() && i.obj in c.owners)
    || (i.IsJoin() && !(InRange(c, i.operand.tid) && c.phases[i.operand.tid].Finished?))
  }

  /** Only a registered thread can be joined. */
  predicate CanPost(p: Pool, i: Instruction) {
    i.IsJoin() ==> i.operand.tid in p.joins
  }

  predicate CanStep<L, M>(c: Core<L, M>, t: Tid) {
    && InRange(c, t)
    && match c.phases[t]
       case Granted(_, i) => !Blocks(c, i) && t !in c.thrown
       case Registering(_, k) => InRange(c, k) && k != t
       case Running(_) => true
       case Ready(_, _) => true
       case Yielded(_, i) => i.Some? ==> CanPost(c.pool, i.value)
       case _ => false
  }

  function RealOwners(owners: map<Addr, Tid>, i: Instruction): map<Addr, Tid> {
    if !i.LockInstruction? then owners
    else if i.lockOp == Lock then owners[i.obj := i.tid]
    else owners - {i.obj}
  }

  /** The granted instruction is really executed. */
  function Execute<L, M>(P: Program<L, M>, c: Core<L, M>, t: Tid): Core<L, M>
    requires InRange(c, t) && c.phases[t].Granted?
  {
    var (l, i) := (c.phases[t].l, c.phases[t].posted);
    var c' := c.(memory := P.effect(l, c.memory), owners := RealOwners(c.owners, i));
    if i.IsSpawn() && InRange(c, i.operand.tid) && i.operand.tid != t then
      var k := i.operand.tid;
      c'.(phases := c.phases[k := Unregistered(P.child(l))][t := Registering(P.local(l, c.memory, k), k)])
    else
      c'.(phases := c.phases[t := Running(P.local(l, c.memory, -1))])
  }

  /** The next critical section of thread t. */
  function Step<L, M>(P: Program<L, M>, c: Core<L, M>, t: Tid): Core<L, M>
    requires CanStep(c, t)
  {
    match c.phases[t]
    case Granted(_, _) => Execute(P, c, t)
    case Registering(l, k) =>
      var child := if c.phases[k].Unregistered? then Running(c.phases[k].l) else c.phases[k];
      c.(pool := Register(c.pool, k), phases := c.phases[k := child][t := Running(l)])
    case Running(l) =>
      var task := Created(P, c, t, l);
      c.(phases := c.phases[t := Ready(l, task)] + if NextIsSpawn(P, l) then [Reserved] else [])
    case Ready(l, task) =>
      c.(pool := Yield(c.pool, t), phases := c.phases[t := Yielded(l, task)])
    case Yielded(l, Some(i)) =>
      c.(pool := Posted(c.pool, t, i), phases := c.phases[t := Waiting(l, i)],
         thrown := if PostThrows(c.pool, i) then c.thrown + {t} else c.thrown)
    case Yielded(_, None) =>
      c.(pool := Finish(c.pool, t), phases := c.phases[t := Finished])
  }
}
