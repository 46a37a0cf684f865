/** The instructions a controlled program announces before it executes them. */
module Instructions {

  datatype Option<+T> = None | Some(value: T)

  type Tid = int
  type Addr = nat

  datatype MetaData = MetaData(fileName: string, lineNumber: nat)

  datatype MemoryOperation = Load | Store | ReadModifyWrite
  datatype LockOperation = Lock | Unlock
  datatype ThreadOperation = Spawn | Join

  datatype ThreadStatus = START | ENABLED | DISABLED | FINISHED

  /** A thread as it occurs as an operand: the status is the one at creation of the operand. */
  datatype Thread = Thread(tid: Tid, status: ThreadStatus)

  datatype Instruction =
    | MemoryInstruction(tid: Tid, memoryOp: MemoryOperation, obj: Addr, isAtomic: bool, meta: MetaData)
    | LockInstruction(tid: Tid, lockOp: LockOperation, obj: Addr, meta: MetaData)
    | ThreadInstruction(tid: Tid, threadOp: ThreadOperation, operand: Thread, meta: MetaData)
  {
    /** The operation codes of the three enumerations, which share one numbering. */
    function OperationAsInt(): nat {
      match this
      case MemoryInstruction(_, op, _, _, _) =>
        (match op case Load => 0 case Store => 1 case ReadModifyWrite => 5)
      case LockInstruction(_, op, _, _) =>
        (match op case Lock => 3 case Unlock => 2)
      case ThreadInstruction(_, op, _, _) =>
        (match op case Spawn => 6 case Join => 7)
    }

    /** The operand is a memory location or a mutex, not a thread. */
    predicate OnObject() { !ThreadInstruction? }

    predicate IsLock() { LockInstruction? && lockOp == Lock }
    predicate IsUnlock() { LockInstruction? && lockOp == Unlock }
    predicate IsJoin() { ThreadInstruction? && threadOp == Join }
    predicate IsSpawn() { ThreadInstruction? && threadOp == Spawn }
    predicate Spawns(k: Tid) { IsSpawn() && operand.tid == k }
    predicate Joins(u: Tid) { IsJoin() && operand.tid == u }

    predicate Writes() { MemoryInstruction? && memoryOp != Load }

    /** Both access one memory location, one of them writes and not both are atomic. */
    predicate ConflictsWith(other: Instruction) {
      && MemoryInstruction? && other.MemoryInstruction?
      && obj == other.obj
      && (Writes() || other.Writes())
      && !(isAtomic && other.isAtomic)
    }
  }
}
