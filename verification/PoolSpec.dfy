/** The task pool as a value, and what each of its critical sections makes of it. */
module PoolSpec {
  import opened Instructions

  /** What is known of one memory location or mutex: the two waitsets, selected by the parity of the
      operation code, and the parity of the last operation performed. */
  datatype ObjectView = ObjectView(waiting0: map<Tid, Instruction>, waiting1: map<Tid, Instruction>, current: nat)
  {
    function Waiting(i: nat): map<Tid, Instruction> { if i == 0 then waiting0 else waiting1 }

    predicate Locked() { current == 1 }

    predicate RequestThrows(instr: Instruction) {
      instr.tid in Waiting(instr.OperationAsInt() % 2)
    }

    function Requested(instr: Instruction): ObjectView {
      if instr.OperationAsInt() % 2 == 0
      then this.(waiting0 := waiting0[instr.tid := instr])
      else this.(waiting1 := waiting1[instr.tid := instr])
    }

    /** The answer of a request that does not throw. */
    predicate Admits(instr: Instruction) {
      !(instr.IsLock() && Locked())
    }

    predicate PerformThrows(tid: Tid) { tid !in waiting0 && tid !in waiting1 }

    function Performed(tid: Tid): ObjectView {
      if tid in waiting0 then ObjectView(waiting0 - {tid}, waiting1, 0)
      else if tid in waiting1 then ObjectView(waiting0, waiting1 - {tid}, 1)
      else this
    }
  }

  const NEW_OBJECT := ObjectView(map[], map[], 0)

  /** tasks: the posted instructions; current: the one last handed out; threads: the status of every
      registered thread; joins: for every registered thread the join requests ever made for it. */
  datatype Pool = Pool(
    tasks: map<Tid, Instruction>,
    current: Option<Instruction>,
    threads: map<Tid, ThreadStatus>,
    objects: map<Addr, ObjectView>,
    joins: map<Tid, map<Tid, Instruction>>)

  const EMPTY_POOL := Pool(map[], None, map[], map[], map[])

  function ObjectAt(p: Pool, x: Addr): ObjectView {
    if x in p.objects then p.objects[x] else NEW_OBJECT
  }

  function JoinersOf(p: Pool, u: Tid): map<Tid, Instruction> {
    if u in p.joins then p.joins[u] else map[]
  }

  function WithStatus(threads: map<Tid, ThreadStatus>, ts: set<Tid>, status: ThreadStatus): map<Tid, ThreadStatus> {
    map t | t in threads :: if t in ts then status else threads[t]
  }

  function Register(p: Pool, tid: Tid): Pool {
    p.(threads := if tid in p.threads then p.threads else p.threads[tid := START],
       joins := if tid in p.joins then p.joins else p.joins[tid := map[]])
  }

  function AsStatus(enabled: bool): ThreadStatus { if enabled then ENABLED else DISABLED }

  /** A request of a thread that is already in the waitset is refused with an exception. */
  predicate PostThrows(p: Pool, task: Instruction) {
    if task.OnObject() then ObjectAt(p, task.obj).RequestThrows(task)
    else task.IsJoin() && task.tid in JoinersOf(p, task.operand.tid)
  }

  /** The status a posting thread gets. */
  predicate EnabledAtPost(p: Pool, task: Instruction) {
    if task.OnObject() then ObjectAt(p, task.obj).Admits(task)
    else task.IsJoin() ==> task.operand.tid in p.threads && p.threads[task.operand.tid] == FINISHED
  }

  /** The objects after a request, which creates the object if need be. */
  function RequestOn(objects: map<Addr, ObjectView>, task: Instruction): map<Addr, ObjectView> {
    if !task.OnObject() then objects
    else if task.obj in objects then objects[task.obj := objects[task.obj].Requested(task)]
    else objects[task.obj := NEW_OBJECT.Requested(task)]
  }

  /** The join requests after a request. */
  function RequestJoin(joins: map<Tid, map<Tid, Instruction>>, task: Instruction): map<Tid, map<Tid, Instruction>> {
    if task.IsJoin() && task.operand.tid in joins
    then joins[task.operand.tid := joins[task.operand.tid][task.tid := task]] else joins
  }

  function Post(p: Pool, tid: Tid, task: Instruction): Pool {
    p.(tasks := p.tasks[tid := task],
       objects := RequestOn(p.objects, task),
       joins := RequestJoin(p.joins, task),
       threads := p.threads[tid := AsStatus(EnabledAtPost(p, task))])
  }

  /** What is left behind by a post that throws: the task, and the object if it was new. */
  function PostThrown(p: Pool, tid: Tid, task: Instruction): Pool {
    p.(tasks := p.tasks[tid := task],
       objects := if task.OnObject() then p.objects[task.obj := ObjectAt(p, task.obj)] else p.objects)
  }

  /** The post of a task, whether it throws or not. */
  function Posted(p: Pool, tid: Tid, task: Instruction): Pool {
    if PostThrows(p, task) then PostThrown(p, tid, task) else Post(p, tid, task)
  }

  function UpdateObjectYield(p: Pool, task: Instruction): Pool {
    if task.OnObject() then
      var o := ObjectAt(p, task.obj).Performed(task.tid);
      p.(objects := p.objects[task.obj := o],
         threads := if task.LockInstruction?
                    then WithStatus(p.threads, o.waiting0.Keys + o.waiting1.Keys, AsStatus(task.lockOp == Unlock))
                    else p.threads)
    else p
  }

  function Yield(p: Pool, tid: Tid): Pool {
    if p.current.Some? && p.current.value.tid == tid then UpdateObjectYield(p, p.current.value) else p
  }

  function Finish(p: Pool, tid: Tid): Pool {
    p.(threads := WithStatus(p.threads, JoinersOf(p, tid).Keys, ENABLED)[tid := FINISHED])
  }

  function SetCurrent(p: Pool, tid: Tid): Pool
    requires tid in p.tasks
  {
    p.(current := Some(p.tasks[tid]), tasks := p.tasks - {tid})
  }

  /** The condition the scheduler waits for before it records a state. */
  predicate AllPosted(p: Pool) {
    forall t | t in p.threads :: p.threads[t] == FINISHED || t in p.tasks
  }

  function EnabledSet(p: Pool): set<Tid> {
    set t | t in p.threads && p.threads[t] == ENABLED
  }

  datatype Next = Next(instr: Instruction, enabled: bool)
  datatype State = State(enabled: set<Tid>, next: map<Tid, Next>)

  predicate IsEnabled(p: Pool, t: Tid) { t in p.threads && p.threads[t] == ENABLED }

  /** The program state as it is recorded: the posted instructions and which of them may run. */
  function ProgramState(p: Pool): State {
    State(set t | t in p.tasks && IsEnabled(p, t),
          map t | t in p.tasks :: Next(p.tasks[t], IsEnabled(p, t)))
  }

  /** An instruction that was waiting and the one posted later. */
  type Race = (Instruction, Instruction)

  /** The data races a posted memory instruction forms with the waiting ones: a writer is compared with
      the waiting readers, everyone with the waiting writers, and two atomic operations do not race. */
  function DataRaces(o: ObjectView, instr: Instruction): set<Race>
    requires instr.MemoryInstruction?
  {
    (if instr.Writes() then RacesAmong(o.waiting0, instr) else {}) + RacesAmong(o.waiting1, instr)
  }

  function RacesAmong(waiting: map<Tid, Instruction>, instr: Instruction): set<Race>
    requires instr.MemoryInstruction?
  {
    set t | t in waiting && waiting[t].MemoryInstruction? && !(waiting[t].isAtomic && instr.isAtomic) ::
        (waiting[t], instr)
  }

  /** What the visitor asserts of the instructions waiting on an object: an address is not mixed with a mutex. */
  predicate OnlyMemory(o: ObjectView) {
    && (forall t | t in o.waiting0 :: var w := o.waiting0[t]; w.MemoryInstruction? && w.tid == t && !w.Writes())
    && (forall t | t in o.waiting1 :: var w := o.waiting1[t]; w.MemoryInstruction? && w.tid == t && w.Writes())
  }

  /** How the visitor is called: on the variant, which selects its default, or on the alternative. */
  datatype Dispatch = OnVariant | OnAlternative

  /** The races added to the list when the task is posted. */
  function RacesAtPost(dispatch: Dispatch, p: Pool, task: Instruction): set<Race> {
    if dispatch == OnAlternative && task.MemoryInstruction? then DataRaces(ObjectAt(p, task.obj), task) else {}
  }
}
