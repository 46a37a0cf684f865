/** What every step keeps of a program that uses its mutexes and joins as intended: the status the pool
    keeps for a thread, patched at post, yield and finish, is whether its instruction can really run. */
module Discipline {
  import opened Instructions
  import opened PoolSpec
  import opened System
  import opened Base

  /** What is assumed of a program when it reaches a visible instruction: an address is used only as a
      mutex or only as memory, a mutex is unlocked by its holder, and a registered thread is joined at
      most once by the same thread. */
  predicate MayCreate<L, M>(P: Program<L, M>, c: Core<L, M>, t: Tid, l: L) {
    match P.next(l)
    case None => true
    case Some(MemoryOp(_, x, _, _)) => !P.mutexes(x)
    case Some(LockOp(op, x, _)) => P.mutexes(x) && (op == Unlock ==> x in c.owners && c.owners[x] == t)
    case Some(SpawnOp(_)) => true
    case Some(JoinOp(u, _)) => u in c.pool.threads && t !in JoinersOf(c.pool, u)
  }

  predicate Disciplined<L, M>(P: Program<L, M>, c: Core<L, M>, t: Tid) {
    InRange(c, t) && c.phases[t].Running? ==> MayCreate(P, c, t, c.phases[t].l)
  }

  /** The thread whose turn it is has really executed its instruction, but the pool does not know yet. */
  predicate Executed<L, M>(c: Core<L, M>) {
    && Unyielded(c)
    && !c.phases[c.pool.current.value.tid].Granted?
  }

  /** The status fits what the pool knows of mutexes and finished threads. */
  predicate StatusAt<L, M>(c: Core<L, M>, t: Tid) {
    t in c.pool.tasks ==>
      t in c.pool.threads && c.pool.threads[t] == AsStatus(EnabledAtPost(c.pool, c.pool.tasks[t]))
  }

  ghost predicate StatusesFit<L, M>(c: Core<L, M>) {
    forall t: Tid :: StatusAt(c, t)
  }

  predicate Typed<L, M>(P: Program<L, M>, i: Instruction) {
    && (i.MemoryInstruction? ==> !P.mutexes(i.obj))
    && (i.LockInstruction? ==> P.mutexes(i.obj))
  }

  /** What is known of an instruction a thread has created and not executed yet; no post has thrown. */
  predicate IntendedAt<L, M>(P: Program<L, M>, c: Core<L, M>, t: Tid) {
    && t !in c.thrown
    && (InRange(c, t) && c.phases[t].Instr().Some? ==>
          var i := c.phases[t].Instr().value;
          && Typed(P, i)
          && (i.IsUnlock() ==> i.obj in c.owners && c.owners[i.obj] == t)
          && (i.IsJoin() ==>
                && i.operand.tid in c.pool.threads
                && (t in JoinersOf(c.pool, i.operand.tid) <==> c.phases[t].Waiting? || c.phases[t].Granted?))
          && (c.phases[t].Granted? ==> !Blocks(c, i)))
  }

  ghost predicate IntentionsFit<L, M>(P: Program<L, M>, c: Core<L, M>) {
    && (c.pool.current.Some? ==> Typed(P, c.pool.current.value))
    && (forall t: Tid :: IntendedAt(P, c, t))
  }

  /** The pool's bit of a mutex is the real state of the mutex, seen when the last holder yielded. */
  predicate MutexAt<L, M>(P: Program<L, M>, c: Core<L, M>, x: Addr) {
    && (x in c.owners ==> P.mutexes(x) && InRange(c, c.owners[x]) && c.phases[c.owners[x]].IsRegistered())
    && (P.mutexes(x) ==>
          if Executed(c) && c.pool.current.value.LockInstruction? && c.pool.current.value.obj == x then
            && (ObjectAt(c.pool, x).Locked() <==> c.pool.current.value.lockOp == Unlock)
            && (x in c.owners <==> c.pool.current.value.lockOp == Lock)
            && (x in c.owners ==> c.owners[x] == c.pool.current.value.tid)
          else
            ObjectAt(c.pool, x).Locked() <==> x in c.owners)
  }

  ghost predicate MutexesFit<L, M>(P: Program<L, M>, c: Core<L, M>) {
    forall x: Addr :: MutexAt(P, c, x)
  }

  ghost predicate Strict<L, M>(P: Program<L, M>, c: Core<L, M>) {
    && Inv(c)
    && StatusesFit(c)
    && IntentionsFit(P, c)
    && MutexesFit(P, c)
  }

  lemma InitialStrict<L, M>(P: Program<L, M>)
    ensures Strict(P, Initial(P))
  {
    InitialInv(P);
  }

  // One lemma for each clause and each kind of critical section.

  lemma ExecuteKeepsStatuses<L, M>(P: Program<L, M>, c: Core<L, M>, t: Tid)
    requires Strict(P, c) && CanStep(c, t) && c.phases[t].Granted?
    ensures StatusesFit(Step(P, c, t)) && MutexesFit(P, Step(P, c, t))
  {
    var d := Step(P, c, t);
    assert IntendedAt(P, c, t) && CarriedAt(c, t) && TurnAt(c, t) && ThreadAt(c, t);
    forall u: Tid ensures StatusAt(d, u) { assert StatusAt(c, u) && ThreadAt(c, u); }
    forall x: Addr ensures MutexAt(P, d, x) { assert MutexAt(P, c, x); }
  }

  lemma ExecuteKeepsIntentions<L, M>(P: Program<L, M>, c: Core<L, M>, t: Tid)
    requires Strict(P, c) && CanStep(c, t) && c.phases[t].Granted?
    ensures IntentionsFit(P, Step(P, c, t))
  {
    var d := Step(P, c, t);
    assert IntendedAt(P, c, t) && CarriedAt(c, t) && TurnAt(c, t) && ThreadAt(c, t);
    forall u: Tid ensures IntendedAt(P, d, u) { assert IntendedAt(P, c, u) && TurnAt(c, u) && ThreadAt(c, u); }
  }

  lemma RegisterKeepsStatuses<L, M>(P: Program<L, M>, c: Core<L, M>, t: Tid)
    requires Strict(P, c) && CanStep(c, t) && c.phases[t].Registering?
    ensures StatusesFit(Step(P, c, t)) && MutexesFit(P, Step(P, c, t))
  {
    var d := Step(P, c, t);
    assert IntendedAt(P, c, t) && CarriedAt(c, t) && TurnAt(c, t) && ThreadAt(c, t);
    forall u: Tid ensures StatusAt(d, u) { assert StatusAt(c, u) && ThreadAt(c, u); }
    forall x: Addr ensures MutexAt(P, d, x) { assert MutexAt(P, c, x); }
  }

  lemma RegisterKeepsIntentions<L, M>(P: Program<L, M>, c: Core<L, M>, t: Tid)
    requires Strict(P, c) && CanStep(c, t) && c.phases[t].Registering?
    ensures IntentionsFit(P, Step(P, c, t))
  {
    var d := Step(P, c, t);
    assert IntendedAt(P, c, t) && CarriedAt(c, t) && TurnAt(c, t) && ThreadAt(c, t);
    forall u: Tid ensures IntendedAt(P, d, u) { assert IntendedAt(P, c, u) && TurnAt(c, u) && ThreadAt(c, u); }
  }

  lemma CreateKeepsStatuses<L, M>(P: Program<L, M>, c: Core<L, M>, t: Tid)
    requires Strict(P, c) && CanStep(c, t) && c.phases[t].Running?
    ensures StatusesFit(Step(P, c, t)) && MutexesFit(P, Step(P, c, t))
  {
    var d := Step(P, c, t);
    assert IntendedAt(P, c, t) && CarriedAt(c, t) && TurnAt(c, t) && ThreadAt(c, t);
    forall u: Tid ensures StatusAt(d, u) { assert StatusAt(c, u) && ThreadAt(c, u); }
    forall x: Addr ensures MutexAt(P, d, x) { assert MutexAt(P, c, x); }
  }

  lemma CreateKeepsIntentions<L, M>(P: Program<L, M>, c: Core<L, M>, t: Tid)
    requires Strict(P, c) && CanStep(c, t) && c.phases[t].Running? && Disciplined(P, c, t)
    ensures IntentionsFit(P, Step(P, c, t))
  {
    var d := Step(P, c, t);
    assert IntendedAt(P, c, t) && CarriedAt(c, t) && TurnAt(c, t) && ThreadAt(c, t);
    forall u: Tid ensures IntendedAt(P, d, u) { assert IntendedAt(P, c, u) && TurnAt(c, u) && ThreadAt(c, u); }
  }

  lemma YieldKeepsStatuses<L, M>(P: Program<L, M>, c: Core<L, M>, t: Tid)
    requires Strict(P, c) && CanStep(c, t) && c.phases[t].Ready?
    ensures StatusesFit(Step(P, c, t))
  {
    var d := Step(P, c, t);
    assert IntendedAt(P, c, t) && CarriedAt(c, t) && TurnAt(c, t) && ThreadAt(c, t);
    forall u: Tid ensures StatusAt(d, u) {
      assert StatusAt(c, u) && ThreadAt(c, u) && IntendedAt(P, c, u);
      if Unyielded(c) && c.pool.current.value.OnObject() {
        var x := c.pool.current.value.obj;
        assert IndexedAt(c, x, u) && IndexedAt(c, x, t) && MutexAt(P, c, x);
        if u in c.pool.tasks && c.pool.tasks[u].IsJoin() {
          var v := c.pool.tasks[u].operand.tid;
          assert ThreadAt(c, v) && IndexedAt(c, x, v);
        }
      }
    }
  }

  lemma YieldKeepsMutexes<L, M>(P: Program<L, M>, c: Core<L, M>, t: Tid)
    requires Strict(P, c) && CanStep(c, t) && c.phases[t].Ready?
    ensures MutexesFit(P, Step(P, c, t))
  {
    var d := Step(P, c, t);
    assert CarriedAt(c, t) && TurnAt(c, t) && ThreadAt(c, t);
    forall x: Addr ensures MutexAt(P, d, x) { assert MutexAt(P, c, x) && IndexedAt(c, x, t); }
  }

  lemma YieldKeepsIntentions<L, M>(P: Program<L, M>, c: Core<L, M>, t: Tid)
    requires Strict(P, c) && CanStep(c, t) && c.phases[t].Ready?
    ensures IntentionsFit(P, Step(P, c, t))
  {
    var d := Step(P, c, t);
    assert IntendedAt(P, c, t) && CarriedAt(c, t) && TurnAt(c, t) && ThreadAt(c, t);
    forall u: Tid ensures IntendedAt(P, d, u) { assert IntendedAt(P, c, u) && TurnAt(c, u) && ThreadAt(c, u); }
  }

  lemma PostKeepsStatuses<L, M>(P: Program<L, M>, c: Core<L, M>, t: Tid)
    requires Strict(P, c) && CanStep(c, t) && c.phases[t].Yielded? && c.phases[t].task.Some?
    ensures StatusesFit(Step(P, c, t))
  {
    var d := Step(P, c, t);
    OnlySecondJoinThrows(c, t);
    assert IntendedAt(P, c, t) && CarriedAt(c, t) && TurnAt(c, t) && ThreadAt(c, t);
    forall u: Tid ensures StatusAt(d, u) { assert StatusAt(c, u) && ThreadAt(c, u); }
  }

  lemma PostKeepsMutexes<L, M>(P: Program<L, M>, c: Core<L, M>, t: Tid)
    requires Strict(P, c) && CanStep(c, t) && c.phases[t].Yielded? && c.phases[t].task.Some?
    ensures MutexesFit(P, Step(P, c, t))
  {
    var d := Step(P, c, t);
    OnlySecondJoinThrows(c, t);
    assert IntendedAt(P, c, t) && CarriedAt(c, t) && TurnAt(c, t) && ThreadAt(c, t);
    forall x: Addr ensures MutexAt(P, d, x) { assert MutexAt(P, c, x); }
  }

  lemma PostKeepsIntentions<L, M>(P: Program<L, M>, c: Core<L, M>, t: Tid)
    requires Strict(P, c) && CanStep(c, t) && c.phases[t].Yielded? && c.phases[t].task.Some?
    ensures IntentionsFit(P, Step(P, c, t))
  {
    var d := Step(P, c, t);
    OnlySecondJoinThrows(c, t);
    assert IntendedAt(P, c, t) && CarriedAt(c, t) && TurnAt(c, t) && ThreadAt(c, t);
    forall u: Tid ensures IntendedAt(P, d, u) { assert IntendedAt(P, c, u) && TurnAt(c, u) && ThreadAt(c, u); }
  }

  lemma FinishKeepsStatuses<L, M>(P: Program<L, M>, c: Core<L, M>, t: Tid)
    requires Strict(P, c) && CanStep(c, t) && c.phases[t].Yielded? && c.phases[t].task.None?
    ensures StatusesFit(Step(P, c, t)) && MutexesFit(P, Step(P, c, t))
  {
    var d := Step(P, c, t);
    assert IntendedAt(P, c, t) && CarriedAt(c, t) && TurnAt(c, t) && ThreadAt(c, t);
    forall u: Tid ensures StatusAt(d, u) {
      assert StatusAt(c, u) && ThreadAt(c, u) && IntendedAt(P, c, u) && JoinAt(c, t, u);
      if u in c.pool.tasks && c.pool.tasks[u].IsJoin() {
        var v := c.pool.tasks[u].operand.tid;
        assert ThreadAt(c, v) && JoinAt(c, t, v);
      }
    }
    forall x: Addr ensures MutexAt(P, d, x) { assert MutexAt(P, c, x); }
  }

  lemma FinishKeepsIntentions<L, M>(P: Program<L, M>, c: Core<L, M>, t: Tid)
    requires Strict(P, c) && CanStep(c, t) && c.phases[t].Yielded? && c.phases[t].task.None?
    ensures IntentionsFit(P, Step(P, c, t))
  {
    var d := Step(P, c, t);
    assert IntendedAt(P, c, t) && CarriedAt(c, t) && TurnAt(c, t) && ThreadAt(c, t);
    forall u: Tid ensures IntendedAt(P, d, u) { assert IntendedAt(P, c, u) && TurnAt(c, u) && ThreadAt(c, u); }
  }

  /** The next critical section of a thread keeps the invariant, unless the thread is about to create
      an instruction that breaks the assumptions on programs. */
  lemma StepKeepsStrict<L, M>(P: Program<L, M>, c: Core<L, M>, t: Tid)
    requires Strict(P, c) && CanStep(c, t) && Disciplined(P, c, t)
    ensures Strict(P, Step(P, c, t))
  {
    StepKeepsInv(P, c, t);
    match c.phases[t]
    case Granted(_, _) => ExecuteKeepsStatuses(P, c, t); ExecuteKeepsIntentions(P, c, t);
    case Registering(_, _) => RegisterKeepsStatuses(P, c, t); RegisterKeepsIntentions(P, c, t);
    case Running(_) => CreateKeepsStatuses(P, c, t); CreateKeepsIntentions(P, c, t);
    case Ready(_, _) => YieldKeepsStatuses(P, c, t); YieldKeepsMutexes(P, c, t); YieldKeepsIntentions(P, c, t);
    case Yielded(_, Some(_)) => PostKeepsStatuses(P, c, t); PostKeepsMutexes(P, c, t); PostKeepsIntentions(P, c, t);
    case Yielded(_, None) => FinishKeepsStatuses(P, c, t); FinishKeepsIntentions(P, c, t);
  }

  // Why an address is not both a mutex and a memory location: exactly when what the pool knows of an object
  // still fits the real mutex after a yield, whatever the program does.

  predicate WaitsOn(p: Pool, t: Tid, x: Addr) { t in p.tasks && p.tasks[t].OnObject() && p.tasks[t].obj == x }

  /** The waitsets of x hold the posted requests on x, and that of the current thread. */
  ghost predicate IndexesTasks(p: Pool, i: Instruction)
    requires i.OnObject()
  {
    var o := ObjectAt(p, i.obj);
    && i.tid !in p.tasks && o.Waiting(i.OperationAsInt() % 2).Keys * {i.tid} == {i.tid}
    && i.tid !in o.Waiting(1 - i.OperationAsInt() % 2)
    && forall t, k | t != i.tid && 0 <= k < 2 ::
         t in o.Waiting(k) <==> WaitsOn(p, t, i.obj) && p.tasks[t].OperationAsInt() % 2 == k
  }

  /** Whether an instruction on an object can really run. */
  predicate CanRun(owners: map<Addr, Tid>, i: Instruction) {
    !(i.IsLock() && i.OnObject() && i.obj in owners)
  }

  /** Everybody who waits on x has the status that fits the real mutex. */
  ghost predicate WaitersFit(p: Pool, x: Addr, owners: map<Addr, Tid>) {
    forall t | WaitsOn(p, t, x) :: t in p.threads && p.threads[t] == AsStatus(CanRun(owners, p.tasks[t]))
  }

  /** Everybody who posts a request on x next gets the status that fits the real mutex. */
  ghost predicate PostersFit(p: Pool, x: Addr, owners: map<Addr, Tid>) {
    forall j: Instruction | j.OnObject() && j.obj == x :: EnabledAtPost(p, j) == CanRun(owners, j)
  }

  /** The bit decides about those who post next. */
  lemma PostersFitIffBitIsReal(p: Pool, x: Addr, owners: map<Addr, Tid>)
    ensures PostersFit(p, x, owners) <==> (ObjectAt(p, x).Locked() <==> x in owners)
  {
    var j := LockInstruction(0, Lock, x, MetaData("", 0));
    assert j.OnObject() && j.obj == x;
  }

  /** After any instruction on x has been executed and yielded, those who post next are treated right exactly
      if it was a lock operation, or its parity happens to agree with the mutex: an access sets the bit too. */
  lemma YieldFitsPostersIff(p: Pool, i: Instruction, owners: map<Addr, Tid>)
    requires i.OnObject() && IndexesTasks(p, i)
    ensures PostersFit(UpdateObjectYield(p, i), i.obj, RealOwners(owners, i))
            <==> i.LockInstruction? || (i.Writes() <==> i.obj in owners)
  {
    var (o, q) := (ObjectAt(p, i.obj), UpdateObjectYield(p, i));
    assert i.tid in o.Waiting(i.OperationAsInt() % 2);
    PostersFitIffBitIsReal(q, i.obj, RealOwners(owners, i));
  }

  /** Those who are waiting are treated right after an Unlock, after a Lock exactly if all of them want to
      lock, since a Lock also disables a pending Unlock or access, and after an access exactly if they were
      before, since it changes no status. */
  lemma YieldFitsWaitersIff(p: Pool, i: Instruction, owners: map<Addr, Tid>)
    requires i.OnObject() && IndexesTasks(p, i) && p.tasks.Keys <= p.threads.Keys
    ensures WaitersFit(UpdateObjectYield(p, i), i.obj, RealOwners(owners, i))
            <==> i.IsUnlock()
                 || (i.IsLock() && forall t | WaitsOn(p, t, i.obj) :: p.tasks[t].IsLock())
                 || (i.MemoryInstruction? && WaitersFit(p, i.obj, owners))
  {
    var (o, q) := (ObjectAt(p, i.obj), UpdateObjectYield(p, i));
    assert i.tid in o.Waiting(i.OperationAsInt() % 2);
    if i.LockInstruction? {
      forall t | WaitsOn(p, t, i.obj)
        ensures q.threads[t] == AsStatus(i.IsUnlock())
        ensures CanRun(RealOwners(owners, i), p.tasks[t]) == (i.IsUnlock() || !p.tasks[t].IsLock())
      {
        assert t in o.Waiting(p.tasks[t].OperationAsInt() % 2);
      }
    }
  }

  /** Whatever the program does, the two lemmas apply to every yield. */
  lemma YieldIndexesTasks<L, M>(c: Core<L, M>, t: Tid)
    requires Inv(c) && InRange(c, t) && c.phases[t].Ready?
    requires c.pool.current.Some? && c.pool.current.value.tid == t && c.pool.current.value.OnObject()
    ensures IndexesTasks(c.pool, c.pool.current.value) && c.pool.tasks.Keys <= c.pool.threads.Keys
  {
    var i := c.pool.current.value;
    assert IndexedAt(c, i.obj, t) && ThreadAt(c, t);
    forall u: Tid, k: nat | u != t && k < 2
      ensures u in ObjectAt(c.pool, i.obj).Waiting(k)
              <==> WaitsOn(c.pool, u, i.obj) && c.pool.tasks[u].OperationAsInt() % 2 == k
    {
      assert IndexedAt(c, i.obj, u) && ThreadAt(c, u) && (k == 0 || k == 1);
    }
    forall u | u in c.pool.tasks ensures u in c.pool.threads { assert ThreadAt(c, u); }
  }
}
