/** What requests, performances and registrations mean over any sequence of calls, also of those that never occur in
    a run. */
module PoolLaws {
  import opened Instructions
  import opened PoolSpec

  // Objects.

  datatype ObjectCall = Request(instr: Instruction) | Perform(tid: Tid)

  /** The object after the calls, of which those that throw have no effect. */
  function Called(calls: seq<ObjectCall>): ObjectView {
    if calls == [] then NEW_OBJECT
    else
      var o := Called(calls[..|calls| - 1]);
      match calls[|calls| - 1]
      case Request(i) => if o.RequestThrows(i) then o else o.Requested(i)
      case Perform(t) => if o.PerformThrows(t) then o else o.Performed(t)
  }

  /** The instruction of the thread that is waiting for its performance, with even or odd operation code: the first one
      requested since the last performance that took one of this kind. An even one is taken first. */
  function Asked(calls: seq<ObjectCall>, t: Tid, k: nat): Option<Instruction> {
    if calls == [] then None
    else
      var before := calls[..|calls| - 1];
      match calls[|calls| - 1]
      case Request(i) =>
        if i.tid == t && i.OperationAsInt() % 2 == k && Asked(before, t, k).None? then Some(i) else Asked(before, t, k)
      case Perform(u) =>
        if u == t && (k == 0 || Asked(before, t, 0).None?) then None else Asked(before, t, k)
  }

  /** The parity of the last performance that took something. */
  function LastTaken(calls: seq<ObjectCall>): nat {
    if calls == [] then 0
    else
      var before := calls[..|calls| - 1];
      match calls[|calls| - 1]
      case Request(_) => LastTaken(before)
      case Perform(t) =>
        if Asked(before, t, 0).Some? then 0 else if Asked(before, t, 1).Some? then 1 else LastTaken(before)
  }

  /** The waitsets hold exactly what was asked for, and the bit is the parity taken last. */
  lemma {:induction false} ObjectsRemember(calls: seq<ObjectCall>, t: Tid, k: nat)
    requires k < 2
    ensures t in Called(calls).Waiting(k) <==> Asked(calls, t, k).Some?
    ensures t in Called(calls).Waiting(k) ==> Called(calls).Waiting(k)[t] == Asked(calls, t, k).value
    ensures Called(calls).current == LastTaken(calls)
  {
    if calls != [] {
      var before := calls[..|calls| - 1];
      ObjectsRemember(before, t, 0);
      ObjectsRemember(before, t, 1);
      match calls[|calls| - 1]
      case Request(i) => ObjectsRemember(before, i.tid, i.OperationAsInt() % 2);
      case Perform(u) =>
        ObjectsRemember(before, u, 0);
        ObjectsRemember(before, u, 1);
    }
  }

  /** A request throws exactly if the thread has asked for an operation of the same parity that was not performed,
      a performance exactly if it has not asked for any; and the answer is no exactly for a Lock after an odd
      operation. */
  lemma CallsThrowIff(calls: seq<ObjectCall>, i: Instruction)
    ensures Called(calls).RequestThrows(i) <==> Asked(calls, i.tid, i.OperationAsInt() % 2).Some?
    ensures Called(calls).PerformThrows(i.tid) <==> Asked(calls, i.tid, 0).None? && Asked(calls, i.tid, 1).None?
    ensures Called(calls).Admits(i) <==> !(i.LockInstruction? && i.lockOp == Lock && LastTaken(calls) == 1)
  {
    ObjectsRemember(calls, i.tid, 0);
    ObjectsRemember(calls, i.tid, 1);
  }

  // Threads.

  /** A new thread starts in START with nobody waiting for its end; everybody else, and a thread that is registered
      again, keeps both. */
  lemma RegisterIs(p: Pool, u: Tid, t: Tid)
    ensures t in Register(p, u).threads <==> t in p.threads || t == u
    ensures t in Register(p, u).joins <==> t in p.joins || t == u
    ensures t in p.threads ==> Register(p, u).threads[t] == p.threads[t]
    ensures t in p.joins ==> Register(p, u).joins[t] == p.joins[t]
    ensures u !in p.threads ==> Register(p, u).threads[u] == START
    ensures u !in p.joins ==> Register(p, u).joins[u] == map[]
    ensures Register(p, u).(threads := p.threads, joins := p.joins) == p
  {
  }

  /** The end of a thread enables those who have asked for it, and changes nobody else. */
  lemma FinishIs(p: Pool, u: Tid, t: Tid)
    requires u in p.threads
    ensures Finish(p, u).threads.Keys == p.threads.Keys && Finish(p, u).threads[u] == FINISHED
    ensures t in p.threads && t != u ==>
              Finish(p, u).threads[t]
              == if u in p.joins && t in p.joins[u] then ENABLED else p.threads[t]
    ensures Finish(p, u).(threads := p.threads) == p
  {
  }

  /** A yield after a Lock disables everybody who still waits on the mutex, one after an Unlock enables them, and one
      after an access changes no status; it concerns only the current thread and the object of its instruction. */
  lemma YieldIs(p: Pool, u: Tid, t: Tid, x: Addr)
    ensures p.current.None? || p.current.value.tid != u || p.current.value.ThreadInstruction? ==> Yield(p, u) == p
    ensures Yield(p, u).(threads := p.threads, objects := p.objects) == p
    ensures p.current.Some? && p.current.value.OnObject() && x != p.current.value.obj ==>
              ObjectAt(Yield(p, u), x) == ObjectAt(p, x)
    ensures Yield(p, u).threads.Keys == p.threads.Keys
    ensures p.current.Some? && p.current.value.tid == u && p.current.value.OnObject() ==>
              var (i, o) := (p.current.value, ObjectAt(Yield(p, u), p.current.value.obj));
              && o == ObjectAt(p, i.obj).Performed(u)
              && (t in p.threads ==>
                    Yield(p, u).threads[t]
                    == if i.LockInstruction? && (t in o.waiting0 || t in o.waiting1)
                       then (if i.lockOp == Lock then DISABLED else ENABLED)
                       else p.threads[t])
  {
  }
}
