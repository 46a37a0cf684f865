/** What a deadlock report means. */
module Deadlock {
  import opened Instructions
  import opened PoolSpec
  import opened System
  import opened Base
  import opened Discipline
  import opened SchedulingPoint

  /** The selector throws: tasks are pending and no thread is enabled. */
  ghost predicate Deadlocked<L, M>(c: Core<L, M>) {
    AllPosted(c.pool) && c.pool.tasks != map[] && EnabledSet(c.pool) == {}
  }

  /** The thread a blocked thread waits for: the holder of the mutex, or the thread to be joined. */
  function WaitsFor<L, M>(c: Core<L, M>, t: Tid): Tid {
    if t !in c.pool.tasks then t
    else
      var i := c.pool.tasks[t];
      if i.IsLock() && i.obj in c.owners then c.owners[i.obj]
      else if i.IsJoin() then i.operand.tid
      else t
  }

  /** Every pending task of a deadlock is a Lock on a mutex that is really held, or a Join of a thread
      that has not finished; who is waited for is pending too, or a finished holder. */
  lemma DeadlockedThreadsBlock<L, M>(P: Program<L, M>, c: Core<L, M>, t: Tid)
    requires Strict(P, c) && Deadlocked(c) && t in c.pool.tasks
    ensures var i := c.pool.tasks[t];
            || (i.IsLock() && i.obj in c.owners)
            || (i.IsJoin() && i.operand.tid in c.pool.threads && c.pool.threads[i.operand.tid] != FINISHED)
    ensures WaitsFor(c, t) in c.pool.tasks
            || (c.pool.tasks[t].IsLock() && WaitsFor(c, t) in c.pool.threads
                && c.pool.threads[WaitsFor(c, t)] == FINISHED)
  {
    assert t !in EnabledSet(c.pool);
    EnabledIffRunnable(P, c, t);
    PostedMeansQuiet(c);
    assert ThreadAt(c, t) && IntendedAt(P, c, t);
    var i := c.pool.tasks[t];
    if i.IsLock() { assert MutexAt(P, c, i.obj); }
    if i.IsJoin() { assert ThreadAt(c, i.operand.tid); }
    assert ThreadAt(c, WaitsFor(c, t));
  }

  function Follow<L, M>(c: Core<L, M>, t: Tid, n: nat): Tid {
    if n == 0 then t else WaitsFor(c, Follow(c, t, n - 1))
  }

  /** More indices than values: two indices have the same value. */
  lemma {:induction false} Pigeonhole(f: nat -> int, m: nat, values: set<int>)
    requires |values| < m
    requires forall i: nat | i < m :: f(i) in values
    ensures exists i: nat, j: nat :: i < j < m && f(i) == f(j)
  {
    assert f(m - 1) in values;
    if forall i: nat | i < m - 1 :: f(i) != f(m - 1) {
      Pigeonhole(f, m - 1, values - {f(m - 1)});
    }
  }

  /** After n steps the chain is at a Lock on a mutex whose holder has finished. */
  ghost predicate AbandonedAt<L, M>(c: Core<L, M>, t: Tid, n: nat) {
    && Follow(c, t, n) in c.pool.tasks && c.pool.tasks[Follow(c, t, n)].IsLock()
    && Follow(c, t, n + 1) in c.pool.threads && c.pool.threads[Follow(c, t, n + 1)] == FINISHED
  }

  /** The chain is back at step j where it was at step i, all along pending threads. */
  ghost predicate CycleAt<L, M>(c: Core<L, M>, t: Tid, i: nat, j: nat) {
    && i < j && Follow(c, t, i) == Follow(c, t, j)
    && forall k: nat | k <= j :: Follow(c, t, k) in c.pool.tasks
  }

  /** From every pending thread the chain of who waits for whom reaches a thread that has finished
      while holding a mutex, or runs into a cycle. */
  lemma DeadlockHasCause<L, M>(P: Program<L, M>, c: Core<L, M>, t: Tid)
    requires Strict(P, c) && Deadlocked(c) && t in c.pool.tasks
    ensures (exists n: nat :: n < |c.pool.tasks| && AbandonedAt(c, t, n))
            || (exists i: nat, j: nat :: j <= |c.pool.tasks| && CycleAt(c, t, i, j))
  {
    var n: nat := 0;
    while n < |c.pool.tasks| && Follow(c, t, n + 1) in c.pool.tasks
      invariant n <= |c.pool.tasks|
      invariant forall k: nat | k <= n :: Follow(c, t, k) in c.pool.tasks
    {
      n := n + 1;
    }
    if n < |c.pool.tasks| {
      DeadlockedThreadsBlock(P, c, Follow(c, t, n));
      assert AbandonedAt(c, t, n);
    } else {
      var f := (k: nat) => Follow(c, t, k);
      Pigeonhole(f, n + 1, c.pool.tasks.Keys);
      var i: nat, j: nat :| i < j < n + 1 && f(i) == f(j);
      assert CycleAt(c, t, i, j);
    }
  }
}
