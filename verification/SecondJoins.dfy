/** What becomes of a run in which a post throws: a thread asks for the second time to join another one. */
module SecondJoins {
  import opened Instructions
  import opened PoolSpec
  import opened System
  import opened Base
  import opened SchedulingPoint
  import opened ExecutionRecord
  import opened Runs
  import opened Accounting
  import opened Handshake

  /** Some post of the thread has thrown in the run. */
  ghost predicate HasThrown<L, M>(P: Program<L, M>, cfg: Config, es: seq<Event>, t: Tid) {
    es != [] &&
    (HasThrown(P, cfg, es[..|es| - 1], t)
     || (es[|es| - 1] == Section(t) && Throws(After(P, cfg, es[..|es| - 1]).core, t)))
  }

  lemma {:induction false} ThrownIffThrew<L, M>(P: Program<L, M>, cfg: Config, es: seq<Event>, t: Tid)
    requires IsRun(P, cfg, es)
    ensures t in After(P, cfg, es).core.thrown <==> HasThrown(P, cfg, es, t)
  {
    if es != [] {
      ThrownIffThrew(P, cfg, es[..|es| - 1], t);
    }
  }

  /** What such a thread has left in the pool: its second Join of a thread that has finished, ENABLED from its last
      turn, until it is given a turn that it never takes. */
  lemma ThrownLeavesTask<L, M>(P: Program<L, M>, cfg: Config, es: seq<Event>, t: Tid)
    requires IsRun(P, cfg, es) && HasThrown(P, cfg, es, t)
    ensures var c := After(P, cfg, es).core;
            && IsEnabled(c.pool, t) && InRange(c, t) && (c.phases[t].Waiting? || c.phases[t].Granted?)
            && var i := c.phases[t].posted;
               && i.IsJoin() && t in JoinersOf(c.pool, i.operand.tid)
               && i.operand.tid in c.pool.threads && c.pool.threads[i.operand.tid] == FINISHED
               && (if c.phases[t].Waiting? then t in c.pool.tasks && c.pool.tasks[t] == i
                   else t !in c.pool.tasks && c.pool.current == Some(i) && !AllPosted(c.pool))
  {
    ThrownIffThrew(P, cfg, es, t);
    RunsKeepInv(P, cfg, es);
    var c := After(P, cfg, es).core;
    assert ThreadAt(c, t) && CarriedAt(c, t);
  }

  /** A run in which a post has thrown never ends DONE or in a deadlock. */
  lemma ThrownNeverDone<L, M>(P: Program<L, M>, cfg: Config, es: seq<Event>, t: Tid)
    requires IsRun(P, cfg, es) && HasThrown(P, cfg, es, t)
    ensures After(P, cfg, es).status in {RUNNING, ERROR}
  {
    ThrownLeavesTask(P, cfg, es, t);
    RunsKeepInv(P, cfg, es);
    RunsObey(P, cfg, es);
    var p := After(P, cfg, es).core.pool;
    assert t in EnabledSet(p);
  }

  /** When such a thread is given the turn, nothing happens any more: nobody takes the turn. */
  lemma TurnIsLost<L, M>(P: Program<L, M>, cfg: Config, es: seq<Event>, t: Tid, e: Event)
    requires IsRun(P, cfg, es) && HasThrown(P, cfg, es, t)
    requires InRange(After(P, cfg, es).core, t) && After(P, cfg, es).core.phases[t].Granted?
    ensures !CanApply(cfg, After(P, cfg, es), e)
  {
    ThrownLeavesTask(P, cfg, es, t);
    ThrownIffThrew(P, cfg, es, t);
    RunsKeepInv(P, cfg, es);
    var c := After(P, cfg, es).core;
    assert CarriedAt(c, t);
    if e.Section? { assert TurnAt(c, e.tid); }
  }

  // Why a run can be stuck.

  /** What keeps a thread that is at work from going on: its turn is for an instruction that really blocks, its post
      threw, or it wants to join a thread that is not registered. */
  predicate HeldBack<L, M>(c: Core<L, M>, t: Tid) {
    && InRange(c, t)
    && match c.phases[t]
       case Granted(_, i) => Blocks(c, i) || t in c.thrown
       case Yielded(_, Some(i)) => i.IsJoin() && i.operand.tid !in c.pool.threads
       case _ => false
  }

  /** A thread at work can go on exactly if it is not held back, or waits to be registered. */
  lemma GoesOnIff<L, M>(c: Core<L, M>, t: Tid)
    requires Inv(c) && InRange(c, t) && c.phases[t].Outstanding() && !c.phases[t].Unregistered?
    ensures CanStep(c, t) <==> !HeldBack(c, t)
  {
    assert TurnAt(c, t) && CarriedAt(c, t);
    if c.phases[t].Yielded? && c.phases[t].task.Some? && c.phases[t].task.value.IsJoin() {
      assert ThreadAt(c, c.phases[t].task.value.operand.tid);
    }
  }

  /** Whatever the program does, while the scheduler waits either a thread can go on or one is held back. */
  lemma WaitHasCause<L, M>(c: Core<L, M>)
    requires Inv(c) && !AllPosted(c.pool)
    ensures (exists t :: CanStep(c, t)) || exists t :: HeldBack(c, t)
  {
    PostedMeansQuiet(c);
    var t :| InRange(c, t) && c.phases[t].Outstanding();
    var u := KeepsWaiting(c, t);
    GoesOnIff(c, u);
  }
}
