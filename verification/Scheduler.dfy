/** The scheduler and the threads it controls, updated in place, with the semaphores and the condition variable:
    every run of this program is a run of the transition system, and every call to the task pool meets what the
    pool asserts. */
module Scheduler {
  import opened Instructions
  import opened PoolSpec
  import opened System
  import opened Base
  import opened SchedulingPoint
  import opened ExecutionRecord
  import opened Selector
  import opened Runs
  import opened ControllableThread
  import opened Handshake
  import IntSets
  import TaskPool

  // The pool's assertions hold when it is called.

  lemma PostIsAllowed<L, M>(c: Core<L, M>, t: Tid)
    requires Inv(c) && CanStep(c, t) && c.phases[t].Yielded? && c.phases[t].task.Some?
    ensures t !in c.pool.tasks && t in c.pool.threads && c.phases[t].task.value.tid == t
    ensures var i := c.phases[t].task.value;
            i.IsJoin() ==> i.operand.tid in c.pool.joins && i.operand.tid in c.pool.threads
  {
    var i := c.phases[t].task.value;
    assert ThreadAt(c, t) && CarriedAt(c, t);
    if i.IsJoin() { assert ThreadAt(c, i.operand.tid); }
  }

  lemma FinishIsAllowed<L, M>(c: Core<L, M>, t: Tid)
    requires Inv(c) && CanStep(c, t) && c.phases[t].Yielded?
    ensures t in c.pool.joins && t in c.pool.threads && c.pool.joins[t].Keys <= c.pool.threads.Keys
  {
    assert ThreadAt(c, t);
    forall u | u in c.pool.joins[t] ensures u in c.pool.threads { assert JoinAt(c, t, u); }
  }

  lemma StateIsAllowed<L, M>(c: Core<L, M>)
    requires Inv(c)
    ensures c.pool.tasks.Keys <= c.pool.threads.Keys
  {
    forall t | t in c.pool.tasks ensures t in c.pool.threads { assert ThreadAt(c, t); }
  }

  lemma TurnIsAllowed<L, M>(c: Core<L, M>, t: Tid)
    requires Inv(c) && AllPosted(c.pool) && t in c.pool.threads && c.pool.threads[t] == ENABLED
    ensures t in c.pool.tasks && InRange(c, t) && c.phases[t].Waiting?
  {
    assert ThreadAt(c, t);
  }

  class Scheduler<!L, !M> {
    const program: Program<L, M>
    const cfg: Config
    const pool: TaskPool.TaskPool
    // The threads: where each of them is, the memory they share, who really holds which mutex, whose post threw.
    var phases: seq<Phase<L>>
    var memory: M
    var owners: map<Addr, Tid>
    var thrown: set<Tid>
    // The handles of the registered threads.
    var handles: map<Tid, Handle>
    // The variables of the loop.
    var execution: Execution?
    var taskNr: nat
    var status: Status

    function Threads(): Core<L, M>
      reads this, pool
    {
      Core(pool.View(), phases, memory, owners, thrown)
    }

    function View(): Run<L, M>
      reads this, pool, execution
    {
      Runs.Run.Run(Threads(), if execution == null then None else Some(execution.View()), taskNr, status)
    }

    function FineView(): Fine<L, M>
      reads this, pool, execution
    {
      Fine(View(), handles, pool.sleeping)
    }

    constructor (P: Program<L, M>, cfg: Config)
      ensures FineView() == FineStart(P) && program == P && this.cfg == cfg && fresh(pool)
      ensures pool.dispatch == OnVariant && execution == null
    {
      program, this.cfg := P, cfg;
      var p := new TaskPool.TaskPool(OnVariant);
      p.RegisterThread(0);
      pool := p;
      phases, memory, owners, thrown := [Running(P.start)], P.memory, map[], {};
      handles := map[0 := NEW_HANDLE];
      execution, taskNr, status := null, 0, RUNNING;
    }

    // The critical sections of a thread.

    /** The granted instruction is executed; a Spawn creates the thread it has an identifier for. */
    method Execute(t: Tid)
      requires Inv(Threads()) && CanStep(Threads(), t) && phases[t].Granted?
      modifies this`phases, this`memory, this`owners
      ensures Threads() == Step(program, old(Threads()), t)
    {
      var (l, i) := (phases[t].l, phases[t].posted);
      assert CarriedAt(Threads(), t);
      if i.IsSpawn() {
        var k := i.operand.tid;
        phases := phases[k := Unregistered(program.child(l))][t := Registering(program.local(l, memory, k), k)];
      } else {
        phases := phases[t := Running(program.local(l, memory, -1))];
      }
      memory := program.effect(l, memory);
      if i.LockInstruction? {
        owners := if i.lockOp == Lock then owners[i.obj := i.tid] else owners - {i.obj};
      }
    }

    /** The creator registers the new thread, which may go on then. */
    method RegisterThread(t: Tid)
      requires Inv(Threads()) && CanStep(Threads(), t) && phases[t].Registering?
      modifies this`phases, this`handles, pool
      ensures Threads() == Step(program, old(Threads()), t) && pool.sleeping == old(pool.sleeping)
      ensures handles == HandlesAfter(old(Threads()), old(handles), t)
    {
      var (l, k) := (phases[t].l, phases[t].childTid);
      if k !in handles {
        var h := new ControllableThread();
        handles := handles[k := h.View()];
      }
      pool.RegisterThread(k);
      phases := phases[k := if phases[k].Unregistered? then Running(phases[k].l) else phases[k]][t := Running(l)];
    }

    /** The thread creates its next instruction; a Spawn takes a fresh identifier. */
    method CreateInstruction(t: Tid)
      requires CanStep(Threads(), t) && phases[t].Running?
      modifies this`phases
      ensures Threads() == Step(program, old(Threads()), t)
    {
      var l := phases[t].l;
      var task := Created(program, Threads(), t, l);
      phases := phases[t := Ready(l, task)];
      if NextIsSpawn(program, l) { phases := phases + [Reserved]; }
    }

    method Yield(t: Tid)
      requires Inv(Threads()) && CanStep(Threads(), t) && phases[t].Ready?
      modifies this`phases, pool`threads, pool`objects
      ensures Threads() == Step(program, old(Threads()), t)
    {
      if pool.current.Some? && pool.current.value.tid == t && pool.current.value.OnObject() {
        YieldNeverThrows(Threads(), t);
      }
      var ok := pool.Yield(t);
      phases := phases[t := Yielded(phases[t].l, phases[t].task)];
    }

    /** The thread has posted, and is on its way to its semaphore; if the post throws, it is gone, and nobody is
        notified. */
    method PostTask(t: Tid)
      requires Inv(Threads()) && CanStep(Threads(), t) && phases[t].Yielded? && phases[t].task.Some?
      requires pool.dispatch == OnVariant
      modifies this`phases, this`handles, this`thrown, pool
      ensures Threads() == Step(program, old(Threads()), t)
      ensures pool.sleeping == (old(pool.sleeping) && Throws(old(Threads()), t))
      ensures handles == HandlesAfter(old(Threads()), old(handles), t)
    {
      PostIsAllowed(Threads(), t);
      var i := phases[t].task.value;
      var ok := pool.Post(t, i);
      phases := phases[t := Waiting(phases[t].l, i)];
      if ok {
        handles := handles[t := Handle(Posted, t in handles && handles[t].signalled)];
      } else {
        thrown := thrown + {t};
      }
    }

    method Finish(t: Tid)
      requires Inv(Threads()) && CanStep(Threads(), t) && phases[t].Yielded? && phases[t].task.None?
      modifies this`phases, pool
      ensures Threads() == Step(program, old(Threads()), t) && !pool.sleeping
    {
      FinishIsAllowed(Threads(), t);
      var ok := pool.Finish(t);
      phases := phases[t := Phase.Finished];
    }

    /** The next critical section of a thread. */
    method Section(t: Tid)
      requires Inv(Threads()) && CanStep(Threads(), t) && pool.dispatch == OnVariant
      modifies this`phases, this`memory, this`owners, this`thrown, this`handles, pool
      ensures Threads() == Step(program, old(Threads()), t)
      ensures handles == HandlesAfter(old(Threads()), old(handles), t)
      ensures pool.sleeping == (old(pool.sleeping) && !Notifies(old(Threads()), t))
    {
      match phases[t] {
        case Granted(_, _) => Execute(t);
        case Registering(_, _) => RegisterThread(t);
        case Running(_) => CreateInstruction(t);
        case Ready(_, _) => Yield(t);
        case Yielded(_, Some(_)) => PostTask(t);
        case Yielded(_, None) => Finish(t);
      }
    }

    // The wait of a thread for its turn.

    /** The thread has reached its semaphore. */
    method Arrive(t: Tid)
      requires t in handles && handles[t].place == Posted
      modifies this`handles
      ensures handles == old(handles)[t := old(handles)[t].Arrived()]
    {
      var h := new ControllableThread.Of(handles[t]);
      h.Arrive();
      handles := handles[t := h.View()];
    }

    /** It goes on with the instruction it has posted. */
    method Resume(t: Tid)
      requires t in handles && handles[t].CanResume()
      modifies this`handles
      ensures handles == old(handles)[t := old(handles)[t].Resumed()]
    {
      var h := new ControllableThread.Of(handles[t]);
      h.Resume();
      handles := handles[t := h.View()];
    }

    method GrantExecutionRight(t: Tid)
      requires t in handles
      modifies this`handles
      ensures handles == old(handles)[t := old(handles)[t].Granted()]
    {
      var h := new ControllableThread.Of(handles[t]);
      h.GrantExecutionRight();
      handles := handles[t := h.View()];
    }

    // The scheduler's own loop.

    /** Creates the execution in the first round, and adds the instruction that ran last in the others. */
    method Record() returns (E: Execution)
      requires RunInv(View()) && status == RUNNING
      modifies this`execution, execution
      ensures execution == E && (old(execution) != null ==> E == old(execution))
              && (old(execution) == null ==> fresh(E))
      ensures E.View() == Recorded(old(View()))
      ensures Threads() == old(Threads())
    {
      StateIsAllowed(Threads());
      var now := pool.CurrentState();
      if execution == null {
        execution := new Execution(Some(now));
      }
      E := execution;
      if taskNr > 0 {
        E.PushBack(pool.current.value, now);
      }
    }

    /** False if the thread is not enabled. */
    method ScheduleThread(t: Tid) returns (ok: bool)
      requires Inv(Threads()) && AllPosted(pool.View()) && t in pool.threads && t in handles
      modifies this`phases, this`taskNr, this`handles, pool`tasks, pool`current
      ensures ok == IsEnabled(old(pool.View()), t)
      ensures Threads() == if ok then Grant(old(Threads()), t) else old(Threads())
      ensures taskNr == old(taskNr) + if ok then 1 else 0
      ensures handles == if ok then old(handles)[t := old(handles)[t].Granted()] else old(handles)
    {
      if pool.threads[t] != ENABLED { return false; }
      TurnIsAllowed(Threads(), t);
      var task := pool.SetCurrent(t);
      phases := phases[t := Granted(phases[t].l, phases[t].posted)];
      GrantExecutionRight(t);
      taskNr := taskNr + 1;
      return true;
    }

    /** Ends the execution; after an error nobody is controlled any more, and whoever waits is released. */
    method Close(E: Execution)
      requires Inv(Threads())
      modifies E, this`handles
      ensures E.View() == Ended(old(E.View()), ProgramState(pool.View()), status)
      ensures handles == if status == ERROR then map u | u in old(handles) :: old(handles)[u].Granted()
                         else old(handles)
    {
      if status == ERROR { GrantAll(); }
      StateIsAllowed(Threads());
      var now := pool.CurrentState();
      if E.transitions != [] { E.SetLastPost(now); }
      E.SetStatus(status);
    }

    method End(E: Execution, s: Status)
      requires Inv(Threads())
      modifies E, this`handles, this`status
      ensures status == s && E.View() == Ended(old(E.View()), ProgramState(pool.View()), s)
      ensures handles == if s == ERROR then map u | u in old(handles) :: old(handles)[u].Granted() else old(handles)
    {
      status := s;
      Close(E);
    }

    /** One more transition is recorded, that of a thread that cannot run. */
    method ReportDeadlock(E: Execution, pick: Tid)
      requires Inv(Threads()) && pick in pool.tasks && E.View().HasFinal()
      modifies E, this`handles, this`status
      ensures status == DEADLOCK && handles == old(handles)
      ensures var now := ProgramState(pool.View());
              E.View() == Ended(old(E.View()).PushBack(pool.tasks[pick], now), now, DEADLOCK)
    {
      StateIsAllowed(Threads());
      var now := pool.CurrentState();
      E.PushBack(pool.tasks[pick], now);
      End(E, DEADLOCK);
    }

    method GrantAll()
      modifies this`handles
      ensures handles == map u | u in old(handles) :: old(handles)[u].Granted()
    {
      var left := handles.Keys;
      while left != {}
        invariant left <= old(handles).Keys
        invariant handles == map u | u in old(handles) ::
            if u in left then old(handles)[u] else old(handles)[u].Granted()
        decreases |left|
      {
        var t := IntSets.Take(left);
        left := left - {t};
        GrantExecutionRight(t);
      }
    }

    method Select(pick: Tid) returns (sel: Selection)
      requires taskNr >= |cfg.schedule| && pool.tasks != map[] && EnabledSet(pool.View()) != {} ==>
                 cfg.strategy(pool.View(), EnabledSet(pool.View()), taskNr, pick)
      requires taskNr < |cfg.schedule| ==> pick == cfg.schedule[taskNr]
      ensures sel == Selected(cfg, View(), pick) && MaySelect(cfg.strategy, pool.View(), cfg.schedule, taskNr, sel)
    {
      if taskNr < |cfg.schedule| {
        return Turn(cfg.schedule[taskNr]);
      }
      if pool.tasks != map[] {
        var enabled := pool.EnabledSet();
        return if enabled != {} then Turn(pick) else NoneEnabled;
      }
      return AllDone;
    }

    /** The outcomes of a selection: a turn, or an error. */
    method TakeTurn(E: Execution, t: Tid)
      requires Inv(Threads()) && AllPosted(pool.View()) && t in pool.threads && t in handles
      requires execution == E && status == RUNNING
      modifies this`phases, this`taskNr, this`status, this`handles, pool`tasks, pool`current, E
      ensures var s := old(View());
              View() == if IsEnabled(s.core.pool, t) then s.(core := Grant(s.core, t), taskNr := s.taskNr + 1)
                        else Closed(s, old(E.View()), ERROR)
      ensures handles == Signals(old(handles), View(), t)
    {
      var ok := ScheduleThread(t);
      if !ok { End(E, ERROR); }
    }

    /** Nothing is left to run. */
    method Complete(E: Execution)
      requires Inv(Threads()) && execution == E
      modifies this`status, this`handles, E
      ensures View() == Closed(old(View()), old(E.View()), DONE) && handles == old(handles)
    {
      End(E, DONE);
    }

    /** Nothing that is left can run. */
    method Deadlock(E: Execution, pick: Tid)
      requires Inv(Threads()) && execution == E && pick in pool.tasks && E.View().HasFinal()
      modifies this`status, this`handles, E
      ensures var (s, now) := (old(View()), ProgramState(old(pool.View())));
              View() == Closed(s, old(E.View()).PushBack(s.core.pool.tasks[pick], now), DEADLOCK)
      ensures handles == old(handles)
    {
      ReportDeadlock(E, pick);
    }

    /** One round. `pick` is what the strategy answers, and on a deadlock the first task. */
    method Round(pick: Tid)
      requires RunInv(View()) && CanSchedule(cfg, View(), pick) && pool.threads.Keys <= handles.Keys
      modifies this`phases, this`taskNr, this`execution, this`status, this`handles, pool`tasks, pool`current, execution
      ensures View() == Iterate(cfg, old(View()), pick) && handles == Signals(old(handles), View(), pick)
      ensures status == ERROR ==> forall t | t in pool.threads :: t in handles && handles[t].signalled
      ensures old(execution) != null ==> execution == old(execution)
      ensures old(execution) == null ==> execution == null || fresh(execution)
    {
      RecordedChains(View());
      var E := Record();
      var sel := Select(pick);
      match sel {
        case Turn(t) => TakeTurn(E, t);
        case AllDone => Complete(E);
        case NoneEnabled => Deadlock(E, pick);
      }
    }

    /** The loop, with what the threads do between its rounds, and after an error, in the given order. It goes on as
        long as what comes next is possible. */
    method Run(order: seq<FineEvent>) returns (n: nat)
      requires FineView() == FineStart(program) && pool.dispatch == OnVariant
      modifies this, pool
      ensures n <= |order| && IsFineRun(program, cfg, order[..n]) && FineView() == FineAfter(program, cfg, order[..n])
      ensures n < |order| ==> !CanFine(cfg, FineView(), order[n])
    {
      n := 0;
      while n < |order| && CanFine(cfg, FineView(), order[n])
        invariant n <= |order| && IsFineRun(program, cfg, order[..n])
        invariant FineView() == FineAfter(program, cfg, order[..n])
        invariant execution == null || fresh(execution)
      {
        RunsKeepFineInv(program, cfg, order[..n]);
        assert order[..n + 1][..n] == order[..n];
        Do(order[n]);
        n := n + 1;
      }
    }

    method Do(e: FineEvent)
      requires FineInv(FineView()) && CanFine(cfg, FineView(), e) && pool.dispatch == OnVariant
      modifies this, pool, execution
      ensures FineView() == ApplyFine(program, cfg, old(FineView()), e)
      ensures old(execution) != null ==> execution == old(execution)
      ensures old(execution) == null ==> execution == null || fresh(execution)
    {
      match e {
        case Coarse(Section(t)) => Section(t);
        case Coarse(Iteration(pick)) =>
          forall t | t in pool.threads ensures t in handles { assert HandleAt(FineView(), t); }
          Round(pick);
        case Arrive(t) => Arrive(t);
        case Resume(t) => Resume(t);
        case Check => var posted := pool.WaitUntilUnfinishedThreadsHavePosted();
      }
    }
  }

  /** A program run under a scheduler of its own, with what happens given in order: what has happened when the
      next event is not possible, and the state then. */
  method Control<L, M>(P: Program<L, M>, cfg: Config, order: seq<FineEvent>) returns (n: nat, s: Runs.Run<L, M>)
    ensures n <= |order| && IsFineRun(P, cfg, order[..n]) && s == FineAfter(P, cfg, order[..n]).run
    ensures n < |order| ==> !CanFine(cfg, FineAfter(P, cfg, order[..n]), order[n])
  {
    var scheduler := new Scheduler(P, cfg);
    n := scheduler.Run(order);
    s := scheduler.View();
  }
}
