/** The task pool, updated in place; each method is one critical section. The objects and join requests
    are values in maps: they are taken out, updated by their own methods, and put back. */
module TaskPool {
  import opened Instructions
  import opened PoolSpec
  import opened ObjectState
  import IntSets

  /** The join requests for one thread. */
  class ThreadState {
    var waiting: map<Tid, Instruction>

    constructor (waiting: map<Tid, Instruction>)
      ensures this.waiting == waiting
    {
      this.waiting := waiting;
    }

    /** None if the thread has asked before, which is an exception; otherwise whether the join could be
        executed at once, given the status of the thread to be joined. */
    method Request(instr: Instruction, status: ThreadStatus) returns (r: Option<bool>)
      modifies this
      ensures waiting == if instr.IsJoin() && instr.tid !in old(waiting) then old(waiting)[instr.tid := instr]
              else old(waiting)
      ensures r == if !instr.IsJoin() then Some(true)
                   else if instr.tid in old(waiting) then None
                   else Some(status == FINISHED)
    {
      if instr.ThreadInstruction? && instr.threadOp == Join {
        if instr.tid !in waiting {
          waiting := waiting[instr.tid := instr];
          return Some(status == FINISHED);
        }
        return None;
      }
      return Some(true);
    }
  }

  /** A request on one object, preceded by the search for data races. */
  method RequestOnObject(dispatch: Dispatch, view: ObjectView, task: Instruction)
    returns (added: seq<Race>, r: Option<bool>, after: ObjectView)
    requires task.OnObject()
    requires dispatch == OnAlternative && task.MemoryInstruction? ==> OnlyMemory(view)
    ensures multiset(added)
            == multiset(if dispatch == OnAlternative && task.MemoryInstruction? then DataRaces(view, task) else {})
    ensures r == if view.RequestThrows(task) then None else Some(view.Admits(task))
    ensures after == if view.RequestThrows(task) then view else view.Requested(task)
  {
    var o := new ObjectState.Of(task.obj, view);
    added := [];
    if dispatch == OnAlternative && task.MemoryInstruction? {
      added := GetDataRaces(o, task);
    }
    r := o.Request(task);
    after := o.View();
  }

  class TaskPool {
    const dispatch: Dispatch
    var tasks: map<Tid, Instruction>
    var current: Option<Instruction>
    var threads: map<Tid, ThreadStatus>
    var objects: map<Addr, ObjectView>
    var threadStates: map<Tid, map<Tid, Instruction>>
    var races: seq<Race>
    /** The scheduler is blocked on the condition variable. */
    var sleeping: bool

    function View(): Pool
      reads this
    {
      Pool(tasks, current, threads, objects, threadStates)
    }

    constructor (dispatch: Dispatch)
      ensures View() == EMPTY_POOL && races == [] && this.dispatch == dispatch && !sleeping
    {
      this.dispatch, sleeping := dispatch, false;
      tasks, current, threads, objects, threadStates, races := map[], None, map[], map[], map[], [];
    }

    method RegisterThread(tid: Tid)
      modifies this
      ensures View() == Register(old(View()), tid) && races == old(races) && sleeping == old(sleeping)
    {
      if tid !in threads { threads := threads[tid := START]; }
      if tid !in threadStates { threadStates := threadStates[tid := map[]]; }
    }

    method SetStatus(tid: Tid, status: ThreadStatus)
      requires tid in threads
      modifies `threads
      ensures threads == old(threads)[tid := status]
    {
      threads := threads[tid := status];
    }

    /** Sets the status of each of the given threads, in no particular order. */
    method SetStatuses(ts: set<Tid>, status: ThreadStatus)
      requires ts <= threads.Keys
      modifies `threads
      ensures threads == WithStatus(old(threads), ts, status)
    {
      var left := ts;
      while left != {}
        invariant left <= ts && threads == WithStatus(old(threads), ts - left, status)
        decreases |left|
      {
        var t := IntSets.Take(left);
        left := left - {t};
        SetStatus(t, status);
      }
    }

    method SetStatusOfWaitingOn(o: ObjectState, status: ThreadStatus)
      requires o.Valid() && o.waiting[0].Keys + o.waiting[1].Keys <= threads.Keys
      modifies `threads
      ensures threads == WithStatus(old(threads), o.View().waiting0.Keys + o.View().waiting1.Keys, status)
    {
      SetStatuses(o.waiting[0].Keys, status);
      SetStatuses(o.waiting[1].Keys, status);
    }

    /** The request of a posted task: None if it throws, else whether the task may run at once. */
    method UpdateObjectPost(task: Instruction) returns (added: seq<Race>, r: Option<bool>)
      requires task.IsJoin() ==> task.operand.tid in threadStates && task.operand.tid in threads
      requires dispatch == OnAlternative && task.MemoryInstruction? ==> OnlyMemory(ObjectAt(View(), task.obj))
      modifies `objects, `threadStates, `races
      ensures races == old(races) + added && multiset(added) == multiset(RacesAtPost(dispatch, old(View()), task))
      ensures r == if PostThrows(old(View()), task) then None else Some(EnabledAtPost(old(View()), task))
      ensures r.None? ==>
                objects == PostThrown(old(View()), task.tid, task).objects && threadStates == old(threadStates)
      ensures r.Some? ==>
                objects == RequestOn(old(objects), task) && threadStates == RequestJoin(old(threadStates), task)
    {
      added, r := [], Some(true);
      if task.OnObject() {
        if task.obj !in objects {
          var created := new ObjectState(task.obj);
          objects := objects[task.obj := created.View()];
        }
        var o;
        added, r, o := RequestOnObject(dispatch, objects[task.obj], task);
        races := races + added;
        objects := objects[task.obj := o];
      } else if task.threadOp == Join {
        var u := task.operand.tid;
        var state := new ThreadState(threadStates[u]);
        r := state.Request(task, threads[u]);
        threadStates := threadStates[u := state.waiting];
      }
    }

    /** Posts a task. False means that the request threw: the task, and a new object, are left behind. */
    method Post(tid: Tid, task: Instruction) returns (ok: bool)
      requires tid !in tasks && tid in threads
      requires task.IsJoin() ==> task.operand.tid in threadStates && task.operand.tid in threads
      requires dispatch == OnAlternative && task.MemoryInstruction? ==> OnlyMemory(ObjectAt(View(), task.obj))
      modifies this
      ensures ok == !PostThrows(old(View()), task)
      ensures View() == if ok then PoolSpec.Post(old(View()), tid, task) else PostThrown(old(View()), tid, task)
      ensures old(races) <= races
              && multiset(races[|old(races)|..]) == multiset(RacesAtPost(dispatch, old(View()), task))
      ensures sleeping == (old(sleeping) && !ok)
    {
      tasks := tasks[tid := task];
      var added, r := UpdateObjectPost(task);
      assert races[|old(races)|..] == added;
      if r.None? { return false; }
      SetStatus(tid, if r.value then ENABLED else DISABLED);
      NotifyOne();
      return true;
    }

    /** Wakes the scheduler, who evaluates its condition again. */
    method NotifyOne()
      modifies `sleeping
      ensures !sleeping
    {
      sleeping := false;
    }

    /** Yields if the thread is the current one. False means that it has no request to perform, which throws. */
    method Yield(tid: Tid) returns (ok: bool)
      requires current.Some? && current.value.tid == tid && current.value.OnObject() ==>
                 && current.value.obj in objects
                 && objects[current.value.obj].waiting0.Keys + objects[current.value.obj].waiting1.Keys <= threads.Keys
      modifies `threads, `objects
      ensures ok == !(current.Some? && current.value.tid == tid && current.value.OnObject()
                      && ObjectAt(old(View()), current.value.obj).PerformThrows(tid))
      ensures View() == if ok then PoolSpec.Yield(old(View()), tid) else old(View())
    {
      ok := true;
      if current.Some? && current.value.tid == tid {
        var task := current.value;
        if task.OnObject() {
          var o := new ObjectState.Of(task.obj, objects[task.obj]);
          ok := o.Perform(task.tid);
          objects := objects[task.obj := o.View()];
          if ok && task.LockInstruction? {
            SetStatusOfWaitingOn(o, if task.lockOp == Lock then DISABLED else ENABLED);
          }
        }
      }
    }

    /** Enables who has asked to join the thread, and marks it as finished. False if it is not registered,
        which throws. */
    method Finish(tid: Tid) returns (ok: bool)
      requires tid in threadStates ==> tid in threads && threadStates[tid].Keys <= threads.Keys
      modifies `threads, `sleeping
      ensures ok == (tid in threadStates)
      ensures View() == if ok then PoolSpec.Finish(old(View()), tid) else old(View())
      ensures sleeping == (old(sleeping) && !ok)
    {
      if tid !in threadStates { return false; }
      SetStatuses(threadStates[tid].Keys, ENABLED);
      SetStatus(tid, FINISHED);
      NotifyOne();
      return true;
    }

    method SetCurrent(tid: Tid) returns (task: Instruction)
      requires tid in tasks
      modifies `tasks, `current
      ensures View() == PoolSpec.SetCurrent(old(View()), tid) && current == Some(task)
    {
      current := Some(tasks[tid]);
      tasks := tasks - {tid};
      return current.value;
    }

    method EnabledSet() returns (tids: set<Tid>)
      ensures tids == PoolSpec.EnabledSet(View())
    {
      tids := {};
      var left := threads.Keys;
      while left != {}
        invariant left <= threads.Keys
        invariant tids == set t | t in threads && t !in left && threads[t] == ENABLED
        decreases |left|
      {
        var t := IntSets.Take(left);
        left := left - {t};
        if threads[t] == ENABLED { tids := tids + {t}; }
      }
    }

    /** The scheduler's wait evaluates its condition, and blocks if it does not hold. */
    method WaitUntilUnfinishedThreadsHavePosted() returns (posted: bool)
      modifies `sleeping
      ensures posted == AllPosted(View()) && sleeping == !posted
    {
      posted := UnfinishedThreadsHavePosted();
      sleeping := !posted;
    }

    method UnfinishedThreadsHavePosted() returns (posted: bool)
      ensures posted == AllPosted(View())
    {
      var left := threads.Keys;
      while left != {}
        invariant left <= threads.Keys
        invariant forall t | t in threads && t !in left :: threads[t] == FINISHED || t in tasks
        decreases |left|
      {
        var t := IntSets.Take(left);
        left := left - {t};
        if threads[t] != FINISHED && t !in tasks { return false; }
      }
      return true;
    }

    /** The program state, built task by task. */
    method CurrentState() returns (state: State)
      requires tasks.Keys <= threads.Keys
      ensures state == ProgramState(View())
    {
      var next: map<Tid, Next> := map[];
      var enabledTids: set<Tid> := {};
      var left := tasks.Keys;
      while left != {}
        invariant left <= tasks.Keys
        invariant next == map t | t in tasks && t !in left :: Next(tasks[t], IsEnabled(View(), t))
        invariant enabledTids == set t | t in tasks && t !in left && IsEnabled(View(), t)
        decreases |left|
      {
        var t := IntSets.Take(left);
        left := left - {t};
        var enabled := threads[t] == ENABLED;
        next := next[t := Next(tasks[t], enabled)];
        if enabled { enabledTids := enabledTids + {t}; }
      }
      state := State(enabledTids, next);
    }
  }
}
