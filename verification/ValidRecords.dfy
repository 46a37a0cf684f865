/** Recorded executions are valid runs of the program. */
module ValidRecords {
  import opened Instructions
  import opened PoolSpec
  import opened System
  import opened Base
  import opened SchedulingPoint
  import opened ExecutionRecord
  import opened Runs

  predicate StateFits(st: State) {
    && (forall u | u in st.next :: st.next[u].instr.tid == u)
    && st.enabled == set u | u in st.next && st.next[u].enabled
  }

  /** What may change whether a waiting thread is enabled while `instr` is executed: a lock operation on
      its own mutex, or the end of the thread it wants to join. */
  predicate MayFlip(instr: Instruction, waiting: Instruction, post: State) {
    || (instr.LockInstruction? && waiting.OnObject() && waiting.obj == instr.obj)
    || (waiting.IsJoin() && waiting.operand.tid !in post.next
        && (waiting.Joins(instr.tid) || instr.Spawns(waiting.operand.tid)))
  }

  predicate OtherFits(pre: State, instr: Instruction, post: State, u: Tid) {
    && (u in pre.next && u != instr.tid ==>
          && u in post.next && post.next[u].instr == pre.next[u].instr
          && (post.next[u].enabled != pre.next[u].enabled ==> MayFlip(instr, pre.next[u].instr, post)))
    && (u in post.next && u !in pre.next ==> instr.Spawns(u))
  }

  /** One valid step: the instruction was its thread's next one and enabled; every other thread keeps
      its next instruction, and its enabledness unless the step may flip it; nobody appears but the
      thread spawned. */
  ghost predicate ValidStep(pre: State, instr: Instruction, post: State) {
    && StateFits(pre) && StateFits(post)
    && instr.tid in pre.enabled && instr.tid in pre.next && pre.next[instr.tid] == Next(instr, true)
    && forall u: Tid :: OtherFits(pre, instr, post, u)
  }

  /** The first n transitions are valid steps. */
  ghost predicate ValidUpTo(E: Record, n: nat)
    requires E.s0.Some? && n <= |E.transitions|
  {
    forall i: nat | i < n :: ValidStep(E.StateAt(i), E.transitions[i].instr, E.StateAt(i + 1))
  }

  // Within a round.

  predicate SoFarAt<L, M>(pre: State, c: Core<L, M>, u: Tid)
    requires c.pool.current.Some?
  {
    var i := c.pool.current.value;
    && (u in pre.next && u != i.tid ==>
          && u in c.pool.tasks && c.pool.tasks[u] == pre.next[u].instr
          && (IsEnabled(c.pool, u) != pre.next[u].enabled ==>
                || (i.LockInstruction? && c.pool.tasks[u].OnObject() && c.pool.tasks[u].obj == i.obj)
                || (c.pool.tasks[u].IsJoin() && c.pool.tasks[u].operand.tid in Actors(c.pool)
                    && c.pool.tasks[u].operand.tid in c.pool.threads
                    && c.pool.threads[c.pool.tasks[u].operand.tid] == FINISHED)))
    && (u in c.pool.tasks && u !in pre.next ==> i.Spawns(u))
  }

  /** What has happened since the state `pre` was recorded and the turn was handed out. */
  ghost predicate SoFar<L, M>(pre: State, c: Core<L, M>) {
    && c.pool.current.Some?
    && StateFits(pre)
    && var i := c.pool.current.value;
    && i.tid in pre.next && pre.next[i.tid] == Next(i, true)
    && forall u: Tid :: SoFarAt(pre, c, u)
  }

  /** A critical section leaves the posted instructions of other threads alone, and changes whether they
      are enabled only by the yield of a lock operation on their mutex or the end of the thread they join. */
  lemma OthersKeepTasks<L, M>(P: Program<L, M>, c: Core<L, M>, t: Tid, u: Tid)
    requires Inv(c) && CanStep(c, t) && u != t
    ensures var p := Step(P, c, t).pool;
            && (u in c.pool.tasks <==> u in p.tasks)
            && (u in p.tasks ==>
                  && p.tasks[u] == c.pool.tasks[u]
                  && (IsEnabled(p, u) != IsEnabled(c.pool, u) ==>
                        || (c.phases[t].Ready? && c.pool.current.Some? && c.pool.current.value.LockInstruction?
                            && p.tasks[u].OnObject() && p.tasks[u].obj == c.pool.current.value.obj)
                        || (c.phases[t].Yielded? && c.phases[t].task.None? && p.tasks[u].Joins(t))))
  {
    assert ThreadAt(c, u) && ThreadAt(c, t);
    if c.phases[t].Ready? && c.pool.current.Some? && c.pool.current.value.OnObject() {
      assert IndexedAt(c, c.pool.current.value.obj, u);
    }
    if c.phases[t].Yielded? { assert JoinAt(c, t, u); }
  }

  lemma StaysFinished<L, M>(P: Program<L, M>, c: Core<L, M>, t: Tid, v: Tid)
    requires Inv(c) && CanStep(c, t) && v in c.pool.threads && c.pool.threads[v] == FINISHED
    ensures v in Step(P, c, t).pool.threads && Step(P, c, t).pool.threads[v] == FINISHED
  {
    StepKeepsInv(P, c, t);
    assert ThreadAt(c, v) && ThreadAt(Step(P, c, t), v);
  }

  lemma ThreadsOnlyFinishThemselves<L, M>(P: Program<L, M>, c: Core<L, M>, t: Tid)
    requires Inv(c) && CanStep(c, t) && c.phases[t].Yielded? && c.phases[t].task.None?
    ensures t in Actors(c.pool) && t in Step(P, c, t).pool.threads && Step(P, c, t).pool.threads[t] == FINISHED
  {
    assert TurnAt(c, t);
  }

  lemma StepsAreByActors<L, M>(c: Core<L, M>, t: Tid)
    requires Inv(c) && CanStep(c, t)
    ensures t in Actors(c.pool) && t !in c.pool.tasks
  {
    assert TurnAt(c, t) && ThreadAt(c, t);
  }

  lemma StepKeepsSoFar<L, M>(P: Program<L, M>, pre: State, c: Core<L, M>, t: Tid)
    requires Inv(c) && SoFar(pre, c) && CanStep(c, t)
    ensures SoFar(pre, Step(P, c, t))
  {
    var d := Step(P, c, t);
    StepKeepsCurrent(P, c, t);
    StepsAreByActors(c, t);
    if c.phases[t].Yielded? && c.phases[t].task.None? { ThreadsOnlyFinishThemselves(P, c, t); }
    forall u: Tid ensures SoFarAt(pre, d, u) {
      assert SoFarAt(pre, c, u);
      if u != t {
        OthersKeepTasks(P, c, t, u);
        if u in c.pool.tasks && c.pool.tasks[u].IsJoin() {
          var v := c.pool.tasks[u].operand.tid;
          if v in c.pool.threads && c.pool.threads[v] == FINISHED { StaysFinished(P, c, t, v); }
        }
      }
    }
  }

  lemma GrantStartsSoFar<L, M>(c: Core<L, M>, t: Tid)
    requires Inv(c) && AllPosted(c.pool) && t in c.pool.tasks && IsEnabled(c.pool, t)
    ensures SoFar(ProgramState(c.pool), Grant(c, t))
  {
    var d := Grant(c, t);
    assert ThreadAt(c, t);
    forall u | u in c.pool.tasks ensures c.pool.tasks[u].tid == u { assert ThreadAt(c, u) && CarriedAt(c, u); }
    forall u: Tid ensures SoFarAt(ProgramState(c.pool), d, u) { }
  }

  lemma RoundIsValid<L, M>(pre: State, c: Core<L, M>)
    requires Inv(c) && SoFar(pre, c) && AllPosted(c.pool)
    ensures ValidStep(pre, c.pool.current.value, ProgramState(c.pool))
  {
    var post := ProgramState(c.pool);
    var i := c.pool.current.value;
    forall u | u in c.pool.tasks ensures c.pool.tasks[u].tid == u { assert ThreadAt(c, u) && CarriedAt(c, u); }
    forall u: Tid ensures OtherFits(pre, i, post, u) {
      assert SoFarAt(pre, c, u);
      if u in c.pool.tasks && c.pool.tasks[u].IsJoin() { assert ThreadAt(c, c.pool.tasks[u].operand.tid); }
    }
  }

  // Over whole runs.

  ghost predicate RecordedValidly<L, M>(s: Run<L, M>) {
    && RunInv(s)
    && (s.record.Some? ==>
          var E := s.record.value;
          && ValidUpTo(E, if s.status == DEADLOCK then |E.transitions| - 1 else |E.transitions|)
          && (s.status == RUNNING ==> SoFar(E.Final(), s.core)))
  }

  lemma RecordedIsValid<L, M>(s: Run<L, M>)
    requires RecordedValidly(s) && s.status == RUNNING && AllPosted(s.core.pool)
    ensures Recorded(s).s0.Some? && ValidUpTo(Recorded(s), |Recorded(s).transitions|)
    ensures Recorded(s).Final() == ProgramState(s.core.pool)
  {
    RecordedChains(s);
    if s.taskNr > 0 {
      var (E, F) := (s.record.value, Recorded(s));
      RoundIsValid(E.Final(), s.core);
      forall i: nat | i < |F.transitions| ensures ValidStep(F.StateAt(i), F.transitions[i].instr, F.StateAt(i + 1)) {
        if i < |E.transitions| {
          assert ValidStep(E.StateAt(i), E.transitions[i].instr, E.StateAt(i + 1));
          assert F.StateAt(i) == E.StateAt(i) && F.StateAt(i + 1) == E.StateAt(i + 1);
        } else {
          assert F.StateAt(i) == E.Final();
        }
      }
    }
  }

  lemma SameStates(E: Record, F: Record, n: nat)
    requires E.s0.Some? && F.s0 == E.s0 && n <= |E.transitions| && n <= |F.transitions|
    requires forall i | 0 <= i < n :: F.transitions[i] == E.transitions[i]
    requires ValidUpTo(E, n)
    ensures ValidUpTo(F, n)
  {
    forall i: nat | i < n ensures ValidStep(F.StateAt(i), F.transitions[i].instr, F.StateAt(i + 1)) {
      assert ValidStep(E.StateAt(i), E.transitions[i].instr, E.StateAt(i + 1));
    }
  }

  lemma IterateRecordsValidly<L, M>(cfg: Config, s: Run<L, M>, pick: Tid)
    requires RecordedValidly(s) && CanSchedule(cfg, s, pick)
    ensures RecordedValidly(Iterate(cfg, s, pick))
  {
    IterateKeepsRunInv(cfg, s, pick);
    RecordedIsValid(s);
    RecordedChains(s);
    var (E, d) := (Recorded(s), Iterate(cfg, s, pick));
    if d.status == RUNNING {
      assert ThreadAt(s.core, pick);
      GrantStartsSoFar(s.core, pick);
    } else {
      EndKeepsRecord(cfg, s, pick);
      SameStates(E, d.record.value, |E.transitions|);
    }
  }

  /** Along every run, whatever the program, every executed transition of the record is a valid step. */
  lemma {:induction false} RecordsAreValid<L, M>(P: Program<L, M>, cfg: Config, es: seq<Event>)
    requires IsRun(P, cfg, es)
    ensures RecordedValidly(After(P, cfg, es))
  {
    if es == [] {
      InitialInv(P);
    } else {
      var (s, e) := (After(P, cfg, es[..|es| - 1]), es[|es| - 1]);
      RecordsAreValid(P, cfg, es[..|es| - 1]);
      match e
      case Section(t) =>
        ApplyKeepsRunInv(P, cfg, s, e);
        if s.record.Some? { StepKeepsSoFar(P, s.record.value.Final(), s.core, t); }
      case Iteration(pick) =>
        IterateRecordsValidly(cfg, s, pick);
    }
  }
}
