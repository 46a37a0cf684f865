/** A recorded schedule replays the recorded run, whatever the timing of the threads. */
module Replay {
  import opened Instructions
  import opened PoolSpec
  import opened System
  import opened Base
  import opened Rounds
  import opened SchedulingPoint
  import opened ExecutionRecord
  import opened Runs
  import opened Accounting
  import IntSets

  // The scheduling points and the record that belong to a sequence of turns.

  ghost function Point<L, M>(P: Program<L, M>, turns: seq<Tid>): Core<L, M> {
    if turns == [] then Complete(P, Initial(P))
    else Complete(P, Grant(Point(P, turns[..|turns| - 1]), turns[|turns| - 1]))
  }

  ghost predicate MayTake<L, M>(P: Program<L, M>, turns: seq<Tid>, t: Tid) {
    var p := Point(P, turns).pool;
    AllPosted(p) && t in p.tasks && IsEnabled(p, t) && p.tasks[t].tid == t
  }

  /** Every turn is handed out at a scheduling point, to a thread that is enabled there. */
  ghost predicate Legal<L, M>(P: Program<L, M>, turns: seq<Tid>) {
    turns != [] ==> Legal(P, turns[..|turns| - 1]) && MayTake(P, turns[..|turns| - 1], turns[|turns| - 1])
  }

  ghost function RecordOf<L, M>(P: Program<L, M>, turns: seq<Tid>): (E: Record)
    requires Legal(P, turns)
    ensures E.s0.Some? && |E.transitions| == |turns|
  {
    if turns == [] then NewRecord(Some(ProgramState(Point(P, []).pool)))
    else
      var (before, t) := (turns[..|turns| - 1], turns[|turns| - 1]);
      RecordOf(P, before).PushBack(Point(P, before).pool.tasks[t], ProgramState(Point(P, turns).pool))
  }

  lemma {:induction false} LegalPrefix<L, M>(P: Program<L, M>, turns: seq<Tid>, k: nat)
    requires Legal(P, turns) && k <= |turns|
    ensures Legal(P, turns[..k]) && RecordOf(P, turns[..k]).s0 == RecordOf(P, turns).s0
    ensures RecordOf(P, turns).transitions[..k] == RecordOf(P, turns[..k]).transitions
    ensures k < |turns| ==> MayTake(P, turns[..k], turns[k])
  {
    if k < |turns| {
      var before := turns[..|turns| - 1];
      LegalPrefix(P, before, k);
      assert before[..k] == turns[..k];
    } else {
      assert turns[..k] == turns;
    }
  }

  /** The schedule read off a record is the sequence of turns. */
  lemma {:induction false} ScheduleOfRecord<L, M>(P: Program<L, M>, turns: seq<Tid>)
    requires Legal(P, turns)
    ensures Schedule(RecordOf(P, turns).transitions) == turns
  {
    if turns != [] {
      var E := RecordOf(P, turns[..|turns| - 1]);
      ScheduleOfRecord(P, turns[..|turns| - 1]);
      ScheduleExtends(E.transitions, RecordOf(P, turns).transitions[|turns| - 1]);
    }
  }

  /** In no round both the spawner and the thread it spawns spawn next. */
  ghost predicate TurnsApart<L, M>(P: Program<L, M>, turns: seq<Tid>) {
    turns != [] ==>
      && TurnsApart(P, turns[..|turns| - 1])
      && Apart(P, Grant(Point(P, turns[..|turns| - 1]), turns[|turns| - 1]))
  }

  lemma {:induction false} TurnsApartPrefix<L, M>(P: Program<L, M>, turns: seq<Tid>, k: nat)
    requires TurnsApart(P, turns) && k <= |turns|
    ensures TurnsApart(P, turns[..k])
  {
    if k < |turns| {
      TurnsApartPrefix(P, turns[..|turns| - 1], k);
      assert turns[..|turns| - 1][..k] == turns[..k];
    } else {
      assert turns[..k] == turns;
    }
  }

  /** Where a run is on its path of scheduling points. */
  ghost predicate OnPath<L, M>(P: Program<L, M>, s: Run<L, M>, turns: seq<Tid>) {
    && RunInv(s) && Apart(P, s.core)
    && |turns| == s.taskNr
    && Legal(P, turns)
    && Complete(P, s.core) == Point(P, turns)
    && match s.status
       case RUNNING =>
         turns != [] ==>
           var (before, t) := (turns[..|turns| - 1], turns[|turns| - 1]);
           s.record == Some(RecordOf(P, before)) && s.core.pool.current == Some(Point(P, before).pool.tasks[t])
       case DEADLOCK =>
         exists t :: t in s.core.pool.tasks
           && var E := RecordOf(P, turns).PushBack(s.core.pool.tasks[t], ProgramState(s.core.pool));
              s.record == Some(E.(status := DEADLOCK))
       case _ =>
         s.record == Some(RecordOf(P, turns).(status := s.status))
  }

  lemma RecordedOnPath<L, M>(P: Program<L, M>, s: Run<L, M>, turns: seq<Tid>)
    requires OnPath(P, s, turns) && s.status == RUNNING && AllPosted(s.core.pool)
    ensures s.core == Point(P, turns) && Recorded(s) == RecordOf(P, turns)
  {
    PostedMeansComplete(P, s.core);
  }

  lemma LegalTurn<L, M>(P: Program<L, M>, turns: seq<Tid>, t: Tid)
    requires Legal(P, turns) && MayTake(P, turns, t)
    ensures Legal(P, turns + [t]) && Point(P, turns + [t]) == Complete(P, Grant(Point(P, turns), t))
    ensures (turns + [t])[..|turns|] == turns
  {
    assert (turns + [t])[..|turns|] == turns;
  }

  lemma TurnIsTaken<L, M>(P: Program<L, M>, cfg: Config, s: Run<L, M>, turns: seq<Tid>, t: Tid)
    requires OnPath(P, s, turns) && CanSchedule(cfg, s, t) && Iterate(cfg, s, t).status == RUNNING
    ensures MayTake(P, turns, t) && s.core == Point(P, turns)
    ensures Iterate(cfg, s, t).record == Some(RecordOf(P, turns)) && Iterate(cfg, s, t).core == Grant(s.core, t)
    ensures Grant(s.core, t).pool.current == Some(s.core.pool.tasks[t])
  {
    RecordedOnPath(P, s, turns);
    assert ThreadAt(s.core, t) && CarriedAt(s.core, t);
  }

  lemma TurnKeepsOnPath<L, M>(P: Program<L, M>, cfg: Config, s: Run<L, M>, turns: seq<Tid>, t: Tid)
    requires OnPath(P, s, turns) && CanSchedule(cfg, s, t) && Iterate(cfg, s, t).status == RUNNING
    requires Apart(P, Grant(s.core, t))
    ensures OnPath(P, Iterate(cfg, s, t), turns + [t])
  {
    IterateKeepsRunInv(cfg, s, t);
    TurnIsTaken(P, cfg, s, turns, t);
    LegalTurn(P, turns, t);
  }

  lemma EndKeepsOnPath<L, M>(P: Program<L, M>, cfg: Config, s: Run<L, M>, turns: seq<Tid>, t: Tid)
    requires OnPath(P, s, turns) && CanSchedule(cfg, s, t) && Iterate(cfg, s, t).status != RUNNING
    ensures OnPath(P, Iterate(cfg, s, t), turns)
  {
    IterateKeepsRunInv(cfg, s, t);
    RecordedOnPath(P, s, turns);
    RecordedChains(s);
    SetSameLast(Recorded(s), ProgramState(s.core.pool));
    if Iterate(cfg, s, t).status == DEADLOCK {
      SetSameLast(Recorded(s).PushBack(s.core.pool.tasks[t], ProgramState(s.core.pool)), ProgramState(s.core.pool));
    }
  }

  lemma SectionKeepsOnPath<L, M>(P: Program<L, M>, s: Run<L, M>, turns: seq<Tid>, t: Tid)
    requires OnPath(P, s, turns) && s.status == RUNNING && CanStep(s.core, t)
    ensures OnPath(P, s.(core := Step(P, s.core, t)), turns)
  {
    StepKeepsInv(P, s.core, t);
    StepKeepsApart(P, s.core, t);
    CompleteStep(P, s.core, t);
    StepKeepsCurrent(P, s.core, t);
  }

  lemma SetSameLast(E: Record, post: State)
    requires E.HasFinal()
    ensures E.transitions != [] && E.Final() == post ==> E.SetLastPost(post) == E
  {
  }

  lemma {:induction false} RunsStayOnPath<L, M>(P: Program<L, M>, cfg: Config, es: seq<Event>)
    requires IsRun(P, cfg, es) && TurnsApart(P, Turns(P, cfg, es))
    ensures OnPath(P, After(P, cfg, es), Turns(P, cfg, es))
  {
    if es == [] {
      InitialInv(P);
    } else {
      var (s, e) := (After(P, cfg, es[..|es| - 1]), es[|es| - 1]);
      var turns := Turns(P, cfg, es[..|es| - 1]);
      assert turns + [] == turns;
      match e
      case Section(t) =>
        RunsStayOnPath(P, cfg, es[..|es| - 1]);
        SectionKeepsOnPath(P, s, turns, t);
      case Iteration(t) =>
        if Iterate(cfg, s, t).status == RUNNING {
          assert (turns + [t])[..|turns|] == turns;
          RunsStayOnPath(P, cfg, es[..|es| - 1]);
          RecordedOnPath(P, s, turns);
          TurnKeepsOnPath(P, cfg, s, turns, t);
        } else {
          RunsStayOnPath(P, cfg, es[..|es| - 1]);
          EndKeepsOnPath(P, cfg, s, turns, t);
        }
    }
  }

  // What a record says about the rounds.

  /** After no Spawn both the spawner and the thread it spawned have a Spawn pending. */
  predicate SpawnsApart(ts: seq<Transition>) { forall x | x in ts :: !BothSpawned(x.instr, x.post) }

  /** The rounds that are over are apart, and whether the current one is was settled by its turn. */
  ghost predicate ApartSoFar<L, M>(P: Program<L, M>, s: Run<L, M>, turns: seq<Tid>) {
    if s.status == RUNNING && turns != [] then
      var (before, t) := (turns[..|turns| - 1], turns[|turns| - 1]);
      && TurnsApart(P, before) && s.core.pool.current.Some?
      && (Apart(P, Grant(Point(P, before), t)) <==> !DoubleSpawn(P, s.core))
    else TurnsApart(P, turns)
  }

  lemma RoundWasApart<L, M>(P: Program<L, M>, s: Run<L, M>, turns: seq<Tid>)
    requires RunInv(s) && s.status == RUNNING && AllPosted(s.core.pool) && ApartSoFar(P, s, turns)
    requires |turns| == s.taskNr && SpawnsApart(Recorded(s).transitions)
    ensures TurnsApart(P, turns)
  {
    if turns != [] {
      var ts := Recorded(s).transitions;
      assert ts[|ts| - 1] in ts;
      DoubleSpawnShows(P, s.core);
    }
  }

  lemma TurnStartsApart<L, M>(P: Program<L, M>, cfg: Config, s: Run<L, M>, turns: seq<Tid>, t: Tid)
    requires OnPath(P, s, turns) && TurnsApart(P, turns) && CanSchedule(cfg, s, t)
             && Iterate(cfg, s, t).status == RUNNING
    ensures ApartSoFar(P, Iterate(cfg, s, t), turns + [t])
  {
    RecordedOnPath(P, s, turns);
    assert (turns + [t])[..|turns|] == turns;
    assert ThreadAt(s.core, t);
    GrantIsApart(P, s.core, t);
  }

  lemma {:induction false} RecordTellsApart<L, M>(P: Program<L, M>, cfg: Config, es: seq<Event>)
    requires IsRun(P, cfg, es) && (var r := After(P, cfg, es).record; r.Some? ==> SpawnsApart(r.value.transitions))
    ensures ApartSoFar(P, After(P, cfg, es), Turns(P, cfg, es))
  {
    if es != [] {
      var before := es[..|es| - 1];
      var (s, e, turns) := (After(P, cfg, before), es[|es| - 1], Turns(P, cfg, before));
      RunsKeepInv(P, cfg, before);
      RunsObey(P, cfg, before);
      assert turns + [] == turns;
      match e
      case Section(t) =>
        RecordTellsApart(P, cfg, before);
        StepKeepsDoubleSpawn(P, s.core, t);
        StepKeepsCurrent(P, s.core, t);
      case Iteration(t) =>
        RecordGrows(cfg, s, t);
        RecordTellsApart(P, cfg, before);
        RoundWasApart(P, s, turns);
        if Iterate(cfg, s, t).status == RUNNING {
          RunsStayOnPath(P, cfg, before);
          TurnStartsApart(P, cfg, s, turns, t);
        }
    }
  }

  /** A round of the loop keeps what is recorded, with what it adds first of all. */
  lemma RecordGrows<L, M>(cfg: Config, s: Run<L, M>, t: Tid)
    requires RunInv(s) && CanSchedule(cfg, s, t)
    ensures Iterate(cfg, s, t).record.Some? && Recorded(s).transitions <= Iterate(cfg, s, t).record.value.transitions
    ensures s.record.Some? ==> s.record.value.transitions <= Recorded(s).transitions
  {
    if Iterate(cfg, s, t).status != RUNNING { EndKeepsRecord(cfg, s, t); }
  }

  // Replaying.

  /** Whoever takes a turn after `turns` was enabled there. */
  lemma TurnBeyond<L, M>(P: Program<L, M>, turns: seq<Tid>, more: seq<Tid>)
    requires Legal(P, more) && |turns| < |more|
    requires forall i | 0 <= i < |turns| :: more[i] == turns[i]
    ensures AllPosted(Point(P, turns).pool) && more[|turns|] in EnabledSet(Point(P, turns).pool)
  {
    LegalPrefix(P, more, |turns|);
    assert more[..|turns|] == turns;
  }

  /** What the turns of a run say about it: its record is determined by them, of an open run all but the
      last one, and a closed run is at their last scheduling point. */
  ghost predicate Traced<L, M>(P: Program<L, M>, cfg: Config, s: Run<L, M>, turns: seq<Tid>) {
    && Legal(P, turns)
    && Obeyed(cfg, s, turns)
    && (s.status != RUNNING ==> s.core == Point(P, turns) && s.record.Some?)
    && (s.status in {DONE, DEADLOCK} ==> EnabledSet(s.core.pool) == {})
    && (s.record.Some? ==>
          var E := RecordOf(P, turns);
          && s.record.value.s0 == E.s0
          && (s.status == RUNNING ==>
                s.record.value.transitions <= E.transitions && |s.record.value.transitions| + 1 == |turns|)
          && (s.status in {DONE, ERROR} ==> s.record == Some(E.(status := s.status)))
          && (s.status == DEADLOCK ==>
                |s.record.value.transitions| == |turns| + 1 && s.record.value.transitions[..|turns|] == E.transitions))
  }

  lemma RunsAreTraced<L, M>(P: Program<L, M>, cfg: Config, es: seq<Event>)
    requires IsRun(P, cfg, es) && TurnsApart(P, Turns(P, cfg, es))
    ensures Traced(P, cfg, After(P, cfg, es), Turns(P, cfg, es))
  {
    RunsStayOnPath(P, cfg, es);
    RunsObey(P, cfg, es);
    PathIsTraced(P, cfg, After(P, cfg, es), Turns(P, cfg, es));
  }

  lemma PathIsTraced<L, M>(P: Program<L, M>, cfg: Config, s: Run<L, M>, turns: seq<Tid>)
    requires OnPath(P, s, turns) && Obeyed(cfg, s, turns)
    ensures Traced(P, cfg, s, turns)
  {
    if s.status == RUNNING {
      if s.record.Some? { LegalPrefix(P, turns, |turns| - 1); }
    } else {
      PostedMeansComplete(P, s.core);
      forall t | t in s.core.pool.threads && s.core.pool.tasks == map[] ensures s.core.pool.threads[t] != ENABLED {
        assert ThreadAt(s.core, t);
      }
    }
  }

  /** Run A has ended DONE or in a DEADLOCK, run B is driven by A's turns: B takes no others, and when it
      ends, it ends like A. */
  lemma FollowTurns<L, M>(P: Program<L, M>, cfgA: Config, a: Run<L, M>, turnsA: seq<Tid>,
                                      cfgB: Config, b: Run<L, M>, turnsB: seq<Tid>)
    requires Traced(P, cfgA, a, turnsA) && a.status in {DONE, DEADLOCK}
    requires Traced(P, cfgB, b, turnsB) && cfgB.schedule == turnsA
    ensures turnsB <= turnsA
    ensures b.status != RUNNING ==> b.status == a.status && turnsB == turnsA
  {
    if |turnsB| > |turnsA| { TurnBeyond(P, turnsA, turnsB); }
    if b.status != RUNNING {
      if |turnsB| < |turnsA| { TurnBeyond(P, turnsB, turnsA); } else { assert turnsB == turnsA; }
    }
  }

  lemma FollowRecord<L, M>(P: Program<L, M>, cfgA: Config, a: Run<L, M>, turnsA: seq<Tid>,
                                       cfgB: Config, b: Run<L, M>, turnsB: seq<Tid>)
    requires Traced(P, cfgA, a, turnsA) && a.status in {DONE, DEADLOCK}
    requires Traced(P, cfgB, b, turnsB) && cfgB.schedule == turnsA && b.record.Some?
    ensures b.record.value.s0 == RecordOf(P, turnsA).s0
    ensures b.status == RUNNING ==> b.record.value.transitions <= RecordOf(P, turnsA).transitions
  {
    FollowTurns(P, cfgA, a, turnsA, cfgB, b, turnsB);
    LegalPrefix(P, turnsA, |turnsB|);
    assert turnsA[..|turnsB|] == turnsB;
  }

  /** Run A has ended DONE or in a DEADLOCK, and what it recorded is apart. */
  ghost predicate Original<L, M>(P: Program<L, M>, cfg: Config, es: seq<Event>, a: Run<L, M>) {
    && IsRun(P, cfg, es) && a == After(P, cfg, es) && a.status in {DONE, DEADLOCK}
    && a.record.Some? && SpawnsApart(a.record.value.transitions)
  }

  lemma OriginalIsTraced<L, M>(P: Program<L, M>, cfg: Config, es: seq<Event>, a: Run<L, M>)
    requires Original(P, cfg, es, a)
    ensures Traced(P, cfg, a, Turns(P, cfg, es)) && TurnsApart(P, Turns(P, cfg, es))
    ensures Schedule(RecordOf(P, Turns(P, cfg, es)).transitions) == Turns(P, cfg, es)
  {
    RecordTellsApart(P, cfg, es);
    RunsAreTraced(P, cfg, es);
    ScheduleOfRecord(P, Turns(P, cfg, es));
  }

  /** A run that is driven by A's turns, and whatever more, takes no others, whatever its timing: nothing
      about it has to be assumed. */
  lemma {:induction false} DrivenTurns<L, M>(P: Program<L, M>, cfgA: Config, a: Run<L, M>, turnsA: seq<Tid>,
                                             cfgB: Config, esB: seq<Event>)
    requires Traced(P, cfgA, a, turnsA) && a.status in {DONE, DEADLOCK} && TurnsApart(P, turnsA)
    requires IsRun(P, cfgB, esB) && turnsA <= cfgB.schedule
    ensures Turns(P, cfgB, esB) <= turnsA && TurnsApart(P, Turns(P, cfgB, esB))
  {
    if esB != [] {
      var before := esB[..|esB| - 1];
      var (s, e, turns) := (After(P, cfgB, before), esB[|esB| - 1], Turns(P, cfgB, before));
      DrivenTurns(P, cfgA, a, turnsA, cfgB, before);
      assert turns + [] == turns;
      if e.Iteration? && Iterate(cfgB, s, e.pick).status == RUNNING {
        RunsStayOnPath(P, cfgB, before);
        RecordedOnPath(P, s, turns);
        DrivenTurn(cfgA, a, turnsA, cfgB, s, turns, e.pick);
        DrivenFurther(P, turnsA, turns);
      }
    }
  }

  /** A's turns say who is next, and after them nobody is enabled. */
  lemma DrivenTurn<L, M>(cfgA: Config, a: Run<L, M>, turnsA: seq<Tid>, cfgB: Config, s: Run<L, M>, turns: seq<Tid>,
      pick: Tid)
    requires EnabledSet(a.core.pool) == {} && turnsA <= cfgB.schedule && turns <= turnsA && |turns| == s.taskNr
    requires turns == turnsA ==> s.core == a.core
    requires CanSchedule(cfgB, s, pick) && Iterate(cfgB, s, pick).status == RUNNING
    ensures |turns| < |turnsA| && pick == turnsA[|turns|]
  {
    assert |turns| == |turnsA| ==> turns == turnsA;
    assert pick in EnabledSet(s.core.pool);
  }

  lemma DrivenFurther<L, M>(P: Program<L, M>, turnsA: seq<Tid>, turns: seq<Tid>)
    requires turns < turnsA && TurnsApart(P, turnsA)
    ensures turns + [turnsA[|turns|]] <= turnsA && TurnsApart(P, turns + [turnsA[|turns|]])
  {
    TurnsApartPrefix(P, turnsA, |turns| + 1);
    assert turns + [turnsA[|turns|]] == turnsA[..|turns| + 1];
  }

  /** Both runs, and how the one that is driven by the other's turns relates to it. */
  lemma DrivenRun<L, M>(P: Program<L, M>, cfgA: Config, esA: seq<Event>, a: Run<L, M>, cfgB: Config, esB: seq<Event>,
      b: Run<L, M>)
    requires Original(P, cfgA, esA, a) && IsRun(P, cfgB, esB) && b == After(P, cfgB, esB)
    requires Turns(P, cfgA, esA) <= cfgB.schedule
    ensures Traced(P, cfgA, a, Turns(P, cfgA, esA)) && Traced(P, cfgB, b, Turns(P, cfgB, esB))
    ensures OnPath(P, b, Turns(P, cfgB, esB)) && Turns(P, cfgB, esB) <= Turns(P, cfgA, esA)
    ensures Schedule(RecordOf(P, Turns(P, cfgA, esA)).transitions) == Turns(P, cfgA, esA)
  {
    OriginalIsTraced(P, cfgA, esA, a);
    DrivenTurns(P, cfgA, a, Turns(P, cfgA, esA), cfgB, esB);
    RunsStayOnPath(P, cfgB, esB);
    RunsAreTraced(P, cfgB, esB);
  }

  /** Replay fidelity. Run A has ended DONE, and after no Spawn in its record both spawner and spawned thread
      had a Spawn pending. A run B of the same program that is driven by the schedule of A's record, with any
      strategy and any timing, has at every moment recorded what A recorded, and if it ends, it ends DONE
      with the very same record. */
  lemma ReplayFidelity<L, M>(P: Program<L, M>, cfgA: Config, esA: seq<Event>, a: Run<L, M>,
                             cfgB: Config, esB: seq<Event>, b: Run<L, M>)
    requires Original(P, cfgA, esA, a) && a.status == DONE
    requires IsRun(P, cfgB, esB) && b == After(P, cfgB, esB) && cfgB.schedule == Schedule(a.record.value.transitions)
    ensures b.record.Some? ==> b.record.value.s0 == a.record.value.s0
                               && b.record.value.transitions <= a.record.value.transitions
    ensures b.status != RUNNING ==> b.status == DONE && b.record == a.record
  {
    var (ta, tb) := (Turns(P, cfgA, esA), Turns(P, cfgB, esB));
    OriginalIsTraced(P, cfgA, esA, a);
    DrivenRun(P, cfgA, esA, a, cfgB, esB, b);
    FollowTurns(P, cfgA, a, ta, cfgB, b, tb);
    if b.record.Some? { FollowRecord(P, cfgA, a, ta, cfgB, b, tb); }
  }

  /** Replay of a deadlock. The last entry in the record of a deadlocked run was never executed. Driven by
      the schedule without it, a run records the same transitions and, if it ends, deadlocks as well. */
  lemma ReplayOfDeadlock<L, M>(P: Program<L, M>, cfgA: Config, esA: seq<Event>, a: Run<L, M>,
                               cfgB: Config, esB: seq<Event>, b: Run<L, M>, n: nat)
    requires Original(P, cfgA, esA, a) && a.status == DEADLOCK && |a.record.value.transitions| == n + 1
    requires IsRun(P, cfgB, esB) && b == After(P, cfgB, esB)
    requires cfgB.schedule == Schedule(a.record.value.transitions[..n])
    ensures b.record.Some? ==> b.record.value.s0 == a.record.value.s0
    ensures b.record.Some? && b.status == RUNNING ==> b.record.value.transitions <= a.record.value.transitions[..n]
    ensures b.status != RUNNING ==> b.status == DEADLOCK && b.record.Some? && |b.record.value.transitions| == n + 1
                                    && b.record.value.transitions[..n] == a.record.value.transitions[..n]
  {
    var (ta, tb) := (Turns(P, cfgA, esA), Turns(P, cfgB, esB));
    OriginalIsTraced(P, cfgA, esA, a);
    DrivenRun(P, cfgA, esA, a, cfgB, esB, b);
    FollowTurns(P, cfgA, a, ta, cfgB, b, tb);
    if b.record.Some? { FollowRecord(P, cfgA, a, ta, cfgB, b, tb); }
  }

  lemma ScheduleOfAllButLast(ts: seq<Transition>, n: nat)
    requires |ts| == n + 1
    ensures Schedule(ts) == Schedule(ts[..n]) + [ts[n].instr.tid]
  {
    assert ts == ts[..n] + [ts[n]];
    ScheduleExtends(ts[..n], ts[n]);
  }

  // Every replay ends.

  /** A replay is never stuck: some thread or the scheduler can go on. */
  lemma ReplayGoesOn<L, M>(P: Program<L, M>, cfgA: Config, a: Run<L, M>, turnsA: seq<Tid>,
                           cfgB: Config, b: Run<L, M>, turnsB: seq<Tid>) returns (e: Event)
    requires Traced(P, cfgA, a, turnsA) && a.status in {DONE, DEADLOCK} && RunInv(a)
    requires Traced(P, cfgB, b, turnsB) && OnPath(P, b, turnsB) && b.status == RUNNING && turnsB <= turnsA
    requires turnsA <= cfgB.schedule
    requires |turnsA| < |cfgB.schedule| ==> cfgB.schedule[|turnsA|] in a.core.pool.threads
    ensures CanApply(cfgB, b, e)
  {
    if |turnsB| < |turnsA| { TurnBeyond(P, turnsB, turnsA); } else { assert turnsB == turnsA; }
    if AllPosted(b.core.pool) {
      RecordedOnPath(P, b, turnsB);
      var pick: Tid;
      if |turnsB| < |cfgB.schedule| { pick := cfgB.schedule[|turnsB|]; }
      else if b.core.pool.tasks != map[] { pick := IntSets.Key(b.core.pool.tasks); }
      else { pick := 0; }
      e := Iteration(pick);
    } else {
      var t :| CanStep(b.core, t);
      e := Section(t);
    }
  }

  /** No replay has more events than this, and every one that has not ended can go on: so each of them ends,
      and ends like the original. */
  lemma ReplayEnds<L, M>(P: Program<L, M>, cfgA: Config, esA: seq<Event>, a: Run<L, M>,
                         cfgB: Config, esB: seq<Event>, b: Run<L, M>)
    requires Original(P, cfgA, esA, a) && cfgB.schedule == Schedule(ExecutedPart(a))
    requires IsRun(P, cfgB, esB) && b == After(P, cfgB, esB)
    ensures |esB| <= 9 * |cfgB.schedule| + 4
    ensures if b.status == RUNNING then exists e :: CanApply(cfgB, b, e) else b.status == a.status
  {
    var (ta, tb) := (Turns(P, cfgA, esA), Turns(P, cfgB, esB));
    RunsRecordTheirTurns(P, cfgA, esA);
    DrivenRun(P, cfgA, esA, a, cfgB, esB, b);
    RunsAreBounded(P, cfgB, esB);
    FollowTurns(P, cfgA, a, ta, cfgB, b, tb);
    if b.status == RUNNING {
      RunsKeepInv(P, cfgA, esA);
      var e := ReplayGoesOn(P, cfgA, a, ta, cfgB, b, tb);
    }
  }

  /** From wherever a replay is, it can be carried on to the original's end. */
  lemma {:induction false} ReplayCanEnd<L, M>(P: Program<L, M>, cfgA: Config, esA: seq<Event>, a: Run<L, M>,
                                              cfgB: Config, esB: seq<Event>) returns (full: seq<Event>)
    requires Original(P, cfgA, esA, a) && cfgB.schedule == Schedule(ExecutedPart(a)) && IsRun(P, cfgB, esB)
    ensures esB <= full && IsRun(P, cfgB, full) && After(P, cfgB, full).status == a.status
    decreases 9 * |cfgB.schedule| + 4 - |esB|
  {
    var b := After(P, cfgB, esB);
    ReplayEnds(P, cfgA, esA, a, cfgB, esB, b);
    if b.status != RUNNING {
      full := esB;
    } else {
      var e :| CanApply(cfgB, b, e);
      var next := esB + [e];
      assert next[..|esB|] == esB;
      ReplayEnds(P, cfgA, esA, a, cfgB, next, After(P, cfgB, next));
      full := ReplayCanEnd(P, cfgA, esA, a, cfgB, next);
    }
  }

  // The complete schedule of a deadlock.

  /** The last entry of a deadlocked record is a pending task of a registered thread. */
  lemma LastIsPending<L, M>(P: Program<L, M>, a: Run<L, M>, turns: seq<Tid>)
    requires OnPath(P, a, turns) && a.status == DEADLOCK
    ensures a.record.Some? && |a.record.value.transitions| == |turns| + 1
    ensures a.record.value.transitions[..|turns|] == RecordOf(P, turns).transitions
    ensures a.record.value.transitions[|turns|].instr.tid in a.core.pool.threads
  {
    var t :| t in a.core.pool.tasks && var E := RecordOf(P, turns);
      a.record == Some(E.PushBack(a.core.pool.tasks[t], ProgramState(a.core.pool)).(status := DEADLOCK));
    assert ThreadAt(a.core, t) && CarriedAt(a.core, t);
  }

  lemma LastOfDeadlock<L, M>(P: Program<L, M>, cfg: Config, es: seq<Event>, a: Run<L, M>)
    requires Original(P, cfg, es, a) && a.status == DEADLOCK
    ensures var (turns, schedule) := (Turns(P, cfg, es), Schedule(a.record.value.transitions));
            turns < schedule && schedule[|turns|] in a.core.pool.threads
  {
    OriginalIsTraced(P, cfg, es, a);
    RunsStayOnPath(P, cfg, es);
    LastIsPending(P, a, Turns(P, cfg, es));
    ScheduleOfAllButLast(a.record.value.transitions, |Turns(P, cfg, es)|);
  }

  /** Driven by the complete schedule of a deadlocked record, every run is bounded, can go on until it ends, and
      ends in ERROR: the last entry asks for a thread that cannot run. */
  lemma FullScheduleOfDeadlock<L, M>(P: Program<L, M>, cfgA: Config, esA: seq<Event>, a: Run<L, M>,
                                     cfgB: Config, esB: seq<Event>, b: Run<L, M>)
    requires Original(P, cfgA, esA, a) && a.status == DEADLOCK
    requires IsRun(P, cfgB, esB) && b == After(P, cfgB, esB) && cfgB.schedule == Schedule(a.record.value.transitions)
    ensures |esB| <= 9 * |cfgB.schedule| + 4
    ensures if b.status == RUNNING then exists e :: CanApply(cfgB, b, e) else b.status == ERROR
  {
    LastOfDeadlock(P, cfgA, esA, a);
    DrivenRun(P, cfgA, esA, a, cfgB, esB, b);
    RunsAreBounded(P, cfgB, esB);
    if b.status == RUNNING {
      RunsKeepInv(P, cfgA, esA);
      var e := ReplayGoesOn(P, cfgA, a, Turns(P, cfgA, esA), cfgB, b, Turns(P, cfgB, esB));
    }
  }

  /** Wherever such a run is, it can be carried on to the ERROR. */
  lemma {:induction false} FullScheduleCanEnd<L, M>(P: Program<L, M>, cfgA: Config, esA: seq<Event>, a: Run<L, M>,
                                                    cfgB: Config, esB: seq<Event>) returns (full: seq<Event>)
    requires Original(P, cfgA, esA, a) && a.status == DEADLOCK
    requires IsRun(P, cfgB, esB) && cfgB.schedule == Schedule(a.record.value.transitions)
    ensures esB <= full && IsRun(P, cfgB, full) && After(P, cfgB, full).status == ERROR
    decreases 9 * |cfgB.schedule| + 4 - |esB|
  {
    var b := After(P, cfgB, esB);
    FullScheduleOfDeadlock(P, cfgA, esA, a, cfgB, esB, b);
    if b.status != RUNNING {
      full := esB;
    } else {
      var e :| CanApply(cfgB, b, e);
      var next := esB + [e];
      assert next[..|esB|] == esB;
      FullScheduleOfDeadlock(P, cfgA, esA, a, cfgB, next, After(P, cfgB, next));
      full := FullScheduleCanEnd(P, cfgA, esA, a, cfgB, next);
    }
  }
}
