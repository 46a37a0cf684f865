/** Without the condition on the record a schedule does not replay: where both a spawner and the thread it
    spawned had a Spawn pending, another timing of the threads leads to another record. */
module ReplayLimits {
  import opened Instructions
  import opened PoolSpec
  import opened System
  import opened Base
  import opened Rounds
  import opened SchedulingPoint
  import opened ExecutionRecord
  import opened Runs
  import opened Accounting
  import opened Replay

  // Runs that share their first events.

  /** A run that follows another one's turns can begin with the same events. */
  lemma {:induction false} SameBeginning<L, M>(P: Program<L, M>, cfgA: Config, cfgB: Config, es: seq<Event>)
    requires IsRun(P, cfgA, es) && After(P, cfgA, es).status == RUNNING && Turns(P, cfgA, es) <= cfgB.schedule
    ensures IsRun(P, cfgB, es) && After(P, cfgB, es) == After(P, cfgA, es)
  {
    if es != [] {
      var before := es[..|es| - 1];
      var (s, e) := (After(P, cfgA, before), es[|es| - 1]);
      assert Turns(P, cfgA, before) <= Turns(P, cfgA, es);
      RunsObey(P, cfgA, before);
      SameBeginning(P, cfgA, cfgB, before);
    }
  }

  function Sections(ts: seq<Tid>): seq<Event> { seq(|ts|, i requires 0 <= i < |ts| => Section(ts[i])) }

  lemma SectionsSplit(es: seq<Event>, ts: seq<Tid>)
    requires ts != []
    ensures es + Sections(ts) == es + [Section(ts[0])] + Sections(ts[1..])
  {
  }

  lemma {:induction false} PathIsRun<L, M>(P: Program<L, M>, cfg: Config, es: seq<Event>, ts: seq<Tid>, d: Core<L, M>)
    requires IsRun(P, cfg, es) && After(P, cfg, es).status == RUNNING && IsPath(P, After(P, cfg, es).core, ts, d)
    ensures IsRun(P, cfg, es + Sections(ts)) && After(P, cfg, es + Sections(ts)) == After(P, cfg, es).(core := d)
    decreases |ts|
  {
    if ts == [] {
      assert es + Sections(ts) == es;
    } else {
      var next := es + [Section(ts[0])];
      assert next[..|es|] == es;
      PathIsRun(P, cfg, next, ts[1..], d);
      SectionsSplit(es, ts);
    }
  }

  /** Where the current round of an open run began, and the sections since then. */
  lemma {:induction false} SinceTurn<L, M>(P: Program<L, M>, cfg: Config, es: seq<Event>) returns (n: nat, ts: seq<Tid>)
    requires IsRun(P, cfg, es) && After(P, cfg, es).status == RUNNING && After(P, cfg, es).taskNr > 0
    ensures 0 < n <= |es| && IsRun(P, cfg, es[..n]) && es[n - 1].Iteration?
    ensures var s := After(P, cfg, es[..n]);
            && s == After(P, cfg, es).(core := s.core)
            && IsPath(P, s.core, ts, After(P, cfg, es).core)
            && Turns(P, cfg, es[..n]) == Turns(P, cfg, es)
  {
    var before := es[..|es| - 1];
    if es[|es| - 1].Iteration? {
      n, ts := |es|, [];
      assert es[..n] == es;
    } else {
      var t := es[|es| - 1].tid;
      n, ts := SinceTurn(P, cfg, before);
      assert before[..n] == es[..n];
      var c := After(P, cfg, before).core;
      assert IsPath(P, c, [t], After(P, cfg, es).core) by { assert [t][1..] == []; }
      PathJoins(P, After(P, cfg, es[..n]).core, ts, c, [t], After(P, cfg, es).core);
      ts := ts + [t];
      assert Turns(P, cfg, before) + [] == Turns(P, cfg, before);
    }
  }

  /** The event after the first n ones recorded the i-th transition: the round of the loop after its turn. */
  ghost predicate RecordsAt<L, M>(P: Program<L, M>, cfg: Config, es: seq<Event>, n: nat, i: nat, x: Transition) {
    && n < |es| && es[n].Iteration? && IsRun(P, cfg, es[..n]) && CanApply(cfg, After(P, cfg, es[..n]), es[n])
    && var s := After(P, cfg, es[..n]);
    && s.status == RUNNING && s.taskNr == i + 1
    && s.core.pool.current == Some(x.instr) && ProgramState(s.core.pool) == x.post
    && Turns(P, cfg, es[..n + 1]) <= Turns(P, cfg, es)
  }

  lemma {:induction false} RecordedBy<L, M>(P: Program<L, M>, cfg: Config, es: seq<Event>, i: nat) returns (n: nat)
    requires IsRun(P, cfg, es) && i < |ExecutedPart(After(P, cfg, es))|
    ensures RecordsAt(P, cfg, es, n, i, ExecutedPart(After(P, cfg, es))[i])
  {
    var before := es[..|es| - 1];
    var (s, e) := (After(P, cfg, before), es[|es| - 1]);
    if e.Iteration? { PartGrows(P, cfg, before, e.pick); }
    if i < |ExecutedPart(s)| {
      n := RecordedBy(P, cfg, before, i);
      StillRecordsAt(P, cfg, es, n, i, ExecutedPart(s)[i]);
    } else {
      n := |es| - 1;
      RunsKeepInv(P, cfg, before);
      NewestIsCurrent(s, i);
      assert es[..n] == before && es[..n + 1] == es;
    }
  }

  lemma StillRecordsAt<L, M>(P: Program<L, M>, cfg: Config, es: seq<Event>, n: nat, i: nat, x: Transition)
    requires es != [] && RecordsAt(P, cfg, es[..|es| - 1], n, i, x)
    ensures RecordsAt(P, cfg, es, n, i, x)
  {
    var before := es[..|es| - 1];
    assert before[..n] == es[..n] && before[..n + 1] == es[..n + 1] && before[n] == es[n];
  }

  lemma NewestIsCurrent<L, M>(s: Run<L, M>, i: nat)
    requires RunInv(s) && s.status == RUNNING && |ExecutedPart(s)| <= i < |Recorded(s).transitions|
    ensures var x := Recorded(s).transitions[i];
            s.taskNr == i + 1 && s.core.pool.current == Some(x.instr) && ProgramState(s.core.pool) == x.post
  {
  }

  lemma PartGrows<L, M>(P: Program<L, M>, cfg: Config, es: seq<Event>, pick: Tid)
    requires IsRun(P, cfg, es) && CanSchedule(cfg, After(P, cfg, es), pick)
    ensures ExecutedPart(Iterate(cfg, After(P, cfg, es), pick)) == Recorded(After(P, cfg, es)).transitions
    ensures ExecutedPart(After(P, cfg, es)) <= Recorded(After(P, cfg, es)).transitions
  {
    var s := After(P, cfg, es);
    RunsKeepInv(P, cfg, es);
    RunsObey(P, cfg, es);
    RunsRecordTheirTurns(P, cfg, es);
    if Iterate(cfg, s, pick).status == RUNNING { TurnRecordsTurns(cfg, s, Turns(P, cfg, es), pick); }
    else { EndRecordsTurns(cfg, s, Turns(P, cfg, es), pick); }
  }

  // Rounds that end differently.

  lemma {:induction false} PathKeeps<L, M>(P: Program<L, M>, c: Core<L, M>, ts: seq<Tid>, d: Core<L, M>, u: Tid)
    requires Inv(c) && IsPath(P, c, ts, d) && c.pool.current.Some? && c.pool.current.value.IsSpawn()
    ensures Inv(d) && d.pool.current == c.pool.current && (DoubleSpawn(P, d) <==> DoubleSpawn(P, c))
    ensures AllPosted(d.pool)
            ==> (u in d.pool.threads <==> u in c.pool.threads || u == c.pool.current.value.operand.tid)
    decreases |ts|
  {
    if ts == [] {
      var k := c.pool.current.value.operand.tid;
      assert TurnAt(c, c.pool.current.value.tid) && CarriedAt(c, c.pool.current.value.tid) && ThreadAt(c, k);
      PostedMeansQuiet(c);
    } else {
      StepKeepsInv(P, c, ts[0]);
      StepKeepsDoubleSpawn(P, c, ts[0]);
      StepRegisters(P, c, ts[0], u);
      PathKeeps(P, Step(P, c, ts[0]), ts[1..], d, u);
    }
  }

  lemma StepRegisters<L, M>(P: Program<L, M>, c: Core<L, M>, t: Tid, u: Tid)
    requires Inv(c) && CanStep(c, t) && c.pool.current.Some? && c.pool.current.value.IsSpawn()
    ensures Step(P, c, t).pool.current == c.pool.current
    ensures u in c.pool.threads ==> u in Step(P, c, t).pool.threads
    ensures u in Step(P, c, t).pool.threads ==> u in c.pool.threads || u == c.pool.current.value.operand.tid
  {
    assert TurnAt(c, t) && ThreadAt(c, t);
  }

  lemma OnlyOneSpawns<L, M>(c: Core<L, M>, t: Tid, k: Tid, n: Tid)
    requires Inv(c) && t != k && k in c.pool.tasks && c.pool.tasks[k].Spawns(n)
    ensures !(t in c.pool.tasks && c.pool.tasks[t].Spawns(n))
  {
    assert ThreadAt(c, t) && ThreadAt(c, k) && ReservedAt(c, n) && SpawnsAt(c, k, n);
    if t in c.pool.tasks && c.pool.tasks[t].Spawns(n) { assert SpawnsAt(c, t, n); }
  }

  /** Another end of a round after which both have a Spawn pending. */
  lemma OtherEnd<L, M>(P: Program<L, M>, c: Core<L, M>, ts: seq<Tid>, d: Core<L, M>)
    returns (us: seq<Tid>, e: Core<L, M>)
    requires Inv(c) && !Apart(P, c) && IsPath(P, c, ts, d) && AllPosted(d.pool)
    ensures IsPath(P, c, us, e) && Inv(e) && AllPosted(e.pool)
    ensures ProgramState(e.pool) != ProgramState(d.pool)
  {
    var (t, k) := (c.pool.current.value.tid, c.pool.current.value.operand.tid);
    PathKeeps(P, c, ts, d, t);
    var first, m := BothCanBeAboutTo(P, c, t, k);
    var n := |m.phases|;
    var x, f := SpawnInOrder(P, m, t, k);
    var y, g := SpawnInOrder(P, m, k, t);
    PathJoins(P, c, first, m, x, f);
    PathJoins(P, c, first, m, y, g);
    OnlyOneSpawns(g, t, k, n);
    if t in d.pool.tasks && d.pool.tasks[t].Spawns(n) {
      us, e := first + y, g;
      assert t in ProgramState(d.pool).next;
    } else {
      us, e := first + x, f;
      assert t in ProgramState(f.pool).next;
    }
  }

  lemma RoundStart<L, M>(P: Program<L, M>, cfg: Config, es: seq<Event>, s: Run<L, M>)
    returns (first: seq<Event>, r: Run<L, M>, ts: seq<Tid>)
    requires IsRun(P, cfg, es) && s == After(P, cfg, es) && s.status == RUNNING && s.taskNr > 0
    ensures IsRun(P, cfg, first) && r == After(P, cfg, first) && Turns(P, cfg, first) == Turns(P, cfg, es)
    ensures s == r.(core := s.core) && IsPath(P, r.core, ts, s.core) && Inv(r.core) && Inv(s.core)
    ensures r.core.pool.current == s.core.pool.current
    ensures Apart(P, r.core) <==> !DoubleSpawn(P, r.core)
  {
    RunsKeepInv(P, cfg, es);
    var m;
    m, ts := SinceTurn(P, cfg, es);
    first := es[..m];
    r := After(P, cfg, first);
    TurnsStart(P, cfg, first);
    RunsKeepInv(P, cfg, first);
    PathKeepsCurrent(P, r.core, ts, s.core);
  }

  lemma {:induction false} PathKeepsCurrent<L, M>(P: Program<L, M>, c: Core<L, M>, ts: seq<Tid>, d: Core<L, M>)
    requires IsPath(P, c, ts, d)
    ensures d.pool.current == c.pool.current
    decreases |ts|
  {
    if ts != [] {
      StepKeepsCurrent(P, c, ts[0]);
      PathKeepsCurrent(P, Step(P, c, ts[0]), ts[1..], d);
    }
  }

  /** A run that is about to record a double spawn, driven by the same turns but with another timing. */
  lemma BeforeOtherEnd<L, M>(P: Program<L, M>, cfgA: Config, es: seq<Event>, cfgB: Config, s: Run<L, M>)
    returns (fs: seq<Event>, e: Core<L, M>)
    requires IsRun(P, cfgA, es) && s == After(P, cfgA, es) && s.status == RUNNING && s.taskNr > 0
    requires AllPosted(s.core.pool) && s.core.pool.current.Some?
    requires BothSpawned(s.core.pool.current.value, ProgramState(s.core.pool))
    requires Turns(P, cfgA, es) <= cfgB.schedule
    ensures IsRun(P, cfgB, fs) && After(P, cfgB, fs) == s.(core := e)
    ensures AllPosted(e.pool) && ProgramState(e.pool) != ProgramState(s.core.pool)
    ensures forall u | u in s.core.pool.threads :: u in e.pool.threads
  {
    var first, r, ts := RoundStart(P, cfgA, es, s);
    var us;
    us, e := OtherRound(P, r.core, ts, s.core);
    fs := OtherRun(P, cfgA, first, r, cfgB, us, e);
  }

  lemma OtherRun<L, M>(P: Program<L, M>, cfgA: Config, es: seq<Event>, r: Run<L, M>, cfgB: Config, us: seq<Tid>,
      e: Core<L, M>)
    returns (fs: seq<Event>)
    requires IsRun(P, cfgA, es) && r == After(P, cfgA, es) && r.status == RUNNING && Turns(P, cfgA, es) <= cfgB.schedule
    requires IsPath(P, r.core, us, e)
    ensures IsRun(P, cfgB, fs) && After(P, cfgB, fs) == r.(core := e)
  {
    SameBeginning(P, cfgA, cfgB, es);
    PathIsRun(P, cfgB, es, us, e);
    fs := es + Sections(us);
  }

  lemma OtherRound<L, M>(P: Program<L, M>, c: Core<L, M>, ts: seq<Tid>, d: Core<L, M>)
    returns (us: seq<Tid>, e: Core<L, M>)
    requires Inv(c) && IsPath(P, c, ts, d) && Inv(d) && AllPosted(d.pool) && c.pool.current == d.pool.current
    requires c.pool.current.Some? && BothSpawned(c.pool.current.value, ProgramState(d.pool))
    requires Apart(P, c) <==> !DoubleSpawn(P, c)
    ensures IsPath(P, c, us, e) && AllPosted(e.pool) && ProgramState(e.pool) != ProgramState(d.pool)
    ensures forall u | u in d.pool.threads :: u in e.pool.threads
  {
    SameRound(P, c, ts, d);
    us, e := OtherEnd(P, c, ts, d);
    forall u | u in d.pool.threads ensures u in e.pool.threads {
      PathKeeps(P, c, ts, d, u);
      PathKeeps(P, c, us, e, u);
    }
  }

  lemma SameRound<L, M>(P: Program<L, M>, c: Core<L, M>, ts: seq<Tid>, d: Core<L, M>)
    requires Inv(c) && IsPath(P, c, ts, d) && Inv(d) && AllPosted(d.pool) && c.pool.current == d.pool.current
    requires c.pool.current.Some? && BothSpawned(c.pool.current.value, ProgramState(d.pool))
    requires Apart(P, c) <==> !DoubleSpawn(P, c)
    ensures !Apart(P, c)
  {
    DoubleSpawnShows(P, d);
    PathKeeps(P, c, ts, d, 0);
  }

  lemma TurnsStart<L, M>(P: Program<L, M>, cfg: Config, es: seq<Event>)
    requires IsRun(P, cfg, es) && es != [] && es[|es| - 1].Iteration? && After(P, cfg, es).status == RUNNING
    ensures Apart(P, After(P, cfg, es).core) <==> !DoubleSpawn(P, After(P, cfg, es).core)
  {
    var (s, pick) := (After(P, cfg, es[..|es| - 1]), es[|es| - 1].pick);
    RunsKeepInv(P, cfg, es[..|es| - 1]);
    assert ThreadAt(s.core, pick);
    GrantIsApart(P, s.core, pick);
  }

  // A pending Spawn is never disabled, so that a run goes on after a double spawn.

  predicate SpawnEnabledAt(p: Pool, t: Tid) {
    t in p.tasks && p.tasks[t].IsSpawn() ==> t in p.threads && p.threads[t] == ENABLED
  }

  lemma StepKeepsSpawnEnabled<L, M>(P: Program<L, M>, c: Core<L, M>, t: Tid, u: Tid)
    requires Inv(c) && CanStep(c, t) && SpawnEnabledAt(c.pool, u)
    ensures SpawnEnabledAt(Step(P, c, t).pool, u)
  {
    assert ThreadAt(c, u) && CarriedAt(c, u) && CarriedAt(c, t);
    if c.phases[t].Ready? && c.pool.current.Some? && c.pool.current.value.OnObject() {
      assert IndexedAt(c, c.pool.current.value.obj, u);
    }
    if c.phases[t].Yielded? && c.phases[t].task.None? { assert JoinAt(c, t, u); }
  }

  lemma {:induction false} RunsKeepSpawnEnabled<L, M>(P: Program<L, M>, cfg: Config, es: seq<Event>, u: Tid)
    requires IsRun(P, cfg, es)
    ensures SpawnEnabledAt(After(P, cfg, es).core.pool, u)
  {
    if es != [] {
      RunsKeepSpawnEnabled(P, cfg, es[..|es| - 1], u);
      RunsKeepInv(P, cfg, es[..|es| - 1]);
      match es[|es| - 1]
      case Section(t) => StepKeepsSpawnEnabled(P, After(P, cfg, es[..|es| - 1]).core, t, u);
      case Iteration(pick) =>
    }
  }

  /** When a run has ended DONE or in a deadlock, no Spawn is pending. */
  lemma NoSpawnIsLeft<L, M>(P: Program<L, M>, cfg: Config, es: seq<Event>, u: Tid)
    requires IsRun(P, cfg, es) && After(P, cfg, es).status in {DONE, DEADLOCK}
    ensures var p := After(P, cfg, es).core.pool; u in p.tasks ==> !p.tasks[u].IsSpawn()
  {
    RunsKeepSpawnEnabled(P, cfg, es, u);
    RunsObey(P, cfg, es);
    var p := After(P, cfg, es).core.pool;
    assert u in p.threads && p.threads[u] == ENABLED ==> u in EnabledSet(p);
  }

  lemma RunWentOn<L, M>(P: Program<L, M>, cfg: Config, es: seq<Event>, n: nat, u: Tid)
    requires IsRun(P, cfg, es) && n < |es| && After(P, cfg, es).status in {DONE, DEADLOCK}
    requires es[n].Iteration? && IsRun(P, cfg, es[..n]) && CanApply(cfg, After(P, cfg, es[..n]), es[n])
    requires var p := After(P, cfg, es[..n]).core.pool; u in p.tasks && p.tasks[u].IsSpawn()
    ensures After(P, cfg, es[..n + 1]) == Iterate(cfg, After(P, cfg, es[..n]), es[n].pick)
    ensures After(P, cfg, es[..n + 1]).status == RUNNING
  {
    assert es[..n + 1][..n] == es[..n] && es[..|es|] == es;
    if n + 1 < |es| {
      PrefixIsRun(P, cfg, es, n + 2);
      assert es[..n + 2][..n + 1] == es[..n + 1];
    } else {
      NoSpawnIsLeft(P, cfg, es, u);
    }
  }

  lemma {:induction false} PrefixIsRun<L, M>(P: Program<L, M>, cfg: Config, es: seq<Event>, k: nat)
    requires IsRun(P, cfg, es) && k <= |es|
    ensures IsRun(P, cfg, es[..k])
  {
    if k < |es| {
      PrefixIsRun(P, cfg, es[..|es| - 1], k);
      assert es[..|es| - 1][..k] == es[..k];
    } else {
      assert es[..k] == es;
    }
  }

  /** The round of the loop that records the other state. */
  lemma OneMoreRound<L, M>(P: Program<L, M>, cfgB: Config, fs: seq<Event>, s: Run<L, M>, pick: Tid, ts: seq<Transition>)
    returns (b: Run<L, M>)
    requires IsRun(P, cfgB, fs) && s == After(P, cfgB, fs) && s.status == RUNNING && AllPosted(s.core.pool)
    requires 0 < s.taskNr < |cfgB.schedule| && cfgB.schedule[s.taskNr] == pick && pick in s.core.pool.threads
    requires s.taskNr <= |ts| && ts[s.taskNr - 1].post != ProgramState(s.core.pool)
    ensures IsRun(P, cfgB, fs + [Iteration(pick)]) && b == After(P, cfgB, fs + [Iteration(pick)])
    ensures !(ExecutedPart(b) <= ts)
  {
    assert (fs + [Iteration(pick)])[..|fs|] == fs;
    b := Iterate(cfgB, s, pick);
    RunsKeepInv(P, cfgB, fs);
    RecordedChains(s);
    RecordGrows(cfgB, s, pick);
    assert b.record.value.transitions[s.taskNr - 1] == Recorded(s).transitions[s.taskNr - 1];
  }

  /** Where the run recorded the transition, and whose turn came next. */
  lemma TurnAfter<L, M>(P: Program<L, M>, cfg: Config, es: seq<Event>, a: Run<L, M>, i: nat)
    returns (before: seq<Event>, s: Run<L, M>, pick: Tid)
    requires IsRun(P, cfg, es) && a == After(P, cfg, es) && a.status in {DONE, DEADLOCK} && i < |ExecutedPart(a)|
    requires BothSpawned(ExecutedPart(a)[i].instr, ExecutedPart(a)[i].post)
    ensures var x := ExecutedPart(a)[i];
            && IsRun(P, cfg, before) && s == After(P, cfg, before) && s.status == RUNNING && s.taskNr == i + 1
            && AllPosted(s.core.pool) && s.core.pool.current == Some(x.instr) && ProgramState(s.core.pool) == x.post
    ensures pick in s.core.pool.threads && |Turns(P, cfg, before)| == s.taskNr
    ensures Turns(P, cfg, before) + [pick] <= Schedule(ExecutedPart(a))
  {
    RunsRecordTheirTurns(P, cfg, es);
    var n := RecordedBy(P, cfg, es, i);
    before, s, pick := es[..n], After(P, cfg, es[..n]), es[n].pick;
    RunWentOn(P, cfg, es, n, s.core.pool.current.value.tid);
    RunsObey(P, cfg, before);
    assert es[..n + 1][..n] == before;
    assert Turns(P, cfg, es[..n + 1]) == Turns(P, cfg, before) + [pick];
  }

  /** A run that ended DONE or in a deadlock and whose record shows a double spawn has a replay that records
      something else. */
  lemma DoubleSpawnBreaksReplay<L, M>(P: Program<L, M>, cfgA: Config, esA: seq<Event>, a: Run<L, M>, cfgB: Config)
    returns (esB: seq<Event>, b: Run<L, M>)
    requires IsRun(P, cfgA, esA) && a == After(P, cfgA, esA) && a.status in {DONE, DEADLOCK}
    requires !SpawnsApart(ExecutedPart(a)) && cfgB.schedule == Schedule(ExecutedPart(a))
    ensures IsRun(P, cfgB, esB) && b == After(P, cfgB, esB)
    ensures !(ExecutedPart(b) <= ExecutedPart(a))
  {
    var ts := ExecutedPart(a);
    var i: nat :| i < |ts| && BothSpawned(ts[i].instr, ts[i].post);
    var before, s, pick := TurnAfter(P, cfgA, esA, a, i);
    var fs, e := BeforeOtherEnd(P, cfgA, before, cfgB, s);
    b := OneMoreRound(P, cfgB, fs, s.(core := e), pick, ts);
    esB := fs + [Iteration(pick)];
  }

  /** Every run of the configuration has at every moment executed what a executed, as far as it is. */
  ghost predicate Repeats<L, M>(P: Program<L, M>, cfg: Config, a: Run<L, M>) {
    forall es: seq<Event> | IsRun(P, cfg, es) :: ExecutedPart(After(P, cfg, es)) <= ExecutedPart(a)
  }

  /** The transition that a deadlock adds is of no Spawn. */
  lemma AddedIsNoSpawn<L, M>(P: Program<L, M>, cfg: Config, es: seq<Event>, a: Run<L, M>)
    requires IsRun(P, cfg, es) && a == After(P, cfg, es) && a.status in {DONE, DEADLOCK} && a.record.Some?
    ensures SpawnsApart(ExecutedPart(a)) <==> SpawnsApart(a.record.value.transitions)
  {
    RunsKeepInv(P, cfg, es);
    var ts := a.record.value.transitions;
    if a.status == DEADLOCK {
      var x := ts[|ts| - 1];
      assert ts == ExecutedPart(a) + [x];
      assert a.record.value.Final() == x.post;
      if BothSpawned(x.instr, x.post) { NoSpawnIsLeft(P, cfg, es, x.instr.tid); }
    }
  }

  /** The schedule of a run that ended DONE or in a deadlock repeats it, whatever the timing and the strategy,
      exactly if after no Spawn in its record both the spawner and the thread it spawned have a Spawn pending. */
  lemma ReplayIsFaithfulIff<L, M>(P: Program<L, M>, cfgA: Config, esA: seq<Event>, a: Run<L, M>, cfgB: Config)
    requires IsRun(P, cfgA, esA) && a == After(P, cfgA, esA) && a.status in {DONE, DEADLOCK}
    requires cfgB.schedule == Schedule(ExecutedPart(a))
    ensures a.record.Some? && (Repeats(P, cfgB, a) <==> SpawnsApart(a.record.value.transitions))
  {
    RunsKeepInv(P, cfgA, esA);
    AddedIsNoSpawn(P, cfgA, esA, a);
    if SpawnsApart(a.record.value.transitions) {
      forall es: seq<Event> | IsRun(P, cfgB, es) ensures ExecutedPart(After(P, cfgB, es)) <= ExecutedPart(a) {
        ReplayRepeats(P, cfgA, esA, a, cfgB, es);
      }
    } else {
      var es, b := DoubleSpawnBreaksReplay(P, cfgA, esA, a, cfgB);
    }
  }

  lemma ReplayRepeats<L, M>(P: Program<L, M>, cfgA: Config, esA: seq<Event>, a: Run<L, M>,
                            cfgB: Config, esB: seq<Event>)
    requires Original(P, cfgA, esA, a) && cfgB.schedule == Schedule(ExecutedPart(a)) && IsRun(P, cfgB, esB)
    ensures ExecutedPart(After(P, cfgB, esB)) <= ExecutedPart(a)
  {
    if a.status == DONE { ReplayFidelity(P, cfgA, esA, a, cfgB, esB, After(P, cfgB, esB)); }
    else { DeadlockRepeats(P, cfgA, esA, a, cfgB, esB); }
  }

  lemma DeadlockRepeats<L, M>(P: Program<L, M>, cfgA: Config, esA: seq<Event>, a: Run<L, M>,
                              cfgB: Config, esB: seq<Event>)
    requires Original(P, cfgA, esA, a) && a.status == DEADLOCK
    requires cfgB.schedule == Schedule(ExecutedPart(a)) && IsRun(P, cfgB, esB)
    ensures ExecutedPart(After(P, cfgB, esB)) <= ExecutedPart(a)
  {
    RunsKeepInv(P, cfgA, esA);
    ReplayOfDeadlock(P, cfgA, esA, a, cfgB, esB, After(P, cfgB, esB), |a.record.value.transitions| - 1);
  }
}
