/** What a turn makes of the object it is on: each turn is yielded once, and what the pool then says of the
    object is right under an exact condition, whatever the program does. */
module Yields {
  import opened Instructions
  import opened PoolSpec
  import opened System
  import opened Base
  import opened Discipline
  import opened SchedulingPoint
  import opened ExecutionRecord
  import opened Runs
  import opened Accounting

  // Turns and yields.

  /** The next section of the thread is a yield that has an effect. */
  predicate YieldsTurn<L, M>(c: Core<L, M>, t: Tid) {
    InRange(c, t) && c.phases[t].Ready? && c.pool.current.Some? && c.pool.current.value.tid == t
  }

  /** How often the turn of the thread was yielded. */
  function YieldsOf<L, M>(P: Program<L, M>, cfg: Config, es: seq<Event>, t: Tid): nat {
    if es == [] then 0
    else
      YieldsOf(P, cfg, es[..|es| - 1], t)
      + if es[|es| - 1] == Section(t) && YieldsTurn(After(P, cfg, es[..|es| - 1]).core, t) then 1 else 0
  }

  /** How often it was handed out. */
  function TurnsOf<L, M>(P: Program<L, M>, cfg: Config, es: seq<Event>, t: Tid): nat {
    multiset(Turns(P, cfg, es))[t]
  }

  predicate HasTurn<L, M>(c: Core<L, M>, t: Tid) { Unyielded(c) && c.pool.current.value.tid == t }

  lemma SectionKeepsTurn<L, M>(P: Program<L, M>, c: Core<L, M>, t: Tid, u: Tid)
    requires Inv(c) && CanStep(c, u)
    ensures HasTurn(c, t) <==> HasTurn(Step(P, c, u), t) || (u == t && YieldsTurn(c, t))
    ensures HasTurn(Step(P, c, u), t) ==> !(u == t && YieldsTurn(c, t))
  {
    assert TurnAt(c, u) && CarriedAt(c, u);
  }

  lemma IterationStartsTurn<L, M>(cfg: Config, s: Run<L, M>, pick: Tid, t: Tid)
    requires RunInv(s) && CanSchedule(cfg, s, pick)
    ensures !HasTurn(s.core, t)
    ensures HasTurn(Iterate(cfg, s, pick).core, t) <==> pick == t && Iterate(cfg, s, pick).status == RUNNING
  {
    PostedMeansQuiet(s.core);
    assert ThreadAt(s.core, pick) && CarriedAt(s.core, pick);
  }

  /** Every turn handed out is yielded exactly once, but for the one that is not over. */
  lemma {:induction false} TurnsAreYielded<L, M>(P: Program<L, M>, cfg: Config, es: seq<Event>, t: Tid)
    requires IsRun(P, cfg, es)
    ensures TurnsOf(P, cfg, es, t)
            == YieldsOf(P, cfg, es, t) + if HasTurn(After(P, cfg, es).core, t) then 1 else 0
  {
    if es != [] {
      var (s, e) := (After(P, cfg, es[..|es| - 1]), es[|es| - 1]);
      TurnsAreYielded(P, cfg, es[..|es| - 1], t);
      RunsKeepInv(P, cfg, es[..|es| - 1]);
      match e
      case Section(u) => SectionKeepsTurn(P, s.core, t, u);
      case Iteration(pick) => IterationStartsTurn(cfg, s, pick, t);
    }
  }

  /** At every scheduling point, and when a run is closed, all turns have been yielded. */
  lemma AllTurnsYielded<L, M>(P: Program<L, M>, cfg: Config, es: seq<Event>, t: Tid)
    requires IsRun(P, cfg, es) && AllPosted(After(P, cfg, es).core.pool)
    ensures TurnsOf(P, cfg, es, t) == YieldsOf(P, cfg, es, t)
  {
    TurnsAreYielded(P, cfg, es, t);
    RunsKeepInv(P, cfg, es);
    PostedMeansQuiet(After(P, cfg, es).core);
  }

  // What the pool says of an object from one scheduling point to the next.

  /** Everybody who waits on x, or posts on it next, has or gets the status that fits the real mutex. */
  ghost predicate FitsAt<L, M>(c: Core<L, M>, x: Addr) {
    WaitersFit(c.pool, x, c.owners) && PostersFit(c.pool, x, c.owners)
  }

  /** What has to hold before a turn for i: an Unlock; a Lock with only Locks waiting; an access whose parity agrees
      with the mutex, with everybody else's status right before. */
  ghost predicate WillFit(p: Pool, i: Instruction, owners: map<Addr, Tid>) {
    || i.IsUnlock()
    || (i.IsLock() && forall t | t != i.tid && WaitsOn(p, t, i.obj) :: p.tasks[t].IsLock())
    || (i.MemoryInstruction? && (i.Writes() <==> i.obj in owners)
        && forall t | t != i.tid && WaitsOn(p, t, i.obj) ::
             t in p.threads && p.threads[t] == AsStatus(CanRun(owners, p.tasks[t])))
  }

  /** During the turn: the instruction has been executed, and the yield and the post keep what will be. */
  ghost predicate OnItsWay<L, M>(c: Core<L, M>, i: Instruction, fits: bool) {
    && c.pool.current == Some(i) && i.OnObject() && InRange(c, i.tid)
    && match c.phases[i.tid]
       case Granted(_, _) => fits <==> WillFit(c.pool, i, c.owners)
       case Registering(_, _) => false
       case Running(_) => RealOwners(c.owners, i) == c.owners && (fits <==> WillFit(c.pool, i, c.owners))
       case Ready(_, _) => RealOwners(c.owners, i) == c.owners && (fits <==> WillFit(c.pool, i, c.owners))
       case _ => fits <==> FitsAt(c, i.obj)
  }

  lemma YieldFits<L, M>(P: Program<L, M>, c: Core<L, M>, i: Instruction, fits: bool)
    requires Inv(c) && OnItsWay(c, i, fits) && CanStep(c, i.tid) && c.phases[i.tid].Ready?
    ensures OnItsWay(Step(P, c, i.tid), i, fits)
  {
    YieldIndexesTasks(c, i.tid);
    YieldFitsPostersIff(c.pool, i, c.owners);
    YieldFitsWaitersIff(c.pool, i, c.owners);
    assert forall t | WaitsOn(c.pool, t, i.obj) :: t != i.tid;
  }

  /** The others keep their tasks and statuses when a thread posts. */
  lemma PostSparesOthers(p: Pool, t: Tid, i: Instruction, x: Addr)
    requires i.tid == t && (PostThrows(p, i) ==> i.IsJoin())
    ensures ObjectAt(Posted(p, t, i), x).Locked() == ObjectAt(p, x).Locked()
    ensures forall u | u != t :: WaitsOn(Posted(p, t, i), u, x) <==> WaitsOn(p, u, x)
    ensures forall u | u != t :: u in Posted(p, t, i).threads <==> u in p.threads
    ensures forall u | u != t && u in p.threads :: Posted(p, t, i).threads[u] == p.threads[u]
  {
  }

  lemma PostFits<L, M>(P: Program<L, M>, c: Core<L, M>, i: Instruction, fits: bool)
    requires Inv(c) && OnItsWay(c, i, fits) && CanStep(c, i.tid)
    requires c.phases[i.tid].Yielded? && c.phases[i.tid].task.Some?
    ensures OnItsWay(Step(P, c, i.tid), i, fits)
  {
    var (d, t, x, j) := (Step(P, c, i.tid), i.tid, i.obj, c.phases[i.tid].task.value);
    assert ThreadAt(c, t) && CarriedAt(c, t);
    OnlySecondJoinThrows(c, t);
    PostSparesOthers(c.pool, t, j, x);
    PostersFitIffBitIsReal(c.pool, x, c.owners);
    PostersFitIffBitIsReal(d.pool, x, d.owners);
    if PostersFit(c.pool, x, c.owners) { PosterFits(c.pool, d.pool, t, j, x, c.owners); }
  }

  lemma PosterFits(p: Pool, q: Pool, t: Tid, j: Instruction, x: Addr, owners: map<Addr, Tid>)
    requires t !in p.tasks && t in q.threads && q.tasks == p.tasks[t := j] && j.tid == t
    requires j.OnObject() ==> q.threads[t] == AsStatus(EnabledAtPost(p, j))
    requires forall u | u != t :: WaitsOn(q, u, x) <==> WaitsOn(p, u, x)
    requires forall u | u != t :: u in q.threads <==> u in p.threads
    requires forall u | u != t && u in p.threads :: q.threads[u] == p.threads[u]
    requires PostersFit(p, x, owners)
    ensures WaitersFit(q, x, owners) <==> WaitersFit(p, x, owners)
  {
    if WaitersFit(q, x, owners) {
      forall u | WaitsOn(p, u, x) ensures u in p.threads && p.threads[u] == AsStatus(CanRun(owners, p.tasks[u])) {
        assert WaitsOn(q, u, x);
      }
    }
  }

  lemma FinishFits<L, M>(P: Program<L, M>, c: Core<L, M>, i: Instruction, fits: bool)
    requires Inv(c) && OnItsWay(c, i, fits) && CanStep(c, i.tid)
    requires c.phases[i.tid].Yielded? && c.phases[i.tid].task.None?
    ensures OnItsWay(Step(P, c, i.tid), i, fits)
  {
    var (d, t, x) := (Step(P, c, i.tid), i.tid, i.obj);
    assert ThreadAt(c, t);
    PostersFitIffBitIsReal(c.pool, x, c.owners);
    PostersFitIffBitIsReal(d.pool, x, d.owners);
    forall u | WaitsOn(c.pool, u, x)
      ensures u in c.pool.threads && u in d.pool.threads && d.pool.threads[u] == c.pool.threads[u]
    {
      assert ThreadAt(c, u) && JoinAt(c, t, u);
    }
  }

  lemma SectionFits<L, M>(P: Program<L, M>, c: Core<L, M>, t: Tid, i: Instruction, fits: bool)
    requires Inv(c) && OnItsWay(c, i, fits) && CanStep(c, t)
    ensures OnItsWay(Step(P, c, t), i, fits)
  {
    assert TurnAt(c, t) && CarriedAt(c, t);
    if c.phases[t].Ready? { YieldFits(P, c, i, fits); }
    if c.phases[t].Yielded? {
      if c.phases[t].task.Some? { PostFits(P, c, i, fits); } else { FinishFits(P, c, i, fits); }
    }
  }

  lemma {:induction false} PathFits<L, M>(P: Program<L, M>, c: Core<L, M>, ts: seq<Tid>, d: Core<L, M>,
                                          i: Instruction, fits: bool)
    requires Inv(c) && OnItsWay(c, i, fits) && IsPath(P, c, ts, d)
    ensures Inv(d) && OnItsWay(d, i, fits)
    decreases |ts|
  {
    if ts != [] {
      SectionFits(P, c, ts[0], i, fits);
      StepKeepsInv(P, c, ts[0]);
      PathFits(P, Step(P, c, ts[0]), ts[1..], d, i, fits);
    }
  }

  /** From one scheduling point to the next: after a turn on an object the statuses of everybody who waits on it, and
      of those who post next, are those of the real mutex, exactly under the condition above. */
  lemma TurnFitsIff<L, M>(P: Program<L, M>, c: Core<L, M>, t: Tid, ts: seq<Tid>, d: Core<L, M>)
    requires Inv(c) && AllPosted(c.pool) && IsEnabled(c.pool, t) && t in c.pool.tasks && c.pool.tasks[t].OnObject()
    requires IsPath(P, Grant(c, t), ts, d) && AllPosted(d.pool)
    ensures FitsAt(d, c.pool.tasks[t].obj) <==> WillFit(c.pool, c.pool.tasks[t], c.owners)
  {
    var (i, g) := (c.pool.tasks[t], Grant(c, t));
    assert ThreadAt(c, t) && CarriedAt(c, t);
    GrantKeepsInv(c, t);
    assert WillFit(g.pool, i, g.owners) <==> WillFit(c.pool, i, c.owners) by {
      assert forall u | u != t :: WaitsOn(g.pool, u, i.obj) <==> WaitsOn(c.pool, u, i.obj);
    }
    PathFits(P, g, ts, d, i, WillFit(c.pool, i, c.owners));
    PostedMeansQuiet(d);
  }
}
