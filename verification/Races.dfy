/** Which data races a run records. */
module Races {
  import opened Instructions
  import opened PoolSpec
  import opened System
  import opened Base
  import opened Runs

  ghost predicate PendingRace(p: Pool, i: Instruction, j: Instruction) {
    && i.ConflictsWith(j)
    && exists t, u :: t != u && t in p.tasks && u in p.tasks && p.tasks[t] == i && p.tasks[u] == j
  }

  /** The visitor finds exactly the posted instructions of other threads that conflict with the new one. */
  lemma VisitorIsExact<L, M>(c: Core<L, M>, t: Tid, j: Instruction)
    requires Inv(c) && InRange(c, t) && c.phases[t].Yielded? && c.phases[t].task.Some?
    requires c.phases[t].task.value.MemoryInstruction?
    ensures var i := c.phases[t].task.value;
            (j, i) in DataRaces(ObjectAt(c.pool, i.obj), i)
            <==> j.ConflictsWith(i) && j.tid != t && j.tid in c.pool.tasks && c.pool.tasks[j.tid] == j
  {
    var i := c.phases[t].task.value;
    var (o, u) := (ObjectAt(c.pool, i.obj), j.tid);
    assert TurnAt(c, t) && CarriedAt(c, t) && ThreadAt(c, t);
    forall v: Tid
      ensures v in o.waiting0 <==> v in c.pool.tasks && c.pool.tasks[v].OnObject() && c.pool.tasks[v].obj == i.obj
                                   && c.pool.tasks[v].OperationAsInt() % 2 == 0
      ensures v in o.waiting1 <==> v in c.pool.tasks && c.pool.tasks[v].OnObject() && c.pool.tasks[v].obj == i.obj
                                   && c.pool.tasks[v].OperationAsInt() % 2 == 1
      ensures v in o.waiting0 ==> o.waiting0[v] == c.pool.tasks[v]
      ensures v in o.waiting1 ==> o.waiting1[v] == c.pool.tasks[v]
      ensures v in c.pool.tasks ==> c.pool.tasks[v].tid == v
    {
      assert IndexedAt(c, i.obj, v) && ThreadAt(c, v) && CarriedAt(c, v);
    }
    if j.ConflictsWith(i) && u in c.pool.tasks && c.pool.tasks[u] == j {
      if j.Writes() { assert o.waiting1[u] == j; } else { assert o.waiting0[u] == j; }
    }
  }

  /** The visitor asserts that only memory accesses wait on the object: that is so exactly if no lock operation
      on it is posted. */
  lemma VisitorMayAssumeIff<L, M>(c: Core<L, M>, t: Tid)
    requires Inv(c) && InRange(c, t) && c.phases[t].Yielded? && c.phases[t].task.Some?
    requires c.phases[t].task.value.MemoryInstruction?
    ensures var x := c.phases[t].task.value.obj;
            OnlyMemory(ObjectAt(c.pool, x))
            <==> forall u | u in c.pool.tasks && c.pool.tasks[u].LockInstruction? :: c.pool.tasks[u].obj != x
  {
    var x := c.phases[t].task.value.obj;
    var o := ObjectAt(c.pool, x);
    assert TurnAt(c, t) && CarriedAt(c, t) && ThreadAt(c, t);
    forall v: Tid
      ensures v in o.waiting0 || v in o.waiting1 <==>
              v in c.pool.tasks && c.pool.tasks[v].OnObject() && c.pool.tasks[v].obj == x
      ensures v in o.waiting0 ==>
                v in c.pool.tasks && o.waiting0[v] == c.pool.tasks[v] && o.waiting0[v].OperationAsInt() % 2 == 0
      ensures v in o.waiting1 ==>
                v in c.pool.tasks && o.waiting1[v] == c.pool.tasks[v] && o.waiting1[v].OperationAsInt() % 2 == 1
      ensures v in c.pool.tasks ==> c.pool.tasks[v].tid == v
    {
      assert IndexedAt(c, x, v) && ThreadAt(c, v) && CarriedAt(c, v);
    }
    if u :| u in c.pool.tasks && c.pool.tasks[u].LockInstruction? && c.pool.tasks[u].obj == x {
      assert u in o.waiting0 || u in o.waiting1;
      assert !OnlyMemory(o);
    }
  }

  /** The races an event adds to the list. */
  function Added<L, M>(dispatch: Dispatch, s: Run<L, M>, e: Event): set<Race> {
    if e.Section? && InRange(s.core, e.tid) && s.core.phases[e.tid].Yielded? && s.core.phases[e.tid].task.Some?
    then RacesAtPost(dispatch, s.core.pool, s.core.phases[e.tid].task.value)
    else {}
  }

  /** The list of races, whose order within one post is left open: every post adds each of its races once. */
  function RecordedRaces<L, M>(P: Program<L, M>, cfg: Config, dispatch: Dispatch, es: seq<Event>): multiset<Race> {
    if es == [] then multiset{}
    else RecordedRaces(P, cfg, dispatch, es[..|es| - 1])
         + multiset(Added(dispatch, After(P, cfg, es[..|es| - 1]), es[|es| - 1]))
  }

  /** At some moment of the run both instructions were posted and conflicting. */
  ghost predicate Raced<L, M>(P: Program<L, M>, cfg: Config, es: seq<Event>, i: Instruction, j: Instruction) {
    || PendingRace(After(P, cfg, es).core.pool, i, j)
    || (es != [] && Raced(P, cfg, es[..|es| - 1], i, j))
  }

  /** The pair is formed by the instruction the thread is posting. */
  predicate FormedBy<L, M>(c: Core<L, M>, t: Tid, other: Instruction, posted: Instruction)
    requires InRange(c, t)
  {
    && c.phases[t].Yielded? && c.phases[t].task == Some(posted)
    && other.tid != t && other.tid in c.pool.tasks && c.pool.tasks[other.tid] == other
  }

  /** A section changes the tasks only by posting one. */
  lemma TasksAfterSection<L, M>(P: Program<L, M>, c: Core<L, M>, t: Tid)
    requires CanStep(c, t)
    ensures var ph := c.phases[t];
            Step(P, c, t).pool.tasks
            == if ph.Yielded? && ph.task.Some? then c.pool.tasks[t := ph.task.value] else c.pool.tasks
  {
  }

  /** A critical section adds to the pending conflicts exactly those its post forms, and takes none away. */
  lemma PendingAfterSection<L, M>(P: Program<L, M>, c: Core<L, M>, t: Tid, i: Instruction, j: Instruction)
    requires Inv(c) && CanStep(c, t) && i.ConflictsWith(j)
    ensures PendingRace(Step(P, c, t).pool, i, j)
            <==> PendingRace(c.pool, i, j) || FormedBy(c, t, i, j) || FormedBy(c, t, j, i)
  {
    assert ThreadAt(c, t) && CarriedAt(c, t);
    forall v | v in c.pool.tasks ensures c.pool.tasks[v].tid == v { assert ThreadAt(c, v) && CarriedAt(c, v); }
    TasksAfterSection(P, c, t);
    PostFormsRaces(c, Step(P, c, t).pool, t, i, j);
  }

  lemma PostFormsRaces<L, M>(c: Core<L, M>, q: Pool, t: Tid, i: Instruction, j: Instruction)
    requires InRange(c, t) && i.ConflictsWith(j) && forall v | v in c.pool.tasks :: c.pool.tasks[v].tid == v
    requires c.phases[t].Yielded? ==>
               t !in c.pool.tasks && (c.phases[t].task.Some? ==> c.phases[t].task.value.tid == t)
    requires var ph := c.phases[t];
             q.tasks == if ph.Yielded? && ph.task.Some? then c.pool.tasks[t := ph.task.value] else c.pool.tasks
    ensures PendingRace(q, i, j) <==> PendingRace(c.pool, i, j) || FormedBy(c, t, i, j) || FormedBy(c, t, j, i)
  {
    var p := c.pool;
    if PendingRace(p, i, j) {
      var u, v :| u != v && u in p.tasks && v in p.tasks && p.tasks[u] == i && p.tasks[v] == j;
      assert u in q.tasks && v in q.tasks && q.tasks[u] == i && q.tasks[v] == j;
    }
    if FormedBy(c, t, i, j) || FormedBy(c, t, j, i) {
      assert i.tid in q.tasks && j.tid in q.tasks && q.tasks[i.tid] == i && q.tasks[j.tid] == j;
    }
  }

  /** The event posts j while the conflicting i of another thread is pending. */
  predicate Forms<L, M>(c: Core<L, M>, e: Event, i: Instruction, j: Instruction) {
    e.Section? && InRange(c, e.tid) && i.ConflictsWith(j) && FormedBy(c, e.tid, i, j)
  }

  /** How often that happens in a run. */
  function Formed<L, M>(P: Program<L, M>, cfg: Config, es: seq<Event>, i: Instruction, j: Instruction): nat {
    if es == [] then 0
    else Formed(P, cfg, es[..|es| - 1], i, j)
         + if Forms(After(P, cfg, es[..|es| - 1]).core, es[|es| - 1], i, j) then 1 else 0
  }

  lemma AddedIsFormed<L, M>(s: Run<L, M>, e: Event, i: Instruction, j: Instruction)
    requires Inv(s.core)
    ensures (i, j) in Added(OnAlternative, s, e) <==> Forms(s.core, e, i, j)
  {
    if e.Section? && InRange(s.core, e.tid) {
      var ph := s.core.phases[e.tid];
      if ph.Yielded? && ph.task.Some? && ph.task.value.MemoryInstruction? {
        VisitorIsExact(s.core, e.tid, i);
        assert forall r | r in Added(OnAlternative, s, e) :: r.1 == ph.task.value;
      }
    }
  }

  /** Race detection is exact if the visitor is called on the alternative: along every run the pair
      is recorded, in this order, as often as its second instruction was posted while the first one, of
      another thread and in conflict with it, was pending. */
  lemma {:induction false} RacesAreExact<L, M>(P: Program<L, M>, cfg: Config, es: seq<Event>,
                                               i: Instruction, j: Instruction)
    requires IsRun(P, cfg, es)
    ensures RecordedRaces(P, cfg, OnAlternative, es)[(i, j)] == Formed(P, cfg, es, i, j)
  {
    if es != [] {
      var before := es[..|es| - 1];
      RacesAreExact(P, cfg, before, i, j);
      RunsKeepInv(P, cfg, before);
      AddedIsFormed(After(P, cfg, before), es[|es| - 1], i, j);
    }
  }

  /** Two conflicting instructions are pending at the same time exactly if one of them is posted while the
      other one is pending. */
  lemma {:induction false} RacedIffFormed<L, M>(P: Program<L, M>, cfg: Config, es: seq<Event>,
                                                i: Instruction, j: Instruction)
    requires IsRun(P, cfg, es)
    ensures Raced(P, cfg, es, i, j) <==> Formed(P, cfg, es, i, j) + Formed(P, cfg, es, j, i) > 0
  {
    if es != [] {
      var before := es[..|es| - 1];
      var (s, e) := (After(P, cfg, before), es[|es| - 1]);
      RacedIffFormed(P, cfg, before, i, j);
      RunsKeepInv(P, cfg, before);
      match e
      case Section(t) => if i.ConflictsWith(j) { PendingAfterSection(P, s.core, t, i, j); }
      case Iteration(pick) => IterationFormsNoRace(cfg, s, pick, i, j);
    }
  }

  lemma IterationFormsNoRace<L, M>(cfg: Config, s: Run<L, M>, pick: Tid, i: Instruction, j: Instruction)
    requires CanSchedule(cfg, s, pick)
    ensures PendingRace(Iterate(cfg, s, pick).core.pool, i, j) ==> PendingRace(s.core.pool, i, j)
  {
    var q := Iterate(cfg, s, pick).core.pool;
    assert forall t | t in q.tasks :: t in s.core.pool.tasks && q.tasks[t] == s.core.pool.tasks[t];
  }

  lemma {:induction false} VariantRecordsNothing<L, M>(P: Program<L, M>, cfg: Config, es: seq<Event>)
    ensures RecordedRaces(P, cfg, OnVariant, es) == multiset{}
  {
    if es != [] { VariantRecordsNothing(P, cfg, es[..|es| - 1]); }
  }

  /** Every pair is recorded as often, and in the order, in which it was formed. */
  ghost predicate ListIsRight<L, M>(P: Program<L, M>, cfg: Config, dispatch: Dispatch, es: seq<Event>) {
    forall i, j :: RecordedRaces(P, cfg, dispatch, es)[(i, j)] == Formed(P, cfg, es, i, j)
  }

  ghost predicate RaceFree<L, M>(P: Program<L, M>, cfg: Config, es: seq<Event>) {
    forall i, j :: !Raced(P, cfg, es, i, j)
  }

  /** The list is right exactly if the visitor is called on the alternative, or there was no race to be
      found: called on the variant, as the pool does, it selects the default and finds nothing. */
  lemma ListIsRightIff<L, M>(P: Program<L, M>, cfg: Config, dispatch: Dispatch, es: seq<Event>)
    requires IsRun(P, cfg, es)
    ensures ListIsRight(P, cfg, dispatch, es) <==> dispatch == OnAlternative || RaceFree(P, cfg, es)
  {
    if dispatch == OnAlternative {
      forall i, j ensures RecordedRaces(P, cfg, dispatch, es)[(i, j)] == Formed(P, cfg, es, i, j) {
        RacesAreExact(P, cfg, es, i, j);
      }
    } else {
      VariantRecordsNothing(P, cfg, es);
      forall i, j ensures Raced(P, cfg, es, i, j) <==> Formed(P, cfg, es, i, j) + Formed(P, cfg, es, j, i) > 0 {
        RacedIffFormed(P, cfg, es, i, j);
      }
      if i, j :| Raced(P, cfg, es, i, j) {
        assert RecordedRaces(P, cfg, dispatch, es)[(i, j)] == 0 && RecordedRaces(P, cfg, dispatch, es)[(j, i)] == 0;
        assert !ListIsRight(P, cfg, dispatch, es) && !RaceFree(P, cfg, es);
      } else {
        forall i, j ensures RecordedRaces(P, cfg, dispatch, es)[(i, j)] == Formed(P, cfg, es, i, j) {
          assert !Raced(P, cfg, es, i, j);
        }
        assert ListIsRight(P, cfg, dispatch, es);
      }
    }
  }
}
