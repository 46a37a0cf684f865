/** A round: the outstanding threads run until every unfinished thread has posted. */
module Rounds {
  import opened Instructions
  import opened System
  import opened Base
  import opened Confluence

  // Every round ends.

  function Weight<L>(ph: Phase<L>): nat {
    match ph
    case Granted(_, _) => 8
    case Registering(_, _) => 4
    case Unregistered(_) => 3
    case Running(_) => 3
    case Ready(_, _) => 2
    case Yielded(_, _) => 1
    case _ => 0
  }

  function Work<L>(phases: seq<Phase<L>>): nat {
    if phases == [] then 0 else Work(phases[..|phases| - 1]) + Weight(phases[|phases| - 1])
  }

  lemma {:induction false} WorkUpdate<L>(phases: seq<Phase<L>>, t: nat, ph: Phase<L>)
    requires t < |phases|
    ensures Work(phases[t := ph]) == Work(phases) - Weight(phases[t]) + Weight(ph)
  {
    var n := |phases| - 1;
    if t == n {
      assert phases[t := ph][..n] == phases[..n];
    } else {
      WorkUpdate(phases[..n], t, ph);
      assert phases[t := ph][..n] == phases[..n][t := ph];
    }
  }

  lemma WorkOfTwo<L>(phases: seq<Phase<L>>, k: nat, a: Phase<L>, t: nat, b: Phase<L>)
    requires k < |phases| && t < |phases| && k != t
    ensures Work(phases[k := a][t := b]) == Work(phases) - Weight(phases[k]) - Weight(phases[t]) + Weight(a) + Weight(b)
  {
    WorkUpdate(phases, k, a);
    WorkUpdate(phases[k := a], t, b);
  }

  lemma WorkOfReserved<L>(phases: seq<Phase<L>>)
    ensures Work(phases + [Reserved]) == Work(phases)
  {
    assert (phases + [Reserved])[..|phases|] == phases;
  }

  lemma SpawningWorks<L, M>(P: Program<L, M>, c: Core<L, M>, t: Tid)
    requires CanStep(c, t) && (c.phases[t].Granted? || c.phases[t].Registering?)
    ensures Work(Step(P, c, t).phases) < Work(c.phases)
  {
    var d := Step(P, c, t).phases;
    if d[t].Registering? {
      WorkOfTwo(c.phases, d[t].childTid, d[d[t].childTid], t, d[t]);
    } else if c.phases[t].Registering? {
      WorkOfTwo(c.phases, c.phases[t].childTid, d[c.phases[t].childTid], t, d[t]);
    } else {
      WorkUpdate(c.phases, t, d[t]);
    }
  }

  /** Every critical section takes work away from the round. */
  lemma StepWorks<L, M>(P: Program<L, M>, c: Core<L, M>, t: Tid)
    requires CanStep(c, t)
    ensures Work(Step(P, c, t).phases) < Work(c.phases)
  {
    var d := Step(P, c, t).phases;
    if c.phases[t].Granted? || c.phases[t].Registering? {
      SpawningWorks(P, c, t);
    } else {
      WorkUpdate(c.phases, t, d[t]);
      if |d| > |c.phases| { WorkOfReserved(c.phases[t := d[t]]); }
      assert d == c.phases[t := d[t]] || d == c.phases[t := d[t]] + [Reserved];
    }
  }

  /** Runs every outstanding thread as far as it goes, in some fixed order. */
  ghost function Complete<L, M>(P: Program<L, M>, c: Core<L, M>): Core<L, M>
    decreases Work(c.phases)
  {
    if t :| CanStep(c, t) then
      StepWorks(P, c, t);
      Complete(P, Step(P, c, t))
    else c
  }

  // The one case in which the order matters: a spawner and the thread it has just spawned both spawn next.

  /** The thread has posted a Spawn, is about to, or will when it has executed the current instruction. */
  predicate WillSpawn<L, M>(P: Program<L, M>, c: Core<L, M>, t: Tid, k: Tid) {
    InRange(c, t) &&
    match c.phases[t]
    case Granted(l, _) => NextIsSpawn(P, P.local(l, c.memory, k))
    case Registering(l, _) => NextIsSpawn(P, l)
    case Unregistered(l) => NextIsSpawn(P, l)
    case Running(l) => NextIsSpawn(P, l)
    case ph => ph.Instr().Some? && ph.Instr().value.IsSpawn()
  }

  /** The thread that is still to be created by t will spawn first of all. */
  predicate ChildWillSpawn<L, M>(P: Program<L, M>, c: Core<L, M>, t: Tid, k: Tid) {
    InRange(c, t) && if c.phases[t].Granted? then NextIsSpawn(P, P.child(c.phases[t].l)) else WillSpawn(P, c, k, k)
  }

  /** In the current round spawner and spawned thread both spawn next. */
  predicate DoubleSpawn<L, M>(P: Program<L, M>, c: Core<L, M>) {
    && c.pool.current.Some? && c.pool.current.value.IsSpawn()
    && var (t, k) := (c.pool.current.value.tid, c.pool.current.value.operand.tid);
       WillSpawn(P, c, t, k) && ChildWillSpawn(P, c, t, k)
  }

  /** It is not the case that both will spawn and neither has taken its identifier. */
  predicate Apart<L, M>(P: Program<L, M>, c: Core<L, M>) {
    DoubleSpawn(P, c) ==>
      var (t, k) := (c.pool.current.value.tid, c.pool.current.value.operand.tid);
      HasCreated(c, t) || HasCreated(c, k)
  }

  predicate HasCreated<L, M>(c: Core<L, M>, t: Tid) {
    InRange(c, t) && (c.phases[t].Ready? || c.phases[t].Yielded? || c.phases[t].Waiting?)
  }

  lemma StepKeepsWillSpawn<L, M>(P: Program<L, M>, c: Core<L, M>, u: Tid, t: Tid, k: Tid)
    requires Inv(c) && CanStep(c, u) && c.pool.current.Some? && c.pool.current.value.tid == t
             && c.pool.current.value.Spawns(k)
    ensures WillSpawn(P, Step(P, c, u), t, k) <==> WillSpawn(P, c, t, k)
  {
    assert TurnAt(c, u) && CarriedAt(c, u);
  }

  lemma StepKeepsChildWillSpawn<L, M>(P: Program<L, M>, c: Core<L, M>, u: Tid, t: Tid, k: Tid)
    requires Inv(c) && CanStep(c, u) && c.pool.current.Some? && c.pool.current.value.tid == t
             && c.pool.current.value.Spawns(k)
    ensures ChildWillSpawn(P, Step(P, c, u), t, k) <==> ChildWillSpawn(P, c, t, k)
  {
    assert TurnAt(c, u) && CarriedAt(c, u);
  }

  /** Whether both spawn is settled when the turn is handed out. */
  lemma StepKeepsDoubleSpawn<L, M>(P: Program<L, M>, c: Core<L, M>, t: Tid)
    requires Inv(c) && CanStep(c, t)
    ensures DoubleSpawn(P, Step(P, c, t)) <==> DoubleSpawn(P, c)
  {
    if c.pool.current.Some? && c.pool.current.value.IsSpawn() {
      StepKeepsWillSpawn(P, c, t, c.pool.current.value.tid, c.pool.current.value.operand.tid);
      StepKeepsChildWillSpawn(P, c, t, c.pool.current.value.tid, c.pool.current.value.operand.tid);
    }
  }

  lemma StepKeepsApart<L, M>(P: Program<L, M>, c: Core<L, M>, t: Tid)
    requires Inv(c) && Apart(P, c) && CanStep(c, t)
    ensures Apart(P, Step(P, c, t))
  {
    StepKeepsDoubleSpawn(P, c, t);
    assert TurnAt(c, t) && CarriedAt(c, t);
    if DoubleSpawn(P, c) {
      forall u | u in Actors(c.pool) && HasCreated(c, u) ensures HasCreated(Step(P, c, t), u) {}
    }
  }

  lemma NeverBothSpawn<L, M>(P: Program<L, M>, c: Core<L, M>, t: Tid, u: Tid)
    requires Inv(c) && Apart(P, c) && t != u && CanStep(c, t) && CanStep(c, u)
    ensures !BothSpawn(P, c, t, u)
  {
    TwoAtWork(c, t, u);
    assert TurnAt(c, t) && TurnAt(c, u);
  }

  lemma Diamond<L, M>(P: Program<L, M>, c: Core<L, M>, t: Tid, u: Tid)
    requires Inv(c) && Apart(P, c) && t != u && CanStep(c, t) && CanStep(c, u)
    ensures CanStep(Step(P, c, t), u) && CanStep(Step(P, c, u), t)
    ensures Step(P, Step(P, c, t), u) == Step(P, Step(P, c, u), t)
  {
    NeverBothSpawn(P, c, t, u);
    StepsCommute(P, c, t, u);
  }

  /** Whatever thread goes first, the round ends in the same state. */
  lemma {:induction false} CompleteStep<L, M>(P: Program<L, M>, c: Core<L, M>, t: Tid)
    requires Inv(c) && Apart(P, c) && CanStep(c, t)
    ensures Complete(P, Step(P, c, t)) == Complete(P, c)
    decreases Work(c.phases)
  {
    var first :| CanStep(c, first) && Complete(P, c) == Complete(P, Step(P, c, first));
    if first != t {
      Diamond(P, c, t, first);
      forall u | u in {t, first}
        ensures Inv(Step(P, c, u)) && Apart(P, Step(P, c, u)) && Work(Step(P, c, u).phases) < Work(c.phases)
      {
        StepWorks(P, c, u);
        StepKeepsInv(P, c, u);
        StepKeepsApart(P, c, u);
      }
      CompleteStep(P, Step(P, c, first), t);
      CompleteStep(P, Step(P, c, t), first);
    }
  }
}
