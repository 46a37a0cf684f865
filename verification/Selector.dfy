/** The choice of the next thread: from the schedule, else by a strategy. */
module Selector {
  import opened Instructions
  import opened PoolSpec
  import opened IntSets

  /** Whether a strategy may answer with the thread, given the pool, the enabled set and the number of
      tasks so far. */
  type Strategy = (Pool, set<Tid>, nat, Tid) -> bool

  datatype Selection = Turn(tid: Tid) | AllDone | NoneEnabled

  predicate MaySelect(strategy: Strategy, p: Pool, schedule: seq<Tid>, nr: nat, s: Selection) {
    if nr < |schedule| then s == Turn(schedule[nr])
    else if p.tasks == map[] then s == AllDone
    else if EnabledSet(p) == {} then s == NoneEnabled
    else s.Turn? && strategy(p, EnabledSet(p), nr, s.tid)
  }

  /** Stay with the current thread as long as it is enabled. */
  function NonPreemptive(p: Pool, selection: set<Tid>, nr: nat): Tid
    requires selection != {} && (nr > 0 ==> p.current.Some?)
  {
    if nr > 0 && p.current.value.tid in selection then p.current.value.tid else Least(selection)
  }
}
