/** The pool's bookkeeping for one object and for one thread, updated in place. */
module ObjectState {
  import opened Instructions
  import opened PoolSpec
  import IntSets

  class ObjectState {
    const obj: Addr
    var waiting: seq<map<Tid, Instruction>>
    var current: nat

    ghost predicate Valid()
      reads this
    {
      |waiting| == 2
    }

    function View(): ObjectView
      reads this
      requires Valid()
    {
      ObjectView(waiting[0], waiting[1], current)
    }

    constructor (x: Addr)
      ensures Valid() && View() == NEW_OBJECT && obj == x
    {
      obj, waiting, current := x, [map[], map[]], 0;
    }

    /** A copy with the given contents. */
    constructor Of(x: Addr, view: ObjectView)
      ensures Valid() && View() == view && obj == x
    {
      obj, waiting, current := x, [view.waiting0, view.waiting1], view.current;
    }

    /** None if the thread already has an instruction waiting, which is an exception; otherwise whether
        the instruction could be executed at once. */
    method Request(instr: Instruction) returns (r: Option<bool>)
      requires Valid()
      modifies this
      ensures Valid()
      ensures View() == if old(View()).RequestThrows(instr) then old(View()) else old(View()).Requested(instr)
      ensures r == if old(View()).RequestThrows(instr) then None else Some(old(View()).Admits(instr))
    {
      var op := instr.OperationAsInt() % 2;
      if instr.tid in waiting[op] {
        return None;
      }
      waiting := waiting[op := waiting[op][instr.tid := instr]];
      if instr.LockInstruction? && instr.lockOp == Lock && current == 1 {
        return Some(false);
      }
      return Some(true);
    }

    /** Takes the thread out of the first waitset it is in; false, an exception, if it is in none. */
    method Perform(tid: Tid) returns (found: bool)
      requires Valid()
      modifies this
      ensures Valid() && View() == old(View()).Performed(tid)
      ensures found == !old(View()).PerformThrows(tid)
    {
      for i := 0 to 2
        invariant Valid() && waiting == old(waiting) && current == old(current)
        invariant forall k | 0 <= k < i :: tid !in waiting[k]
      {
        if tid in waiting[i] {
          current := i;
          waiting := waiting[i := waiting[i] - {tid}];
          return true;
        }
      }
      return false;
    }
  }

  /** The races with the waiting instructions of the given threads. */
  ghost function RacesFrom(waiting: map<Tid, Instruction>, ts: set<Tid>, instr: Instruction): set<Race>
    requires instr.MemoryInstruction? && ts <= waiting.Keys
    requires forall t | t in waiting :: waiting[t].MemoryInstruction?
  {
    set t | t in ts && !(waiting[t].isAtomic && instr.isAtomic) :: (waiting[t], instr)
  }

  lemma RacesFromMore(waiting: map<Tid, Instruction>, ts: set<Tid>, t: Tid, instr: Instruction)
    requires instr.MemoryInstruction? && ts <= waiting.Keys && t in waiting && t !in ts
    requires forall u | u in waiting :: waiting[u].MemoryInstruction? && waiting[u].tid == u
    ensures multiset(RacesFrom(waiting, ts + {t}, instr)) ==
            multiset(RacesFrom(waiting, ts, instr))
            + if waiting[t].isAtomic && instr.isAtomic then multiset{} else multiset{(waiting[t], instr)}
  {
    var (r, r') := (RacesFrom(waiting, ts, instr), RacesFrom(waiting, ts + {t}, instr));
    if waiting[t].isAtomic && instr.isAtomic {
      assert r' == r;
    } else {
      assert r' == r + {(waiting[t], instr)};
      assert (waiting[t], instr) !in r;
    }
  }

  /** One pass over a waitset: each racing instruction once, in no particular order. */
  method RacesOf(waiting: map<Tid, Instruction>, instr: Instruction) returns (races: seq<Race>)
    requires instr.MemoryInstruction?
    requires forall t | t in waiting :: waiting[t].MemoryInstruction? && waiting[t].tid == t
    ensures multiset(races) == multiset(RacesAmong(waiting, instr))
  {
    races := [];
    var left := waiting.Keys;
    while left != {}
      invariant left <= waiting.Keys
      invariant multiset(races) == multiset(RacesFrom(waiting, waiting.Keys - left, instr))
      decreases |left|
    {
      ghost var done := waiting.Keys - left;
      var t := IntSets.Take(left);
      left := left - {t};
      assert waiting.Keys - left == done + {t};
      RacesFromMore(waiting, done, t, instr);
      if !(waiting[t].isAtomic && instr.isAtomic) {
        races := races + [(waiting[t], instr)];
      }
    }
    assert waiting.Keys - left == waiting.Keys;
    assert RacesFrom(waiting, waiting.Keys, instr) == RacesAmong(waiting, instr);
  }

  /** The visitor: every waiting instruction that races with the given one, once. */
  method GetDataRaces(o: ObjectState, instr: Instruction) returns (races: seq<Race>)
    requires o.Valid() && instr.MemoryInstruction? && OnlyMemory(o.View())
    ensures multiset(races) == multiset(DataRaces(o.View(), instr))
  {
    races := [];
    if instr.memoryOp == Store || instr.memoryOp == ReadModifyWrite {
      races := RacesOf(o.waiting[0], instr);
    }
    var more := RacesOf(o.waiting[1], instr);
    races := races + more;
    assert RacesAmong(o.waiting[0], instr) !! RacesAmong(o.waiting[1], instr);
  }
}
