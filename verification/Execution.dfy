/** The record of a run: the initial state and a chain of transitions. */
module ExecutionRecord {
  import opened Instructions
  import opened PoolSpec

  datatype Status = RUNNING | DONE | DEADLOCK | BLOCKED | ERROR

  /** index counts from 1. */
  datatype Transition = Transition(index: int, pre: State, instr: Instruction, post: State)

  /** An execution as a value. The initial state is absent until it is set or read. */
  datatype Record = Record(transitions: seq<Transition>, s0: Option<State>, threads: set<Tid>, status: Status)
  {
    predicate HasFinal() { transitions != [] || s0.Some? }

    function Final(): State
      requires HasFinal()
    {
      if transitions != [] then transitions[|transitions| - 1].post else s0.value
    }

    function PushBack(instr: Instruction, post: State): Record
      requires HasFinal()
    {
      this.(transitions := transitions + [Transition(|transitions| + 1, Final(), instr, post)],
            threads := threads + SpawnedBy(instr))
    }

    function PopLast(): Record
      requires transitions != []
    {
      this.(transitions := transitions[..|transitions| - 1])
    }

    function SetLastPost(post: State): Record
      requires transitions != []
    {
      var n := |transitions| - 1;
      this.(transitions := transitions[n := transitions[n].(post := post)])
    }

    /** The state after the first i transitions. */
    function StateAt(i: nat): State
      requires i <= |transitions| && s0.Some?
    {
      if i == 0 then s0.value else transitions[i - 1].post
    }

    predicate LinkedAt(i: nat)
      requires i < |transitions| && s0.Some?
    {
      transitions[i].index == i + 1 && transitions[i].pre == StateAt(i)
    }

    /** The shape of a record that is built by push_back, with or without a change of the last state. */
    ghost predicate Chained() {
      && s0.Some?
      && (forall i: nat | i < |transitions| :: LinkedAt(i))
      && threads == {0} + SpawnedIn(transitions)
    }
  }

  function NewRecord(s0: Option<State>): Record {
    Record([], s0, {0}, RUNNING)
  }

  function SpawnedBy(instr: Instruction): set<Tid> {
    if instr.IsSpawn() then {instr.operand.tid} else {}
  }

  function SpawnedIn(transitions: seq<Transition>): set<Tid> {
    if transitions == [] then {}
    else SpawnedIn(transitions[..|transitions| - 1]) + SpawnedBy(transitions[|transitions| - 1].instr)
  }

  lemma PushBackChains(E: Record, instr: Instruction, post: State)
    requires E.Chained()
    ensures E.PushBack(instr, post).Chained()
  {
    var F := E.PushBack(instr, post);
    assert F.transitions[..|E.transitions|] == E.transitions;
    forall i: nat | i < |F.transitions| ensures F.LinkedAt(i) { assert i < |E.transitions| ==> E.LinkedAt(i); }
  }

  /** The threads of a record are the main thread and the operands of its Spawns. */
  lemma ThreadsIff(E: Record, k: Tid)
    requires E.Chained()
    ensures k in E.threads
            <==> k == 0 || exists t :: t in E.transitions && t.instr.IsSpawn() && t.instr.operand.tid == k
  {
    SpawnedIff(E.transitions, k);
  }

  lemma {:induction false} SpawnedIff(ts: seq<Transition>, k: Tid)
    ensures k in SpawnedIn(ts) <==> exists t :: t in ts && t.instr.IsSpawn() && t.instr.operand.tid == k
  {
    if ts != [] {
      var (before, last) := (ts[..|ts| - 1], ts[|ts| - 1]);
      SpawnedIff(before, k);
      assert ts == before + [last];
    }
  }

  lemma SetLastPostChains(E: Record, post: State)
    requires E.Chained() && E.transitions != []
    ensures E.SetLastPost(post).Chained()
  {
    var F := E.SetLastPost(post);
    assert F.transitions[..|E.transitions| - 1] == E.transitions[..|E.transitions| - 1];
    forall i: nat | i < |F.transitions| ensures F.LinkedAt(i) { assert E.LinkedAt(i); }
  }

  /** Taking the last transition back restores the record exactly if it did not introduce a thread:
      the set of threads is not taken back. */
  lemma PopUndoesPush(E: Record, instr: Instruction, post: State)
    requires E.HasFinal()
    ensures E.PushBack(instr, post).PopLast() == E <==> SpawnedBy(instr) <= E.threads
  {
    assert E.PushBack(instr, post).PopLast().transitions == E.transitions;
  }

  /** Taking back the Spawn of the first thread leaves its identifier behind. */
  lemma PopKeepsThread(post: State, instr: Instruction)
    requires instr.IsSpawn() && instr.operand.tid == 1
    ensures var E := NewRecord(Some(post)); E.PushBack(instr, post).PopLast().threads == {0, 1} != E.threads
  {
    assert 1 in NewRecord(Some(post)).PushBack(instr, post).PopLast().threads;
  }

  /** The schedule of a record: who took the steps. */
  function Schedule(transitions: seq<Transition>): seq<Tid> {
    seq(|transitions|, i requires 0 <= i < |transitions| => transitions[i].instr.tid)
  }

  lemma ScheduleExtends(ts: seq<Transition>, t: Transition)
    ensures Schedule(ts + [t]) == Schedule(ts) + [t.instr.tid]
  {
  }

  class Execution {
    var transitions: seq<Transition>
    var s0: Option<State>
    var threads: set<Tid>
    var status: Status
    /** Not part of the value, and set by no constructor. */
    var containsLocks: bool

    function View(): Record
      reads this
    {
      Record(transitions, s0, threads, status)
    }

    constructor (initial: Option<State>)
      ensures View() == NewRecord(initial)
    {
      transitions, s0, threads, status := [], initial, {0}, RUNNING;
    }

    method PushBack(instr: Instruction, post: State)
      requires View().HasFinal()
      modifies this
      ensures View() == old(View()).PushBack(instr, post)
      ensures forall k :: k in threads <==> k in old(threads) || (instr.IsSpawn() && instr.operand.tid == k)
      ensures containsLocks == (old(containsLocks) || instr.LockInstruction?)
    {
      var pre := if transitions == [] then s0.value else transitions[|transitions| - 1].post;
      transitions := transitions + [Transition(|transitions| + 1, pre, instr, post)];
      if instr.LockInstruction? {
        containsLocks := true;
      } else if instr.ThreadInstruction? && instr.threadOp == Spawn {
        threads := threads + {instr.operand.tid};
      }
    }

    method PopLast() returns (last: Transition)
      requires transitions != []
      modifies `transitions
      ensures View() == old(View()).PopLast()
      ensures old(transitions) == transitions + [last]
    {
      last := transitions[|transitions| - 1];
      transitions := transitions[..|transitions| - 1];
    }

    method SetLastPost(post: State)
      requires transitions != []
      modifies `transitions
      ensures View() == old(View()).SetLastPost(post)
    {
      var n := |transitions| - 1;
      transitions := transitions[n := transitions[n].(post := post)];
    }

    method SetStart(st: State)
      modifies `s0
      ensures View() == old(View()).(s0 := Some(st))
    {
      s0 := Some(st);
    }

    method SetStatus(s: Status)
      modifies `status
      ensures View() == old(View()).(status := s)
    {
      status := s;
    }
  }
}
