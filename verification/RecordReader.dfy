/** Reading an execution from a stream, part by part. */
module RecordReader {
  import opened Instructions
  import opened PoolSpec
  import opened ExecutionRecord
  import opened Tokens
  import opened Readers
  import opened StateTexts
  import opened RecordTexts
  import opened Streams

  // Instructions.

  method ReadMemoryOperation(from: InStream) returns (op: MemoryOperation)
    modifies from
    ensures Took(old(from.good), ParseMemoryOp(old(from.rest)), from.good, from.rest, op)
  {
    var w := from.Word();
    op := Load;
    if w == "Load" { op := Load; }
    else if w == "Store" { op := Store; }
    else if w == "RMW" { op := ReadModifyWrite; }
    else { from.Fail(); }
  }

  method ReadLockOperation(from: InStream) returns (op: LockOperation)
    modifies from
    ensures Took(old(from.good), ParseLockOp(old(from.rest)), from.good, from.rest, op)
  {
    var w := from.Word();
    op := Lock;
    if w == "Lock" { op := Lock; }
    else if w == "Unlock" { op := Unlock; }
    else { from.Fail(); }
  }

  method ReadThreadOperation(from: InStream) returns (op: ThreadOperation)
    modifies from
    ensures Took(old(from.good), ParseThreadOp(old(from.rest)), from.good, from.rest, op)
  {
    var w := from.Word();
    op := Spawn;
    if w == "Spawn" { op := Spawn; }
    else if w == "Join" { op := Join; }
    else { from.Fail(); }
  }

  method ReadThreadStatus(from: InStream) returns (status: ThreadStatus)
    modifies from
    ensures Took(old(from.good), ParseThreadStatus(old(from.rest)), from.good, from.rest, status)
  {
    var w := from.Word();
    status := START;
    if w == "START" { status := START; }
    else if w == "ENABLED" { status := ENABLED; }
    else if w == "DISABLED" { status := DISABLED; }
    else if w == "FINISHED" { status := FINISHED; }
    else { from.Fail(); }
  }

  method ReadThread(from: InStream) returns (u: Thread)
    modifies from
    ensures Took(old(from.good), ParseThread(old(from.rest)), from.good, from.rest, u)
  {
    var tid := from.Int();
    var status := ReadThreadStatus(from);
    u := Thread(tid, status);
  }

  method ReadObject(from: InStream) returns (x: Addr)
    modifies from
    ensures Took(old(from.good), ParseAddress(old(from.rest)), from.good, from.rest, x)
  {
    x := from.Unsigned(16, ADDRESS_LIMIT);
  }

  method ReadMeta(from: InStream) returns (meta: MetaData)
    modifies from
    ensures Took(old(from.good), ParseMeta(old(from.rest)), from.good, from.rest, meta)
  {
    var name := from.Word();
    var n := from.Unsigned(10, UINT_LIMIT);
    meta := MetaData(name, n);
  }

  method ReadMemory(from: InStream) returns (i: Instruction)
    modifies from
    ensures Took(old(from.good), ParseMemory(old(from.rest)), from.good, from.rest, i)
  {
    var atomic := from.Word();
    var tid := from.Int();
    var op := ReadMemoryOperation(from);
    var x := ReadObject(from);
    var meta := ReadMeta(from);
    i := MemoryInstruction(tid, op, x, atomic == "atomic", meta);
  }

  method ReadLock(from: InStream) returns (i: Instruction)
    modifies from
    ensures Took(old(from.good), ParseLock(old(from.rest)), from.good, from.rest, i)
  {
    var tid := from.Int();
    var op := ReadLockOperation(from);
    var x := ReadObject(from);
    var meta := ReadMeta(from);
    i := LockInstruction(tid, op, x, meta);
  }

  method ReadThreadManagement(from: InStream) returns (i: Instruction)
    modifies from
    ensures Took(old(from.good), ParseThreadManagement(old(from.rest)), from.good, from.rest, i)
  {
    var tid := from.Int();
    var op := ReadThreadOperation(from);
    var u := ReadThread(from);
    var meta := ReadMeta(from);
    i := ThreadInstruction(tid, op, u, meta);
  }

  const NO_INSTRUCTION := MemoryInstruction(-1, Load, 0, false, MetaData("unknown", 0))

  method ReadInstruction(from: InStream) returns (i: Instruction)
    modifies from
    ensures Took(old(from.good), ParseInstruction(old(from.rest)), from.good, from.rest, i)
  {
    var kind := from.Word();
    i := NO_INSTRUCTION;
    if kind == "memory_instruction" { i := ReadMemory(from); }
    else if kind == "lock_instruction" { i := ReadLock(from); }
    else if kind == "thread_management_instruction" { i := ReadThreadManagement(from); }
    else { from.Fail(); }
  }

  // States; the set and the map are the stand-ins for the containers of the utility library.

  method ReadNext(from: InStream) returns (n: Next)
    modifies from
    ensures Took(old(from.good), ParseNext(old(from.rest)), from.good, from.rest, n)
  {
    var i := ReadInstruction(from);
    var w := from.Word();
    n := Next(i, w == "enabled");
    if w != "enabled" && w != "disabled" { from.Fail(); }
  }

  /** The first elements have been read, the others follow. */
  ghost predicate Partly<T>(whole: Parse<seq<T>>, seen: seq<T>, left: nat, rest: string, parse: string -> Parse<T>)
    requires Consumes(parse)
  {
    match Repeat(left, rest, parse)
    case Fail => whole.Fail?
    case Ok(vs, r) => whole == Ok(seen + vs, r)
  }

  lemma PartlyMore<T>(whole: Parse<seq<T>>, seen: seq<T>, left: nat, rest: string, parse: string -> Parse<T>)
    requires Consumes(parse) && left > 0 && Partly(whole, seen, left, rest, parse)
    ensures parse(rest).Fail? ==> whole.Fail?
    ensures parse(rest).Ok? ==> Partly(whole, seen + [parse(rest).value], left - 1, parse(rest).rest, parse)
  {
    if parse(rest).Ok? {
      var v := parse(rest).value;
      var more := Repeat(left - 1, parse(rest).rest, parse);
      if more.Ok? { assert seen + ([v] + more.value) == seen + [v] + more.value; }
    }
  }

  lemma PartlyDone<T>(whole: Parse<seq<T>>, seen: seq<T>, rest: string, parse: string -> Parse<T>)
    requires Consumes(parse) && Partly(whole, seen, 0, rest, parse)
    ensures whole == Ok(seen, rest)
  {
    assert seen + [] == seen;
  }

  lemma PartlyStart<T>(n: nat, rest: string, parse: string -> Parse<T>)
    requires Consumes(parse)
    ensures Partly(Repeat(n, rest, parse), [], n, rest, parse)
  {
    var r := Repeat(n, rest, parse);
    if r.Ok? { assert [] + r.value == r.value; }
  }

  /** The stand-in for the container template: n elements, each read by its own reader. */
  method ReadList<T>(from: InStream, n: nat, parse: string -> Parse<T>, otherwise: T) returns (vs: seq<T>)
    requires from.good && Consumes(parse)
    modifies from
    ensures Took(true, Repeat(n, old(from.rest), parse), from.good, from.rest, vs)
  {
    vs := [];
    var left := n;
    ghost var whole := Repeat(n, from.rest, parse);
    PartlyStart(n, from.rest, parse);
    while from.good && left > 0
      invariant from.good ==> Partly(whole, vs, left, from.rest, parse)
      invariant !from.good ==> whole.Fail?
      decreases left
    {
      PartlyMore(whole, vs, left, from.rest, parse);
      var v := from.Take(parse(from.rest), otherwise);
      vs, left := vs + [v], left - 1;
    }
    if from.good { PartlyDone(whole, vs, from.rest, parse); }
  }

  method ReadSet(from: InStream) returns (ts: set<Tid>)
    modifies from
    ensures Took(old(from.good), ParseSet(old(from.rest)), from.good, from.rest, ts)
  {
    var n := from.Unsigned(10, ADDRESS_LIMIT);
    ts := {};
    if from.good {
      var list := ReadList(from, n, ParseTid, 0);
      ts := set t | t in list;
    }
  }

  method ReadMap(from: InStream) returns (next: map<Tid, Next>)
    modifies from
    ensures Took(old(from.good), ParseMap(old(from.rest)), from.good, from.rest, next)
  {
    var n := from.Unsigned(10, ADDRESS_LIMIT);
    next := map[];
    if from.good {
      var list := ReadList(from, n, ParseEntry, (0, Next(NO_INSTRUCTION, false)));
      next := MapOf(list);
    }
  }

  method ReadState(from: InStream) returns (st: State)
    modifies from
    ensures Took(old(from.good), ParseState(old(from.rest)), from.good, from.rest, st)
  {
    var tag := from.Word();
    st := State({}, map[]);
    if tag == "State" {
      var enabled := ReadSet(from);
      var next := ReadMap(from);
      st := State(enabled, next);
    } else {
      from.Fail();
    }
  }

  // Whole executions.

  /** If it cannot be read, the status is what the variable happened to hold. */
  method ReadStatus(from: InStream, junk: Status) returns (status: Status)
    modifies from
    ensures Took(old(from.good), ParseStatus(old(from.rest)), from.good, from.rest, status)
    ensures !from.good ==> status == junk
  {
    var w := from.Word();
    status := junk;
    if from.good {
      if w == "RUNNING" { status := RUNNING; }
      else if w == "DONE" { status := DONE; }
      else if w == "DEADLOCK" { status := DEADLOCK; }
      else if w == "BLOCKED" { status := BLOCKED; }
      else if w == "ERROR" { status := ERROR; }
      else { from.Fail(); }
    }
  }

  /** Reads the status, which ends the execution. */
  method ReadEnding(from: InStream, E: Execution, junk: Status)
    requires from.good
    modifies from, E
    ensures Reading(E.View(), from.good) == ReadEnd(old(from.rest), old(E.View()), junk, ParseStatus)
  {
    from.Skip(1);
    var status := ReadStatus(from, junk);
    E.SetStatus(status);
  }

  /** Reads the initial state, or skips it. */
  method ReadInitial(from: InStream, E: Execution)
    requires from.good
    modifies from, E
    ensures from.good <==> ReadStart(old(from.rest), old(E.View()), ParseState).Ok?
    ensures if from.good then ReadStart(old(from.rest), old(E.View()), ParseState) == Ok(E.View(), from.rest)
            else E.View() == old(E.View())
  {
    if E.s0.None? {
      var st := ReadState(from);
      if from.good { E.SetStart(st); }
    } else {
      from.Skip(1);
    }
  }

  /** Reads the i-th transition, or skips it. */
  method ReadOne(from: InStream, E: Execution, i: nat)
    requires from.good && i <= |E.transitions| && E.s0.Some?
    modifies from, E
    ensures from.good <==> ReadTransition(old(from.rest), old(E.View()), i, ParseTransition).Ok?
    ensures if from.good then ReadTransition(old(from.rest), old(E.View()), i, ParseTransition)
            == Ok(E.View(), from.rest)
            else E.View() == old(E.View())
  {
    if i == |E.transitions| {
      var index := from.Int();
      var instr := ReadInstruction(from);
      var post := ReadState(from);
      if from.good { E.PushBack(instr, post); }
    } else {
      from.Skip(2);
    }
  }

  method ReadExecution(from: InStream, E: Execution, junk: Status)
    requires from.good
    modifies from, E
    ensures Reading(E.View(), from.good) == ReadRecord(old(from.rest), old(E.View()), junk)
  {
    var i := 0;
    while true
      invariant from.good && i <= |E.transitions| && (i > 0 ==> E.s0.Some?)
      invariant ReadFrom(from.rest, E.View(), i, junk, ParseState, ParseTransition, ParseStatus)
                == ReadRecord(old(from.rest), old(E.View()), junk)
      decreases |from.rest|
    {
      from.SkipSpaces();
      if from.rest != "" && from.rest[0] == '=' {
        ReadEnding(from, E, junk);
        break;
      }
      if i == 0 {
        ReadInitial(from, E);
        if !from.good { break; }
      }
      ReadOne(from, E, i);
      if !from.good { break; }
      i := i + 1;
    }
  }
}
