/** Printing an execution to a stream, part by part. */
module RecordPrinter {
  import opened Instructions
  import opened IntSets
  import opened PoolSpec
  import opened ExecutionRecord
  import opened Tokens
  import opened Readers
  import opened StateTexts
  import opened RecordTexts
  import opened Streams

  // Instructions.

  lemma PutJoined(t: string, a: string, sep: string, b: string)
    ensures t + a + sep + b == t + Joined(a, sep, b)
  {
  }

  method PrintMeta(to: OutStream, meta: MetaData)
    modifies to
    ensures to.text == old(to.text) + MetaText(meta)
  {
    to.Put(meta.fileName);
    to.Put(" ");
    to.Put(NatText(meta.lineNumber, 10));
    PutJoined(old(to.text), meta.fileName, " ", NatText(meta.lineNumber, 10));
  }

  method PrintThread(to: OutStream, u: Thread)
    modifies to
    ensures to.text == old(to.text) + ThreadText(u)
  {
    to.Put(IntText(u.tid));
    to.Put(" ");
    to.Put(ThreadStatusText(u.status));
    PutJoined(old(to.text), IntText(u.tid), " ", ThreadStatusText(u.status));
  }

  /** The thread and the operation, which precede the operand. */
  method PrintTwo(to: OutStream, a: string, b: string)
    modifies to
    ensures to.text == old(to.text) + a + " " + b + " "
  {
    to.Put(a);
    to.Put(" ");
    to.Put(b);
    to.Put(" ");
  }

  lemma PutFour(t: string, a: string, b: string, c: string, d: string)
    ensures t + a + " " + b + " " + c + " " + d == t + FourText(a, b, c, d)
  {
    PutJoined(t + a + " " + b + " ", c, " ", d);
    PutJoined(t + a + " ", b, " ", Spaced(c, d));
    PutJoined(t, a, " ", Spaced(b, Spaced(c, d)));
    assert t + a + " " + b + " " + c + " " + d == t + a + " " + b + " " + (c + " " + d);
  }

  method PrintFields(to: OutStream, i: Instruction)
    modifies to
    ensures to.text == old(to.text) + FieldsText(i)
  {
    ghost var t := to.text;
    match i {
      case MemoryInstruction(tid, op, x, _, meta) =>
        PrintTwo(to, IntText(tid), MemoryOpText(op));
        to.Put(AddressText(x));
        to.Put(" ");
        PrintMeta(to, meta);
        PutFour(t, IntText(tid), MemoryOpText(op), AddressText(x), MetaText(meta));
      case LockInstruction(tid, op, x, meta) =>
        PrintTwo(to, IntText(tid), LockOpText(op));
        to.Put(AddressText(x));
        to.Put(" ");
        PrintMeta(to, meta);
        PutFour(t, IntText(tid), LockOpText(op), AddressText(x), MetaText(meta));
      case ThreadInstruction(tid, op, u, meta) =>
        PrintTwo(to, IntText(tid), ThreadOpText(op));
        PrintThread(to, u);
        to.Put(" ");
        PrintMeta(to, meta);
        PutFour(t, IntText(tid), ThreadOpText(op), ThreadText(u), MetaText(meta));
    }
  }

  method PrintBody(to: OutStream, i: Instruction)
    modifies to
    ensures to.text == old(to.text) + BodyText(i)
  {
    if i.MemoryInstruction? {
      to.Put(AtomicText(i.isAtomic));
      to.Put(" ");
      PrintFields(to, i);
      PutJoined(old(to.text), AtomicText(i.isAtomic), " ", FieldsText(i));
    } else {
      PrintFields(to, i);
    }
  }

  method PrintInstruction(to: OutStream, i: Instruction)
    modifies to
    ensures to.text == old(to.text) + InstructionText(i)
  {
    to.Put(KindText(i));
    to.Put(" ");
    PrintBody(to, i);
    PutJoined(old(to.text), KindText(i), " ", BodyText(i));
  }

  lemma ListOfFirst(a: string, r: seq<string>)
    ensures ListText([a] + r) == " " + (a + ListText(r))
  {
    assert ([a] + r)[1..] == r;
  }

  lemma FirstTid(ts: set<Tid>)
    requires ts != {}
    ensures var m := Least(ts);
            ListText(Texts(Ascending(ts), IntText))
                == " " + (IntText(m) + ListText(Texts(Ascending(ts - {m}), IntText)))
  {
    var m := Least(ts);
    var more := Ascending(ts - {m});
    assert Ascending(ts) == [m] + more;
    TextsOfFirst(m, more, IntText);
    ListOfFirst(IntText(m), Texts(more, IntText));
  }

  lemma PutElement(t: string, a: string, r: string)
    ensures t + " " + a + r == t + (" " + (a + r))
  {
  }

  lemma PutTwo(t: string, a: string, b: string)
    ensures t + a + b == t + (a + b)
  {
  }

  method PrintSet(to: OutStream, ts: set<Tid>)
    modifies to
    ensures to.text == old(to.text) + SetText(ts)
  {
    to.Put(SizeText(|ts|));
    ghost var t := to.text;
    var left := ts;
    assert to.text + ListText(Texts(Ascending(left), IntText)) == old(to.text) + SetText(ts);
    while left != {}
      invariant to.text + ListText(Texts(Ascending(left), IntText)) == old(to.text) + SetText(ts)
      decreases |left|
    {
      var m := First(left);
      FirstTid(left);
      PutElement(to.text, IntText(m), ListText(Texts(Ascending(left - {m}), IntText)));
      to.Put(" ");
      to.Put(IntText(m));
      left := left - {m};
    }
    assert to.text + "" == to.text;
  }

  method PrintNext(to: OutStream, n: Next)
    modifies to
    ensures to.text == old(to.text) + NextText(n)
  {
    PrintInstruction(to, n.instr);
    to.Put(" ");
    to.Put(EnabledText(n.enabled));
    PutJoined(old(to.text), InstructionText(n.instr), " ", EnabledText(n.enabled));
  }

  method PrintEntry(to: OutStream, e: Entry)
    modifies to
    ensures to.text == old(to.text) + EntryText(e)
  {
    to.Put(IntText(e.0));
    to.Put(" ");
    PrintNext(to, e.1);
    PutJoined(old(to.text), IntText(e.0), " ", NextText(e.1));
  }

  /** The text of the entries that are left, in ascending order. */
  ghost function LeftText(left: set<Tid>, next: map<Tid, Next>): string
    requires left <= next.Keys
  {
    var ts := Ascending(left);
    assert forall j | 0 <= j < |ts| :: ts[j] in ts;
    ListText(Texts(EntriesAt(ts, next), EntryText))
  }

  lemma EntriesOfFirst(m: Tid, more: seq<Tid>, next: map<Tid, Next>)
    requires m in next && forall j | 0 <= j < |more| :: more[j] in next
    ensures forall j | 0 <= j < |[m] + more| :: ([m] + more)[j] in next
    ensures EntriesAt([m] + more, next) == [(m, next[m])] + EntriesAt(more, next)
  {
  }

  lemma TextOfFirst(e: Entry, es: seq<Entry>)
    ensures ListText(Texts([e] + es, EntryText)) == " " + (EntryText(e) + ListText(Texts(es, EntryText)))
  {
    TextsOfFirst(e, es, EntryText);
    ListOfFirst(EntryText(e), Texts(es, EntryText));
  }

  lemma FirstEntry(left: set<Tid>, next: map<Tid, Next>)
    requires left != {} && left <= next.Keys
    ensures var m := Least(left);
            LeftText(left, next) == " " + (EntryText((m, next[m])) + LeftText(left - {m}, next))
  {
    var m := Least(left);
    var more := Ascending(left - {m});
    assert (forall j | 0 <= j < |more| :: more[j] in more) && Ascending(left) == [m] + more;
    EntriesOfFirst(m, more, next);
    TextOfFirst((m, next[m]), EntriesAt(more, next));
  }

  lemma AllEntries(next: map<Tid, Next>)
    ensures MapText(next) == SizeText(|next.Keys|) + LeftText(next.Keys, next)
  {
  }

  method PrintEntries(to: OutStream, next: map<Tid, Next>)
    modifies to
    ensures to.text == old(to.text) + LeftText(next.Keys, next)
  {
    var left := next.Keys;
    while left != {}
      invariant left <= next.Keys
      invariant to.text + LeftText(left, next) == old(to.text) + LeftText(next.Keys, next)
      decreases |left|
    {
      var m := First(left);
      var e := (m, next[m]);
      FirstEntry(left, next);
      PutElement(to.text, EntryText(e), LeftText(left - {m}, next));
      to.Put(" ");
      PrintEntry(to, e);
      left := left - {m};
    }
    assert to.text + "" == to.text;
  }

  method PrintMap(to: OutStream, next: map<Tid, Next>)
    modifies to
    ensures to.text == old(to.text) + MapText(next)
  {
    var n := SizeText(|next.Keys|);
    to.Put(n);
    PrintEntries(to, next);
    AllEntries(next);
    PutTwo(old(to.text), n, LeftText(next.Keys, next));
  }

  method PrintState(to: OutStream, st: State)
    modifies to
    ensures to.text == old(to.text) + StateText(st)
  {
    to.Put("State");
    to.Put(" ");
    PrintSet(to, st.enabled);
    to.Put(" ");
    PrintMap(to, st.next);
    ghost var (a, b) := (SetText(st.enabled), MapText(st.next));
    PutJoined(old(to.text) + "State" + " ", a, " ", b);
    PutJoined(old(to.text), "State", " ", Spaced(a, b));
  }

  // Whole executions.

  method PrintTransition(to: OutStream, t: Transition)
    modifies to
    ensures to.text == old(to.text) + Joined(StepText(t), "\n", StateText(t.post))
  {
    to.Put(IntText(t.index));
    to.Put(" ");
    PrintInstruction(to, t.instr);
    PutJoined(old(to.text), IntText(t.index), " ", InstructionText(t.instr));
    to.Put("\n");
    PrintState(to, t.post);
    PutJoined(old(to.text), StepText(t), "\n", StateText(t.post));
  }

  lemma PutLine(t: string, a: string, r: string)
    ensures t + a + "\n" + r == t + (a + ("\n" + r))
  {
  }

  method PrintTail(to: OutStream, E: Record)
    modifies to
    ensures to.text == old(to.text) + TailText(Steps(E), Posts(E), 0, StatusText(E.status))
  {
    ghost var (steps, posts, end) := (Steps(E), Posts(E), StatusText(E.status));
    for i := 0 to |E.transitions|
      invariant to.text + TailText(steps, posts, i, end) == old(to.text) + TailText(steps, posts, 0, end)
    {
      var t := E.transitions[i];
      PutLine(to.text, Joined(StepText(t), "\n", StateText(t.post)), TailText(steps, posts, i + 1, end));
      PrintTransition(to, t);
      to.Put("\n");
    }
    PutLine(to.text, EQUALS, end);
    to.Put(EQUALS);
    to.Put("\n");
    to.Put(StatusText(E.status));
  }

  method PrintExecution(to: OutStream, E: Execution)
    modifies to
    ensures to.text == old(to.text) + RecordText(E.View())
  {
    if E.s0.Some? {
      PrintState(to, E.s0.value);
      to.Put("\n");
      PrintTail(to, E.View());
      PutLine(old(to.text), StateText(E.s0.value), TailText(Steps(E.View()), Posts(E.View()), 0, StatusText(E.status)));
    } else {
      assert to.text + "" == to.text;
    }
  }
}
