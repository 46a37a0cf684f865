/** Texts as they stand in a file, letter by letter: what is printed, and what is read from them. */
module WrittenTexts {
  import opened Instructions
  import opened IntSets
  import opened PoolSpec
  import opened ExecutionRecord
  import opened Tokens
  import opened Readers
  import opened StateTexts
  import opened RecordTexts

  // Numbers.

  lemma DigitsAre(d: nat)
    requires d < 16
    ensures NatText(d, 16) == ["0123456789abcdef"[d]]
    ensures d < 10 ==> NatText(d, 10) == ["0123456789abcdef"[d]]
  {
  }

  /** Every number is written digit by digit, the most significant one first. */
  lemma NumbersAre(n: nat, b: nat, d: nat)
    requires IsBase(b) && d < b && n > 0
    ensures NatText(n * b + d, b) == NatText(n, b) + ["0123456789abcdef"[d]]
  {
    if b == 10 {
      assert (n * 10 + d) / 10 == n && (n * 10 + d) % 10 == d;
    } else {
      assert (n * 16 + d) / 16 == n && (n * 16 + d) % 16 == d;
    }
  }

  lemma SomeNumbers()
    ensures IntText(0) == "0" && IntText(-1) == "-1" && IntText(2147483647) == "2147483647"
    ensures AddressText(0) == "0" && AddressText(0xab) == "0xab" && AddressText(0x7ffc) == "0x7ffc"
  {
    assert NatText(0x7f, 16) == "7f" && NatText(0x7ff, 16) == "7ff" && NatText(0x7ffc, 16) == "7ffc";
    assert NatText(0xab, 16) == "ab";
    assert "0x" + "ab" == "0xab" && "0x" + "7ffc" == "0x7ffc";
  }

  // Instructions, of all threads, addresses, files and lines.

  /** A tag, the fields and the separators between them. */
  lemma Layout(tag: string, a: string, b: string, c: string, f: string, n: string)
    ensures Spaced(tag, FourText(a, b, c, Spaced(f, n)))
            == tag + " " + a + " " + b + " " + c + " " + f + " " + n
  {
    assert Spaced(c, Spaced(f, n)) == c + " " + f + " " + n;
    assert Spaced(b, c + " " + f + " " + n) == b + " " + c + " " + f + " " + n;
    assert Spaced(a, b + " " + c + " " + f + " " + n) == a + " " + b + " " + c + " " + f + " " + n;
  }

  lemma LayoutOfTwo(tag: string, kind: string, a: string, b: string, c: string, f: string, n: string)
    ensures Spaced(tag, Spaced(kind, FourText(a, b, c, Spaced(f, n))))
            == tag + " " + kind + " " + a + " " + b + " " + c + " " + f + " " + n
  {
    Layout(kind, a, b, c, f, n);
  }

  /** The words for the operations on memory. */
  predicate MemoryOpIs(op: MemoryOperation, word: string) {
    || (op == Load && word == "Load")
    || (op == Store && word == "Store")
    || (op == ReadModifyWrite && word == "RMW")
  }

  lemma AtomicTexts(t: Tid, op: MemoryOperation, word: string, x: Addr, f: string, n: nat)
    requires MemoryOpIs(op, word)
    ensures InstructionText(MemoryInstruction(t, op, x, true, MetaData(f, n)))
            == "memory_instruction" + " " + "atomic" + " " + IntText(t) + " " + word + " " + AddressText(x)
               + " " + f + " " + NatText(n, 10)
  {
    LayoutOfTwo("memory_instruction", "atomic", IntText(t), word, AddressText(x), f, NatText(n, 10));
  }

  lemma NonAtomicTexts(t: Tid, op: MemoryOperation, word: string, x: Addr, f: string, n: nat)
    requires MemoryOpIs(op, word)
    ensures InstructionText(MemoryInstruction(t, op, x, false, MetaData(f, n)))
            == "memory_instruction" + " " + "non-atomic" + " " + IntText(t) + " " + word + " " + AddressText(x)
               + " " + f + " " + NatText(n, 10)
  {
    LayoutOfTwo("memory_instruction", "non-atomic", IntText(t), word, AddressText(x), f, NatText(n, 10));
  }

  lemma LockTexts(t: Tid, x: Addr, f: string, n: nat)
    ensures InstructionText(LockInstruction(t, Lock, x, MetaData(f, n)))
            == "lock_instruction" + " " + IntText(t) + " " + "Lock" + " " + AddressText(x)
               + " " + f + " " + NatText(n, 10)
    ensures InstructionText(LockInstruction(t, Unlock, x, MetaData(f, n)))
            == "lock_instruction" + " " + IntText(t) + " " + "Unlock" + " " + AddressText(x)
               + " " + f + " " + NatText(n, 10)
  {
    var (a, c, m) := (IntText(t), AddressText(x), NatText(n, 10));
    Layout("lock_instruction", a, "Lock", c, f, m);
    Layout("lock_instruction", a, "Unlock", c, f, m);
  }

  /** The words for the statuses of a thread. */
  predicate StatusIs(status: ThreadStatus, word: string) {
    || (status == START && word == "START")
    || (status == ENABLED && word == "ENABLED")
    || (status == DISABLED && word == "DISABLED")
    || (status == FINISHED && word == "FINISHED")
  }

  lemma Alone<T>(parse: string -> Parse<T>, text: string, v: T)
    requires Undoes(parse, text, v)
    ensures parse(text) == Ok(v, "")
  {
    assert Blank("") && Ends("") && "" + (text + "") == text;
  }

  lemma OperandIs(u: Tid, status: ThreadStatus, word: string)
    requires StatusIs(status, word)
    ensures ThreadText(Thread(u, status)) == IntText(u) + " " + word
    ensures ParseThreadStatus(word) == Ok(status, "")
  {
    assert word == ThreadStatusText(status);
    ThreadStatusUndoes(status);
    Alone(ParseThreadStatus, ThreadStatusText(status), status);
    assert Spaced(IntText(u), word) == IntText(u) + " " + word;
  }

  lemma SpawnTexts(t: Tid, u: Tid, status: ThreadStatus, word: string, f: string, n: nat)
    requires StatusIs(status, word)
    ensures InstructionText(ThreadInstruction(t, Spawn, Thread(u, status), MetaData(f, n)))
            == "thread_management_instruction" + " " + IntText(t) + " " + "Spawn" + " " + (IntText(u) + " " + word)
               + " " + f + " " + NatText(n, 10)
  {
    OperandIs(u, status, word);
    Layout("thread_management_instruction", IntText(t), "Spawn", IntText(u) + " " + word, f, NatText(n, 10));
  }

  lemma JoinTexts(t: Tid, u: Tid, status: ThreadStatus, word: string, f: string, n: nat)
    requires StatusIs(status, word)
    ensures InstructionText(ThreadInstruction(t, Join, Thread(u, status), MetaData(f, n)))
            == "thread_management_instruction" + " " + IntText(t) + " " + "Join" + " " + (IntText(u) + " " + word)
               + " " + f + " " + NatText(n, 10)
  {
    OperandIs(u, status, word);
    Layout("thread_management_instruction", IntText(t), "Join", IntText(u) + " " + word, f, NatText(n, 10));
  }

  /** Whatever is written in one of these forms is read as the instruction. */
  lemma WrittenIsRead(i: Instruction, text: string)
    requires text == InstructionText(i) && Fits(i) && Named(i)
    ensures ParseInstruction(text) == Ok(i, "")
  {
    InstructionUndoes(i);
    Alone(ParseInstruction, text, i);
  }

  // Instructions as they stand in a file.

  lemma SomeFields()
    ensures IntText(0) == "0" && IntText(3) == "3" && NatText(12, 10) == "12" && AddressText(0xab) == "0xab"
    ensures IsWord("a.cpp")
  {
    SomeNumbers();
  }

  lemma WrittenUpdate()
    ensures ParseInstruction("memory_instruction" + " " + "atomic" + " " + "3" + " " + "RMW" + " " + "0xab"
                             + " " + "a.cpp" + " " + "12")
            == Ok(MemoryInstruction(3, ReadModifyWrite, 0xab, true, MetaData("a.cpp", 12)), "")
  {
    SomeFields();
    AtomicTexts(3, ReadModifyWrite, "RMW", 0xab, "a.cpp", 12);
    var i := MemoryInstruction(3, ReadModifyWrite, 0xab, true, MetaData("a.cpp", 12));
    WrittenIsRead(i, InstructionText(i));
  }

  lemma WrittenUnlock()
    ensures ParseInstruction("lock_instruction" + " " + "0" + " " + "Unlock" + " " + "0xab"
                             + " " + "a.cpp" + " " + "12")
            == Ok(LockInstruction(0, Unlock, 0xab, MetaData("a.cpp", 12)), "")
  {
    SomeFields();
    LockTexts(0, 0xab, "a.cpp", 12);
    var i := LockInstruction(0, Unlock, 0xab, MetaData("a.cpp", 12));
    WrittenIsRead(i, InstructionText(i));
  }

  lemma WrittenJoin()
    ensures ParseInstruction("thread_management_instruction" + " " + "0" + " " + "Join" + " " + ("3" + " " + "START")
                             + " " + "a.cpp" + " " + "12")
            == Ok(ThreadInstruction(0, Join, Thread(3, START), MetaData("a.cpp", 12)), "")
  {
    SomeFields();
    JoinTexts(0, 3, START, "START", "a.cpp", 12);
    var i := ThreadInstruction(0, Join, Thread(3, START), MetaData("a.cpp", 12));
    WrittenIsRead(i, InstructionText(i));
  }

  // States and executions.

  predicate EndIs(status: Status, word: string) {
    || (status == RUNNING && word == "RUNNING")
    || (status == DONE && word == "DONE")
    || (status == DEADLOCK && word == "DEADLOCK")
    || (status == BLOCKED && word == "BLOCKED")
    || (status == ERROR && word == "ERROR")
  }

  lemma EndWords(status: Status, word: string)
    requires EndIs(status, word)
    ensures StatusText(status) == word && ParseStatus(word) == Ok(status, "")
  {
    assert word == StatusText(status);
    StatusUndoes(status);
    Alone(ParseStatus, StatusText(status), status);
  }

  lemma OneInOrder(a: int)
    ensures Ascending({a}) == [a] && Ascending({}) == []
  {
    assert {a} - {a} == {};
  }

  lemma TwoInOrder(a: int, b: int)
    requires a < b
    ensures Ascending({a, b}) == [a, b]
  {
    assert Least({a, b}) == a;
    assert {a, b} - {a} == {b};
    OneInOrder(b);
  }

  lemma TextsOfOne<T>(v: T, text: T -> string)
    ensures Texts([v], text) == [text(v)]
  {
  }

  lemma TextsOfTwo<T>(v: T, w: T, text: T -> string)
    ensures Texts([v, w], text) == [text(v), text(w)]
  {
  }

  lemma ListOfOne(a: string)
    ensures ListText([a]) == " " + a && CountedText([a]) == "1" + (" " + a)
  {
    assert a + ListText([]) == a;
    assert [a][1..] == [];
  }

  lemma ListOfTwo(a: string, b: string)
    ensures CountedText([a, b]) == "2" + (" " + (a + (" " + b)))
  {
    assert [a, b][1..] == [b];
    ListOfOne(b);
  }

  lemma SetsAre()
    ensures SetText({}) == "0" && MapText(map[]) == "0"
    ensures SetText({0}) == "1" + (" " + "0") && SetText({1}) == "1" + (" " + "1")
  {
    OneInOrder(0);
    OneInOrder(1);
    TextsOfOne(0, IntText);
    TextsOfOne(1, IntText);
    ListOfOne("0");
    ListOfOne("1");
    var none: map<Tid, Next> := map[];
    assert none.Keys == {};
    assert Texts<Tid>([], IntText) == [] && Texts<Entry>([], EntryText) == [];
    assert "0" + "" == "0";
  }

  lemma EntriesOfOne(t: Tid, n: Next)
    ensures Entries(map[t := n]) == [(t, n)]
  {
    OneInOrder(t);
    assert map[t := n].Keys == {t};
  }

  lemma EntriesOfTwo(m: Next, n: Next)
    ensures Entries(map[0 := m, 1 := n]) == [(0, m), (1, n)]
  {
    TwoInOrder(0, 1);
    assert map[0 := m, 1 := n].Keys == {0, 1};
  }

  lemma EntryIs(t: Tid, i: Instruction, enabled: bool)
    ensures EntryText((t, Next(i, enabled)))
            == IntText(t) + (" " + (InstructionText(i) + (" " + (if enabled then "enabled" else "disabled"))))
  {
  }

  /** A state in which thread 0 is disabled and thread 1 enabled. */
  lemma StateIs(i: Instruction, j: Instruction)
    ensures StateText(State({1}, map[0 := Next(i, false), 1 := Next(j, true)]))
            == "State" + " " + "1" + " " + "1" + " " + "2"
               + " " + "0" + " " + InstructionText(i) + " " + "disabled"
               + " " + "1" + " " + InstructionText(j) + " " + "enabled"
  {
    SetsAre();
    EntriesOfTwo(Next(i, false), Next(j, true));
    TextsOfTwo((0, Next(i, false)), (1, Next(j, true)), EntryText);
    EntryIs(0, i, false);
    EntryIs(1, j, true);
    var (a, b) := (EntryText((0, Next(i, false))), EntryText((1, Next(j, true))));
    ListOfTwo(a, b);
    StateLayout("State", "1", "1", "2", "0", InstructionText(i), "disabled", "1", InstructionText(j), "enabled");
  }

  lemma StateLayout(tag: string, a: string, b: string, n: string, t: string, i: string, d: string, u: string, j: string,
                    e: string)
    ensures var (x, y) := (t + (" " + (i + (" " + d))), u + (" " + (j + (" " + e))));
            Spaced(tag, Spaced(a + (" " + b), n + (" " + (x + (" " + y)))))
            == tag + " " + a + " " + b + " " + n + " " + t + " " + i + " " + d + " " + u + " " + j + " " + e
  {
    var x := t + " " + i + " " + d;
    var y := u + " " + j + " " + e;
    assert t + (" " + (i + (" " + d))) == x && u + (" " + (j + (" " + e))) == y;
    assert x + (" " + y) == x + " " + u + " " + j + " " + e;
  }

  /** A state in which thread 0 is alone, and enabled; and one in which nobody is left. */
  function Lone(i: Instruction): State { State({0}, map[0 := Next(i, true)]) }

  const NOBODY := State({}, map[])

  lemma LoneIs(i: Instruction)
    ensures StateText(Lone(i))
            == "State" + " " + "1" + " " + "0" + " " + "1" + " " + "0" + " " + InstructionText(i) + " " + "enabled"
  {
    SetsAre();
    EntriesOfOne(0, Next(i, true));
    TextsOfOne((0, Next(i, true)), EntryText);
    EntryIs(0, i, true);
    ListOfOne(EntryText((0, Next(i, true))));
    LoneLayout("State", "1", "0", "1", "0", InstructionText(i), "enabled");
  }

  lemma NobodyIs()
    ensures StateText(NOBODY) == "State" + " " + "0" + " " + "0"
  {
    SetsAre();
    ThreeWords("State", "0", "0");
  }

  lemma ThreeWords(a: string, b: string, c: string)
    ensures Spaced(a, Spaced(b, c)) == a + " " + b + " " + c
  {
  }

  lemma LoneLayout(tag: string, a: string, b: string, n: string, t: string, i: string, e: string)
    ensures Spaced(tag, Spaced(a + (" " + b), n + (" " + (t + (" " + (i + (" " + e)))))))
            == tag + " " + a + " " + b + " " + n + " " + t + " " + i + " " + e
  {
  }

  /** An execution of thread 0 with two transitions. */
  function TwoSteps(i: Instruction, j: Instruction, status: Status): Record {
    Record([Transition(1, Lone(i), i, Lone(j)), Transition(2, Lone(j), j, NOBODY)], Some(Lone(i)), {0}, status)
  }

  lemma LinesOfTwo(a: string, step1: string, b: string, step2: string, c: string, end: string)
    ensures a + ("\n" + TailText([step1, step2], [b, c], 0, end))
            == a + "\n" + step1 + "\n" + b + "\n" + step2 + "\n" + c + "\n" + "=====" + "\n" + end
  {
    assert TailText([step1, step2], [b, c], 2, end) == "=====" + ("\n" + end);
    assert TailText([step1, step2], [b, c], 1, end) == Joined(step2, "\n", c) + ("\n" + ("=====" + ("\n" + end)));
    assert TailText([step1, step2], [b, c], 0, end)
        == Joined(step1, "\n", b) + ("\n" + (Joined(step2, "\n", c) + ("\n" + ("=====" + ("\n" + end)))));
  }

  lemma ExecutionLines(i: Instruction, j: Instruction, status: Status)
    ensures RecordText(TwoSteps(i, j, status))
            == StateText(Lone(i)) + "\n" + ("1" + " " + InstructionText(i)) + "\n"
               + StateText(Lone(j)) + "\n" + ("2" + " " + InstructionText(j)) + "\n"
               + StateText(NOBODY) + "\n" + "=====" + "\n" + StatusText(status)
  {
    StepsOfTwo(i, j, status);
    LinesOfTwo(StateText(Lone(i)), "1" + " " + InstructionText(i), StateText(Lone(j)), "2" + " " + InstructionText(j),
               StateText(NOBODY), StatusText(status));
  }

  lemma StepsOfTwo(i: Instruction, j: Instruction, status: Status)
    ensures Steps(TwoSteps(i, j, status)) == ["1" + " " + InstructionText(i), "2" + " " + InstructionText(j)]
    ensures Posts(TwoSteps(i, j, status)) == [StateText(Lone(j)), StateText(NOBODY)]
  {
    var E := TwoSteps(i, j, status);
    IndexLine(E.transitions[0], "1");
    IndexLine(E.transitions[1], "2");
  }

  lemma IndexLine(t: Transition, n: string)
    requires (t.index == 1 && n == "1") || (t.index == 2 && n == "2")
    ensures StepText(t) == n + " " + InstructionText(t.instr)
  {
    assert IntText(t.index) == n;
  }

  /** The whole text of an execution: the initial state; for each transition a line with its index and one with its
      post state, here a and b and then c; the equal signs; the status. */
  lemma ExecutionIs(i: Instruction, j: Instruction, status: Status, word: string, a: string, b: string, c: string)
    requires EndIs(status, word)
    requires a == "State" + " " + "1" + " " + "0" + " " + "1" + " " + "0" + " " + InstructionText(i) + " " + "enabled"
    requires b == "State" + " " + "1" + " " + "0" + " " + "1" + " " + "0" + " " + InstructionText(j) + " " + "enabled"
    requires c == "State" + " " + "0" + " " + "0"
    ensures RecordText(TwoSteps(i, j, status))
            == a + "\n" + ("1" + " " + InstructionText(i)) + "\n"
               + b + "\n" + ("2" + " " + InstructionText(j)) + "\n"
               + c + "\n" + "=====" + "\n" + word
  {
    LoneIs(i);
    LoneIs(j);
    NobodyIs();
    EndWords(status, word);
    ExecutionLines(i, j, status);
  }

  /** And that text is read as the execution. */
  lemma ExecutionIsRead(i: Instruction, j: Instruction, status: Status, text: string, junk: Status)
    requires Fits(i) && Named(i) && Fits(j) && Named(j) && !i.IsSpawn() && !j.IsSpawn()
    requires text == RecordText(TwoSteps(i, j, status))
    ensures ReadRecord(text, NewRecord(None), junk) == Reading(TwoSteps(i, j, status), true)
  {
    TwoStepsChain(i, j, status);
    TwoStepsRestore(i, j, status);
    RoundTrip(TwoSteps(i, j, status), NewRecord(None), 0, junk);
  }

  lemma TwoStepsRestore(i: Instruction, j: Instruction, status: Status)
    requires Fits(i) && Named(i) && Fits(j) && Named(j)
    ensures RecordTexts.Restorable(TwoSteps(i, j, status))
  {
    LoneRestores(i);
    LoneRestores(j);
    assert NOBODY.next.Keys == {};
  }

  lemma LoneRestores(i: Instruction)
    requires Fits(i) && Named(i)
    ensures FitsState(Lone(i)) && NamedState(Lone(i))
  {
    assert Lone(i).next.Keys == {0};
  }

  lemma TwoStepsChain(i: Instruction, j: Instruction, status: Status)
    requires !i.IsSpawn() && !j.IsSpawn()
    ensures TwoSteps(i, j, status).Chained() && IsPrefix(NewRecord(None), TwoSteps(i, j, status), 0)
  {
    var ts := TwoSteps(i, j, status).transitions;
    assert ts[..1] == [ts[0]] && ts[..1][..0] == [];
    assert SpawnedIn(ts[..1]) == {} && SpawnedIn(ts) == {};
  }

  // What else the readers accept, and what they refuse.

  /** Digits of both cases, with both prefixes or none. */
  lemma OtherAddresses()
    ensures ParseAddress("a") == Ok(10, "") && ParseAddress("F") == Ok(15, "")
  {
    assert TakeDigits("a", 16) == "a" && TakeDigits("F", 16) == "F";
    assert NatValue("a", 16) == 10 && NatValue("F", 16) == 15;
  }

  lemma UpperPrefix(d: string)
    requires IsNumeral(d, 16)
    ensures ParseDigits("0X" + d, 16) == Ok((false, NatValue(d, 16)), "")
  {
    var s := "0X" + d;
    assert s[0] == '0' && s[1] == 'X' && s[2..] == d;
    TakeDigitsOf(d, "", 16);
    assert d + "" == d && d[|d|..] == "";
  }

  lemma LowerPrefix(d: string)
    requires IsNumeral(d, 16)
    ensures ParseDigits("0x" + d, 16) == Ok((false, NatValue(d, 16)), "")
    ensures ParseDigits(d, 16) == Ok((false, NatValue(d, 16)), "")
  {
    NumeralRoundTrip("", "0x", d, "", 16);
    NumeralRoundTrip("", "", d, "", 16);
    assert "" + ("0x" + d + "") == "0x" + d && "" + ("" + d + "") == d;
  }

  lemma OtherPrefixes(d: string)
    requires IsNumeral(d, 16) && NatValue(d, 16) < 0x1_0000_0000_0000_0000
    ensures ParseAddress(d) == Ok(NatValue(d, 16), "")
    ensures ParseAddress("0x" + d) == ParseAddress(d) && ParseAddress("0X" + d) == ParseAddress(d)
  {
    LowerPrefix(d);
    UpperPrefix(d);
  }

  lemma PlusSign()
    ensures ParseInt("+5") == Ok(5, "")
  {
    assert "+5"[1..] == "5" && TakeDigits("5", 10) == "5" && NatValue("5", 10) == 5;
  }

  lemma SignedDigits(n: nat)
    ensures ParseDigits(NatText(n, 10), 10) == Ok((false, n), "")
    ensures ParseDigits("-" + NatText(n, 10), 10) == Ok((true, n), "")
  {
    var d := NatText(n, 10);
    NatTextIsNumeral(n, 10);
    NumeralRoundTrip("", "", d, "", 10);
    NumeralRoundTrip("", "-", d, "", 10);
    assert "" + ("" + d + "") == d && "" + ("-" + d + "") == "-" + d;
  }

  /** Any number is read with its sign; one that does not fit is refused, and an unsigned one wraps around. */
  lemma NumbersAreRead(n: nat, m: int)
    requires m == 0 - n
    ensures ParseInt(NatText(n, 10)) == if n < 0x8000_0000 then Ok(n, "") else Fail
    ensures ParseInt("-" + NatText(n, 10)) == if n <= 0x8000_0000 then Ok(m, "") else Fail
    ensures ParseLine("-" + NatText(n, 10))
            == if n >= 0x1_0000_0000 then Fail else Ok(if n > 0 then 0x1_0000_0000 - n else 0, "")
  {
    SignedDigits(n);
  }

  /** Any other word than these is refused; whatever is not "atomic" is taken for an instruction that is not. */
  lemma OtherWords(w: string)
    requires IsWord(w)
    ensures ParseAtomic(w) == Ok(w == "atomic", "")
    ensures ParseMemoryOp(w).Fail? <==> w != "Load" && w != "Store" && w != "RMW"
    ensures ParseLockOp(w).Fail? <==> w != "Lock" && w != "Unlock"
    ensures ParseThreadOp(w).Fail? <==> w != "Spawn" && w != "Join"
    ensures ParseEnabled(w).Fail? <==> w != "enabled" && w != "disabled"
  {
    OneWord(w, "");
  }

  lemma OtherStatuses(w: string)
    requires IsWord(w)
    ensures ParseThreadStatus(w).Fail? <==> !exists status :: StatusIs(status, w)
    ensures ParseStatus(w).Fail? <==> !exists status :: EndIs(status, w)
  {
    OneWord(w, "");
    if ParseThreadStatus(w).Ok? { assert StatusIs(ParseThreadStatus(w).value, w); }
    if ParseStatus(w).Ok? { assert EndIs(ParseStatus(w).value, w); }
  }

  lemma OtherTags(w: string, k: string)
    requires IsWord(w) && Ends(k)
    ensures w != "memory_instruction" && w != "lock_instruction" && w != "thread_management_instruction" ==>
              ParseInstruction(w + k).Fail?
    ensures w != "State" ==> ParseState(w + k).Fail?
  {
    OneWord(w, k);
  }

  /** What separates words. */
  lemma SpacesAre(c: char)
    ensures ParseWord([c] + "x")
            == if c == ' ' || c == '\t' || c == '\n' || c == '\r' || c == '\U{0B}' || c == '\U{0C}' then Ok("x", "")
               else Ok([c] + "x", "")
  {
    if IsSpace(c) {
      WordRoundTrip([c], "x", "");
      assert [c] + ("x" + "") == [c] + "x";
    } else {
      OneWord([c] + "x", "");
    }
  }

  lemma OneWord(w: string, k: string)
    requires IsWord(w) && Ends(k)
    ensures ParseWord(w + k) == Ok(w, k) && (k == "" ==> ParseWord(w) == Ok(w, k))
  {
    WordRoundTrip("", w, k);
    assert "" + (w + k) == w + k;
    if k == "" { assert w + k == w; }
  }
}
