/** The text form of instructions and states: what is printed, and what a text is read as. */
module StateTexts {
  import opened Instructions
  import opened IntSets
  import opened PoolSpec
  import opened ExecutionRecord
  import opened Tokens
  import opened Readers

  // Words for the enumerations.

  function MemoryOpText(op: MemoryOperation): string {
    match op case Load => "Load" case Store => "Store" case ReadModifyWrite => "RMW"
  }

  function LockOpText(op: LockOperation): string {
    match op case Lock => "Lock" case Unlock => "Unlock"
  }

  function ThreadOpText(op: ThreadOperation): string {
    match op case Spawn => "Spawn" case Join => "Join"
  }

  function ThreadStatusText(status: ThreadStatus): string {
    match status case START => "START" case ENABLED => "ENABLED" case DISABLED => "DISABLED" case FINISHED => "FINISHED"
  }

  function StatusText(status: Status): string {
    match status
    case RUNNING => "RUNNING"
    case DONE => "DONE"
    case DEADLOCK => "DEADLOCK"
    case BLOCKED => "BLOCKED"
    case ERROR => "ERROR"
  }

  function MemoryOpOf(w: string): Option<MemoryOperation> {
    if w == "Load" then Some(Load)
    else if w == "Store" then Some(Store)
    else if w == "RMW" then Some(ReadModifyWrite)
    else None
  }

  function LockOpOf(w: string): Option<LockOperation> {
    if w == "Lock" then Some(Lock) else if w == "Unlock" then Some(Unlock) else None
  }

  function ThreadOpOf(w: string): Option<ThreadOperation> {
    if w == "Spawn" then Some(Spawn) else if w == "Join" then Some(Join) else None
  }

  function ThreadStatusOf(w: string): Option<ThreadStatus> {
    if w == "START" then Some(START) else if w == "ENABLED" then Some(ENABLED)
    else if w == "DISABLED" then Some(DISABLED) else if w == "FINISHED" then Some(FINISHED) else None
  }

  function StatusOf(w: string): Option<Status> {
    if w == "RUNNING" then Some(RUNNING) else if w == "DONE" then Some(DONE) else if w == "DEADLOCK" then Some(DEADLOCK)
    else if w == "BLOCKED" then Some(BLOCKED) else if w == "ERROR" then Some(ERROR) else None
  }

  function EnabledText(enabled: bool): string { if enabled then "enabled" else "disabled" }

  function EnabledOf(w: string): Option<bool> {
    if w == "enabled" then Some(true) else if w == "disabled" then Some(false) else None
  }

  // Instructions: a tag, for a memory instruction whether it is atomic, and the common fields thread,
  // operation, operand and meta data.

  function MetaText(meta: MetaData): string { Spaced(meta.fileName, NatText(meta.lineNumber, 10)) }

  function ThreadText(u: Thread): string { Spaced(IntText(u.tid), ThreadStatusText(u.status)) }

  function KindText(i: Instruction): string {
    match i
    case MemoryInstruction(_, _, _, _, _) => "memory_instruction"
    case LockInstruction(_, _, _, _) => "lock_instruction"
    case ThreadInstruction(_, _, _, _) => "thread_management_instruction"
  }

  function AtomicText(isAtomic: bool): string { if isAtomic then "atomic" else "non-atomic" }

  function FieldsText(i: Instruction): string {
    match i
    case MemoryInstruction(tid, op, x, _, meta) =>
      FourText(IntText(tid), MemoryOpText(op), AddressText(x), MetaText(meta))
    case LockInstruction(tid, op, x, meta) => FourText(IntText(tid), LockOpText(op), AddressText(x), MetaText(meta))
    case ThreadInstruction(tid, op, u, meta) => FourText(IntText(tid), ThreadOpText(op), ThreadText(u), MetaText(meta))
  }

  function BodyText(i: Instruction): string {
    if i.MemoryInstruction? then Spaced(AtomicText(i.isAtomic), FieldsText(i)) else FieldsText(i)
  }

  function InstructionText(i: Instruction): string { Spaced(KindText(i), BodyText(i)) }

  function ParseName(s: string): (r: Parse<string>)
    ensures r.Ok? ==> |r.rest| < |s| && IsWord(r.value)
  {
    ParseWord(s)
  }

  function ParseLine(s: string): (r: Parse<nat>)
    ensures r.Ok? ==> |r.rest| < |s|
  {
    ParseUnsigned(s, 10, UINT_LIMIT)
  }

  function MakeMeta(name: string, n: nat): MetaData { MetaData(name, n) }

  function ParseMeta(s: string): (r: Parse<MetaData>)
    ensures r.Ok? ==> |r.rest| < |s| && IsWord(r.value.fileName)
  {
    Pair(s, ParseName, ParseLine, MakeMeta)
  }

  function ParseThreadStatus(s: string): Parse<ThreadStatus> { ParseOf(s, ThreadStatusOf) }

  function MakeThread(tid: int, status: ThreadStatus): Thread { Thread(tid, status) }

  function ParseThread(s: string): (r: Parse<Thread>)
    ensures r.Ok? ==> |r.rest| < |s|
  {
    Pair(s, ParseInt, ParseThreadStatus, MakeThread)
  }

  function ParseAddress(s: string): (r: Parse<Addr>)
    ensures r.Ok? ==> |r.rest| < |s|
  {
    ParseUnsigned(s, 16, ADDRESS_LIMIT)
  }

  function ParseMemoryOp(s: string): Parse<MemoryOperation> { ParseOf(s, MemoryOpOf) }
  function ParseLockOp(s: string): Parse<LockOperation> { ParseOf(s, LockOpOf) }
  function ParseThreadOp(s: string): Parse<ThreadOperation> { ParseOf(s, ThreadOpOf) }

  /** Any word but "atomic" stands for an instruction that is not. */
  function ParseAtomic(s: string): (r: Parse<bool>)
    ensures r.Ok? ==> |r.rest| < |s|
  {
    match ParseWord(s)
    case Fail => Fail
    case Ok(w, s1) => Ok(w == "atomic", s1)
  }

  type MemoryFields = Fields<int, MemoryOperation, Addr, MetaData>

  function ParseMemoryFields(s: string): (r: Parse<MemoryFields>)
    ensures r.Ok? ==> |r.rest| < |s| && IsWord(r.value.d.fileName)
  {
    Four(s, ParseInt, ParseMemoryOp, ParseAddress, ParseMeta)
  }

  function MakeMemory(isAtomic: bool, f: MemoryFields): Instruction { MemoryInstruction(f.a, f.b, f.c, isAtomic, f.d) }

  function ParseMemory(s: string): (r: Parse<Instruction>)
    ensures r.Ok? ==> |r.rest| < |s| && Named(r.value)
  {
    Pair(s, ParseAtomic, ParseMemoryFields, MakeMemory)
  }

  function ParseLock(s: string): (r: Parse<Instruction>)
    ensures r.Ok? ==> |r.rest| < |s| && Named(r.value)
  {
    match Four(s, ParseInt, ParseLockOp, ParseAddress, ParseMeta)
    case Fail => Fail
    case Ok(f, s1) => Ok(LockInstruction(f.a, f.b, f.c, f.d), s1)
  }

  function ParseThreadManagement(s: string): (r: Parse<Instruction>)
    ensures r.Ok? ==> |r.rest| < |s| && Named(r.value)
  {
    match Four(s, ParseInt, ParseThreadOp, ParseThread, ParseMeta)
    case Fail => Fail
    case Ok(f, s1) => Ok(ThreadInstruction(f.a, f.b, f.c, f.d), s1)
  }

  /** What follows the tag. */
  function ParseKind(kind: string, s: string): (r: Parse<Instruction>)
    ensures r.Ok? ==> |r.rest| < |s| && Named(r.value)
  {
    if kind == "memory_instruction" then ParseMemory(s)
    else if kind == "lock_instruction" then ParseLock(s)
    else if kind == "thread_management_instruction" then ParseThreadManagement(s)
    else Fail
  }

  /** Every instruction that is read has a file name that is one word. */
  function ParseInstruction(s: string): (r: Parse<Instruction>)
    ensures r.Ok? ==> |r.rest| < |s| && Named(r.value)
  {
    match ParseWord(s)
    case Fail => Fail
    case Ok(kind, s1) => ParseKind(kind, s1)
  }

  predicate Named(i: Instruction) { IsWord(i.meta.fileName) }

  /** The numbers fit their types. */
  predicate Fits(i: Instruction) {
    && FitsInt(i.tid) && i.meta.lineNumber < UINT_LIMIT
    && match i
       case ThreadInstruction(_, _, u, _) => FitsInt(u.tid)
       case _ => i.obj < ADDRESS_LIMIT
  }

  // The fields are read back.

  lemma IntUndoes(n: int)
    requires FitsInt(n)
    ensures Undoes(ParseInt, IntText(n), n)
  {
    forall pre, k | Blank(pre) && Ends(k)
      ensures ParseInt(pre + (IntText(n) + k)) == Ok(n, k)
    {
      IntRoundTrip(pre, n, k);
    }
  }

  lemma AddressUndoes(x: Addr)
    requires x < ADDRESS_LIMIT
    ensures Undoes(ParseAddress, AddressText(x), x)
  {
    forall pre, k | Blank(pre) && Ends(k)
      ensures ParseAddress(pre + (AddressText(x) + k)) == Ok(x, k)
    {
      AddressRoundTrip(pre, x, k);
    }
  }

  lemma NameUndoes(w: string)
    requires IsWord(w)
    ensures Undoes(ParseName, w, w)
  {
    forall pre, k | Blank(pre) && Ends(k) ensures ParseName(pre + (w + k)) == Ok(w, k) { WordRoundTrip(pre, w, k); }
  }

  lemma LineUndoes(n: nat)
    requires n < UINT_LIMIT
    ensures Undoes(ParseLine, NatText(n, 10), n)
  {
    forall pre, k | Blank(pre) && Ends(k) ensures ParseLine(pre + (NatText(n, 10) + k)) == Ok(n, k) {
      NatRoundTrip(pre, n, k, UINT_LIMIT);
    }
  }

  lemma MetaUndoes(meta: MetaData)
    requires IsWord(meta.fileName) && meta.lineNumber < UINT_LIMIT
    ensures Undoes(ParseMeta, MetaText(meta), meta)
  {
    var (w, n) := (meta.fileName, meta.lineNumber);
    NameUndoes(w);
    LineUndoes(n);
    forall pre, k | Blank(pre) && Ends(k) ensures ParseMeta(pre + (MetaText(meta) + k)) == Ok(meta, k) {
      PairUndoes(pre, k, w, w, " ", NatText(n, 10), n, ParseName, ParseLine, MakeMeta);
    }
  }

  lemma MemoryOpUndoes(op: MemoryOperation)
    ensures Undoes(ParseMemoryOp, MemoryOpText(op), op)
  {
    assert IsWord(MemoryOpText(op)) && MemoryOpOf(MemoryOpText(op)) == Some(op);
    WordUndoes(MemoryOpText(op), op, MemoryOpOf, ParseMemoryOp);
  }

  lemma LockOpUndoes(op: LockOperation)
    ensures Undoes(ParseLockOp, LockOpText(op), op)
  {
    assert IsWord(LockOpText(op)) && LockOpOf(LockOpText(op)) == Some(op);
    WordUndoes(LockOpText(op), op, LockOpOf, ParseLockOp);
  }

  lemma ThreadOpUndoes(op: ThreadOperation)
    ensures Undoes(ParseThreadOp, ThreadOpText(op), op)
  {
    assert IsWord(ThreadOpText(op)) && ThreadOpOf(ThreadOpText(op)) == Some(op);
    WordUndoes(ThreadOpText(op), op, ThreadOpOf, ParseThreadOp);
  }

  lemma ThreadStatusUndoes(status: ThreadStatus)
    ensures Undoes(ParseThreadStatus, ThreadStatusText(status), status)
  {
    assert IsWord(ThreadStatusText(status)) && ThreadStatusOf(ThreadStatusText(status)) == Some(status);
    WordUndoes(ThreadStatusText(status), status, ThreadStatusOf, ParseThreadStatus);
  }

  lemma ThreadUndoes(u: Thread)
    requires FitsInt(u.tid)
    ensures Undoes(ParseThread, ThreadText(u), u)
  {
    IntUndoes(u.tid);
    ThreadStatusUndoes(u.status);
    forall pre, k | Blank(pre) && Ends(k) ensures ParseThread(pre + (ThreadText(u) + k)) == Ok(u, k) {
      PairUndoes(pre, k, IntText(u.tid), u.tid, " ", ThreadStatusText(u.status), u.status, ParseInt, ParseThreadStatus,
          MakeThread);
    }
  }

  lemma AtomicUndoes(isAtomic: bool)
    ensures Undoes(ParseAtomic, AtomicText(isAtomic), isAtomic)
  {
    var w := AtomicText(isAtomic);
    assert IsWord(w) && (w == "atomic" <==> isAtomic);
    forall pre, k | Blank(pre) && Ends(k)
      ensures ParseAtomic(pre + (w + k)) == Ok(isAtomic, k)
    {
      WordRoundTrip(pre, w, k);
    }
  }

  lemma MemoryUndoes(i: Instruction)
    requires Fits(i) && Named(i) && i.MemoryInstruction?
    ensures Undoes(ParseMemory, BodyText(i), i)
  {
    var f := Fields(i.tid, i.memoryOp, i.obj, i.meta);
    IntUndoes(i.tid);
    MemoryOpUndoes(i.memoryOp);
    AddressUndoes(i.obj);
    MetaUndoes(i.meta);
    forall pre, k | Blank(pre) && Ends(k) ensures ParseMemoryFields(pre + (FieldsText(i) + k)) == Ok(f, k) {
      FourUndoes(pre, k, IntText(i.tid), MemoryOpText(i.memoryOp), AddressText(i.obj), MetaText(i.meta), f,
                 ParseInt, ParseMemoryOp, ParseAddress, ParseMeta);
    }
    AtomicUndoes(i.isAtomic);
    forall pre, k | Blank(pre) && Ends(k) ensures ParseMemory(pre + (BodyText(i) + k)) == Ok(i, k) {
      PairUndoes(pre, k, AtomicText(i.isAtomic), i.isAtomic, " ", FieldsText(i), f, ParseAtomic, ParseMemoryFields,
          MakeMemory);
    }
  }

  lemma LockUndoes(i: Instruction)
    requires Fits(i) && Named(i) && i.LockInstruction?
    ensures Undoes(ParseLock, BodyText(i), i)
  {
    IntUndoes(i.tid);
    LockOpUndoes(i.lockOp);
    AddressUndoes(i.obj);
    MetaUndoes(i.meta);
    forall pre, k | Blank(pre) && Ends(k) ensures ParseLock(pre + (BodyText(i) + k)) == Ok(i, k) {
      FourUndoes(pre, k, IntText(i.tid), LockOpText(i.lockOp), AddressText(i.obj), MetaText(i.meta),
                 Fields(i.tid, i.lockOp, i.obj, i.meta), ParseInt, ParseLockOp, ParseAddress, ParseMeta);
    }
  }

  lemma ThreadManagementUndoes(i: Instruction)
    requires Fits(i) && Named(i) && i.ThreadInstruction?
    ensures Undoes(ParseThreadManagement, BodyText(i), i)
  {
    IntUndoes(i.tid);
    ThreadOpUndoes(i.threadOp);
    ThreadUndoes(i.operand);
    MetaUndoes(i.meta);
    forall pre, k | Blank(pre) && Ends(k) ensures ParseThreadManagement(pre + (BodyText(i) + k)) == Ok(i, k) {
      FourUndoes(pre, k, IntText(i.tid), ThreadOpText(i.threadOp), ThreadText(i.operand), MetaText(i.meta),
                 Fields(i.tid, i.threadOp, i.operand, i.meta), ParseInt, ParseThreadOp, ParseThread, ParseMeta);
    }
  }

  lemma KindsAreWords(i: Instruction)
    ensures IsWord(KindText(i))
  {
    forall c | c in KindText(i) ensures !IsSpace(c) {
      match i
      case MemoryInstruction(_, _, _, _, _) => assert c in "memory_instruction";
      case LockInstruction(_, _, _, _) => assert c in "lock_instruction";
      case ThreadInstruction(_, _, _, _) => assert c in "thread_management_instruction";
    }
  }

  lemma BodyUndoes(i: Instruction, k: string)
    requires Ends(k) && Fits(i) && Named(i)
    ensures ParseKind(KindText(i), " " + (BodyText(i) + k)) == Ok(i, k)
  {
    assert Blank(" ");
    match i
    case MemoryInstruction(_, _, _, _, _) => MemoryUndoes(i);
    case LockInstruction(_, _, _, _) => LockUndoes(i);
    case ThreadInstruction(_, _, _, _) => ThreadManagementUndoes(i);
  }

  /** A printed instruction is read back exactly if its file name is not empty and without spaces. */
  lemma InstructionRoundTrip(pre: string, i: Instruction, k: string)
    requires Blank(pre) && Ends(k) && Fits(i)
    ensures ParseInstruction(pre + (InstructionText(i) + k)) == Ok(i, k) <==> Named(i)
  {
    if Named(i) {
      KindsAreWords(i);
      BodyUndoes(i, k);
      TagRoundTrip(pre, KindText(i), BodyText(i), k);
    }
  }

  // States.

  function ParseEnabled(s: string): (r: Parse<bool>)
    ensures r.Ok? ==> |r.rest| < |s|
  {
    ParseOf(s, EnabledOf)
  }

  function NextText(n: Next): string { Spaced(InstructionText(n.instr), EnabledText(n.enabled)) }

  function MakeNext(i: Instruction, enabled: bool): Next { Next(i, enabled) }

  function ParseNext(s: string): (r: Parse<Next>)
    ensures r.Ok? ==> |r.rest| < |s| && Named(r.value.instr)
  {
    Pair(s, ParseInstruction, ParseEnabled, MakeNext)
  }

  type Entry = (Tid, Next)

  function EntryText(e: Entry): string { Spaced(IntText(e.0), NextText(e.1)) }

  function MakeEntry(t: Tid, n: Next): Entry { (t, n) }

  function ParseEntry(s: string): (r: Parse<Entry>)
    ensures r.Ok? ==> |r.rest| < |s| && Named(r.value.1.instr)
  {
    Pair(s, ParseInt, ParseNext, MakeEntry)
  }

  function ParseTid(s: string): (r: Parse<Tid>)
    ensures r.Ok? ==> |r.rest| < |s|
  {
    ParseInt(s)
  }

  function ParseSet(s: string): (r: Parse<set<Tid>>)
    ensures r.Ok? ==> |r.rest| < |s|
  {
    match Counted(s, ParseSize, ParseTid)
    case Fail => Fail
    case Ok(ts, s1) => Ok((set t | t in ts), s1)
  }

  function MapOf(es: seq<Entry>): map<Tid, Next> {
    if es == [] then map[] else MapOf(es[..|es| - 1])[es[|es| - 1].0 := es[|es| - 1].1]
  }

  function ParseMap(s: string): (r: Parse<map<Tid, Next>>)
    ensures r.Ok? ==> |r.rest| < |s|
  {
    match Counted(s, ParseSize, ParseEntry)
    case Fail => Fail
    case Ok(es, s1) => Ok(MapOf(es), s1)
  }

  function MakeState(enabled: set<Tid>, next: map<Tid, Next>): State { State(enabled, next) }

  function ParseSets(s: string): (r: Parse<State>)
    ensures r.Ok? ==> |r.rest| < |s|
  {
    Pair(s, ParseSet, ParseMap, MakeState)
  }

  function ParseState(s: string): (r: Parse<State>)
    ensures r.Ok? ==> |r.rest| < |s|
  {
    Tagged(s, "State", ParseSets)
  }

  function EntriesAt(ts: seq<Tid>, next: map<Tid, Next>): seq<Entry>
    requires forall j | 0 <= j < |ts| :: ts[j] in next
  {
    seq(|ts|, j requires 0 <= j < |ts| => (ts[j], next[ts[j]]))
  }

  /** All entries, in ascending order. */
  function Entries(next: map<Tid, Next>): seq<Entry> {
    var ts := Ascending(next.Keys);
    assert forall j | 0 <= j < |ts| :: ts[j] in ts;
    EntriesAt(ts, next)
  }

  function SetText(ts: set<Tid>): string { CountedText(Texts(Ascending(ts), IntText)) }

  function MapText(next: map<Tid, Next>): string { CountedText(Texts(Entries(next), EntryText)) }

  function StateText(st: State): string { Spaced("State", Spaced(SetText(st.enabled), MapText(st.next))) }

  predicate NamedState(st: State) { forall t | t in st.next :: Named(st.next[t].instr) }

  /** Sizes fit their type too. */
  predicate FitsState(st: State) {
    && |st.enabled| < ADDRESS_LIMIT && |st.next.Keys| < ADDRESS_LIMIT
    && (forall t | t in st.enabled :: FitsInt(t))
    && (forall t | t in st.next :: FitsInt(t) && Fits(st.next[t].instr))
  }

  lemma NextUndoes(n: Next)
    requires Fits(n.instr) && Named(n.instr)
    ensures Undoes(ParseNext, NextText(n), n)
  {
    InstructionUndoes(n.instr);
    EnabledUndoes(n.enabled);
    forall pre, k | Blank(pre) && Ends(k) ensures ParseNext(pre + (NextText(n) + k)) == Ok(n, k) {
      PairUndoes(pre, k, InstructionText(n.instr), n.instr, " ", EnabledText(n.enabled), n.enabled, ParseInstruction,
          ParseEnabled, MakeNext);
    }
  }

  lemma InstructionUndoes(i: Instruction)
    requires Fits(i) && Named(i)
    ensures Undoes(ParseInstruction, InstructionText(i), i)
  {
    forall pre, k | Blank(pre) && Ends(k) ensures ParseInstruction(pre + (InstructionText(i) + k)) == Ok(i, k) {
      InstructionRoundTrip(pre, i, k);
    }
  }

  lemma EnabledUndoes(enabled: bool)
    ensures Undoes(ParseEnabled, EnabledText(enabled), enabled)
  {
    forall pre, k | Blank(pre) && Ends(k) ensures ParseEnabled(pre + (EnabledText(enabled) + k)) == Ok(enabled, k) {
      TableRoundTrip(pre, EnabledText(enabled), enabled, k, EnabledOf);
    }
  }

  lemma EntryUndoes(e: Entry)
    requires FitsInt(e.0) && Fits(e.1.instr) && Named(e.1.instr)
    ensures Undoes(ParseEntry, EntryText(e), e)
  {
    IntUndoes(e.0);
    NextUndoes(e.1);
    forall pre, k | Blank(pre) && Ends(k) ensures ParseEntry(pre + (EntryText(e) + k)) == Ok(e, k) {
      PairUndoes(pre, k, IntText(e.0), e.0, " ", NextText(e.1), e.1, ParseInt, ParseNext, MakeEntry);
    }
  }

  lemma TidUndoes(t: Tid)
    requires FitsInt(t)
    ensures Undoes(ParseTid, IntText(t), t)
  {
    forall pre, k | Blank(pre) && Ends(k)
      ensures ParseTid(pre + (IntText(t) + k)) == Ok(t, k)
    {
      IntRoundTrip(pre, t, k);
    }
  }

  lemma SetUndoes(ts: set<Tid>)
    requires |ts| < ADDRESS_LIMIT && forall t | t in ts :: FitsInt(t)
    ensures Undoes(ParseSet, SetText(ts), ts)
  {
    var s := Ascending(ts);
    forall j | 0 <= j < |s| ensures Undoes(ParseTid, Texts(s, IntText)[j], s[j]) { assert s[j] in s; TidUndoes(s[j]); }
    assert (set t | t in s) == ts;
    forall pre, k | Blank(pre) && Ends(k) ensures ParseSet(pre + (SetText(ts) + k)) == Ok(ts, k) {
      CountedListUndoes(Texts(s, IntText), s, ParseTid, pre, k);
    }
  }

  lemma {:induction false} MapOfEntries(es: seq<Entry>, next: map<Tid, Next>)
    requires forall e | e in es :: e.0 in next && e.1 == next[e.0]
    ensures MapOf(es) == map t | t in (set e | e in es :: e.0) :: next[t]
  {
    if es != [] {
      var (f, e) := (es[..|es| - 1], es[|es| - 1]);
      assert forall x | x in f :: x in es;
      MapOfEntries(f, next);
      assert es == f + [e];
      assert (set x | x in es :: x.0) == (set x | x in f :: x.0) + {e.0};
    }
  }

  predicate Restorable(next: map<Tid, Next>) {
    |next.Keys| < ADDRESS_LIMIT && forall t | t in next :: FitsInt(t) && Fits(next[t].instr) && Named(next[t].instr)
  }

  lemma EntriesUndo(next: map<Tid, Next>)
    requires Restorable(next)
    ensures var es := Entries(next); forall j | 0 <= j < |es| :: Undoes(ParseEntry, Texts(es, EntryText)[j], es[j])
  {
    var (ts, es) := (Ascending(next.Keys), Entries(next));
    forall j | 0 <= j < |es|
      ensures Undoes(ParseEntry, Texts(es, EntryText)[j], es[j])
    {
      assert ts[j] in ts; EntryUndoes(es[j]);
    }
  }

  lemma EntriesOf(next: map<Tid, Next>)
    ensures forall e | e in Entries(next) :: e.0 in next && e.1 == next[e.0]
    ensures (set e | e in Entries(next) :: e.0) == next.Keys
  {
    var (ts, es) := (Ascending(next.Keys), Entries(next));
    forall e | e in es ensures e.0 in next && e.1 == next[e.0] {
      var j :| 0 <= j < |es| && es[j] == e;
      assert ts[j] in ts;
    }
    forall t | t in next ensures exists e :: e in es && e.0 == t {
      var j :| 0 <= j < |ts| && ts[j] == t;
      assert es[j] in es;
    }
  }

  lemma EntriesAreAll(next: map<Tid, Next>)
    ensures MapOf(Entries(next)) == next
  {
    EntriesOf(next);
    MapOfEntries(Entries(next), next);
    assert (map t | t in next.Keys :: next[t]) == next;
  }

  lemma MapUndoes(next: map<Tid, Next>)
    requires Restorable(next)
    ensures Undoes(ParseMap, MapText(next), next)
  {
    var es := Entries(next);
    EntriesUndo(next);
    EntriesAreAll(next);
    forall pre, k | Blank(pre) && Ends(k) ensures ParseMap(pre + (MapText(next) + k)) == Ok(next, k) {
      CountedListUndoes(Texts(es, EntryText), es, ParseEntry, pre, k);
    }
  }

  lemma SetsUndo(st: State)
    requires FitsState(st) && NamedState(st)
    ensures Undoes(ParseSets, Spaced(SetText(st.enabled), MapText(st.next)), st)
  {
    SetUndoes(st.enabled);
    MapUndoes(st.next);
    forall pre, k | Blank(pre) && Ends(k)
      ensures ParseSets(pre + (Spaced(SetText(st.enabled), MapText(st.next)) + k)) == Ok(st, k)
    {
      PairUndoes(pre, k, SetText(st.enabled), st.enabled, " ", MapText(st.next), st.next, ParseSet, ParseMap,
          MakeState);
    }
  }

  lemma StateUndoes(st: State)
    requires FitsState(st) && NamedState(st)
    ensures Undoes(ParseState, StateText(st), st)
  {
    SetsUndo(st);
    forall pre, k | Blank(pre) && Ends(k) ensures ParseState(pre + (StateText(st) + k)) == Ok(st, k) {
      TaggedUndoes(pre, "State", Spaced(SetText(st.enabled), MapText(st.next)), st, k, ParseSets);
    }
  }

  // Only instructions with a file name are ever read.

  predicate NamedEntry(e: Entry) { Named(e.1.instr) }

  lemma {:induction false} MapOfNamed(es: seq<Entry>)
    requires forall e | e in es :: NamedEntry(e)
    ensures forall t | t in MapOf(es) :: Named(MapOf(es)[t].instr)
  {
    if es != [] {
      var f := es[..|es| - 1];
      assert forall e | e in f :: e in es;
      MapOfNamed(f);
      assert NamedEntry(es[|es| - 1]);
    }
  }

  lemma MapsReadAreNamed(s: string)
    ensures ParseMap(s).Ok? ==> forall t | t in ParseMap(s).value :: Named(ParseMap(s).value[t].instr)
  {
    var n := ParseSize(s);
    if n.Ok? {
      RepeatAll(n.value, n.rest, ParseEntry, NamedEntry);
      var es := Repeat(n.value, n.rest, ParseEntry);
      if es.Ok? { MapOfNamed(es.value); }
    }
  }

  lemma StatesReadAreNamed(s: string)
    ensures ParseState(s).Ok? ==> NamedState(ParseState(s).value)
  {
    var w := ParseWord(s);
    if w.Ok? {
      var set' := ParseSet(w.rest);
      if set'.Ok? { MapsReadAreNamed(set'.rest); }
    }
  }

  // One line each.

  predicate IsLine(s: string) { '\n' !in s }

  lemma {:induction false} NumberIsLine(n: nat, b: nat)
    requires IsBase(b)
    ensures IsLine(NatText(n, b))
  {
    if n >= b { NumberIsLine(n / b, b); }
  }

  lemma IntIsLine(n: int)
    ensures IsLine(IntText(n))
  {
    NumberIsLine(if n < 0 then -n else n, 10);
  }

  lemma AddressIsLine(x: Addr)
    ensures IsLine(AddressText(x))
  {
    NumberIsLine(x, 16);
  }

  lemma SpacedIsLine(a: string, b: string)
    requires IsLine(a) && IsLine(b)
    ensures IsLine(Spaced(a, b))
  {
  }

  lemma FourIsLine(a: string, b: string, c: string, d: string)
    requires IsLine(a) && IsLine(b) && IsLine(c) && IsLine(d)
    ensures IsLine(FourText(a, b, c, d))
  {
    SpacedIsLine(c, d);
    SpacedIsLine(b, Spaced(c, d));
    SpacedIsLine(a, Spaced(b, Spaced(c, d)));
  }

  lemma WordIsLine(w: string)
    requires IsWord(w)
    ensures IsLine(w)
  {
    assert forall c | c in w :: !IsSpace(c) && c != '\n';
  }

  lemma MetaIsLine(meta: MetaData)
    requires IsWord(meta.fileName)
    ensures IsLine(MetaText(meta))
  {
    WordIsLine(meta.fileName);
    NumberIsLine(meta.lineNumber, 10);
    SpacedIsLine(meta.fileName, NatText(meta.lineNumber, 10));
  }

  lemma ThreadIsLine(u: Thread)
    ensures IsLine(ThreadText(u))
  {
    IntIsLine(u.tid);
    SpacedIsLine(IntText(u.tid), ThreadStatusText(u.status));
  }

  lemma FieldsAreLines(i: Instruction)
    requires Named(i)
    ensures IsLine(FieldsText(i))
  {
    IntIsLine(i.tid);
    MetaIsLine(i.meta);
    match i
    case MemoryInstruction(tid, op, x, _, meta) =>
      AddressIsLine(x);
      FourIsLine(IntText(tid), MemoryOpText(op), AddressText(x), MetaText(meta));
    case LockInstruction(tid, op, x, meta) =>
      AddressIsLine(x);
      FourIsLine(IntText(tid), LockOpText(op), AddressText(x), MetaText(meta));
    case ThreadInstruction(tid, op, u, meta) =>
      ThreadIsLine(u);
      FourIsLine(IntText(tid), ThreadOpText(op), ThreadText(u), MetaText(meta));
  }

  lemma InstructionIsLine(i: Instruction)
    requires Named(i)
    ensures IsLine(InstructionText(i))
  {
    FieldsAreLines(i);
    KindsAreWords(i);
    WordIsLine(KindText(i));
    if i.MemoryInstruction? { SpacedIsLine(AtomicText(i.isAtomic), FieldsText(i)); }
    SpacedIsLine(KindText(i), BodyText(i));
  }

  lemma {:induction false} ListIsLine(ts: seq<string>)
    requires forall j | 0 <= j < |ts| :: IsLine(ts[j])
    ensures IsLine(ListText(ts))
  {
    if ts != [] { ListIsLine(ts[1..]); }
  }

  lemma SetIsLine(ts: set<Tid>)
    ensures IsLine(SetText(ts))
  {
    var s := Ascending(ts);
    forall j | 0 <= j < |s| ensures IsLine(Texts(s, IntText)[j]) { IntIsLine(s[j]); }
    ListIsLine(Texts(s, IntText));
    NumberIsLine(|s|, 10);
  }

  lemma EntryIsLine(e: Entry)
    requires Named(e.1.instr)
    ensures IsLine(EntryText(e))
  {
    IntIsLine(e.0);
    InstructionIsLine(e.1.instr);
    SpacedIsLine(InstructionText(e.1.instr), EnabledText(e.1.enabled));
    SpacedIsLine(IntText(e.0), NextText(e.1));
  }

  lemma EntriesAreLines(next: map<Tid, Next>)
    requires forall t | t in next :: Named(next[t].instr)
    ensures var es := Entries(next); forall j | 0 <= j < |es| :: IsLine(Texts(es, EntryText)[j])
  {
    var (ts, es) := (Ascending(next.Keys), Entries(next));
    forall j | 0 <= j < |es| ensures IsLine(Texts(es, EntryText)[j]) {
      var t := ts[j];
      assert t in ts && t in next && Named(next[t].instr);
      EntryIsLine((t, next[t]));
    }
  }

  lemma MapIsLine(next: map<Tid, Next>)
    requires forall t | t in next :: Named(next[t].instr)
    ensures IsLine(MapText(next))
  {
    var es := Entries(next);
    EntriesAreLines(next);
    ListIsLine(Texts(es, EntryText));
    NumberIsLine(|es|, 10);
  }

  lemma StateIsLine(st: State)
    requires NamedState(st)
    ensures IsLine(StateText(st))
  {
    SetIsLine(st.enabled);
    MapIsLine(st.next);
    SpacedIsLine(SetText(st.enabled), MapText(st.next));
    SpacedIsLine("State", Spaced(SetText(st.enabled), MapText(st.next)));
  }
}
