/** The two waits of the protocol, of a thread for its turn and of the scheduler for the posts, as they are
    implemented: with a semaphore for each thread and a condition variable. Signals and notifications may come
    before the wait they are meant for, and none is lost. */
module Handshake {
  import opened Instructions
  import opened PoolSpec
  import opened System
  import opened Base
  import opened SchedulingPoint
  import opened ExecutionRecord
  import opened Runs
  import opened ControllableThread

  /** handles: for every registered thread where it is with respect to its semaphore; asleep: the scheduler
      is blocked on the condition variable. */
  datatype Fine<L, M> = Fine(run: Run<L, M>, handles: map<Tid, Handle>, asleep: bool)

  datatype FineEvent =
    | Coarse(e: Event)
    | Arrive(tid: Tid)      // the thread reaches its semaphore
    | Resume(tid: Tid)      // it is signalled there, and goes on
    | Check                 // the scheduler evaluates its condition, and falls asleep if it does not hold

  function FineStart<L, M>(P: Program<L, M>): Fine<L, M> {
    Fine(Start(P), map[0 := NEW_HANDLE], false)
  }

  /** The threads are at their semaphores while a run goes on, and after an error until they have left. */
  predicate Waits(status: Status) { status == RUNNING || status == ERROR }

  predicate CanFine<L, M>(cfg: Config, f: Fine<L, M>, e: FineEvent) {
    match e
    case Coarse(Section(t)) => CanApply(cfg, f.run, e.e) && t in f.handles && f.handles[t].place == Away
    case Coarse(Iteration(_)) => CanApply(cfg, f.run, e.e) && !f.asleep
    case Arrive(t) => Waits(f.run.status) && t in f.handles && f.handles[t].place == Posted
    case Resume(t) => Waits(f.run.status) && t in f.handles && f.handles[t].CanResume()
    case Check => f.run.status == RUNNING && !f.asleep
  }

  /** The section is a post that throws. */
  predicate Throws<L, M>(c: Core<L, M>, t: Tid) {
    && InRange(c, t) && c.phases[t].Yielded? && c.phases[t].task.Some? && PostThrows(c.pool, c.phases[t].task.value)
  }

  /** Posts and finishes notify the scheduler, unless they throw. */
  predicate Notifies<L, M>(c: Core<L, M>, t: Tid) {
    InRange(c, t) && c.phases[t].Yielded? && !Throws(c, t)
  }

  /** A section that registers a thread creates its handle, a section that posts leads to the semaphore, unless
      the post throws. */
  function HandlesAfter<L, M>(c: Core<L, M>, handles: map<Tid, Handle>, t: Tid): map<Tid, Handle>
    requires InRange(c, t)
  {
    match c.phases[t]
    case Registering(_, k) => if k in handles then handles else handles[k := NEW_HANDLE]
    case Yielded(_, Some(_)) =>
      if Throws(c, t) then handles else handles[t := Handle(Posted, t in handles && handles[t].signalled)]
    case _ => handles
  }

  /** A turn sets the signal of its thread, an error sets all of them. */
  function Signals<L, M>(handles: map<Tid, Handle>, d: Run<L, M>, t: Tid): map<Tid, Handle> {
    if d.status == RUNNING then (if t in handles then handles[t := handles[t].Granted()] else handles)
    else if d.status == ERROR then map u | u in handles :: handles[u].Granted()
    else handles
  }

  function ApplyFine<L, M>(P: Program<L, M>, cfg: Config, f: Fine<L, M>, e: FineEvent): Fine<L, M> {
    if !CanFine(cfg, f, e) then f
    else match e
      case Coarse(Section(t)) =>
        Fine(Apply(P, cfg, f.run, e.e), HandlesAfter(f.run.core, f.handles, t),
             f.asleep && !Notifies(f.run.core, t))
      case Coarse(Iteration(pick)) =>
        var d := Apply(P, cfg, f.run, e.e);
        Fine(d, Signals(f.handles, d, pick), false)
      case Arrive(t) => f.(handles := f.handles[t := f.handles[t].Arrived()])
      case Resume(t) => f.(handles := f.handles[t := f.handles[t].Resumed()])
      case Check => f.(asleep := !AllPosted(f.run.core.pool))
  }

  function FineAfter<L, M>(P: Program<L, M>, cfg: Config, fs: seq<FineEvent>): Fine<L, M> {
    if fs == [] then FineStart(P) else ApplyFine(P, cfg, FineAfter(P, cfg, fs[..|fs| - 1]), fs[|fs| - 1])
  }

  predicate IsFineRun<L, M>(P: Program<L, M>, cfg: Config, fs: seq<FineEvent>) {
    fs != [] ==>
      && IsFineRun(P, cfg, fs[..|fs| - 1])
      && CanFine(cfg, FineAfter(P, cfg, fs[..|fs| - 1]), fs[|fs| - 1])
  }

  // What the semaphores and the condition variable keep.

  /** A signal is set exactly from a grant to the resumption of its thread, wherever the thread is meanwhile. A
      thread whose post threw never reaches its semaphore. */
  predicate HandleAt<L, M>(f: Fine<L, M>, t: Tid) {
    var c := f.run.core;
    && (t in f.handles <==> t in c.pool.threads)
    && (t in f.handles && InRange(c, t) ==>
          var h := f.handles[t];
          match c.phases[t]
          case Waiting(_, _) => (h.place == Away <==> t in c.thrown) && !h.signalled
          case Granted(_, _) => if t in c.thrown then h == NEW_HANDLE.Granted() else h.signalled <==> h.place != Away
          case _ => h == NEW_HANDLE)
  }

  ghost predicate FineInv<L, M>(f: Fine<L, M>) {
    && RunInv(f.run)
    && (f.run.status == RUNNING ==> forall t: Tid :: HandleAt(f, t))
    && (f.run.status != RUNNING ==> forall t: Tid :: t in f.handles <==> t in f.run.core.pool.threads)
    && (f.run.status in {DONE, DEADLOCK} ==> forall t: Tid :: t in f.handles ==> !f.handles[t].signalled)
  }

  lemma PostKeepsHandle<L, M>(P: Program<L, M>, cfg: Config, f: Fine<L, M>, t: Tid, u: Tid)
    requires FineInv(f) && CanFine(cfg, f, Coarse(Section(t))) && f.run.core.phases[t].Yielded?
    ensures HandleAt(ApplyFine(P, cfg, f, Coarse(Section(t))), u)
  {
    assert ThreadAt(f.run.core, t) && HandleAt(f, t) && HandleAt(f, u) && ThreadAt(f.run.core, u);
  }

  lemma ExecutionKeepsHandle<L, M>(P: Program<L, M>, cfg: Config, f: Fine<L, M>, t: Tid, u: Tid)
    requires FineInv(f) && CanFine(cfg, f, Coarse(Section(t))) && f.run.core.phases[t].Granted?
    ensures HandleAt(ApplyFine(P, cfg, f, Coarse(Section(t))), u)
  {
    assert CarriedAt(f.run.core, t) && ThreadAt(f.run.core, t) && HandleAt(f, t);
    assert HandleAt(f, u) && ThreadAt(f.run.core, u);
  }

  lemma YieldKeepsHandle<L, M>(P: Program<L, M>, cfg: Config, f: Fine<L, M>, t: Tid, u: Tid)
    requires FineInv(f) && CanFine(cfg, f, Coarse(Section(t)))
    requires f.run.core.phases[t].Running? || f.run.core.phases[t].Ready?
    ensures HandleAt(ApplyFine(P, cfg, f, Coarse(Section(t))), u)
  {
    assert ThreadAt(f.run.core, t) && HandleAt(f, t) && HandleAt(f, u) && ThreadAt(f.run.core, u);
  }

  lemma RegistrationKeepsHandle<L, M>(P: Program<L, M>, cfg: Config, f: Fine<L, M>, t: Tid, u: Tid)
    requires FineInv(f) && CanFine(cfg, f, Coarse(Section(t))) && f.run.core.phases[t].Registering?
    ensures HandleAt(ApplyFine(P, cfg, f, Coarse(Section(t))), u)
  {
    assert TurnAt(f.run.core, t) && ThreadAt(f.run.core, t) && HandleAt(f, t);
    assert HandleAt(f, u) && ThreadAt(f.run.core, u);
  }

  lemma TurnKeepsHandles<L, M>(P: Program<L, M>, cfg: Config, f: Fine<L, M>, pick: Tid)
    requires FineInv(f) && CanFine(cfg, f, Coarse(Iteration(pick)))
    requires Iterate(cfg, f.run, pick).status == RUNNING
    ensures forall u: Tid :: HandleAt(ApplyFine(P, cfg, f, Coarse(Iteration(pick))), u)
  {
    var g := ApplyFine(P, cfg, f, Coarse(Iteration(pick)));
    assert ThreadAt(f.run.core, pick) && HandleAt(f, pick);
    forall u: Tid ensures HandleAt(g, u) { assert HandleAt(f, u) && ThreadAt(f.run.core, u); }
  }

  /** When a run ends, no turn is pending. */
  lemma EndOfHandles<L, M>(P: Program<L, M>, cfg: Config, f: Fine<L, M>, pick: Tid)
    requires FineInv(f) && CanFine(cfg, f, Coarse(Iteration(pick)))
    requires Iterate(cfg, f.run, pick).status != RUNNING
    ensures var g := ApplyFine(P, cfg, f, Coarse(Iteration(pick)));
            && (forall t: Tid :: t in g.handles <==> t in g.run.core.pool.threads)
            && (g.run.status in {DONE, DEADLOCK} ==> forall t: Tid :: t in g.handles ==> !g.handles[t].signalled)
  {
    EndKeepsRecord(cfg, f.run, pick);
    PostedMeansQuiet(f.run.core);
    forall t: Tid
      ensures t in f.handles <==> t in f.run.core.pool.threads
      ensures t in f.handles ==> !f.handles[t].signalled
    {
      assert HandleAt(f, t) && ThreadAt(f.run.core, t);
    }
  }

  lemma WaitKeepsHandles<L, M>(P: Program<L, M>, cfg: Config, f: Fine<L, M>, e: FineEvent, t: Tid)
    requires FineInv(f) && CanFine(cfg, f, e) && (e == Arrive(t) || e == Resume(t))
    ensures FineInv(ApplyFine(P, cfg, f, e))
  {
    var g := ApplyFine(P, cfg, f, e);
    if f.run.status == RUNNING {
      assert HandleAt(f, t);
      forall u: Tid ensures HandleAt(g, u) { assert HandleAt(f, u); }
    }
  }

  lemma ApplyKeepsFineInv<L, M>(P: Program<L, M>, cfg: Config, f: Fine<L, M>, e: FineEvent)
    requires FineInv(f) && CanFine(cfg, f, e)
    ensures FineInv(ApplyFine(P, cfg, f, e))
  {
    var g := ApplyFine(P, cfg, f, e);
    match e
    case Coarse(Section(t)) =>
      ApplyKeepsRunInv(P, cfg, f.run, e.e);
      forall u: Tid ensures HandleAt(g, u) {
        match f.run.core.phases[t]
        case Granted(_, _) => ExecutionKeepsHandle(P, cfg, f, t, u);
        case Registering(_, _) => RegistrationKeepsHandle(P, cfg, f, t, u);
        case Yielded(_, _) => PostKeepsHandle(P, cfg, f, t, u);
        case _ => YieldKeepsHandle(P, cfg, f, t, u);
      }
    case Coarse(Iteration(pick)) =>
      ApplyKeepsRunInv(P, cfg, f.run, e.e);
      if g.run.status == RUNNING { TurnKeepsHandles(P, cfg, f, pick); } else { EndOfHandles(P, cfg, f, pick); }
    case Arrive(t) => WaitKeepsHandles(P, cfg, f, e, t);
    case Resume(t) => WaitKeepsHandles(P, cfg, f, e, t);
    case Check =>
      forall u: Tid ensures HandleAt(g, u) { assert HandleAt(f, u); }
  }

  lemma {:induction false} RunsKeepFineInv<L, M>(P: Program<L, M>, cfg: Config, fs: seq<FineEvent>)
    requires IsFineRun(P, cfg, fs)
    ensures FineInv(FineAfter(P, cfg, fs))
  {
    if fs == [] {
      InitialInv(P);
      forall t: Tid ensures HandleAt(FineStart(P), t) {}
    } else {
      RunsKeepFineInv(P, cfg, fs[..|fs| - 1]);
      ApplyKeepsFineInv(P, cfg, FineAfter(P, cfg, fs[..|fs| - 1]), fs[|fs| - 1]);
    }
  }

  // When a wakeup is lost.

  /** The last section of the run is a post that throws, and now every unfinished thread has posted. */
  ghost predicate EndsInThrow<L, M>(P: Program<L, M>, cfg: Config, es: seq<Event>) {
    && es != [] && es[|es| - 1].Section?
    && Throws(After(P, cfg, es[..|es| - 1]).core, es[|es| - 1].tid)
    && AllPosted(After(P, cfg, es).core.pool)
  }

  /** The scheduler sleeps although every unfinished thread has posted. */
  ghost predicate Overslept<L, M>(P: Program<L, M>, cfg: Config, fs: seq<FineEvent>) {
    && IsFineRun(P, cfg, fs)
    && FineAfter(P, cfg, fs).run.status == RUNNING
    && FineAfter(P, cfg, fs).asleep
    && AllPosted(FineAfter(P, cfg, fs).run.core.pool)
  }

  lemma SleeperMissed<L, M>(P: Program<L, M>, cfg: Config, f: Fine<L, M>, t: Tid)
    requires FineInv(f) && CanFine(cfg, f, Coarse(Section(t)))
    ensures var g := ApplyFine(P, cfg, f, Coarse(Section(t)));
            g.asleep && AllPosted(g.run.core.pool) ==> Throws(f.run.core, t)
  {
    PostedMeansQuiet(f.run.core);
    if AllPosted(Step(P, f.run.core, t).pool) { WakeupsAreNotified(P, f.run.core, t); }
  }

  /** If the scheduler sleeps although its condition holds, the post that made it hold has thrown. */
  lemma {:induction false} SleeperMissedThrow<L, M>(P: Program<L, M>, cfg: Config, fs: seq<FineEvent>)
    requires IsFineRun(P, cfg, fs)
    ensures Overslept(P, cfg, fs) ==> EndsInThrow(P, cfg, Project(fs))
  {
    if fs != [] {
      var before := fs[..|fs| - 1];
      var (f, e) := (FineAfter(P, cfg, before), fs[|fs| - 1]);
      SleeperMissedThrow(P, cfg, before);
      FineRunsAreRuns(P, cfg, before);
      RunsKeepFineInv(P, cfg, before);
      if e.Coarse? {
        assert (Project(before) + [e.e])[..|Project(before)|] == Project(before);
        if e.e.Section? { SleeperMissed(P, cfg, f, e.e.tid); }
      } else {
        assert Project(before) + [] == Project(before);
      }
    }
  }

  /** The scheduler falls asleep, and then the thread goes on. */
  lemma AsleepThen<L, M>(P: Program<L, M>, cfg: Config, fs: seq<FineEvent>, t: Tid)
    requires IsFineRun(P, cfg, fs) && CanFine(cfg, FineAfter(P, cfg, fs), Coarse(Section(t)))
    requires !FineAfter(P, cfg, fs).asleep && FineAfter(P, cfg, fs).run.status == RUNNING
    requires Throws(FineAfter(P, cfg, fs).run.core, t) && !AllPosted(FineAfter(P, cfg, fs).run.core.pool)
    ensures var gs := fs + [Check] + [Coarse(Section(t))];
            IsFineRun(P, cfg, gs) && Project(gs) == Project(fs) + [Section(t)] && FineAfter(P, cfg, gs).asleep
  {
    OneMoreEvent(P, cfg, fs, Check);
    OneMoreEvent(P, cfg, fs + [Check], Coarse(Section(t)));
  }

  lemma AsleepThenThrow<L, M>(P: Program<L, M>, cfg: Config, fs: seq<FineEvent>, es: seq<Event>, t: Tid)
    requires IsFineRun(P, cfg, fs) && CanFine(cfg, FineAfter(P, cfg, fs), Coarse(Section(t)))
    requires !FineAfter(P, cfg, fs).asleep && FineAfter(P, cfg, fs).run.status == RUNNING
    requires Throws(FineAfter(P, cfg, fs).run.core, t) && es == Project(fs) + [Section(t)]
    requires AllPosted(After(P, cfg, es).core.pool)
    ensures var gs := fs + [Check] + [Coarse(Section(t))]; Overslept(P, cfg, gs) && Project(gs) == es
  {
    RunsKeepFineInv(P, cfg, fs);
    PostedMeansQuiet(FineAfter(P, cfg, fs).run.core);
    AsleepThen(P, cfg, fs, t);
    FineRunsAreRuns(P, cfg, fs + [Check] + [Coarse(Section(t))]);
    StillRunning(P, cfg, fs + [Check], t);
  }

  lemma StillRunning<L, M>(P: Program<L, M>, cfg: Config, fs: seq<FineEvent>, t: Tid)
    requires IsFineRun(P, cfg, fs + [Coarse(Section(t))])
    ensures FineAfter(P, cfg, fs + [Coarse(Section(t))]).run.status == RUNNING
  {
    assert (fs + [Coarse(Section(t))])[..|fs|] == fs;
  }

  /** Before such a post the scheduler may fall asleep, and the post does not wake it up. */
  lemma ThrowIsMissed<L, M>(P: Program<L, M>, cfg: Config, es: seq<Event>) returns (gs: seq<FineEvent>)
    requires IsRun(P, cfg, es) && EndsInThrow(P, cfg, es)
    ensures Overslept(P, cfg, gs) && Project(gs) == es
  {
    var (before, t) := (es[..|es| - 1], es[|es| - 1].tid);
    assert es == before + [Section(t)];
    var fs := RunsAreFineRuns(P, cfg, before);
    fs := NothingIsHeldUp(P, cfg, fs, Section(t));
    AsleepThenThrow(P, cfg, fs, es, t);
    gs := fs + [Check] + [Coarse(Section(t))];
  }

  /** In some interleaving with its waits the scheduler sleeps at the end of the run although every unfinished
      thread has posted. */
  ghost predicate WakeupIsLost<L, M>(P: Program<L, M>, cfg: Config, es: seq<Event>) {
    exists fs: seq<FineEvent> :: Overslept(P, cfg, fs) && Project(fs) == es
  }

  /** A wakeup can be lost exactly when a post throws, that is, when a thread asks for the second time to join
      the same thread. */
  lemma WakeupIsLostIff<L, M>(P: Program<L, M>, cfg: Config, es: seq<Event>)
    requires IsRun(P, cfg, es)
    ensures WakeupIsLost(P, cfg, es) <==> EndsInThrow(P, cfg, es)
  {
    if WakeupIsLost(P, cfg, es) {
      var fs: seq<FineEvent> :| Overslept(P, cfg, fs) && Project(fs) == es;
      SleeperMissedThrow(P, cfg, fs);
    }
    if EndsInThrow(P, cfg, es) { var fs := ThrowIsMissed(P, cfg, es); }
  }

  /** Without a post that throws, the scheduler never sleeps while its condition holds. */
  lemma NoWakeupIsLost<L, M>(P: Program<L, M>, cfg: Config, fs: seq<FineEvent>)
    requires IsFineRun(P, cfg, fs) && FineAfter(P, cfg, fs).run.status == RUNNING
    requires FineAfter(P, cfg, fs).run.core.thrown == {}
    ensures AllPosted(FineAfter(P, cfg, fs).run.core.pool) ==> !FineAfter(P, cfg, fs).asleep
  {
    SleeperMissedThrow(P, cfg, fs);
    FineRunsAreRuns(P, cfg, fs);
  }

  /** Once a wakeup is lost, nothing happens any more but that threads reach their semaphores. */
  lemma LostForever<L, M>(P: Program<L, M>, cfg: Config, fs: seq<FineEvent>, e: FineEvent)
    requires Overslept(P, cfg, fs)
    ensures CanFine(cfg, FineAfter(P, cfg, fs), e) ==> e.Arrive?
  {
    var f := FineAfter(P, cfg, fs);
    RunsKeepFineInv(P, cfg, fs);
    PostedMeansQuiet(f.run.core);
    match e
    case Resume(t) => assert HandleAt(f, t) && ThreadAt(f.run.core, t);
    case _ =>
  }

  // A signal is the turn, and none is lost.

  /** While a run goes on, a thread's signal is set exactly if it has been given the turn and has not resumed,
      be it on its way to the semaphore, blocked there, or gone because its post threw; at most one thread is
      signalled, and it is the one of the current instruction. */
  lemma SignalIsTheTurn<L, M>(P: Program<L, M>, cfg: Config, fs: seq<FineEvent>, t: Tid)
    requires IsFineRun(P, cfg, fs) && FineAfter(P, cfg, fs).run.status == RUNNING
    ensures var f := FineAfter(P, cfg, fs);
            && (t in f.handles && f.handles[t].signalled <==>
                  t in f.handles && (f.handles[t].place != Away || t in f.run.core.thrown)
                  && InRange(f.run.core, t) && f.run.core.phases[t].Granted?)
            && (t in f.handles && f.handles[t].signalled ==>
                  f.run.core.pool.current.Some? && f.run.core.pool.current.value.tid == t)
  {
    var f := FineAfter(P, cfg, fs);
    RunsKeepFineInv(P, cfg, fs);
    assert HandleAt(f, t) && ThreadAt(f.run.core, t) && CarriedAt(f.run.core, t);
  }

  /** How often the thread was given the turn. */
  function Grants<L, M>(P: Program<L, M>, cfg: Config, fs: seq<FineEvent>, t: Tid): nat {
    if fs == [] then 0
    else
      Grants(P, cfg, fs[..|fs| - 1], t)
      + if fs[|fs| - 1] == Coarse(Iteration(t)) && FineAfter(P, cfg, fs).run.status == RUNNING then 1 else 0
  }

  /** How often it resumed. */
  function Resumptions(fs: seq<FineEvent>, t: Tid): nat {
    if fs == [] then 0 else Resumptions(fs[..|fs| - 1], t) + if fs[|fs| - 1] == Resume(t) then 1 else 0
  }

  /** Every grant is answered by one resumption, but for the one that is pending as a signal. */
  lemma {:induction false} NoSignalIsLost<L, M>(P: Program<L, M>, cfg: Config, fs: seq<FineEvent>, t: Tid)
    requires IsFineRun(P, cfg, fs) && FineAfter(P, cfg, fs).run.status == RUNNING
    ensures var f := FineAfter(P, cfg, fs);
            Grants(P, cfg, fs, t) == Resumptions(fs, t) + if t in f.handles && f.handles[t].signalled then 1 else 0
  {
    if fs != [] {
      var before := fs[..|fs| - 1];
      var f := FineAfter(P, cfg, before);
      NoSignalIsLost(P, cfg, before, t);
      RunsKeepFineInv(P, cfg, before);
      assert HandleAt(f, t) && ThreadAt(f.run.core, t);
      match fs[|fs| - 1]
      case Coarse(Section(u)) => assert HandleAt(f, u) && ThreadAt(f.run.core, u) && TurnAt(f.run.core, u);
      case Coarse(Iteration(u)) => assert HandleAt(f, u) && ThreadAt(f.run.core, u);
      case _ =>
    }
  }

  // What becomes of the threads when the run has ended.

  /** The thread has left its semaphore since the error. */
  ghost predicate LeftAfterError<L, M>(P: Program<L, M>, cfg: Config, fs: seq<FineEvent>, t: Tid) {
    fs != [] &&
    (LeftAfterError(P, cfg, fs[..|fs| - 1], t)
     || (fs[|fs| - 1] == Resume(t) && FineAfter(P, cfg, fs[..|fs| - 1]).run.status == ERROR))
  }

  /** After an error every registered thread is signalled, once: until it has left its semaphore. */
  lemma {:induction false} ErrorReleasesAll<L, M>(P: Program<L, M>, cfg: Config, fs: seq<FineEvent>, t: Tid)
    requires IsFineRun(P, cfg, fs) && FineAfter(P, cfg, fs).run.status == ERROR
    requires t in FineAfter(P, cfg, fs).run.core.pool.threads
    ensures t in FineAfter(P, cfg, fs).handles
    ensures FineAfter(P, cfg, fs).handles[t].signalled <==> !LeftAfterError(P, cfg, fs, t)
    ensures LeftAfterError(P, cfg, fs, t) ==> FineAfter(P, cfg, fs).handles[t].place == Away
  {
    var before := fs[..|fs| - 1];
    RunsKeepFineInv(P, cfg, fs);
    RunsKeepFineInv(P, cfg, before);
    if FineAfter(P, cfg, before).run.status == ERROR {
      ErrorReleasesAll(P, cfg, before, t);
    } else {
      NotLeftBefore(P, cfg, before, t);
    }
  }

  lemma {:induction false} NotLeftBefore<L, M>(P: Program<L, M>, cfg: Config, fs: seq<FineEvent>, t: Tid)
    requires IsFineRun(P, cfg, fs) && FineAfter(P, cfg, fs).run.status != ERROR
    ensures !LeftAfterError(P, cfg, fs, t)
  {
    if fs != [] { NotLeftBefore(P, cfg, fs[..|fs| - 1], t); }
  }

  /** After an error no thread stays at its semaphore: it can leave, whether it has reached it or not. */
  lemma ErrorLetsGo<L, M>(P: Program<L, M>, cfg: Config, fs: seq<FineEvent>, t: Tid) returns (gs: seq<FineEvent>)
    requires IsFineRun(P, cfg, fs) && FineAfter(P, cfg, fs).run.status == ERROR
    requires t in FineAfter(P, cfg, fs).run.core.pool.threads
    ensures IsFineRun(P, cfg, gs) && fs <= gs && |gs| <= |fs| + 2 && Project(gs) == Project(fs)
    ensures t in FineAfter(P, cfg, gs).handles && FineAfter(P, cfg, gs).handles[t].place == Away
  {
    ErrorReleasesAll(P, cfg, fs, t);
    gs := LeavesSemaphore(P, cfg, fs, t);
  }

  /** Nobody is signalled when a run has ended DONE or in a deadlock. */
  lemma EndSignalsNobody<L, M>(P: Program<L, M>, cfg: Config, fs: seq<FineEvent>, t: Tid)
    requires IsFineRun(P, cfg, fs) && FineAfter(P, cfg, fs).run.status in {DONE, DEADLOCK}
    ensures t in FineAfter(P, cfg, fs).handles ==> !FineAfter(P, cfg, fs).handles[t].signalled
  {
    RunsKeepFineInv(P, cfg, fs);
  }

  // The waits and the transition system without them.

  /** The events without those of the waits. */
  function Project(fs: seq<FineEvent>): seq<Event> {
    if fs == [] then []
    else Project(fs[..|fs| - 1]) + if fs[|fs| - 1].Coarse? then [fs[|fs| - 1].e] else []
  }

  /** Without its waits, a run is a run. */
  lemma {:induction false} FineRunsAreRuns<L, M>(P: Program<L, M>, cfg: Config, fs: seq<FineEvent>)
    requires IsFineRun(P, cfg, fs)
    ensures IsRun(P, cfg, Project(fs)) && After(P, cfg, Project(fs)) == FineAfter(P, cfg, fs).run
  {
    if fs != [] {
      var before := Project(fs[..|fs| - 1]);
      FineRunsAreRuns(P, cfg, fs[..|fs| - 1]);
      if fs[|fs| - 1].Coarse? {
        assert (before + [fs[|fs| - 1].e])[..|before|] == before;
      } else {
        assert before + [] == before;
      }
    }
  }

  lemma OneMoreEvent<L, M>(P: Program<L, M>, cfg: Config, fs: seq<FineEvent>, e: FineEvent)
    requires IsFineRun(P, cfg, fs) && CanFine(cfg, FineAfter(P, cfg, fs), e)
    ensures IsFineRun(P, cfg, fs + [e]) && FineAfter(P, cfg, fs + [e]) == ApplyFine(P, cfg, FineAfter(P, cfg, fs), e)
    ensures Project(fs + [e]) == Project(fs) + if e.Coarse? then [e.e] else []
  {
    assert (fs + [e])[..|fs|] == fs;
  }

  /** No wait holds up what is possible, but for a wakeup that is lost: a thread that has the turn need only
      reach its semaphore and resume. */
  lemma NothingIsHeldUp<L, M>(P: Program<L, M>, cfg: Config, fs: seq<FineEvent>, e: Event) returns (gs: seq<FineEvent>)
    requires IsFineRun(P, cfg, fs) && CanApply(cfg, FineAfter(P, cfg, fs).run, e)
    requires !(e.Iteration? && FineAfter(P, cfg, fs).asleep)
    ensures IsFineRun(P, cfg, gs) && fs <= gs && |gs| <= |fs| + 2 && Project(gs) == Project(fs)
    ensures forall k | |fs| <= k < |gs| :: e.Section? && (gs[k] == Arrive(e.tid) || gs[k] == Resume(e.tid))
    ensures FineAfter(P, cfg, gs).run == FineAfter(P, cfg, fs).run && CanFine(cfg, FineAfter(P, cfg, gs), Coarse(e))
    ensures FineAfter(P, cfg, gs).asleep == FineAfter(P, cfg, fs).asleep
  {
    gs := fs;
    if e.Section? {
      RunsKeepFineInv(P, cfg, fs);
      HandleOfStepper(FineAfter(P, cfg, fs), e.tid);
      gs := LeavesSemaphore(P, cfg, fs, e.tid);
    }
  }

  lemma OneMoreWait<L, M>(P: Program<L, M>, cfg: Config, fs: seq<FineEvent>, e: FineEvent, t: Tid)
    requires IsFineRun(P, cfg, fs) && CanFine(cfg, FineAfter(P, cfg, fs), e) && (e == Arrive(t) || e == Resume(t))
    ensures IsFineRun(P, cfg, fs + [e]) && Project(fs + [e]) == Project(fs)
    ensures FineAfter(P, cfg, fs + [e]).run == FineAfter(P, cfg, fs).run
    ensures FineAfter(P, cfg, fs + [e]).asleep == FineAfter(P, cfg, fs).asleep
    ensures t in FineAfter(P, cfg, fs + [e]).handles
    ensures var h := FineAfter(P, cfg, fs).handles[t];
            FineAfter(P, cfg, fs + [e]).handles[t] == if e.Arrive? then h.Arrived() else h.Resumed()
  {
    OneMoreEvent(P, cfg, fs, e);
  }

  /** A thread that is signalled need only reach its semaphore and resume. */
  lemma LeavesSemaphore<L, M>(P: Program<L, M>, cfg: Config, fs: seq<FineEvent>, t: Tid) returns (gs: seq<FineEvent>)
    requires IsFineRun(P, cfg, fs) && Waits(FineAfter(P, cfg, fs).run.status) && t in FineAfter(P, cfg, fs).handles
    requires var h := FineAfter(P, cfg, fs).handles[t]; h.place != Away ==> h.signalled
    ensures IsFineRun(P, cfg, gs) && fs <= gs && |gs| <= |fs| + 2 && Project(gs) == Project(fs)
    ensures forall k | |fs| <= k < |gs| :: gs[k] == Arrive(t) || gs[k] == Resume(t)
    ensures FineAfter(P, cfg, gs).run == FineAfter(P, cfg, fs).run
    ensures FineAfter(P, cfg, gs).asleep == FineAfter(P, cfg, fs).asleep
    ensures t in FineAfter(P, cfg, gs).handles && FineAfter(P, cfg, gs).handles[t].place == Away
  {
    match FineAfter(P, cfg, fs).handles[t].place
    case Away => gs := fs;
    case Posted =>
      OneMoreWait(P, cfg, fs, Arrive(t), t);
      OneMoreWait(P, cfg, fs + [Arrive(t)], Resume(t), t);
      gs := fs + [Arrive(t)] + [Resume(t)];
    case AtSemaphore =>
      OneMoreWait(P, cfg, fs, Resume(t), t);
      gs := fs + [Resume(t)];
  }

  lemma HandleOfStepper<L, M>(f: Fine<L, M>, t: Tid)
    requires FineInv(f) && f.run.status == RUNNING && CanStep(f.run.core, t)
    ensures t in f.handles && (f.handles[t].place != Away ==> f.handles[t].signalled)
  {
    assert HandleAt(f, t) && ThreadAt(f.run.core, t);
  }

  lemma {:induction false} ProjectGrows(fs: seq<FineEvent>, gs: seq<FineEvent>)
    requires fs <= gs
    ensures Project(fs) <= Project(gs)
  {
    if |fs| < |gs| { ProjectGrows(fs, gs[..|gs| - 1]); } else { assert fs == gs; }
  }

  /** The waits alone do not bring a lost wakeup back. */
  lemma {:induction false} StaysAsleep<L, M>(P: Program<L, M>, cfg: Config, fs: seq<FineEvent>, gs: seq<FineEvent>)
    requires fs <= gs && IsFineRun(P, cfg, gs) && Project(gs) == Project(fs)
    requires Overslept(P, cfg, fs)
    ensures FineAfter(P, cfg, gs).asleep && FineAfter(P, cfg, gs).run == FineAfter(P, cfg, fs).run
  {
    if |fs| < |gs| {
      var before := gs[..|gs| - 1];
      ProjectGrows(fs, before);
      ProjectGrows(before, gs);
      StaysAsleep(P, cfg, fs, before);
    } else {
      assert fs == gs;
    }
  }

  /** With some further events of the waits the event is possible. */
  ghost predicate Proceeds<L, M>(P: Program<L, M>, cfg: Config, fs: seq<FineEvent>, e: Event) {
    exists gs: seq<FineEvent> :: fs <= gs && IsFineRun(P, cfg, gs) && Project(gs) == Project(fs)
      && CanFine(cfg, FineAfter(P, cfg, gs), Coarse(e))
  }

  /** What the protocol allows is held up by the waits exactly if it is a round of the scheduler whose wakeup is
      lost. */
  lemma ProceedsIff<L, M>(P: Program<L, M>, cfg: Config, fs: seq<FineEvent>, e: Event)
    requires IsFineRun(P, cfg, fs) && CanApply(cfg, FineAfter(P, cfg, fs).run, e)
    ensures Proceeds(P, cfg, fs, e) <==> !(e.Iteration? && FineAfter(P, cfg, fs).asleep)
  {
    if e.Iteration? && FineAfter(P, cfg, fs).asleep {
      forall gs: seq<FineEvent> | fs <= gs && IsFineRun(P, cfg, gs) && Project(gs) == Project(fs)
        ensures !CanFine(cfg, FineAfter(P, cfg, gs), Coarse(e))
      {
        StaysAsleep(P, cfg, fs, gs);
      }
    } else {
      var gs := NothingIsHeldUp(P, cfg, fs, e);
    }
  }

  /** Every run of the system without the waits is one of the system with them. */
  lemma {:induction false} RunsAreFineRuns<L, M>(P: Program<L, M>, cfg: Config, es: seq<Event>)
    returns (fs: seq<FineEvent>)
    requires IsRun(P, cfg, es)
    ensures IsFineRun(P, cfg, fs) && Project(fs) == es && FineAfter(P, cfg, fs).run == After(P, cfg, es)
    ensures !FineAfter(P, cfg, fs).asleep
  {
    if es == [] { return []; }
    var e := es[|es| - 1];
    fs := RunsAreFineRuns(P, cfg, es[..|es| - 1]);
    fs := NothingIsHeldUp(P, cfg, fs, e);
    OneMoreEvent(P, cfg, fs, Coarse(e));
    fs := fs + [Coarse(e)];
    assert es == es[..|es| - 1] + [e];
  }
}
