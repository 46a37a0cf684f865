/** What every step of every thread keeps, whatever the program does. */
module Base {
  import opened Instructions
  import opened PoolSpec
  import opened System

  /** The threads that may be at work: the one whose turn it is, and the one it has just spawned. */
  function Actors(p: Pool): set<Tid> {
    match p.current
    case None => {0}
    case Some(i) => if i.IsSpawn() then {i.tid, i.operand.tid} else {i.tid}
  }

  /** The thread whose turn it is has not yielded yet. */
  predicate Unyielded<L, M>(c: Core<L, M>) {
    && c.pool.current.Some?
    && InRange(c, c.pool.current.value.tid)
    && var ph := c.phases[c.pool.current.value.tid];
       ph.Granted? || ph.Registering? || ph.Running? || ph.Ready?
  }

  /** The instruction of a thread that the pool has not seen performed: posted, or current. */
  function Pending<L, M>(c: Core<L, M>, t: Tid): Option<Instruction> {
    if InRange(c, t) && c.phases[t].Waiting? then Some(c.phases[t].posted)
    else if Unyielded(c) && c.pool.current.value.tid == t then c.pool.current
    else None
  }

  predicate PendingAt<L, M>(c: Core<L, M>, t: Tid, x: Addr, k: nat) {
    && Pending(c, t).Some?
    && var i := Pending(c, t).value;
       i.OnObject() && i.obj == x && i.OperationAsInt() % 2 == k
  }

  predicate IndexedIn<L, M>(c: Core<L, M>, x: Addr, t: Tid, k: nat) {
    var w := ObjectAt(c.pool, x).Waiting(k);
    && (t in w <==> PendingAt(c, t, x, k))
    && (t in w ==> w[t] == Pending(c, t).value)
  }

  predicate IndexedAt<L, M>(c: Core<L, M>, x: Addr, t: Tid) {
    IndexedIn(c, x, t, 0) && IndexedIn(c, x, t, 1)
  }

  /** Waitset k of x holds exactly the pending instructions with operand x and parity k. */
  ghost predicate WaitsetsIndexTasks<L, M>(c: Core<L, M>) {
    forall x: Addr, t: Tid :: IndexedAt(c, x, t)
  }

  /** The pool knows the threads that exist, which of them have posted and which have finished; who is
      about to join is not enabled before the other thread has finished; who is disabled has posted. */
  predicate ThreadAt<L, M>(c: Core<L, M>, t: Tid) {
    && (InRange(c, t) && c.phases[t].IsRegistered() <==> t in c.pool.threads)
    && (t in c.pool.threads <==> t in c.pool.joins)
    && (InRange(c, t) && c.phases[t].Waiting? <==> t in c.pool.tasks)
    && (t in c.pool.tasks ==> c.pool.tasks[t] == c.phases[t].posted)
    && (t in c.pool.threads ==> (c.pool.threads[t] == FINISHED <==> c.phases[t].Finished?))
    && (t in c.pool.tasks && c.pool.tasks[t].IsJoin() && c.pool.threads[t] == ENABLED ==>
          EnabledAtPost(c.pool, c.pool.tasks[t]))
    && (t in c.pool.threads && c.pool.threads[t] == DISABLED ==> t in c.pool.tasks)
    && (t in c.thrown ==> ThrownAt(c, t))
  }

  /** A thread whose post threw has asked for the second time to join a thread, which has finished; the pool
      takes it to be enabled. */
  predicate ThrownAt<L, M>(c: Core<L, M>, t: Tid) {
    && t in c.pool.threads && c.pool.threads[t] == ENABLED
    && InRange(c, t) && (c.phases[t].Waiting? || c.phases[t].Granted?)
    && var i := c.phases[t].posted;
       && i.IsJoin() && t in JoinersOf(c.pool, i.operand.tid)
       && i.operand.tid in c.pool.threads && c.pool.threads[i.operand.tid] == FINISHED
  }

  ghost predicate ThreadsFit<L, M>(c: Core<L, M>) {
    forall t: Tid :: ThreadAt(c, t)
  }

  /** Who carries an instruction is its thread; the operand of a Spawn has no thread yet. */
  predicate CarriedAt<L, M>(c: Core<L, M>, t: Tid) {
    InRange(c, t) && c.phases[t].Instr().Some? ==>
      var i := c.phases[t].Instr().value;
      && i.tid == t
      && (i.IsSpawn() ==> InRange(c, i.operand.tid) && c.phases[i.operand.tid].Reserved?)
      && (c.phases[t].Granted? ==> c.pool.current == Some(i))
  }

  /** Turn taking: only the actors are at work. */
  predicate TurnAt<L, M>(c: Core<L, M>, t: Tid) {
    InRange(c, t) ==>
      && (c.phases[t].Outstanding() ==> t in Actors(c.pool))
      && (c.phases[t].Registering? ==>
            && c.pool.current.Some? && c.pool.current.value.tid == t
            && c.pool.current.value.Spawns(c.phases[t].childTid))
      && (c.phases[t].Unregistered? ==>
            && c.pool.current.Some? && c.pool.current.value.Spawns(t)
            && InRange(c, c.pool.current.value.tid) && c.phases[c.pool.current.value.tid].Registering?)
  }

  predicate CurrentFits<L, M>(c: Core<L, M>) {
    match c.pool.current
    case None => 0 < |c.phases| && c.phases[0].IsRegistered()
    case Some(i) =>
      && InRange(c, i.tid) && c.phases[i.tid].IsRegistered()
      && (i.IsSpawn() ==>
            && InRange(c, i.operand.tid) && i.operand.tid != i.tid
            && (c.phases[i.operand.tid].Reserved? <==> c.phases[i.tid].Granted?)
            && (c.phases[i.operand.tid].Unregistered? <==> c.phases[i.tid].Registering?))
  }

  ghost predicate TurnsFit<L, M>(c: Core<L, M>) {
    && CurrentFits(c)
    && (forall t: Tid :: CarriedAt(c, t))
    && (forall t: Tid :: TurnAt(c, t))
  }

  /** A join request is pending, or stale because its target has finished. */
  predicate JoinAt<L, M>(c: Core<L, M>, u: Tid, t: Tid) {
    t in JoinersOf(c.pool, u) ==>
      && u in c.pool.threads && t in c.pool.threads && c.pool.threads[t] != START
      && (c.pool.threads[u] == FINISHED || (t in c.pool.tasks && c.pool.tasks[t].Joins(u)))
  }

  ghost predicate JoinsFit<L, M>(c: Core<L, M>) {
    forall u: Tid, t: Tid :: JoinAt(c, u, t)
  }

  predicate SpawnsAt<L, M>(c: Core<L, M>, t: Tid, k: Tid) {
    InRange(c, t) && c.phases[t].Instr().Some? && c.phases[t].Instr().value.Spawns(k)
  }

  /** An identifier without a thread belongs to exactly one pending Spawn. */
  ghost predicate ReservedAt<L, M>(c: Core<L, M>, k: Tid) {
    && (InRange(c, k) && c.phases[k].Reserved? ==> exists t :: SpawnsAt(c, t, k))
    && (forall t, u :: SpawnsAt(c, t, k) && SpawnsAt(c, u, k) ==> t == u)
  }

  ghost predicate TidsConserved<L, M>(c: Core<L, M>) {
    forall k: Tid :: ReservedAt(c, k)
  }

  ghost predicate Inv<L, M>(c: Core<L, M>) {
    && WaitsetsIndexTasks(c)
    && ThreadsFit(c)
    && TurnsFit(c)
    && JoinsFit(c)
    && TidsConserved(c)
  }

  lemma InitialInv<L, M>(P: Program<L, M>)
    ensures Inv(Initial(P))
  {
  }

  // One lemma for each clause and each kind of critical section.

  /** Spawn requests are conserved when the carried instructions are. */
  lemma SameSpawns<L, M>(c: Core<L, M>, d: Core<L, M>)
    requires TidsConserved(c)
    requires forall k: Tid :: InRange(d, k) && d.phases[k].Reserved? ==> InRange(c, k) && c.phases[k].Reserved?
    requires forall t: Tid, k: Tid :: SpawnsAt(d, t, k) ==> SpawnsAt(c, t, k)
    requires forall t: Tid, k: Tid :: SpawnsAt(c, t, k) && InRange(d, k) && d.phases[k].Reserved? ==> SpawnsAt(d, t, k)
    ensures TidsConserved(d)
  {
    forall k: Tid ensures ReservedAt(d, k) {
      assert ReservedAt(c, k);
      if InRange(d, k) && d.phases[k].Reserved? {
        var t :| SpawnsAt(c, t, k);
        assert SpawnsAt(d, t, k);
      }
    }
  }

  lemma ExecuteKeepsIndex<L, M>(P: Program<L, M>, c: Core<L, M>, t: Tid)
    requires Inv(c) && CanStep(c, t) && c.phases[t].Granted?
    ensures WaitsetsIndexTasks(Step(P, c, t))
  {
    var d := Step(P, c, t);
    assert CarriedAt(c, t) && TurnAt(c, t) && ThreadAt(c, t);
    forall x: Addr, u: Tid ensures IndexedAt(d, x, u) { assert IndexedAt(c, x, u); }
  }

  lemma ExecuteKeepsThreads<L, M>(P: Program<L, M>, c: Core<L, M>, t: Tid)
    requires Inv(c) && CanStep(c, t) && c.phases[t].Granted?
    ensures ThreadsFit(Step(P, c, t)) && JoinsFit(Step(P, c, t))
  {
    var d := Step(P, c, t);
    assert CarriedAt(c, t) && TurnAt(c, t) && ThreadAt(c, t);
    forall u: Tid ensures ThreadAt(d, u) { assert ThreadAt(c, u) && CarriedAt(c, t); }
    forall u: Tid, v: Tid ensures JoinAt(d, u, v) { assert JoinAt(c, u, v); }
  }

  lemma ExecuteKeepsTurns<L, M>(P: Program<L, M>, c: Core<L, M>, t: Tid)
    requires Inv(c) && CanStep(c, t) && c.phases[t].Granted?
    ensures TurnsFit(Step(P, c, t)) && TidsConserved(Step(P, c, t))
  {
    var d := Step(P, c, t);
    assert CarriedAt(c, t) && TurnAt(c, t) && ThreadAt(c, t);
    forall u: Tid ensures CarriedAt(d, u) {
      assert CarriedAt(c, u) && TurnAt(c, u);
      var i := c.phases[t].posted;
      if i.IsSpawn() && SpawnsAt(c, u, i.operand.tid) {
        assert ReservedAt(c, i.operand.tid) && SpawnsAt(c, t, i.operand.tid);
      }
    }
    forall u: Tid ensures TurnAt(d, u) { assert TurnAt(c, u); }
    SameSpawns(c, d);
  }

  lemma RegisterKeepsIndex<L, M>(P: Program<L, M>, c: Core<L, M>, t: Tid)
    requires Inv(c) && CanStep(c, t) && c.phases[t].Registering?
    ensures WaitsetsIndexTasks(Step(P, c, t))
  {
    var d := Step(P, c, t);
    assert CarriedAt(c, t) && TurnAt(c, t) && ThreadAt(c, t);
    forall x: Addr, u: Tid ensures IndexedAt(d, x, u) { assert IndexedAt(c, x, u); }
  }

  lemma RegisterKeepsThreads<L, M>(P: Program<L, M>, c: Core<L, M>, t: Tid)
    requires Inv(c) && CanStep(c, t) && c.phases[t].Registering?
    ensures ThreadsFit(Step(P, c, t)) && JoinsFit(Step(P, c, t))
  {
    var d := Step(P, c, t);
    assert CarriedAt(c, t) && TurnAt(c, t) && ThreadAt(c, t);
    forall u: Tid ensures ThreadAt(d, u) { assert ThreadAt(c, u); }
    forall u: Tid, v: Tid ensures JoinAt(d, u, v) { assert JoinAt(c, u, v); }
  }

  lemma RegisterKeepsTurns<L, M>(P: Program<L, M>, c: Core<L, M>, t: Tid)
    requires Inv(c) && CanStep(c, t) && c.phases[t].Registering?
    ensures TurnsFit(Step(P, c, t)) && TidsConserved(Step(P, c, t))
  {
    var d := Step(P, c, t);
    assert CarriedAt(c, t) && TurnAt(c, t) && ThreadAt(c, t);
    forall u: Tid ensures CarriedAt(d, u) { assert CarriedAt(c, u) && TurnAt(c, u); }
    forall u: Tid ensures TurnAt(d, u) { assert TurnAt(c, u); }
    SameSpawns(c, d);
  }

  lemma CreateKeepsIndex<L, M>(P: Program<L, M>, c: Core<L, M>, t: Tid)
    requires Inv(c) && CanStep(c, t) && c.phases[t].Running?
    ensures WaitsetsIndexTasks(Step(P, c, t))
  {
    var d := Step(P, c, t);
    assert CarriedAt(c, t) && TurnAt(c, t) && ThreadAt(c, t);
    forall x: Addr, u: Tid ensures IndexedAt(d, x, u) { assert IndexedAt(c, x, u); }
  }

  lemma CreateKeepsThreads<L, M>(P: Program<L, M>, c: Core<L, M>, t: Tid)
    requires Inv(c) && CanStep(c, t) && c.phases[t].Running?
    ensures ThreadsFit(Step(P, c, t)) && JoinsFit(Step(P, c, t))
  {
    var d := Step(P, c, t);
    assert CarriedAt(c, t) && TurnAt(c, t) && ThreadAt(c, t);
    forall u: Tid ensures ThreadAt(d, u) { assert ThreadAt(c, u); }
    forall u: Tid, v: Tid ensures JoinAt(d, u, v) { assert JoinAt(c, u, v); }
  }

  lemma CreateKeepsTids<L, M>(P: Program<L, M>, c: Core<L, M>, t: Tid)
    requires Inv(c) && CanStep(c, t) && c.phases[t].Running?
    ensures TidsConserved(Step(P, c, t))
  {
    var d := Step(P, c, t);
    forall k: Tid ensures ReservedAt(d, k) {
      assert ReservedAt(c, k);
      forall u: Tid
        ensures SpawnsAt(d, u, k) <==> SpawnsAt(c, u, k) || (u == t && k == |c.phases| && |d.phases| > |c.phases|)
      {
        assert CarriedAt(c, u);
      }
      if InRange(d, k) && d.phases[k].Reserved? {
        if k == |c.phases| {
          assert SpawnsAt(d, t, k);
        } else {
          var u :| SpawnsAt(c, u, k);
          assert SpawnsAt(d, u, k);
        }
      }
      forall u, v | SpawnsAt(d, u, k) && SpawnsAt(d, v, k) ensures u == v {
        assert CarriedAt(c, u) && CarriedAt(c, v);
      }
    }
  }

  lemma CreateKeepsTurns<L, M>(P: Program<L, M>, c: Core<L, M>, t: Tid)
    requires Inv(c) && CanStep(c, t) && c.phases[t].Running?
    ensures TurnsFit(Step(P, c, t)) && TidsConserved(Step(P, c, t))
  {
    var d := Step(P, c, t);
    assert CarriedAt(c, t) && TurnAt(c, t) && ThreadAt(c, t);
    forall u: Tid ensures CarriedAt(d, u) { assert CarriedAt(c, u) && TurnAt(c, u); }
    forall u: Tid ensures TurnAt(d, u) { assert TurnAt(c, u); }
    CreateKeepsTids(P, c, t);
  }

  lemma YieldKeepsIndex<L, M>(P: Program<L, M>, c: Core<L, M>, t: Tid)
    requires Inv(c) && CanStep(c, t) && c.phases[t].Ready?
    ensures WaitsetsIndexTasks(Step(P, c, t))
  {
    var d := Step(P, c, t);
    assert CarriedAt(c, t) && TurnAt(c, t) && ThreadAt(c, t);
    forall x: Addr, u: Tid ensures IndexedAt(d, x, u) { assert IndexedAt(c, x, u) && IndexedAt(c, x, t); }
  }

  lemma YieldKeepsThreads<L, M>(P: Program<L, M>, c: Core<L, M>, t: Tid)
    requires Inv(c) && CanStep(c, t) && c.phases[t].Ready?
    ensures ThreadsFit(Step(P, c, t)) && JoinsFit(Step(P, c, t))
  {
    var d := Step(P, c, t);
    assert CarriedAt(c, t) && TurnAt(c, t) && ThreadAt(c, t);
    forall u: Tid ensures ThreadAt(d, u) {
      assert ThreadAt(c, u);
      if Unyielded(c) && c.pool.current.value.OnObject() {
        var x := c.pool.current.value.obj;
        assert IndexedAt(c, x, u);
        if u in c.pool.tasks && c.pool.tasks[u].IsJoin() {
          assert ThreadAt(c, c.pool.tasks[u].operand.tid) && IndexedAt(c, x, c.pool.tasks[u].operand.tid);
        }
        if u in c.thrown {
          assert ThreadAt(c, c.phases[u].posted.operand.tid) && IndexedAt(c, x, c.phases[u].posted.operand.tid);
        }
      }
    }
    forall u: Tid, v: Tid ensures JoinAt(d, u, v) { assert JoinAt(c, u, v) && ThreadAt(c, u) && ThreadAt(d, u); }
  }

  lemma YieldKeepsTurns<L, M>(P: Program<L, M>, c: Core<L, M>, t: Tid)
    requires Inv(c) && CanStep(c, t) && c.phases[t].Ready?
    ensures TurnsFit(Step(P, c, t)) && TidsConserved(Step(P, c, t))
  {
    var d := Step(P, c, t);
    assert CarriedAt(c, t) && TurnAt(c, t) && ThreadAt(c, t);
    forall u: Tid ensures CarriedAt(d, u) { assert CarriedAt(c, u) && TurnAt(c, u); }
    forall u: Tid ensures TurnAt(d, u) { assert TurnAt(c, u); }
    SameSpawns(c, d);
  }

  /** A post throws exactly if the thread has already asked to join the same thread. */
  lemma OnlySecondJoinThrows<L, M>(c: Core<L, M>, t: Tid)
    requires Inv(c) && InRange(c, t) && c.phases[t].Yielded? && c.phases[t].task.Some?
    ensures var i := c.phases[t].task.value;
            PostThrows(c.pool, i) <==> i.IsJoin() && t in JoinersOf(c.pool, i.operand.tid)
  {
    var i := c.phases[t].task.value;
    assert CarriedAt(c, t);
    if i.OnObject() { assert IndexedAt(c, i.obj, t); }
  }

  lemma WaitsetAfterPost(p: Pool, t: Tid, i: Instruction, x: Addr, k: nat)
    requires i.tid == t && k < 2
    ensures ObjectAt(Post(p, t, i), x).Waiting(k)
            == if i.OnObject() && i.obj == x && i.OperationAsInt() % 2 == k
               then ObjectAt(p, x).Waiting(k)[t := i]
               else ObjectAt(p, x).Waiting(k)
  {
  }

  lemma PendingAfterPost<L, M>(P: Program<L, M>, c: Core<L, M>, t: Tid, u: Tid)
    requires Inv(c) && CanStep(c, t) && c.phases[t].Yielded? && c.phases[t].task.Some?
    ensures Pending(Step(P, c, t), u) == if u == t then c.phases[t].task else Pending(c, u)
    ensures Pending(c, t) == None
  {
    assert TurnAt(c, t);
  }

  lemma PostKeepsWaitset<L, M>(P: Program<L, M>, c: Core<L, M>, t: Tid, x: Addr, u: Tid, k: nat)
    requires Inv(c) && CanStep(c, t) && c.phases[t].Yielded? && c.phases[t].task.Some? && k < 2
    ensures IndexedIn(Step(P, c, t), x, u, k)
  {
    assert CarriedAt(c, t) && IndexedAt(c, x, u) && (k == 0 || k == 1);
    WaitsetAfterPost(c.pool, t, c.phases[t].task.value, x, k);
    PendingAfterPost(P, c, t, u);
  }

  lemma PostKeepsIndex<L, M>(P: Program<L, M>, c: Core<L, M>, t: Tid)
    requires Inv(c) && CanStep(c, t) && c.phases[t].Yielded? && c.phases[t].task.Some?
    ensures WaitsetsIndexTasks(Step(P, c, t))
  {
    forall x: Addr, u: Tid ensures IndexedAt(Step(P, c, t), x, u) {
      PostKeepsWaitset(P, c, t, x, u, 0);
      PostKeepsWaitset(P, c, t, x, u, 1);
    }
  }

  lemma PostKeepsThreads<L, M>(P: Program<L, M>, c: Core<L, M>, t: Tid)
    requires Inv(c) && CanStep(c, t) && c.phases[t].Yielded? && c.phases[t].task.Some?
    requires !PostThrows(c.pool, c.phases[t].task.value)
    ensures ThreadsFit(Step(P, c, t)) && JoinsFit(Step(P, c, t))
  {
    var d := Step(P, c, t);
    assert CarriedAt(c, t) && TurnAt(c, t) && ThreadAt(c, t);
    forall u: Tid ensures ThreadAt(d, u) { assert ThreadAt(c, u); }
    forall u: Tid, v: Tid ensures JoinAt(d, u, v) { assert JoinAt(c, u, v) && ThreadAt(c, u) && ThreadAt(d, u); }
  }

  /** Who asks for the second time to join a thread has joined it before. */
  lemma ThrowKeepsThreads<L, M>(P: Program<L, M>, c: Core<L, M>, t: Tid)
    requires Inv(c) && CanStep(c, t) && c.phases[t].Yielded? && c.phases[t].task.Some?
    requires PostThrows(c.pool, c.phases[t].task.value)
    ensures ThreadsFit(Step(P, c, t)) && JoinsFit(Step(P, c, t))
  {
    var (d, i) := (Step(P, c, t), c.phases[t].task.value);
    OnlySecondJoinThrows(c, t);
    assert CarriedAt(c, t) && TurnAt(c, t) && ThreadAt(c, t) && JoinAt(c, i.operand.tid, t);
    assert d.pool == c.pool.(tasks := c.pool.tasks[t := i]);
    forall u: Tid ensures ThreadAt(d, u) { assert ThreadAt(c, u); }
    forall u: Tid, v: Tid ensures JoinAt(d, u, v) { assert JoinAt(c, u, v); }
  }

  lemma PostKeepsTurns<L, M>(P: Program<L, M>, c: Core<L, M>, t: Tid)
    requires Inv(c) && CanStep(c, t) && c.phases[t].Yielded? && c.phases[t].task.Some?
    ensures TurnsFit(Step(P, c, t)) && TidsConserved(Step(P, c, t))
  {
    var d := Step(P, c, t);
    assert CarriedAt(c, t) && TurnAt(c, t) && ThreadAt(c, t);
    forall u: Tid ensures CarriedAt(d, u) { assert CarriedAt(c, u) && TurnAt(c, u); }
    forall u: Tid ensures TurnAt(d, u) { assert TurnAt(c, u); }
    SameSpawns(c, d);
  }

  lemma FinishKeepsIndex<L, M>(P: Program<L, M>, c: Core<L, M>, t: Tid)
    requires Inv(c) && CanStep(c, t) && c.phases[t].Yielded? && c.phases[t].task.None?
    ensures WaitsetsIndexTasks(Step(P, c, t))
  {
    var d := Step(P, c, t);
    assert CarriedAt(c, t) && TurnAt(c, t) && ThreadAt(c, t);
    forall x: Addr, u: Tid ensures IndexedAt(d, x, u) { assert IndexedAt(c, x, u); }
  }

  lemma FinishKeepsThreads<L, M>(P: Program<L, M>, c: Core<L, M>, t: Tid)
    requires Inv(c) && CanStep(c, t) && c.phases[t].Yielded? && c.phases[t].task.None?
    ensures ThreadsFit(Step(P, c, t)) && JoinsFit(Step(P, c, t))
  {
    var d := Step(P, c, t);
    assert CarriedAt(c, t) && TurnAt(c, t) && ThreadAt(c, t);
    forall u: Tid ensures ThreadAt(d, u) {
      assert ThreadAt(c, u) && JoinAt(c, t, u);
      if u in c.pool.tasks && c.pool.tasks[u].IsJoin() {
        assert ThreadAt(c, c.pool.tasks[u].operand.tid) && JoinAt(c, t, c.pool.tasks[u].operand.tid);
      }
      if u in c.thrown {
        assert ThreadAt(c, c.phases[u].posted.operand.tid) && JoinAt(c, t, c.phases[u].posted.operand.tid);
      }
    }
    forall u: Tid, v: Tid ensures JoinAt(d, u, v) { assert JoinAt(c, u, v) && ThreadAt(c, u) && ThreadAt(d, u); }
  }

  lemma FinishKeepsTurns<L, M>(P: Program<L, M>, c: Core<L, M>, t: Tid)
    requires Inv(c) && CanStep(c, t) && c.phases[t].Yielded? && c.phases[t].task.None?
    ensures TurnsFit(Step(P, c, t)) && TidsConserved(Step(P, c, t))
  {
    var d := Step(P, c, t);
    assert CarriedAt(c, t) && TurnAt(c, t) && ThreadAt(c, t);
    forall u: Tid ensures CarriedAt(d, u) { assert CarriedAt(c, u) && TurnAt(c, u); }
    forall u: Tid ensures TurnAt(d, u) { assert TurnAt(c, u); }
    SameSpawns(c, d);
  }

  lemma StepKeepsInv<L, M>(P: Program<L, M>, c: Core<L, M>, t: Tid)
    requires Inv(c) && CanStep(c, t)
    ensures Inv(Step(P, c, t))
  {
    match c.phases[t]
    case Granted(_, _) => ExecuteKeepsIndex(P, c, t); ExecuteKeepsThreads(P, c, t); ExecuteKeepsTurns(P, c, t);
    case Registering(_, _) => RegisterKeepsIndex(P, c, t); RegisterKeepsThreads(P, c, t); RegisterKeepsTurns(P, c, t);
    case Running(_) => CreateKeepsIndex(P, c, t); CreateKeepsThreads(P, c, t); CreateKeepsTurns(P, c, t);
    case Ready(_, _) => YieldKeepsIndex(P, c, t); YieldKeepsThreads(P, c, t); YieldKeepsTurns(P, c, t);
    case Yielded(_, Some(i)) =>
      PostKeepsIndex(P, c, t);
      if PostThrows(c.pool, i) { ThrowKeepsThreads(P, c, t); } else { PostKeepsThreads(P, c, t); }
      PostKeepsTurns(P, c, t);
    case Yielded(_, None) => FinishKeepsIndex(P, c, t); FinishKeepsThreads(P, c, t); FinishKeepsTurns(P, c, t);
  }
}
