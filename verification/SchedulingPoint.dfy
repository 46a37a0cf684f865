/** The states in which the scheduler records, selects and hands out a turn. */
module SchedulingPoint {
  import opened Instructions
  import opened PoolSpec
  import opened System
  import opened Base
  import opened Discipline
  import opened Confluence
  import opened Rounds

  ghost predicate Quiet<L, M>(c: Core<L, M>) {
    forall t | InRange(c, t) :: !c.phases[t].Outstanding()
  }

  /** If a thread is outstanding, some thread that can go on keeps the scheduler waiting. */
  lemma KeepsWaiting<L, M>(c: Core<L, M>, t: Tid) returns (u: Tid)
    requires Inv(c) && InRange(c, t) && c.phases[t].Outstanding()
    ensures InRange(c, u) && c.phases[u].Outstanding() && !c.phases[u].Unregistered?
    ensures u in c.pool.threads && c.pool.threads[u] != FINISHED && u !in c.pool.tasks
  {
    assert TurnAt(c, t);
    u := if c.phases[t].Unregistered? then c.pool.current.value.tid else t;
    assert ThreadAt(c, u);
  }

  /** When every unfinished registered thread has posted, no thread is inside the pool or about to
      enter it, not even one that is still unregistered. */
  lemma PostedMeansQuiet<L, M>(c: Core<L, M>)
    requires Inv(c)
    ensures AllPosted(c.pool) <==> Quiet(c)
  {
    if AllPosted(c.pool) {
      forall t | InRange(c, t) ensures !c.phases[t].Outstanding() {
        if c.phases[t].Outstanding() {
          var u := KeepsWaiting(c, t);
          assert false;
        }
      }
    }
    if Quiet(c) {
      forall t | t in c.pool.threads ensures c.pool.threads[t] == FINISHED || t in c.pool.tasks {
        assert ThreadAt(c, t);
      }
    }
  }

  /** At a scheduling point a thread is ENABLED exactly if its posted instruction would not block. */
  lemma EnabledIffRunnable<L, M>(P: Program<L, M>, c: Core<L, M>, t: Tid)
    requires Strict(P, c) && AllPosted(c.pool)
    ensures IsEnabled(c.pool, t) <==> InRange(c, t) && c.phases[t].Waiting? && !Blocks(c, c.phases[t].posted)
  {
    PostedMeansQuiet(c);
    assert ThreadAt(c, t) && StatusAt(c, t) && IntendedAt(P, c, t);
    if t in c.pool.tasks {
      var i := c.pool.tasks[t];
      assert i.OnObject() ==> MutexAt(P, c, i.obj);
      assert i.IsJoin() ==> ThreadAt(c, i.operand.tid);
      assert c.pool.current.Some? ==> InRange(c, c.pool.current.value.tid);
    }
  }

  /** At a scheduling point the pool's bit of a mutex says whether it is really held, so that a thread
      whose Lock is ENABLED finds its mutex free. */
  lemma MutexBitIsReal<L, M>(P: Program<L, M>, c: Core<L, M>, x: Addr)
    requires Strict(P, c) && AllPosted(c.pool) && P.mutexes(x)
    ensures ObjectAt(c.pool, x).Locked() <==> x in c.owners
    ensures forall t | t in c.pool.tasks && c.pool.tasks[t].IsLock() && c.pool.tasks[t].obj == x ::
              IsEnabled(c.pool, t) <==> x !in c.owners
  {
    PostedMeansQuiet(c);
    assert MutexAt(P, c, x);
    forall t | t in c.pool.tasks && c.pool.tasks[t].IsLock() && c.pool.tasks[t].obj == x
      ensures IsEnabled(c.pool, t) <==> x !in c.owners
    {
      assert StatusAt(c, t);
    }
  }

  /** Hands the turn to a thread that has posted. */
  function Grant<L, M>(c: Core<L, M>, t: Tid): Core<L, M> {
    if InRange(c, t) && c.phases[t].Waiting? && t in c.pool.tasks then
      c.(pool := SetCurrent(c.pool, t), phases := c.phases[t := Granted(c.phases[t].l, c.phases[t].posted)])
    else c
  }

  lemma GrantKeepsInv<L, M>(c: Core<L, M>, t: Tid)
    requires Inv(c) && AllPosted(c.pool) && t in c.pool.tasks && IsEnabled(c.pool, t)
    ensures Inv(Grant(c, t))
  {
    var d := Grant(c, t);
    PostedMeansQuiet(c);
    assert ThreadAt(c, t) && CarriedAt(c, t);
    forall x: Addr, u: Tid ensures IndexedAt(d, x, u) { assert IndexedAt(c, x, u); }
    forall u: Tid ensures ThreadAt(d, u) { assert ThreadAt(c, u); }
    forall u: Tid ensures CarriedAt(d, u) { assert CarriedAt(c, u); }
    forall u: Tid ensures TurnAt(d, u) { assert TurnAt(c, u); }
    forall u: Tid, v: Tid ensures JoinAt(d, u, v) { assert JoinAt(c, u, v); }
    SameSpawns(c, d);
  }

  lemma GrantKeepsStrict<L, M>(P: Program<L, M>, c: Core<L, M>, t: Tid)
    requires Strict(P, c) && AllPosted(c.pool) && t in c.pool.tasks && IsEnabled(c.pool, t)
    ensures Strict(P, Grant(c, t))
  {
    var d := Grant(c, t);
    EnabledIffRunnable(P, c, t);
    GrantKeepsInv(c, t);
    PostedMeansQuiet(c);
    assert ThreadAt(c, t) && IntendedAt(P, c, t);
    forall u: Tid ensures StatusAt(d, u) { assert StatusAt(c, u) && ThreadAt(c, u); }
    forall u: Tid ensures IntendedAt(P, d, u) { assert IntendedAt(P, c, u); }
    forall x: Addr ensures MutexAt(P, d, x) { assert MutexAt(P, c, x); }
  }

  /** At a scheduling point the round is over. */
  lemma PostedMeansComplete<L, M>(P: Program<L, M>, c: Core<L, M>)
    requires Inv(c) && AllPosted(c.pool)
    ensures Complete(P, c) == c
  {
    PostedMeansQuiet(c);
  }

  /** Nobody waits forever: unless the scheduler can go on, some thread can. */
  lemma Progress<L, M>(P: Program<L, M>, c: Core<L, M>)
    requires Strict(P, c)
    ensures AllPosted(c.pool) || exists t :: CanStep(c, t)
  {
    if !AllPosted(c.pool) {
      PostedMeansQuiet(c);
      var t :| InRange(c, t) && c.phases[t].Outstanding();
      var u := KeepsWaiting(c, t);
      assert TurnAt(c, u) && IntendedAt(P, c, u) && CarriedAt(c, u);
      if c.phases[u].Yielded? && c.phases[u].task.Some? && c.phases[u].task.value.IsJoin() {
        assert ThreadAt(c, c.phases[u].task.value.operand.tid);
      }
      assert CanStep(c, u);
    }
  }

  /** A yield of the current thread finds its request, and every thread it patches is registered. */
  lemma YieldNeverThrows<L, M>(c: Core<L, M>, t: Tid)
    requires Inv(c) && InRange(c, t) && c.phases[t].Ready?
    requires c.pool.current.Some? && c.pool.current.value.tid == t && c.pool.current.value.OnObject()
    ensures var x := c.pool.current.value.obj;
            && x in c.pool.objects && !c.pool.objects[x].PerformThrows(t)
            && c.pool.objects[x].waiting0.Keys + c.pool.objects[x].waiting1.Keys <= c.pool.threads.Keys
  {
    var x := c.pool.current.value.obj;
    assert IndexedAt(c, x, t);
    forall u | u in c.pool.objects[x].waiting0.Keys + c.pool.objects[x].waiting1.Keys ensures u in c.pool.threads {
      assert IndexedAt(c, x, u) && ThreadAt(c, u);
    }
  }

  /** A thread is in at most one waitset of at most one object, and when the scheduler goes on, whoever
      had the turn has yielded it. */
  lemma InOneWaitset<L, M>(c: Core<L, M>, t: Tid, x: Addr, k: nat, y: Addr, l: nat)
    requires Inv(c) && k < 2 && l < 2
    requires t in ObjectAt(c.pool, x).Waiting(k) && t in ObjectAt(c.pool, y).Waiting(l)
    ensures x == y && k == l
    ensures AllPosted(c.pool) ==> t in c.pool.tasks && c.pool.tasks[t] == ObjectAt(c.pool, x).Waiting(k)[t]
  {
    assert IndexedAt(c, x, t) && IndexedAt(c, y, t) && (k == 0 || k == 1) && (l == 0 || l == 1);
    PostedMeansQuiet(c);
    assert ThreadAt(c, t);
  }

  /** When a thread finishes, everybody who has asked to join it is disabled and waits for exactly that;
      and it stays FINISHED. */
  lemma FinishWakesItsJoiners<L, M>(P: Program<L, M>, c: Core<L, M>, t: Tid)
    requires Inv(c) && CanStep(c, t) && c.phases[t].Yielded? && c.phases[t].task.None?
    ensures forall u | u in JoinersOf(c.pool, t) ::
              u in c.pool.tasks && c.pool.tasks[u].Joins(t) && u in c.pool.threads && c.pool.threads[u] == DISABLED
    ensures forall v | v in c.pool.threads && c.pool.threads[v] == FINISHED ::
              v in Step(P, c, t).pool.threads && Step(P, c, t).pool.threads[v] == FINISHED
  {
    assert ThreadAt(c, t);
    forall u | u in JoinersOf(c.pool, t)
      ensures u in c.pool.tasks && c.pool.tasks[u].Joins(t) && u in c.pool.threads && c.pool.threads[u] == DISABLED
    {
      assert JoinAt(c, t, u) && ThreadAt(c, u);
    }
  }

  /** Whenever the scheduler's wait is over, the section that ended it was a post or a finish, which both notify
      it unless they throw. */
  lemma WakeupsAreNotified<L, M>(P: Program<L, M>, c: Core<L, M>, t: Tid)
    requires Inv(c) && CanStep(c, t) && !AllPosted(c.pool) && AllPosted(Step(P, c, t).pool)
    ensures c.phases[t].Yielded?
  {
    StepKeepsInv(P, c, t);
    PostedMeansQuiet(Step(P, c, t));
  }

  /** At a scheduling point every identifier taken belongs either to a registered thread or to exactly
      one pending Spawn, and every registered thread has finished or posted. */
  lemma TidsArePartitioned<L, M>(c: Core<L, M>, k: Tid)
    requires Inv(c) && AllPosted(c.pool)
    ensures k in c.pool.threads ==> InRange(c, k)
    ensures InRange(c, k) ==>
              (k in c.pool.threads <==> !exists t :: t in c.pool.tasks && c.pool.tasks[t].Spawns(k))
    ensures forall t, u | t in c.pool.tasks && u in c.pool.tasks
              && c.pool.tasks[t].Spawns(k) && c.pool.tasks[u].Spawns(k) ::
              t == u
  {
    PostedMeansQuiet(c);
    assert ThreadAt(c, k) && ReservedAt(c, k);
    forall t ensures SpawnsAt(c, t, k) <==> t in c.pool.tasks && c.pool.tasks[t].Spawns(k) { assert ThreadAt(c, t); }
    forall t | t in c.pool.tasks && c.pool.tasks[t].Spawns(k) ensures !InRange(c, k) || c.phases[k].Reserved? {
      assert ThreadAt(c, t) && CarriedAt(c, t);
    }
  }

  // Rounds as sequences of critical sections.

  ghost predicate IsPath<L, M>(P: Program<L, M>, c: Core<L, M>, ts: seq<Tid>, d: Core<L, M>)
    decreases |ts|
  {
    if ts == [] then c == d else CanStep(c, ts[0]) && IsPath(P, Step(P, c, ts[0]), ts[1..], d)
  }

  lemma {:induction false} PathCompletes<L, M>(P: Program<L, M>, c: Core<L, M>, ts: seq<Tid>, d: Core<L, M>)
    requires Inv(c) && Apart(P, c) && IsPath(P, c, ts, d)
    ensures Complete(P, c) == Complete(P, d) && Inv(d) && Apart(P, d)
    decreases |ts|
  {
    if ts != [] {
      StepKeepsInv(P, c, ts[0]);
      StepKeepsApart(P, c, ts[0]);
      CompleteStep(P, c, ts[0]);
      PathCompletes(P, Step(P, c, ts[0]), ts[1..], d);
    }
  }

  lemma {:induction false} PathJoins<L, M>(
      P: Program<L, M>, c: Core<L, M>, ts: seq<Tid>, d: Core<L, M>, us: seq<Tid>, e: Core<L, M>)
    requires IsPath(P, c, ts, d) && IsPath(P, d, us, e)
    ensures IsPath(P, c, ts + us, e)
    decreases |ts|
  {
    if ts == [] {
      assert ts + us == us;
    } else {
      assert (ts + us)[1..] == ts[1..] + us;
      PathJoins(P, Step(P, c, ts[0]), ts[1..], d, us, e);
    }
  }

  /** One more section. */
  lemma PathGoesOn<L, M>(P: Program<L, M>, c: Core<L, M>, ts: seq<Tid>, d: Core<L, M>, t: Tid) returns (e: Core<L, M>)
    requires IsPath(P, c, ts, d) && Inv(d) && CanStep(d, t)
    ensures e == Step(P, d, t) && IsPath(P, c, ts + [t], e) && Inv(e)
  {
    e := Step(P, d, t);
    StepKeepsInv(P, d, t);
    assert IsPath(P, d, [t], e) by { assert [t][1..] == []; }
    PathJoins(P, c, ts, d, [t], e);
  }

  /** Spawner a and spawned thread b, or the other way round, both create a Spawn, a first. */
  lemma SpawnInOrder<L, M>(P: Program<L, M>, c: Core<L, M>, a: Tid, b: Tid) returns (ts: seq<Tid>, d: Core<L, M>)
    requires Inv(c) && a != b && CanStep(c, a) && CanStep(c, b) && BothSpawn(P, c, a, b)
    ensures IsPath(P, c, ts, d) && Inv(d) && AllPosted(d.pool)
    ensures a in d.pool.tasks && d.pool.tasks[a].Spawns(|c.phases|)
    ensures b in d.pool.tasks && d.pool.tasks[b].IsSpawn()
  {
    var d2 := CreateInOrder(P, c, a, b);
    var d3 := PostsItsSpawn(P, c, [a, b], d2, a);
    var d4 := PostsItsSpawn(P, c, [a, b] + [a, a], d3, b);
    ts, d := [a, b] + [a, a] + [b, b], d4;
    forall t | InRange(d, t) ensures !d.phases[t].Outstanding() {
      assert t == a || t == b || !d2.phases[t].Outstanding();
    }
    PostedMeansQuiet(d);
    assert ThreadAt(d, a) && ThreadAt(d, b);
  }

  lemma CreateInOrder<L, M>(P: Program<L, M>, c: Core<L, M>, a: Tid, b: Tid) returns (d: Core<L, M>)
    requires Inv(c) && a != b && CanStep(c, a) && CanStep(c, b) && BothSpawn(P, c, a, b)
    ensures IsPath(P, c, [a, b], d) && Inv(d) && |d.phases| == |c.phases| + 2
    ensures d.phases[a].Ready? && d.phases[a].task.Some? && d.phases[a].task.value.Spawns(|c.phases|)
    ensures d.phases[b].Ready? && d.phases[b].task.Some? && d.phases[b].task.value.IsSpawn()
    ensures forall t | InRange(d, t) && t != a && t != b :: !d.phases[t].Outstanding()
  {
    assert TurnAt(c, a) && TurnAt(c, b);
    var d1 := PathGoesOn(P, c, [], c, a);
    assert [] + [a] == [a] && [a] + [b] == [a, b];
    d := PathGoesOn(P, c, [a], d1, b);
    forall t | InRange(d, t) && t != a && t != b ensures !d.phases[t].Outstanding() { assert TurnAt(c, t); }
  }

  lemma PostsItsSpawn<L, M>(P: Program<L, M>, c: Core<L, M>, ts: seq<Tid>, d: Core<L, M>, t: Tid)
    returns (e: Core<L, M>)
    requires IsPath(P, c, ts, d) && Inv(d) && InRange(d, t) && d.phases[t].Ready?
    requires d.phases[t].task.Some? && d.phases[t].task.value.IsSpawn()
    ensures IsPath(P, c, ts + [t, t], e) && Inv(e)
    ensures e.phases == d.phases[t := Waiting(d.phases[t].l, d.phases[t].task.value)]
  {
    var f := PathGoesOn(P, c, ts, d, t);
    e := PathGoesOn(P, c, ts + [t], f, t);
    assert ts + [t] + [t] == ts + [t, t];
  }

  /** From a state in which both will spawn and neither has taken its identifier, the moment in which both
      are about to take it can be reached. */
  lemma {:induction false} BothCanBeAboutTo<L, M>(P: Program<L, M>, c: Core<L, M>, t: Tid, k: Tid)
    returns (ts: seq<Tid>, d: Core<L, M>)
    requires Inv(c) && !Apart(P, c) && t == c.pool.current.value.tid && k == c.pool.current.value.operand.tid
    ensures IsPath(P, c, ts, d) && Inv(d) && CanStep(d, t) && CanStep(d, k) && BothSpawn(P, d, t, k)
    decreases Work(c.phases)
  {
    if c.phases[t].Running? {
      assert CarriedAt(c, k) && TurnAt(c, k);
      ts, d := [], c;
    } else {
      SpawningStays(P, c, t, k);
      var c' := Step(P, c, t);
      ts, d := BothCanBeAboutTo(P, c', t, k);
      ts := [t] + ts;
    }
  }

  /** The section that executes the Spawn, and the one that registers the new thread. */
  lemma SpawningStays<L, M>(P: Program<L, M>, c: Core<L, M>, t: Tid, k: Tid)
    requires Inv(c) && !Apart(P, c) && t == c.pool.current.value.tid && k == c.pool.current.value.operand.tid
    requires !c.phases[t].Running?
    ensures CanStep(c, t) && Inv(Step(P, c, t)) && !Apart(P, Step(P, c, t))
            && Work(Step(P, c, t).phases) < Work(c.phases)
    ensures Step(P, c, t).pool.current == c.pool.current
  {
    assert CarriedAt(c, t) && ThreadAt(c, t) && TurnAt(c, t) && TurnAt(c, k);
    StepKeepsInv(P, c, t);
    StepKeepsDoubleSpawn(P, c, t);
    StepWorks(P, c, t);
  }

  /** Whatever complete paths there are, they end in one state. */
  ghost predicate Confluent<L(!new), M(!new)>(P: Program<L, M>, c: Core<L, M>) {
    forall ts: seq<Tid>, d: Core<L, M>, us: seq<Tid>, e: Core<L, M> ::
      IsPath(P, c, ts, d) && AllPosted(d.pool) && IsPath(P, c, us, e) && AllPosted(e.pool) ==> d == e
  }

  /** Round confluence: every order of the outstanding critical sections leads to the same next scheduling
      point, exactly if not both the spawner and the thread it has just spawned have a Spawn to create. */
  lemma RoundIsConfluent<L(!new), M(!new)>(P: Program<L, M>, c: Core<L, M>)
    requires Inv(c)
    ensures Confluent(P, c) <==> Apart(P, c)
  {
    if Apart(P, c) {
      forall ts: seq<Tid>, d: Core<L, M>, us: seq<Tid>, e: Core<L, M>
        | IsPath(P, c, ts, d) && AllPosted(d.pool) && IsPath(P, c, us, e) && AllPosted(e.pool)
        ensures d == e
      {
        PathCompletes(P, c, ts, d);
        PathCompletes(P, c, us, e);
        PostedMeansComplete(P, d);
        PostedMeansComplete(P, e);
      }
    } else {
      var (t, k) := (c.pool.current.value.tid, c.pool.current.value.operand.tid);
      var ts, d := BothCanBeAboutTo(P, c, t, k);
      var us, e := SpawnInOrder(P, d, t, k);
      var vs, f := SpawnInOrder(P, d, k, t);
      PathJoins(P, c, ts, d, us, e);
      PathJoins(P, c, ts, d, vs, f);
      SpawnsDiffer(e, f, t, k, |d.phases|);
    }
  }

  lemma SpawnsDiffer<L, M>(e: Core<L, M>, f: Core<L, M>, t: Tid, k: Tid, n: Tid)
    requires Inv(e) && Inv(f) && t != k
    requires t in e.pool.tasks && e.pool.tasks[t].Spawns(n) && k in f.pool.tasks && f.pool.tasks[k].Spawns(n)
    ensures e != f
  {
    assert ThreadAt(e, t) && ThreadAt(f, k) && ReservedAt(e, n);
    if e == f { assert SpawnsAt(e, t, n) && SpawnsAt(e, k, n); }
  }

  /** Every round takes a bounded number of sections, whatever the order. */
  lemma RoundIsBounded<L, M>(P: Program<L, M>, c: Core<L, M>, ts: seq<Tid>, d: Core<L, M>)
    requires Inv(c) && IsPath(P, c, ts, d)
    ensures |ts| + Work(d.phases) <= Work(c.phases)
    decreases |ts|
  {
    if ts != [] {
      StepKeepsInv(P, c, ts[0]);
      StepWorks(P, c, ts[0]);
      RoundIsBounded(P, Step(P, c, ts[0]), ts[1..], d);
    }
  }

  // What of this can be seen in the recorded states.

  /** After the Spawn both the spawner and the thread it spawned have a Spawn pending. */
  predicate BothSpawned(i: Instruction, post: State) {
    && i.IsSpawn()
    && i.tid in post.next && post.next[i.tid].instr.IsSpawn()
    && i.operand.tid in post.next && post.next[i.operand.tid].instr.IsSpawn()
  }

  lemma DoubleSpawnShows<L, M>(P: Program<L, M>, c: Core<L, M>)
    requires Inv(c) && AllPosted(c.pool) && c.pool.current.Some?
    ensures DoubleSpawn(P, c) <==> BothSpawned(c.pool.current.value, ProgramState(c.pool))
  {
    PostedMeansQuiet(c);
    if c.pool.current.value.IsSpawn() {
      assert ThreadAt(c, c.pool.current.value.tid) && ThreadAt(c, c.pool.current.value.operand.tid);
    }
  }

  lemma GrantIsApart<L, M>(P: Program<L, M>, c: Core<L, M>, t: Tid)
    requires Inv(c) && AllPosted(c.pool) && t in c.pool.tasks && IsEnabled(c.pool, t)
    ensures Apart(P, Grant(c, t)) <==> !DoubleSpawn(P, Grant(c, t))
  {
    GrantKeepsInv(c, t);
    assert ThreadAt(c, t) && CarriedAt(c, t);
  }
}
