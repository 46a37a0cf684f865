/** Independent turns commute. */
module Commute {
  import opened Instructions
  import opened PoolSpec
  import opened System
  import opened Base
  import opened Discipline
  import opened SchedulingPoint
  import opened Confluence
  import opened Rounds

  function StepIf<L, M>(P: Program<L, M>, c: Core<L, M>, t: Tid): Core<L, M> {
    if CanStep(c, t) then Step(P, c, t) else c
  }

  /** A turn of a thread that spawns nobody: it executes, creates its next instruction, yields, and posts
      or finishes. */
  function Turn<L, M>(P: Program<L, M>, c: Core<L, M>, t: Tid): Core<L, M> {
    StepIf(P, StepIf(P, StepIf(P, StepIf(P, Grant(c, t), t), t), t), t)
  }

  function Bit(p: Pool, x: Addr): nat { ObjectAt(p, x).current }

  /** At a scheduling point the pool, but for its current task, is a function of where the threads are,
      of the join requests, and of the last operation on each object. */
  lemma PoolIsDetermined<L, M>(P: Program<L, M>, c: Core<L, M>, d: Core<L, M>)
    requires Strict(P, c) && AllPosted(c.pool) && Strict(P, d) && AllPosted(d.pool)
    requires c.phases == d.phases && c.pool.joins == d.pool.joins && c.pool.objects.Keys == d.pool.objects.Keys
    requires forall x :: Bit(c.pool, x) == Bit(d.pool, x)
    ensures c.pool.(current := None) == d.pool.(current := None)
  {
    PostedMeansQuiet(c);
    PostedMeansQuiet(d);
    forall t: Tid
      ensures t in c.pool.threads <==> t in d.pool.threads
      ensures t in c.pool.tasks <==> t in d.pool.tasks
      ensures t in c.pool.tasks ==> c.pool.tasks[t] == d.pool.tasks[t]
      ensures t in c.pool.threads ==> (c.pool.threads[t] == FINISHED <==> d.pool.threads[t] == FINISHED)
    {
      assert ThreadAt(c, t) && ThreadAt(d, t);
    }
    assert c.pool.tasks == d.pool.tasks;
    forall t | t in c.pool.threads ensures c.pool.threads[t] == d.pool.threads[t] {
      assert StatusAt(c, t) && StatusAt(d, t);
      if t in c.pool.tasks {
        var i := c.pool.tasks[t];
        assert i.OnObject() ==> Bit(c.pool, i.obj) == Bit(d.pool, i.obj);
        assert EnabledAtPost(c.pool, i) == EnabledAtPost(d.pool, i);
      }
    }
    assert c.pool.threads == d.pool.threads;
    forall x | x in c.pool.objects ensures c.pool.objects[x] == d.pool.objects[x] { SameWaitsets(c, d, x); }
    assert c.pool.objects == d.pool.objects;
  }

  lemma SameWaitsets<L, M>(c: Core<L, M>, d: Core<L, M>, x: Addr)
    requires Inv(c) && Inv(d) && Quiet(c) && Quiet(d) && c.phases == d.phases && Bit(c.pool, x) == Bit(d.pool, x)
    ensures ObjectAt(c.pool, x) == ObjectAt(d.pool, x)
  {
    var (o, u) := (ObjectAt(c.pool, x), ObjectAt(d.pool, x));
    forall t: Tid
      ensures t in o.waiting0 <==> t in u.waiting0
      ensures t in o.waiting1 <==> t in u.waiting1
      ensures t in o.waiting0 ==> o.waiting0[t] == u.waiting0[t]
      ensures t in o.waiting1 ==> o.waiting1[t] == u.waiting1[t]
    {
      assert IndexedAt(c, x, t) && IndexedAt(d, x, t);
      assert Pending(c, t) == Pending(d, t);
    }
    assert o.waiting0 == u.waiting0;
    assert o.waiting1 == u.waiting1;
  }

  /** The thread is enabled, neither its instruction nor its next one is a Spawn, and it may create the
      next one when it has executed the first. */
  predicate Quietly<L, M>(P: Program<L, M>, c: Core<L, M>, t: Tid) {
    && InRange(c, t) && c.phases[t].Waiting? && t in c.pool.tasks && IsEnabled(c.pool, t)
    && !c.phases[t].posted.IsSpawn()
    && !NextIsSpawn(P, Reached(P, c, t))
    && MayCreate(P, c.(owners := RealOwners(c.owners, c.phases[t].posted)), t, Reached(P, c, t))
  }

  /** The local state the thread reaches when it executes its instruction. */
  function Reached<L, M>(P: Program<L, M>, c: Core<L, M>, t: Tid): L
    requires InRange(c, t) && c.phases[t].Waiting?
  {
    P.local(c.phases[t].l, c.memory, -1)
  }

  lemma ExecutionOfTurn<L, M>(P: Program<L, M>, c: Core<L, M>, t: Tid) returns (d: Core<L, M>)
    requires Strict(P, c) && AllPosted(c.pool) && Quietly(P, c, t)
    ensures d == StepIf(P, StepIf(P, Grant(c, t), t), t) && Strict(P, d)
    ensures d == Core(SetCurrent(c.pool, t), c.phases[t := Ready(Reached(P, c, t), Created(P, c, t, Reached(P, c, t)))],
                      P.effect(c.phases[t].l, c.memory), RealOwners(c.owners, c.phases[t].posted), c.thrown)
  {
    GrantKeepsStrict(P, c, t);
    var c0 := Grant(c, t);
    assert IntendedAt(P, c0, t);
    StepKeepsStrict(P, c0, t);
    var c1 := Step(P, c0, t);
    StepKeepsStrict(P, c1, t);
    d := Step(P, c1, t);
    assert d.phases == c.phases[t := d.phases[t]];
  }

  lemma YieldOfTurn<L, M>(P: Program<L, M>, c: Core<L, M>, t: Tid) returns (d: Core<L, M>)
    requires Strict(P, c) && InRange(c, t) && c.phases[t].Ready? && c.pool.current.Some?
             && c.pool.current.value.tid == t
    ensures d == StepIf(P, c, t) && Strict(P, d) && d.memory == c.memory && d.owners == c.owners
    ensures d.phases == c.phases[t := Yielded(c.phases[t].l, c.phases[t].task)] && d.pool.joins == c.pool.joins
    ensures d.pool.objects.Keys == c.pool.objects.Keys
    ensures var i := c.pool.current.value;
            forall x :: Bit(d.pool, x) == if i.OnObject() && x == i.obj then i.OperationAsInt() % 2 else Bit(c.pool, x)
  {
    StepKeepsStrict(P, c, t);
    d := Step(P, c, t);
    var i := c.pool.current.value;
    if i.OnObject() {
      YieldNeverThrows(c, t);
      assert IndexedAt(c, i.obj, t);
    }
  }

  lemma EndOfTurn<L, M>(P: Program<L, M>, c: Core<L, M>, t: Tid) returns (d: Core<L, M>)
    requires Strict(P, c) && InRange(c, t) && c.phases[t].Yielded?
    ensures d == StepIf(P, c, t) && Strict(P, d) && d.memory == c.memory && d.owners == c.owners
    ensures var task := c.phases[t].task;
            && d.phases == c.phases[t := if task.Some? then Waiting(c.phases[t].l, task.value) else Finished]
            && d.pool.joins == (if task.Some? then RequestJoin(c.pool.joins, task.value) else c.pool.joins)
            && d.pool.objects.Keys
                == c.pool.objects.Keys + (if task.Some? && task.value.OnObject() then {task.value.obj} else {})
    ensures forall x :: Bit(d.pool, x) == Bit(c.pool, x)
  {
    StrictCanStep(P, c, t);
    StepKeepsStrict(P, c, t);
    d := Step(P, c, t);
  }

  lemma StrictCanStep<L, M>(P: Program<L, M>, c: Core<L, M>, t: Tid)
    requires Strict(P, c) && InRange(c, t) && c.phases[t].Yielded?
    ensures CanStep(c, t) && (c.phases[t].task.Some? ==> !PostThrows(c.pool, c.phases[t].task.value))
  {
    assert IntendedAt(P, c, t) && CarriedAt(c, t);
    if c.phases[t].task.Some? {
      OnlySecondJoinThrows(c, t);
      assert c.phases[t].task.value.IsJoin() ==> ThreadAt(c, c.phases[t].task.value.operand.tid);
    }
  }

  /** Where a thread is after its turn. */
  function Settled<L, M>(P: Program<L, M>, c: Core<L, M>, t: Tid): Phase<L>
    requires InRange(c, t) && c.phases[t].Waiting?
  {
    var l := Reached(P, c, t);
    match Created(P, c, t, l)
    case Some(i) => Waiting(l, i)
    case None => Finished
  }

  /** d is what a turn of t makes of c, as far as it determines the next scheduling point. */
  ghost predicate Turned<L, M>(P: Program<L, M>, c: Core<L, M>, t: Tid, d: Core<L, M>) {
    && InRange(c, t) && c.phases[t].Waiting?
    && var (i, task) := (c.phases[t].posted, Created(P, c, t, Reached(P, c, t)));
    && d.phases == c.phases[t := Settled(P, c, t)]
    && d.memory == P.effect(c.phases[t].l, c.memory) && d.owners == RealOwners(c.owners, i)
    && d.pool.joins == (if task.Some? then RequestJoin(c.pool.joins, task.value) else c.pool.joins)
    && d.pool.objects.Keys
        == c.pool.objects.Keys + (if task.Some? && task.value.OnObject() then {task.value.obj} else {})
    && forall x :: Bit(d.pool, x) == if i.OnObject() && x == i.obj then i.OperationAsInt() % 2 else Bit(c.pool, x)
  }

  lemma SettledMeansPosted<L, M>(P: Program<L, M>, c: Core<L, M>, t: Tid, d: Core<L, M>)
    requires Inv(c) && AllPosted(c.pool) && Inv(d) && InRange(c, t) && c.phases[t].Waiting?
    requires d.phases == c.phases[t := Settled(P, c, t)]
    ensures AllPosted(d.pool)
  {
    PostedMeansQuiet(c);
    PostedMeansQuiet(d);
  }

  /** The thread has executed its instruction, created the next one and yielded. */
  lemma SectionsUpToYield<L, M>(P: Program<L, M>, c: Core<L, M>, t: Tid) returns (d: Core<L, M>)
    requires Strict(P, c) && AllPosted(c.pool) && Quietly(P, c, t)
    ensures Strict(P, d) && d == StepIf(P, StepIf(P, StepIf(P, Grant(c, t), t), t), t)
    ensures var (l, i) := (Reached(P, c, t), c.phases[t].posted);
            && d.phases == c.phases[t := Yielded(l, Created(P, c, t, l))]
            && d.memory == P.effect(c.phases[t].l, c.memory) && d.owners == RealOwners(c.owners, i)
            && d.pool.joins == c.pool.joins && d.pool.objects.Keys == c.pool.objects.Keys
            && forall x :: Bit(d.pool, x)
                           == if i.OnObject() && x == i.obj then i.OperationAsInt() % 2 else Bit(c.pool, x)
  {
    assert ThreadAt(c, t) && CarriedAt(c, t);
    var c2 := ExecutionOfTurn(P, c, t);
    d := YieldOfTurn(P, c2, t);
    UpdatedTwice(c.phases, t, c2.phases[t], d.phases[t]);
  }

  lemma SectionsOfTurn<L, M>(P: Program<L, M>, c: Core<L, M>, t: Tid) returns (d: Core<L, M>)
    requires Strict(P, c) && AllPosted(c.pool) && Quietly(P, c, t)
    ensures d == Turn(P, c, t) && Strict(P, d) && Turned(P, c, t, d)
  {
    var c3 := SectionsUpToYield(P, c, t);
    d := EndOfTurn(P, c3, t);
    UpdatedTwice(c.phases, t, c3.phases[t], d.phases[t]);
  }

  lemma UpdatedTwice<T>(s: seq<T>, i: int, x: T, y: T)
    requires 0 <= i < |s|
    ensures s[i := x][i := y] == s[i := y]
  {
  }

  lemma EffectOfTurn<L, M>(P: Program<L, M>, c: Core<L, M>, t: Tid)
    requires Strict(P, c) && AllPosted(c.pool) && Quietly(P, c, t)
    ensures Turned(P, c, t, Turn(P, c, t)) && Strict(P, Turn(P, c, t)) && AllPosted(Turn(P, c, t).pool)
  {
    var d := SectionsOfTurn(P, c, t);
    SettledMeansPosted(P, c, t, d);
  }

  lemma StepIfKeeps<L, M>(P: Program<L, M>, c: Core<L, M>, t: Tid)
    requires Inv(c) && Apart(P, c)
    ensures Inv(StepIf(P, c, t)) && Apart(P, StepIf(P, c, t)) && Complete(P, StepIf(P, c, t)) == Complete(P, c)
  {
    if CanStep(c, t) {
      StepKeepsInv(P, c, t);
      StepKeepsApart(P, c, t);
      CompleteStep(P, c, t);
    }
  }

  /** The turn of a thread that spawns nobody is the whole round. */
  lemma TurnIsRound<L, M>(P: Program<L, M>, c: Core<L, M>, t: Tid)
    requires Strict(P, c) && AllPosted(c.pool) && Quietly(P, c, t)
    ensures Turn(P, c, t) == Complete(P, Grant(c, t))
  {
    var c0 := Grant(c, t);
    GrantKeepsInv(c, t);
    assert ThreadAt(c, t);
    StepIfKeeps(P, c0, t);
    var c1 := StepIf(P, c0, t);
    StepIfKeeps(P, c1, t);
    var c2 := StepIf(P, c1, t);
    StepIfKeeps(P, c2, t);
    var c3 := StepIf(P, c2, t);
    StepIfKeeps(P, c3, t);
    EffectOfTurn(P, c, t);
    PostedMeansComplete(P, Turn(P, c, t));
  }

  /** The two turns touch different objects, and their effects on the program commute. */
  ghost predicate Independent<L, M>(P: Program<L, M>, c: Core<L, M>, a: Tid, b: Tid)
  {
    && a != b && InRange(c, a) && c.phases[a].Waiting? && InRange(c, b) && c.phases[b].Waiting?
    && var (la, lb, i, j) := (c.phases[a].l, c.phases[b].l, c.phases[a].posted, c.phases[b].posted);
    && !(i.OnObject() && j.OnObject() && i.obj == j.obj)
    && P.effect(lb, P.effect(la, c.memory)) == P.effect(la, P.effect(lb, c.memory))
    && P.local(la, P.effect(lb, c.memory), -1) == P.local(la, c.memory, -1)
    && P.local(lb, P.effect(la, c.memory), -1) == P.local(lb, c.memory, -1)
  }

  lemma StillIntended<L, M>(P: Program<L, M>, c: Core<L, M>, a: Tid, b: Tid, ca: Core<L, M>)
    requires Strict(P, c) && AllPosted(c.pool) && Quietly(P, c, a) && Quietly(P, c, b) && Independent(P, c, a, b)
    requires Turned(P, c, a, ca) && Strict(P, ca)
    ensures MayCreate(P, ca.(owners := RealOwners(ca.owners, ca.phases[b].posted)), b, Reached(P, ca, b))
  {
    EnabledIffRunnable(P, c, a);
    EnabledIffRunnable(P, c, b);
    assert IntendedAt(P, c, a) && IntendedAt(P, c, b) && CarriedAt(c, a) && CarriedAt(c, b);
    match P.next(Reached(P, c, b))
    case Some(JoinOp(u, _)) => assert ThreadAt(c, u) && ThreadAt(ca, u);
    case _ =>
  }

  /** An independent turn of another thread neither disables a thread nor changes what it does next. */
  lemma StillQuietly<L, M>(P: Program<L, M>, c: Core<L, M>, a: Tid, b: Tid)
    requires Strict(P, c) && AllPosted(c.pool) && Quietly(P, c, a) && Quietly(P, c, b) && Independent(P, c, a, b)
    ensures Quietly(P, Turn(P, c, a), b)
  {
    var d := Turn(P, c, a);
    EffectOfTurn(P, c, a);
    EnabledIffRunnable(P, c, b);
    EnabledIffRunnable(P, d, b);
    assert ThreadAt(d, b);
    StillIntended(P, c, a, b, d);
  }

  lemma TwoTurns<L, M>(P: Program<L, M>, c: Core<L, M>, a: Tid, b: Tid, ca: Core<L, M>, ab: Core<L, M>)
    requires Strict(P, c) && AllPosted(c.pool) && Quietly(P, c, a) && Quietly(P, c, b) && Independent(P, c, a, b)
    requires ca == Turn(P, c, a) && ab == Turn(P, ca, b)
    ensures Turned(P, c, a, ca) && Turned(P, ca, b, ab) && Strict(P, ab) && AllPosted(ab.pool)
  {
    StillQuietly(P, c, a, b);
    EffectOfTurn(P, c, a);
    EffectOfTurn(P, ca, b);
  }

  lemma SameCreated<L, M>(P: Program<L, M>, c: Core<L, M>, a: Tid, b: Tid, ca: Core<L, M>)
    requires Turned(P, c, a, ca) && Independent(P, c, a, b) && !NextIsSpawn(P, Reached(P, c, b))
    ensures ca.phases[b] == c.phases[b] && Reached(P, ca, b) == Reached(P, c, b)
    ensures Created(P, ca, b, Reached(P, ca, b)) == Created(P, c, b, Reached(P, c, b))
    ensures Settled(P, ca, b) == Settled(P, c, b)
  {
  }

  lemma TurnsAgree<L, M>(P: Program<L, M>, c: Core<L, M>, a: Tid, b: Tid,
                         ca: Core<L, M>, cb: Core<L, M>, ab: Core<L, M>, ba: Core<L, M>)
    requires Turned(P, c, a, ca) && Turned(P, ca, b, ab) && Turned(P, c, b, cb) && Turned(P, cb, a, ba)
    requires Independent(P, c, a, b) && !NextIsSpawn(P, Reached(P, c, a)) && !NextIsSpawn(P, Reached(P, c, b))
    ensures ab.phases == ba.phases
  {
    SameCreated(P, c, a, b, ca);
    SameCreated(P, c, b, a, cb);
    UpdatesOfSeq(c.phases, a, Settled(P, c, a), b, Settled(P, c, b));
  }

  lemma UpdatesOfSeq<T>(s: seq<T>, a: int, x: T, b: int, y: T)
    requires a != b && 0 <= a < |s| && 0 <= b < |s|
    ensures s[a := x][b := y] == s[b := y][a := x]
  {
  }

  lemma EffectsAgree<L, M>(P: Program<L, M>, c: Core<L, M>, a: Tid, b: Tid,
                           ca: Core<L, M>, cb: Core<L, M>, ab: Core<L, M>, ba: Core<L, M>)
    requires Turned(P, c, a, ca) && Turned(P, ca, b, ab) && Turned(P, c, b, cb) && Turned(P, cb, a, ba)
    requires Independent(P, c, a, b)
    ensures ab.memory == ba.memory && ab.owners == ba.owners
  {
    assert ca.phases[b] == c.phases[b] && cb.phases[a] == c.phases[a];
    OwnersAgree(c.owners, c.phases[a].posted, c.phases[b].posted);
  }

  lemma OwnersAgree(owners: map<Addr, Tid>, i: Instruction, j: Instruction)
    requires !(i.OnObject() && j.OnObject() && i.obj == j.obj)
    ensures RealOwners(RealOwners(owners, i), j) == RealOwners(RealOwners(owners, j), i)
  {
  }

  lemma BitsAgree<L, M>(P: Program<L, M>, c: Core<L, M>, a: Tid, b: Tid,
                        ca: Core<L, M>, cb: Core<L, M>, ab: Core<L, M>, ba: Core<L, M>)
    requires Turned(P, c, a, ca) && Turned(P, ca, b, ab) && Turned(P, c, b, cb) && Turned(P, cb, a, ba)
    requires Independent(P, c, a, b)
    ensures forall x :: Bit(ab.pool, x) == Bit(ba.pool, x)
  {
    assert ca.phases[b] == c.phases[b] && cb.phases[a] == c.phases[a];
  }

  lemma RequestsAgree<L, M>(P: Program<L, M>, c: Core<L, M>, a: Tid, b: Tid,
                            ca: Core<L, M>, cb: Core<L, M>, ab: Core<L, M>, ba: Core<L, M>)
    requires Turned(P, c, a, ca) && Turned(P, ca, b, ab) && Turned(P, c, b, cb) && Turned(P, cb, a, ba)
    requires Independent(P, c, a, b) && !NextIsSpawn(P, Reached(P, c, a)) && !NextIsSpawn(P, Reached(P, c, b))
    ensures ab.pool.joins == ba.pool.joins && ab.pool.objects.Keys == ba.pool.objects.Keys
  {
    SameCreated(P, c, a, b, ca);
    SameCreated(P, c, b, a, cb);
    match (Created(P, c, a, Reached(P, c, a)), Created(P, c, b, Reached(P, c, b)))
    case (Some(i), Some(j)) => JoinRequestsCommute(c.pool.joins, i, j);
    case _ =>
  }

  lemma NothingThrown<L, M>(P: Program<L, M>, c: Core<L, M>)
    requires Strict(P, c)
    ensures c.thrown == {}
  {
    forall t ensures t !in c.thrown { assert IntendedAt(P, c, t); }
  }

  /** Running one enabled thread and then another, or the other way round, leads to the same scheduling
      point, but for the instruction that ran last. */
  lemma IndependentTurnsCommute<L, M>(P: Program<L, M>, c: Core<L, M>, a: Tid, b: Tid,
                                      ca: Core<L, M>, cb: Core<L, M>, ab: Core<L, M>, ba: Core<L, M>)
    requires Strict(P, c) && AllPosted(c.pool) && Quietly(P, c, a) && Quietly(P, c, b) && Independent(P, c, a, b)
    requires ca == Turn(P, c, a) && ab == Turn(P, ca, b)
    requires cb == Turn(P, c, b) && ba == Turn(P, cb, a)
    ensures AllPosted(ab.pool) && AllPosted(ba.pool)
    ensures ab.phases == ba.phases && ab.memory == ba.memory && ab.owners == ba.owners && ab.thrown == ba.thrown == {}
    ensures ab.pool.(current := None) == ba.pool.(current := None)
  {
    TwoTurns(P, c, a, b, ca, ab);
    TwoTurns(P, c, b, a, cb, ba);
    TurnsAgree(P, c, a, b, ca, cb, ab, ba);
    EffectsAgree(P, c, a, b, ca, cb, ab, ba);
    RequestsAgree(P, c, a, b, ca, cb, ab, ba);
    BitsAgree(P, c, a, b, ca, cb, ab, ba);
    PoolIsDetermined(P, ab, ba);
    NothingThrown(P, ab);
    NothingThrown(P, ba);
  }
}
