/** Between two scheduling points the order of the outstanding critical sections does not matter. */
module Confluence {
  import opened Instructions
  import opened PoolSpec
  import opened System
  import opened Base

  // Critical sections of the pool by two different threads.

  lemma UpdatesCommute<K, V>(m: map<K, V>, a: K, x: V, b: K, y: V)
    requires a != b
    ensures m[a := x][b := y] == m[b := y][a := x]
  {
  }

  lemma RequestsCommute(o: ObjectView, i: Instruction, j: Instruction)
    requires i.tid != j.tid
    ensures o.Requested(i).Requested(j) == o.Requested(j).Requested(i)
  {
    UpdatesCommute(o.waiting0, i.tid, i, j.tid, j);
    UpdatesCommute(o.waiting1, i.tid, i, j.tid, j);
  }

  lemma ObjectRequestsCommute(objects: map<Addr, ObjectView>, i: Instruction, j: Instruction)
    requires i.tid != j.tid
    ensures RequestOn(RequestOn(objects, i), j) == RequestOn(RequestOn(objects, j), i)
  {
    if i.OnObject() && j.OnObject() {
      if i.obj == j.obj {
        RequestsCommute(if i.obj in objects then objects[i.obj] else NEW_OBJECT, i, j);
      }
    }
  }

  lemma JoinRequestsCommute(joins: map<Tid, map<Tid, Instruction>>, i: Instruction, j: Instruction)
    requires i.tid != j.tid
    ensures RequestJoin(RequestJoin(joins, i), j) == RequestJoin(RequestJoin(joins, j), i)
  {
    if i.IsJoin() && j.Joins(i.operand.tid) && i.operand.tid in joins {
      UpdatesCommute(joins[i.operand.tid], i.tid, i, j.tid, j);
    }
  }

  predicate OnlyJoinThrows(p: Pool, i: Instruction) { PostThrows(p, i) ==> i.IsJoin() }

  lemma EnabledAfterPost(p: Pool, t: Tid, i: Instruction, u: Tid, j: Instruction)
    requires t != u && i.tid == t && j.tid == u && t in p.threads && p.threads[t] != FINISHED
    ensures EnabledAtPost(Posted(p, t, i), j) == EnabledAtPost(p, j)
  {
  }

  lemma ThrowsAfterNewPost(p: Pool, t: Tid, i: Instruction, u: Tid, j: Instruction)
    requires t != u && i.tid == t && j.tid == u
    ensures PostThrows(Post(p, t, i), j) == PostThrows(p, j)
  {
  }

  lemma ThrowsAfterPost(p: Pool, t: Tid, i: Instruction, u: Tid, j: Instruction)
    requires t != u && i.tid == t && j.tid == u
    ensures PostThrows(Posted(p, t, i), j) == PostThrows(p, j)
  {
    if !PostThrows(p, i) { ThrowsAfterNewPost(p, t, i, u, j); }
  }

  /** A post neither enables, disables nor prevents that of another thread, nor decides whether it throws. */
  lemma PostAfterPost(p: Pool, t: Tid, i: Instruction, u: Tid, j: Instruction)
    requires t != u && i.tid == t && j.tid == u && t in p.threads && p.threads[t] != FINISHED
    ensures CanPost(p, j) ==> CanPost(Posted(p, t, i), j)
    ensures EnabledAtPost(Posted(p, t, i), j) == EnabledAtPost(p, j)
    ensures PostThrows(Posted(p, t, i), j) == PostThrows(p, j)
  {
    EnabledAfterPost(p, t, i, u, j);
    ThrowsAfterPost(p, t, i, u, j);
  }

  lemma PostPost(p: Pool, t: Tid, i: Instruction, u: Tid, j: Instruction)
    requires t != u && i.tid == t && j.tid == u && OnlyJoinThrows(p, i) && OnlyJoinThrows(p, j)
    requires t in p.threads && u in p.threads && p.threads[t] != FINISHED && p.threads[u] != FINISHED
    ensures Posted(Posted(p, t, i), u, j) == Posted(Posted(p, u, j), t, i)
  {
    ObjectRequestsCommute(p.objects, i, j);
    JoinRequestsCommute(p.joins, i, j);
    UpdatesCommute(p.tasks, t, i, u, j);
    UpdatesCommute(p.threads, t, AsStatus(EnabledAtPost(p, i)), u, AsStatus(EnabledAtPost(p, j)));
    PostAfterPost(p, t, i, u, j);
    PostAfterPost(p, u, j, t, i);
  }

  lemma ThrowFinish(p: Pool, t: Tid, i: Instruction, u: Tid)
    requires i.tid == t && PostThrows(p, i) && i.IsJoin()
    ensures Finish(Posted(p, t, i), u) == Posted(Finish(p, u), t, i)
  {
  }

  lemma NewPostFinish(p: Pool, t: Tid, i: Instruction, u: Tid)
    requires t != u && i.tid == t && t in p.threads && u in p.threads && !PostThrows(p, i) && CanPost(p, i)
    requires p.threads[t] != FINISHED && p.threads[u] != FINISHED && t !in JoinersOf(p, u)
    requires forall v | v in JoinersOf(p, u) :: v in p.threads && p.threads[v] != FINISHED
    ensures Finish(Post(p, t, i), u) == Post(Finish(p, u), t, i)
  {
    var (a, b) := (Finish(Post(p, t, i), u), Post(Finish(p, u), t, i));
    assert JoinersOf(Post(p, t, i), u).Keys == JoinersOf(p, u).Keys + if i.Joins(u) then {t} else {};
    assert a.threads == b.threads;
  }

  /** A post, whether it throws or not, commutes with the end of another thread. */
  lemma PostFinish(p: Pool, t: Tid, i: Instruction, u: Tid)
    requires t != u && i.tid == t && t in p.threads && u in p.threads && OnlyJoinThrows(p, i)
    requires p.threads[t] != FINISHED && p.threads[u] != FINISHED && t !in JoinersOf(p, u)
    requires forall v | v in JoinersOf(p, u) :: v in p.threads && p.threads[v] != FINISHED
    requires CanPost(p, i)
    ensures Finish(Posted(p, t, i), u) == Posted(Finish(p, u), t, i)
    ensures CanPost(Finish(p, u), i) && PostThrows(Finish(p, u), i) == PostThrows(p, i)
  {
    if PostThrows(p, i) { ThrowFinish(p, t, i, u); } else { NewPostFinish(p, t, i, u); }
  }

  lemma FinishFinish(p: Pool, t: Tid, u: Tid)
    requires t != u && t in p.threads && u in p.threads
    requires t !in JoinersOf(p, u) && u !in JoinersOf(p, t)
    ensures Finish(Finish(p, t), u) == Finish(Finish(p, u), t)
  {
    assert Finish(Finish(p, t), u).threads == Finish(Finish(p, u), t).threads;
  }

  predicate BothSpawn<L, M>(P: Program<L, M>, c: Core<L, M>, t: Tid, u: Tid)
    requires InRange(c, t) && InRange(c, u)
  {
    && c.phases[t].Running? && NextIsSpawn(P, c.phases[t].l)
    && c.phases[u].Running? && NextIsSpawn(P, c.phases[u].l)
  }

  /** Two threads are at work only after a Spawn, and none of them is executing it any more. */
  lemma TwoAtWork<L, M>(c: Core<L, M>, t: Tid, u: Tid)
    requires Inv(c) && t != u && CanStep(c, t) && CanStep(c, u)
    ensures c.pool.current.Some? && c.pool.current.value.IsSpawn()
    ensures !c.phases[t].Granted? && !c.phases[t].Registering? && t in c.pool.threads && c.pool.threads[t] != FINISHED
    ensures t !in JoinersOf(c.pool, u)
    ensures forall v | v in JoinersOf(c.pool, t) :: v in c.pool.threads && c.pool.threads[v] != FINISHED
  {
    assert TurnAt(c, t) && TurnAt(c, u) && CarriedAt(c, t) && CarriedAt(c, u);
    assert ThreadAt(c, t) && ThreadAt(c, u) && JoinAt(c, u, t);
    forall v | v in JoinersOf(c.pool, t) ensures v in c.pool.threads && c.pool.threads[v] != FINISHED {
      assert JoinAt(c, t, v) && ThreadAt(c, v);
    }
  }

  lemma CreateCommutes<L, M>(P: Program<L, M>, c: Core<L, M>, t: Tid, u: Tid)
    requires Inv(c) && t != u && CanStep(c, t) && CanStep(c, u) && c.phases[t].Running?
    ensures CanStep(Step(P, c, t), u) && CanStep(Step(P, c, u), t)
    ensures Step(P, Step(P, c, t), u) == Step(P, Step(P, c, u), t) <==> !BothSpawn(P, c, t, u)
  {
    TwoAtWork(c, u, t);
    var (d, e) := (Step(P, Step(P, c, t), u), Step(P, Step(P, c, u), t));
    if BothSpawn(P, c, t, u) {
      assert d.phases[t].task.value.operand.tid != e.phases[t].task.value.operand.tid;
    } else {
      assert d.phases == e.phases;
    }
  }

  lemma YieldCommutes<L, M>(P: Program<L, M>, c: Core<L, M>, t: Tid, u: Tid)
    requires Inv(c) && t != u && CanStep(c, t) && CanStep(c, u) && c.phases[t].Ready? && !c.phases[u].Running?
    ensures CanStep(Step(P, c, t), u) && CanStep(Step(P, c, u), t)
    ensures Step(P, Step(P, c, t), u) == Step(P, Step(P, c, u), t)
  {
    TwoAtWork(c, t, u);
    TwoAtWork(c, u, t);
    assert Yield(c.pool, t) == c.pool;
    var (d, e) := (Step(P, Step(P, c, t), u), Step(P, Step(P, c, u), t));
    assert d.phases == e.phases;
  }

  lemma PostsCommute<L, M>(P: Program<L, M>, c: Core<L, M>, t: Tid, u: Tid)
    requires Inv(c) && t != u && CanStep(c, t) && CanStep(c, u) && c.phases[t].Yielded? && c.phases[u].Yielded?
    requires c.phases[t].task.Some? && c.phases[u].task.Some?
    ensures CanStep(Step(P, c, t), u) && CanStep(Step(P, c, u), t)
    ensures Step(P, Step(P, c, t), u) == Step(P, Step(P, c, u), t)
  {
    TwoAtWork(c, t, u);
    TwoAtWork(c, u, t);
    assert CarriedAt(c, t) && CarriedAt(c, u);
    OnlySecondJoinThrows(c, t);
    OnlySecondJoinThrows(c, u);
    var (i, j) := (c.phases[t].task.value, c.phases[u].task.value);
    PostPost(c.pool, t, i, u, j);
    PostAfterPost(c.pool, t, i, u, j);
    PostAfterPost(c.pool, u, j, t, i);
    assert Step(P, Step(P, c, t), u).phases == Step(P, Step(P, c, u), t).phases;
  }

  lemma PostAndFinishCommute<L, M>(P: Program<L, M>, c: Core<L, M>, t: Tid, u: Tid)
    requires Inv(c) && t != u && CanStep(c, t) && CanStep(c, u) && c.phases[t].Yielded? && c.phases[u].Yielded?
    requires c.phases[t].task.Some? && c.phases[u].task.None?
    ensures CanStep(Step(P, c, t), u) && CanStep(Step(P, c, u), t)
    ensures Step(P, Step(P, c, t), u) == Step(P, Step(P, c, u), t)
  {
    TwoAtWork(c, t, u);
    TwoAtWork(c, u, t);
    assert CarriedAt(c, t);
    OnlySecondJoinThrows(c, t);
    PostFinish(c.pool, t, c.phases[t].task.value, u);
    assert Step(P, Step(P, c, t), u).phases == Step(P, Step(P, c, u), t).phases;
  }

  lemma PoolCommutes<L, M>(P: Program<L, M>, c: Core<L, M>, t: Tid, u: Tid)
    requires Inv(c) && t != u && CanStep(c, t) && CanStep(c, u) && c.phases[t].Yielded? && c.phases[u].Yielded?
    ensures CanStep(Step(P, c, t), u) && CanStep(Step(P, c, u), t)
    ensures Step(P, Step(P, c, t), u) == Step(P, Step(P, c, u), t)
  {
    match (c.phases[t].task, c.phases[u].task)
    case (Some(_), Some(_)) => PostsCommute(P, c, t, u);
    case (Some(_), None) => PostAndFinishCommute(P, c, t, u);
    case (None, Some(_)) => PostAndFinishCommute(P, c, u, t);
    case (None, None) =>
      TwoAtWork(c, t, u);
      TwoAtWork(c, u, t);
      FinishFinish(c.pool, t, u);
      assert Step(P, Step(P, c, t), u).phases == Step(P, Step(P, c, u), t).phases;
  }

  /** The critical sections of two threads commute, unless both take a fresh identifier. */
  lemma StepsCommute<L, M>(P: Program<L, M>, c: Core<L, M>, t: Tid, u: Tid)
    requires Inv(c) && t != u && CanStep(c, t) && CanStep(c, u)
    ensures CanStep(Step(P, c, t), u) && CanStep(Step(P, c, u), t)
    ensures Step(P, Step(P, c, t), u) == Step(P, Step(P, c, u), t) <==> !BothSpawn(P, c, t, u)
  {
    TwoAtWork(c, t, u);
    TwoAtWork(c, u, t);
    if c.phases[t].Running? { CreateCommutes(P, c, t, u); }
    else if c.phases[u].Running? { CreateCommutes(P, c, u, t); }
    else if c.phases[t].Ready? { YieldCommutes(P, c, t, u); }
    else if c.phases[u].Ready? { YieldCommutes(P, c, u, t); }
    else { PoolCommutes(P, c, t, u); }
  }
}
