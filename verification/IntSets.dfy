/** Finite sets of integers in ascending order. */
module IntSets {

  predicate IsLeast(s: set<int>, m: int) {
    m in s && forall x | x in s :: m <= x
  }

  lemma Member<T>(s: set<T>) returns (x: T)
    requires s != {}
    ensures x in s
  {
    x :| x in s;
  }

  lemma Key<K, V>(m: map<K, V>) returns (k: K)
    requires m != map[]
    ensures k in m
  {
    k :| k in m;
  }

  lemma {:induction false} LeastExists(s: set<int>)
    requires s != {}
    ensures exists m :: IsLeast(s, m)
    decreases |s|
  {
    var a := Member(s);
    var rest := s - {a};
    if rest == {} {
      assert IsLeast(s, a) by { assert forall x :: x in s ==> x == a || x in rest; }
    } else {
      LeastExists(rest);
      var b :| IsLeast(rest, b);
      assert IsLeast(s, if a <= b then a else b) by { assert forall x :: x in s ==> x == a || x in rest; }
    }
  }

  /** The first element of a std::set. */
  function Least(s: set<int>): (m: int)
    requires s != {}
    ensures IsLeast(s, m)
  {
    LeastExists(s);
    var m :| m in s && IsLeast(s, m);
    m
  }

  /** The elements in ascending order. */
  function Ascending(s: set<int>): (r: seq<int>)
    ensures |r| == |s| && forall x :: x in r <==> x in s
    decreases |s|
  {
    if s == {} then [] else var m := Least(s); [m] + Ascending(s - {m})
  }

  /** Some element, in no particular order. */
  method Take<T(==)>(s: set<T>) returns (x: T)
    requires s != {}
    ensures x in s
  {
    x :| x in s;
  }

  method First(s: set<int>) returns (m: int)
    requires s != {}
    ensures m == Least(s)
  {
    m := Take(s);
    var left := s - {m};
    while left != {}
      invariant left <= s && m in s && forall x | x in s && x !in left :: m <= x
      decreases |left|
    {
      var x := Take(left);
      if x < m { m := x; }
      left := left - {x};
    }
    assert IsLeast(s, m);
  }
}
