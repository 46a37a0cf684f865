/** Readers built from readers, and what is needed for them to undo a printer. */
module Readers {
  import opened Instructions
  import opened Tokens

  /** A reader that takes at least one character. */
  ghost predicate Consumes<T>(parse: string -> Parse<T>) {
    forall s :: parse(s).Ok? ==> |parse(s).rest| < |s|
  }

  /** Reading undoes printing, whatever precedes and follows. */
  ghost predicate Undoes<T>(parse: string -> Parse<T>, text: string, v: T) {
    forall pre, k | Blank(pre) && Ends(k) :: parse(pre + (text + k)) == Ok(v, k)
  }

  function Joined(a: string, sep: string, b: string): string { a + (sep + b) }

  function Spaced(a: string, b: string): string { Joined(a, " ", b) }

  predicate Separator(sep: string) { |sep| == 1 && IsSpace(sep[0]) }

  lemma JoinedWith(a: string, sep: string, b: string, k: string)
    ensures Joined(a, sep, b) + k == a + (sep + (b + k))
  {
  }

  /** A word that has to be one of a table. */
  function ParseOf<T>(s: string, table: string -> Option<T>): (r: Parse<T>)
    ensures r.Ok? ==> |r.rest| < |s|
  {
    match ParseWord(s)
    case Fail => Fail
    case Ok(w, rest) => if table(w).Some? then Ok(table(w).value, rest) else Fail
  }

  lemma TableRoundTrip<T>(pre: string, w: string, v: T, k: string, table: string -> Option<T>)
    requires Blank(pre) && IsWord(w) && Ends(k) && table(w) == Some(v)
    ensures ParseOf(pre + (w + k), table) == Ok(v, k)
  {
    WordRoundTrip(pre, w, k);
  }

  lemma WordUndoes<T>(w: string, v: T, table: string -> Option<T>, parse: string -> Parse<T>)
    requires IsWord(w) && table(w) == Some(v) && forall s :: parse(s) == ParseOf(s, table)
    ensures Undoes(parse, w, v)
  {
    forall pre, k | Blank(pre) && Ends(k)
      ensures parse(pre + (w + k)) == Ok(v, k)
    {
      TableRoundTrip(pre, w, v, k, table);
    }
  }

  /** The tag in front of the fields. */
  lemma TagRoundTrip(pre: string, tag: string, fields: string, k: string)
    requires Blank(pre) && Ends(k) && IsWord(tag)
    ensures ParseWord(pre + (Spaced(tag, fields) + k)) == Ok(tag, " " + (fields + k))
  {
    JoinedWith(tag, " ", fields, k);
    WordRoundTrip(pre, tag, " " + (fields + k));
  }

  // Pairs, quadruples and lists of anything that can be read back.

  function Pair<A, B, C>(s: string, first: string -> Parse<A>, second: string -> Parse<B>, make: (A, B) -> C):
      (r: Parse<C>)
    requires Consumes(first) && Consumes(second)
    ensures r.Ok? ==> |r.rest| < |s| && first(s).Ok? && second(first(s).rest).Ok?
                      && r.value == make(first(s).value, second(first(s).rest).value)
  {
    match first(s)
    case Fail => Fail
    case Ok(a, s1) =>
      match second(s1)
      case Fail => Fail
      case Ok(b, s2) => Ok(make(a, b), s2)
  }

  datatype Fields<+A, +B, +C, +D> = Fields(a: A, b: B, c: C, d: D)

  function Four<A, B, C, D>(
      s: string, pa: string -> Parse<A>, pb: string -> Parse<B>, pc: string -> Parse<C>, pd: string -> Parse<D>)
    : (r: Parse<Fields<A, B, C, D>>)
    requires Consumes(pa) && Consumes(pb) && Consumes(pc) && Consumes(pd)
    ensures r.Ok? ==> |r.rest| < |s| && exists t :: pd(t) == Ok(r.value.d, r.rest)
  {
    match pa(s)
    case Fail => Fail
    case Ok(a, s1) =>
      match pb(s1)
      case Fail => Fail
      case Ok(b, s2) =>
        match pc(s2)
        case Fail => Fail
        case Ok(c, s3) =>
          match pd(s3)
          case Fail => Fail
          case Ok(d, s4) => Ok(Fields(a, b, c, d), s4)
  }

  function FourText(a: string, b: string, c: string, d: string): string { Spaced(a, Spaced(b, Spaced(c, d))) }

  function Repeat<T>(n: nat, s: string, parse: string -> Parse<T>): (r: Parse<seq<T>>)
    requires Consumes(parse)
    ensures r.Ok? ==> |r.rest| <= |s|
  {
    if n == 0 then Ok([], s)
    else
      match parse(s)
      case Fail => Fail
      case Ok(v, s1) =>
        match Repeat(n - 1, s1, parse)
        case Fail => Fail
        case Ok(vs, s2) => Ok([v] + vs, s2)
  }

  /** A list on one line: how many elements, and the elements. */
  function Counted<T>(s: string, size: string -> Parse<nat>, parse: string -> Parse<T>): (r: Parse<seq<T>>)
    requires Consumes(size) && Consumes(parse)
    ensures r.Ok? ==> |r.rest| < |s|
  {
    match size(s)
    case Fail => Fail
    case Ok(n, s1) => Repeat(n, s1, parse)
  }

  function ParseSize(s: string): (r: Parse<nat>)
    ensures r.Ok? ==> |r.rest| < |s|
  {
    ParseUnsigned(s, 10, ADDRESS_LIMIT)
  }

  /** A tag that has to be there, and what it announces. */
  function Tagged<T>(s: string, tag: string, parse: string -> Parse<T>): (r: Parse<T>)
    requires Consumes(parse)
    ensures r.Ok? ==> |r.rest| < |s| && exists t :: r == parse(t)
  {
    match ParseWord(s)
    case Fail => Fail
    case Ok(w, s1) => if w == tag then parse(s1) else Fail
  }

  function Texts<T>(vs: seq<T>, text: T -> string): seq<string> {
    seq(|vs|, j requires 0 <= j < |vs| => text(vs[j]))
  }

  lemma TextsOfFirst<T>(v: T, vs: seq<T>, text: T -> string)
    ensures Texts([v] + vs, text) == [text(v)] + Texts(vs, text)
  {
  }

  function ListText(ts: seq<string>): string {
    if ts == [] then "" else " " + (ts[0] + ListText(ts[1..]))
  }

  function SizeText(n: nat): string { NatText(n, 10) }

  function CountedText(ts: seq<string>): string { SizeText(|ts|) + ListText(ts) }

  lemma PairUndoes<A, B, C>(pre: string, k: string, ta: string, a: A, sep: string, tb: string, b: B,
                            first: string -> Parse<A>, second: string -> Parse<B>, make: (A, B) -> C)
    requires Consumes(first) && Consumes(second) && Undoes(first, ta, a) && Undoes(second, tb, b)
    requires Blank(pre) && Ends(k) && Separator(sep)
    ensures Pair(pre + (Joined(ta, sep, tb) + k), first, second, make) == Ok(make(a, b), k)
  {
    JoinedWith(ta, sep, tb, k);
    assert Blank(sep) && Ends(sep + (tb + k));
    assert first(pre + (ta + (sep + (tb + k)))) == Ok(a, sep + (tb + k));
    assert second(sep + (tb + k)) == Ok(b, k);
  }

  lemma FourUndoes<A, B, C, D>(
      pre: string, k: string, ta: string, tb: string, tc: string, td: string, v: Fields<A, B, C, D>,
      pa: string -> Parse<A>, pb: string -> Parse<B>, pc: string -> Parse<C>, pd: string -> Parse<D>)
    requires Consumes(pa) && Consumes(pb) && Consumes(pc) && Consumes(pd)
    requires Undoes(pa, ta, v.a) && Undoes(pb, tb, v.b) && Undoes(pc, tc, v.c) && Undoes(pd, td, v.d)
    requires Blank(pre) && Ends(k)
    ensures Four(pre + (FourText(ta, tb, tc, td) + k), pa, pb, pc, pd) == Ok(v, k)
  {
    var s3 := " " + (td + k);
    var s2 := " " + (tc + s3);
    var s1 := " " + (tb + s2);
    JoinedWith(tc, " ", td, k);
    JoinedWith(tb, " ", Spaced(tc, td), k);
    JoinedWith(ta, " ", Spaced(tb, Spaced(tc, td)), k);
    assert Blank(" ") && Ends(s1) && Ends(s2) && Ends(s3);
    assert pa(pre + (ta + s1)) == Ok(v.a, s1);
    assert pb(s1) == Ok(v.b, s2) && pc(s2) == Ok(v.c, s3) && pd(s3) == Ok(v.d, k);
  }

  lemma {:induction false} RepeatUndoes<T>(ts: seq<string>, vs: seq<T>, k: string, parse: string -> Parse<T>)
    requires Consumes(parse) && |ts| == |vs| && Ends(k) && forall j | 0 <= j < |ts| :: Undoes(parse, ts[j], vs[j])
    ensures Ends(ListText(ts) + k) && Repeat(|ts|, ListText(ts) + k, parse) == Ok(vs, k)
  {
    if ts == [] {
      assert ListText(ts) + k == k;
    } else {
      var r := ListText(ts[1..]) + k;
      RepeatUndoes(ts[1..], vs[1..], k, parse);
      assert ListText(ts) + k == " " + (ts[0] + r);
      assert Undoes(parse, ts[0], vs[0]) && Blank(" ");
      assert parse(" " + (ts[0] + r)) == Ok(vs[0], r);
      assert [vs[0]] + vs[1..] == vs;
    }
  }

  lemma CountedUndoes<T>(pre: string, n: string, m: nat, ts: seq<string>, vs: seq<T>, k: string,
                         size: string -> Parse<nat>, parse: string -> Parse<T>)
    requires Consumes(size) && Undoes(size, n, m)
    requires Consumes(parse) && |ts| == |vs| == m && forall j | 0 <= j < |ts| :: Undoes(parse, ts[j], vs[j])
    requires Blank(pre) && Ends(k)
    ensures Counted(pre + (n + ListText(ts) + k), size, parse) == Ok(vs, k)
  {
    RepeatUndoes(ts, vs, k, parse);
    assert n + ListText(ts) + k == n + (ListText(ts) + k);
    assert size(pre + (n + (ListText(ts) + k))) == Ok(m, ListText(ts) + k);
  }

  lemma CountedListUndoes<T>(ts: seq<string>, vs: seq<T>, parse: string -> Parse<T>, pre: string, k: string)
    requires Consumes(parse) && |ts| == |vs| < ADDRESS_LIMIT && forall j | 0 <= j < |ts| :: Undoes(parse, ts[j], vs[j])
    requires Blank(pre) && Ends(k)
    ensures Counted(pre + (CountedText(ts) + k), ParseSize, parse) == Ok(vs, k)
  {
    var m := |ts|;
    SizeUndoes(m);
    CountedUndoes(pre, SizeText(m), m, ts, vs, k, ParseSize, parse);
  }

  lemma SizeUndoes(n: nat)
    requires n < ADDRESS_LIMIT
    ensures Undoes(ParseSize, SizeText(n), n)
  {
    forall pre, k | Blank(pre) && Ends(k) ensures ParseSize(pre + (SizeText(n) + k)) == Ok(n, k) {
      NatRoundTrip(pre, n, k, ADDRESS_LIMIT);
    }
  }

  lemma TaggedUndoes<T>(pre: string, tag: string, text: string, v: T, k: string, parse: string -> Parse<T>)
    requires Blank(pre) && Ends(k) && IsWord(tag) && Consumes(parse) && Undoes(parse, text, v)
    ensures Tagged(pre + (Spaced(tag, text) + k), tag, parse) == Ok(v, k)
  {
    TagRoundTrip(pre, tag, text, k);
    assert Blank(" ");
  }

  lemma {:induction false} RepeatAll<T>(n: nat, s: string, parse: string -> Parse<T>, good: T -> bool)
    requires Consumes(parse) && forall t :: parse(t).Ok? ==> good(parse(t).value)
    ensures Repeat(n, s, parse).Ok? ==> forall v | v in Repeat(n, s, parse).value :: good(v)
  {
    if n > 0 && parse(s).Ok? { RepeatAll(n - 1, parse(s).rest, parse, good); }
  }
}
