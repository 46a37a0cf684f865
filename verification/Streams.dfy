/** Streams of characters. */
module Streams {
  import opened Tokens

  class OutStream {
    var text: string

    constructor ()
      ensures text == ""
    {
      text := "";
    }

    method Put(s: string)
      modifies this
      ensures text == old(text) + s
    {
      text := text + s;
    }
  }

  /** Once an extraction has failed, the following ones do nothing. */
  class InStream {
    var rest: string
    var good: bool

    constructor (text: string)
      ensures rest == text && good
    {
      rest, good := text, true;
    }

    method Fail()
      modifies `good
      ensures !good
    {
      good := false;
    }

    method Take<T>(p: Parse<T>, otherwise: T) returns (v: T)
      modifies this
      ensures Took(old(good), p, good, rest, v)
      ensures !good ==> v == otherwise
    {
      good := good && p.Ok?;
      if good { rest := p.rest; return p.value; }
      return otherwise;
    }

    method Word() returns (w: string)
      modifies this
      ensures Took(old(good), ParseWord(old(rest)), good, rest, w)
      ensures !good ==> w == ""
    {
      w := Take(ParseWord(rest), "");
    }

    method Int() returns (n: int)
      modifies this
      ensures Took(old(good), ParseInt(old(rest)), good, rest, n)
    {
      n := Take(ParseInt(rest), 0);
    }

    method Unsigned(b: nat, limit: nat) returns (n: nat)
      modifies this
      ensures Took(old(good), ParseUnsigned(old(rest), b, limit), good, rest, n)
    {
      n := Take(ParseUnsigned(rest, b, limit), 0);
    }

    method SkipSpaces()
      modifies `rest
      ensures rest == if good then SkipSpace(old(rest)) else old(rest)
    {
      while good && rest != "" && IsSpace(rest[0])
        invariant SkipSpace(rest) == SkipSpace(old(rest)) && (!good ==> rest == old(rest))
        decreases |rest|
      {
        rest := rest[1..];
      }
    }

    /** Drops what is left of the current line, n times. */
    method Skip(n: nat)
      modifies this
      ensures good == (old(good) && SkipLines(old(rest), n).Line?)
      ensures good ==> rest == SkipLines(old(rest), n).rest
    {
      var left := n;
      while good && left > 0
        invariant good ==> SkipLines(rest, left) == SkipLines(old(rest), n)
        invariant !good ==> !old(good) || SkipLines(old(rest), n).NoLine?
        invariant good ==> old(good)
        decreases |rest|, good
      {
        if rest == "" {
          good := false;
        } else {
          if rest[0] == '\n' { left := left - 1; }
          rest := rest[1..];
        }
      }
    }
  }

  /** What an extraction makes of the stream: p is what was there to be read. */
  predicate Took<T(==)>(wasGood: bool, p: Parse<T>, good: bool, rest: string, v: T) {
    && good == (wasGood && p.Ok?)
    && (good ==> v == p.value && rest == p.rest)
  }
}
