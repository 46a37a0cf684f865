/** Formatted extraction of words and numbers from a text, and the printing of numbers. */
module Tokens {
  datatype Parse<+T> = Fail | Ok(value: T, rest: string)

  predicate IsSpace(c: char) { c in {' ', '\t', '\n', '\r', '\U{0B}', '\U{0C}'} }

  function SkipSpace(s: string): (t: string)
    ensures |t| <= |s|
    ensures t != "" ==> !IsSpace(t[0])
  {
    if s != "" && IsSpace(s[0]) then SkipSpace(s[1..]) else s
  }

  // Words.

  function TakeWord(s: string): (w: string)
    ensures |w| <= |s| && forall c | c in w :: !IsSpace(c)
  {
    if s == "" || IsSpace(s[0]) then "" else [s[0]] + TakeWord(s[1..])
  }

  function ParseWord(s: string): (r: Parse<string>)
    ensures r.Ok? ==> |r.rest| < |s| && IsWord(r.value)
  {
    var t := SkipSpace(s);
    var w := TakeWord(t);
    if w == "" then Fail else Ok(w, t[|w|..])
  }

  /** What a word extraction can yield. */
  predicate IsWord(w: string) { w != "" && forall c | c in w :: !IsSpace(c) }

  /** Where a word or a number ends. */
  predicate Ends(k: string) { k == "" || IsSpace(k[0]) }

  /** At most one separator. */
  predicate Blank(pre: string) { pre == "" || (|pre| == 1 && IsSpace(pre[0])) }

  lemma SkipBlank(pre: string, s: string)
    requires Blank(pre)
    ensures SkipSpace(pre + s) == SkipSpace(s)
  {
    if pre == "" { assert pre + s == s; } else { assert (pre + s)[1..] == s; }
  }

  lemma {:induction false} TakeWordOf(w: string, k: string)
    requires (forall c | c in w :: !IsSpace(c)) && Ends(k)
    ensures TakeWord(w + k) == w
  {
    if w == "" {
      assert w + k == k;
    } else {
      assert (w + k)[1..] == w[1..] + k;
      TakeWordOf(w[1..], k);
    }
  }

  lemma WordRoundTrip(pre: string, w: string, k: string)
    requires Blank(pre) && IsWord(w) && Ends(k)
    ensures ParseWord(pre + (w + k)) == Ok(w, k)
  {
    SkipBlank(pre, w + k);
    TakeWordOf(w, k);
    assert (w + k)[0] == w[0] && (w + k)[|w|..] == k;
  }

  // Numbers.

  predicate IsBase(b: nat) { b == 10 || b == 16 }

  function DigitValue(c: char): nat {
    if '0' <= c <= '9' then c as int - '0' as int
    else if 'a' <= c <= 'f' then 10 + c as int - 'a' as int
    else if 'A' <= c <= 'F' then 10 + c as int - 'A' as int
    else 16
  }

  predicate IsDigit(c: char, b: nat) { DigitValue(c) < b }

  predicate IsNumeral(d: string, b: nat) { d != "" && forall c | c in d :: IsDigit(c, b) }

  function Digit(d: nat): (c: char)
    requires d < 16
    ensures DigitValue(c) == d
  {
    if d < 10 then ('0' as int + d) as char else ('a' as int + d - 10) as char
  }

  function NatText(n: nat, b: nat): string
    requires IsBase(b)
  {
    if n < b then [Digit(n)] else NatText(n / b, b) + [Digit(n % b)]
  }

  function NatValue(s: string, b: nat): nat {
    if s == "" then 0 else NatValue(s[..|s| - 1], b) * b + DigitValue(s[|s| - 1])
  }

  function TakeDigits(s: string, b: nat): (d: string)
    ensures |d| <= |s|
  {
    if s == "" || !IsDigit(s[0], b) then "" else [s[0]] + TakeDigits(s[1..], b)
  }

  lemma AppendDigit(s: string, c: char, b: nat)
    ensures NatValue(s + [c], b) == NatValue(s, b) * b + DigitValue(c)
  {
    assert (s + [c])[..|s|] == s;
  }

  lemma {:induction false} NatTextIsNumeral(n: nat, b: nat)
    requires IsBase(b)
    ensures IsNumeral(NatText(n, b), b) && NatValue(NatText(n, b), b) == n
  {
    if n >= b {
      NatTextIsNumeral(n / b, b);
      AppendDigit(NatText(n / b, b), Digit(n % b), b);
    } else {
      AppendDigit("", Digit(n), b);
      assert "" + [Digit(n)] == [Digit(n)];
    }
  }

  lemma {:induction false} TakeDigitsOf(d: string, k: string, b: nat)
    requires IsBase(b) && (forall c | c in d :: IsDigit(c, b)) && Ends(k)
    ensures TakeDigits(d + k, b) == d
  {
    if d == "" {
      assert d + k == k;
    } else {
      assert (d + k)[1..] == d[1..] + k;
      TakeDigitsOf(d[1..], k, b);
    }
  }

  function SkipSign(s: string): (t: string)
    ensures |t| <= |s|
  {
    if s != "" && (s[0] == '-' || s[0] == '+') then s[1..] else s
  }

  function SkipPrefix(s: string, b: nat): (t: string)
    ensures |t| <= |s|
  {
    if b == 16 && |s| >= 2 && s[0] == '0' && (s[1] == 'x' || s[1] == 'X') then s[2..] else s
  }

  /** An optional sign, for base 16 an optional prefix, and digits: whether negative, and how many. */
  function ParseDigits(s: string, b: nat): (r: Parse<(bool, nat)>)
    ensures r.Ok? ==> |r.rest| < |s|
  {
    var t := SkipSpace(s);
    var v := SkipPrefix(SkipSign(t), b);
    var d := TakeDigits(v, b);
    if d == "" then Fail else Ok((t[0] == '-', NatValue(d, b)), v[|d|..])
  }

  const INT_LIMIT := 0x8000_0000
  const UINT_LIMIT := 0x1_0000_0000
  const ADDRESS_LIMIT := 0x1_0000_0000_0000_0000

  predicate FitsInt(n: int) { -INT_LIMIT <= n < INT_LIMIT }

  function ParseInt(s: string): (r: Parse<int>)
    ensures r.Ok? ==> |r.rest| < |s|
  {
    match ParseDigits(s, 10)
    case Fail => Fail
    case Ok((negative, n), rest) =>
      var v := if negative then 0 - n else n;
      if FitsInt(v) then Ok(v, rest) else Fail
  }

  /** A negative number wraps around. */
  function ParseUnsigned(s: string, b: nat, limit: nat): (r: Parse<nat>)
    ensures r.Ok? ==> |r.rest| < |s|
  {
    match ParseDigits(s, b)
    case Fail => Fail
    case Ok((negative, n), rest) =>
      if n >= limit then Fail else Ok(if negative && n > 0 then limit - n else n, rest)
  }

  function IntText(n: int): string {
    if n < 0 then "-" + NatText(-n, 10) else NatText(n, 10)
  }

  /** Pointers are printed in base 16 with a prefix, the null pointer without. */
  function AddressText(x: nat): string {
    if x == 0 then NatText(0, 16) else "0x" + NatText(x, 16)
  }

  lemma NoPrefix(d: string, k: string, b: nat)
    requires Ends(k) && IsBase(b) && IsNumeral(d, b)
    ensures SkipSign(d + k) == d + k && SkipPrefix(d + k, b) == d + k
  {
    assert (d + k)[0] == d[0] && IsDigit(d[0], b);
    assert |d| > 1 ==> (d + k)[1] == d[1] && IsDigit(d[1], b);
  }

  lemma SkipFront(front: string, s: string, b: nat)
    requires s != "" && SkipSign(s) == s && SkipPrefix(s, b) == s
    requires front == "" || front == "-" || (front == "0x" && b == 16)
    ensures SkipPrefix(SkipSign(front + s), b) == s
  {
    assert (front + s)[|front|..] == s;
    if front == "" { assert front + s == s; }
  }

  lemma FrontStays(front: string, s: string, b: nat)
    requires s != "" && IsDigit(s[0], b) && IsBase(b)
    requires front == "" || front == "-" || (front == "0x" && b == 16)
    ensures SkipSpace(front + s) == front + s && ((front + s)[0] == '-' <==> front == "-")
  {
    if front == "" { assert front + s == s; }
  }

  lemma FrontOfNumeral(front: string, d: string, k: string, b: nat)
    requires Ends(k) && IsBase(b) && IsNumeral(d, b)
    requires front == "" || front == "-" || (front == "0x" && b == 16)
    ensures var t := front + (d + k);
            SkipSpace(t) == t && t != "" && (t[0] == '-' <==> front == "-") && SkipPrefix(SkipSign(t), b) == d + k
  {
    assert (d + k)[0] == d[0] && IsDigit(d[0], b);
    FrontStays(front, d + k, b);
    NoPrefix(d, k, b);
    SkipFront(front, d + k, b);
  }

  /** Digits with a sign, or a prefix, in front. */
  lemma NumeralRoundTrip(pre: string, front: string, d: string, k: string, b: nat)
    requires Blank(pre) && Ends(k) && IsBase(b) && IsNumeral(d, b)
    requires front == "" || front == "-" || (front == "0x" && b == 16)
    ensures ParseDigits(pre + (front + d + k), b) == Ok((front == "-", NatValue(d, b)), k)
  {
    var t := front + (d + k);
    assert front + d + k == t;
    SkipBlank(pre, t);
    FrontOfNumeral(front, d, k, b);
    TakeDigitsOf(d, k, b);
    assert (d + k)[|d|..] == k;
  }

  lemma IntOfDigits(s: string, negative: bool, m: nat, k: string)
    requires ParseDigits(s, 10) == Ok((negative, m), k) && FitsInt(if negative then 0 - m else m)
    ensures ParseInt(s) == Ok(if negative then 0 - m else m, k)
  {
  }

  lemma IntRoundTrip(pre: string, n: int, k: string)
    requires Blank(pre) && Ends(k) && FitsInt(n)
    ensures ParseInt(pre + (IntText(n) + k)) == Ok(n, k)
  {
    var (front, m) := if n < 0 then ("-", -n) else ("", n);
    var d := NatText(m, 10);
    NatTextIsNumeral(m, 10);
    NumeralRoundTrip(pre, front, d, k, 10);
    assert front + d == IntText(n);
    IntOfDigits(pre + (front + d + k), front == "-", m, k);
  }

  lemma UnsignedRoundTrip(pre: string, front: string, n: nat, k: string, b: nat, limit: nat)
    requires Blank(pre) && Ends(k) && n < limit && IsBase(b) && (front == "" || (front == "0x" && b == 16))
    ensures ParseUnsigned(pre + (front + NatText(n, b) + k), b, limit) == Ok(n, k)
  {
    NatTextIsNumeral(n, b);
    NumeralRoundTrip(pre, front, NatText(n, b), k, b);
  }

  lemma NatRoundTrip(pre: string, n: nat, k: string, limit: nat)
    requires Blank(pre) && Ends(k) && n < limit
    ensures ParseUnsigned(pre + (NatText(n, 10) + k), 10, limit) == Ok(n, k)
  {
    UnsignedRoundTrip(pre, "", n, k, 10, limit);
    assert "" + NatText(n, 10) == NatText(n, 10);
  }

  lemma AddressRoundTrip(pre: string, x: nat, k: string)
    requires Blank(pre) && Ends(k) && x < ADDRESS_LIMIT
    ensures ParseUnsigned(pre + (AddressText(x) + k), 16, ADDRESS_LIMIT) == Ok(x, k)
  {
    var front := if x == 0 then "" else "0x";
    UnsignedRoundTrip(pre, front, x, k, 16, ADDRESS_LIMIT);
    assert front + NatText(x, 16) == AddressText(x);
  }

  // Lines.

  datatype Lines = NoLine | Line(rest: string)

  /** What follows the next n ends of line. */
  function SkipLines(s: string, n: nat): (r: Lines)
    ensures r.Line? && n > 0 ==> |r.rest| < |s|
    decreases |s|
  {
    if n == 0 then Line(s)
    else if s == "" then NoLine
    else if s[0] == '\n' then SkipLines(s[1..], n - 1)
    else SkipLines(s[1..], n)
  }

  lemma {:induction false} SkipLineOf(w: string, k: string, n: nat)
    requires '\n' !in w && n > 0
    ensures SkipLines(w + ("\n" + k), n) == SkipLines(k, n - 1)
  {
    var t := "\n" + k;
    if w == "" {
      assert w + t == t && t[1..] == k;
    } else {
      assert (w + t)[1..] == w[1..] + t;
      SkipLineOf(w[1..], k, n);
    }
  }
}
