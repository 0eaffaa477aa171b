/** Decimal numbers and cutting text, as the standard library does both. */
module Parsing {
  import opened Transfer
  import opened WalFiles

  // ---------------------------------------------------------------- decimal numbers

  function Digit(d: nat): char
    requires d < 10
  {
    (('0' as int) + d) as char
  }

  function Digits(n: nat): (s: string)
    ensures s != "" && AllDigits(s)
  {
    if n < 10 then [Digit(n)] else Digits(n / 10) + [Digit(n % 10)]
  }

  predicate AllDigits(s: string) {
    forall i :: 0 <= i < |s| ==> '0' <= s[i] <= '9'
  }

  function ValueOf(s: string): nat
    requires AllDigits(s)
  {
    if s == "" then 0
    else
      var last := s[|s| - 1];
      10 * ValueOf(s[..|s| - 1]) + (last as int - '0' as int)
  }

  lemma {:induction false} ValueOfDigits(n: nat)
    ensures ValueOf(Digits(n)) == n
  {
    var s := Digits(n);
    if n >= 10 {
      ValueOfDigits(n / 10);
      assert s[..|s| - 1] == Digits(n / 10);
    } else {
      assert s[..|s| - 1] == "";
    }
  }

  const INT64_LIMIT: int := 0x8000_0000_0000_0000

  /** A decimal number with an optional sign, within 64 bits. */
  function ParseInt(s: string): Option<int> {
    var neg, body := s != "" && s[0] == '-', if s != "" && s[0] in "+-" then s[1..] else s;
    if body == "" || !AllDigits(body) then None
    else
      var v: int := if neg then -(ValueOf(body) as int) else ValueOf(body);
      if -INT64_LIMIT <= v < INT64_LIMIT then Some(v) else None
  }

  lemma ParseDigits(n: nat)
    requires (n as int) < INT64_LIMIT
    ensures ParseInt(Digits(n)) == Some(n)
  {
    ValueOfDigits(n);
  }

  function Int64(v: int): Option<int> {
    if -0x8000_0000_0000_0000 <= v <= 0x7FFF_FFFF_FFFF_FFFF then Some(v) else None
  }

  /** Without a sign, what is parsed is the number, if it fits in 64 bits. */
  lemma ParseUnsigned(n: nat)
    ensures ParseInt(Digits(n)) == Int64(n)
  {
    ValueOfDigits(n);
    assert '0' <= Digits(n)[0] <= '9';
  }

  /** With one, it is as the sign says. */
  lemma ParseSigned(sign: char, n: nat)
    requires sign in "+-"
    ensures ParseInt([sign] + Digits(n)) == Int64(if sign == '-' then 0 - n else n)
  {
    ValueOfDigits(n);
    assert ([sign] + Digits(n))[1..] == Digits(n);
  }

  /** Anything else isn't a number. */
  lemma ParseElse(s: string)
    ensures ParseInt(s).Some? ==>
      s != "" && (AllDigits(s) || (s[0] in "+-" && AllDigits(s[1..]) && |s| > 1))
  {
  }

  // ---------------------------------------------------------------- cutting text

  /** Text up to the first `c`, and what follows it. */
  function Cut(s: string, c: char): (string, string) {
    var front := Before(s, c);
    (front, if |front| < |s| then s[|front| + 1..] else "")
  }

  lemma {:induction false} BeforeAt(a: string, c: char, b: string)
    requires c !in a
    ensures Before(a + [c] + b, c) == a
  {
    if a != "" {
      assert (a + [c] + b)[1..] == a[1..] + [c] + b;
      BeforeAt(a[1..], c, b);
    }
  }

  lemma CutAt(a: string, c: char, b: string)
    requires c !in a
    ensures Cut(a + [c] + b, c) == (a, b)
  {
    BeforeAt(a, c, b);
    assert (a + [c] + b)[|a| + 1..] == b;
  }
}
