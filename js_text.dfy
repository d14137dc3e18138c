/** The few JavaScript string and number primitives the game relies on:
    `String.prototype.trim`, and `String(n)` for the integers and halves the game produces. */
module JsText {

  /** The characters `trim` removes: the WhiteSpace and LineTerminator code points of ECMAScript. */
  predicate IsJsWhitespace(c: char)
  {
    || c == '\t' || c == '\n' || c == '\U{000B}' || c == '\U{000C}' || c == '\r' || c == ' '
    || c == '\U{00A0}' || c == '\U{1680}' || ('\U{2000}' <= c <= '\U{200A}')
    || c == '\U{2028}' || c == '\U{2029}' || c == '\U{202F}' || c == '\U{205F}'
    || c == '\U{3000}' || c == '\U{FEFF}'
  }

  /** Leading white space removed. */
  function TrimStart(s: string): string
  {
    if s != [] && IsJsWhitespace(s[0]) then TrimStart(s[1..]) else s
  }

  /** Trailing white space removed. */
  function TrimEnd(s: string): string
  {
    if s != [] && IsJsWhitespace(s[|s| - 1]) then TrimEnd(s[..|s| - 1]) else s
  }

  /** `TrimStart` keeps a suffix that does not start with white space, and what it drops is all
      white space. */
  lemma {:induction false} TrimStartShape(s: string)
    ensures var r := TrimStart(s);
      && |r| <= |s| && r == s[|s| - |r|..]
      && (r == [] || !IsJsWhitespace(r[0]))
      && (forall i :: 0 <= i < |s| - |r| ==> IsJsWhitespace(s[i]))
  {
    if s != [] && IsJsWhitespace(s[0]) {
      var t := s[1..];
      TrimStartShape(t);
      var r := TrimStart(t);
      assert TrimStart(s) == r;
      assert t[|t| - |r|..] == s[|s| - |r|..];
      forall i | 0 <= i < |s| - |r|
        ensures IsJsWhitespace(s[i])
      {
        if i > 0 {
          assert s[i] == t[i - 1];
        }
      }
    }
  }

  /** `TrimEnd` keeps a prefix that does not end with white space, and what it drops is all
      white space. */
  lemma {:induction false} TrimEndShape(s: string)
    ensures var r := TrimEnd(s);
      && |r| <= |s| && r == s[..|r|]
      && (r == [] || !IsJsWhitespace(r[|r| - 1]))
      && (forall i :: |r| <= i < |s| ==> IsJsWhitespace(s[i]))
  {
    if s != [] && IsJsWhitespace(s[|s| - 1]) {
      var t := s[..|s| - 1];
      TrimEndShape(t);
      var r := TrimEnd(t);
      assert TrimEnd(s) == r;
      assert t[..|r|] == s[..|r|];
      forall i | |r| <= i < |s|
        ensures IsJsWhitespace(s[i])
      {
        if i < |s| - 1 {
          assert s[i] == t[i];
        }
      }
    }
  }

  /** `s.trim()`: white space removed from both ends. */
  function Trim(s: string): (r: string)
  {
    TrimEnd(TrimStart(s))
  }

  /** The trimmed string is an infix of `s` that neither starts nor ends with white space, and
      everything cut off before and after it is white space. */
  lemma TrimShape(s: string)
    ensures var r := Trim(s);
      var lead := |s| - |TrimStart(s)|;
      && |r| <= |s|
      && (r == [] || (!IsJsWhitespace(r[0]) && !IsJsWhitespace(r[|r| - 1])))
      && 0 <= lead && lead + |r| <= |s| && r == s[lead..lead + |r|]
      && (forall i :: 0 <= i < lead ==> IsJsWhitespace(s[i]))
      && (forall i :: lead + |r| <= i < |s| ==> IsJsWhitespace(s[i]))
  {
    var t := TrimStart(s);
    var r := TrimEnd(t);
    var lead := |s| - |t|;
    TrimStartShape(s);
    TrimEndShape(t);
    forall i | lead + |r| <= i < |s|
      ensures IsJsWhitespace(s[i])
    {
      assert s[i] == t[i - lead];
    }
  }

  /** Trimming twice changes nothing more. */
  lemma TrimIdempotent(s: string)
    ensures Trim(Trim(s)) == Trim(s)
  {
    var r := Trim(s);
    TrimShape(s);
    assert TrimStart(r) == r;
    assert TrimEnd(r) == r;
  }

  function DigitChar(d: int): (c: char)
    requires 0 <= d < 10
    ensures '0' <= c <= '9'
  {
    (('0' as int) + d) as char
  }

  /** Decimal digits of a natural number, most significant first, without leading zeros. */
  function NatString(n: nat): (s: string)
    ensures |s| >= 1
    ensures forall i :: 0 <= i < |s| ==> '0' <= s[i] <= '9'
    ensures |s| > 1 ==> s[0] != '0'
    ensures s[0] == '0' <==> n == 0
    decreases n
  {
    if n < 10 then [DigitChar(n)] else NatString(n / 10) + [DigitChar(n % 10)]
  }

  /** `String(n)` for an integer n: an optional minus sign and the digits of |n|. */
  function IntString(n: int): (s: string)
  {
    if n < 0 then "-" + NatString(-n) else NatString(n)
  }

  /** `String(v)` for a number v whose double is the integer `twice`: the integer form, or
      the integer part followed by ".5". */
  function HalfString(twice: int): (s: string)
  {
    if twice % 2 == 0 then IntString(twice / 2)
    else if twice >= 0 then IntString(twice / 2) + ".5"
    else "-" + NatString((-twice) / 2) + ".5"
  }

  function DigitValue(c: char): (d: int)
    requires '0' <= c <= '9'
    ensures 0 <= d < 10 && DigitChar(d) == c
  {
    (c as int) - ('0' as int)
  }

  /** Reads a string of decimal digits back (the inverse of NatString). */
  function ParseNat(s: string): (n: nat)
    requires forall i :: 0 <= i < |s| ==> '0' <= s[i] <= '9'
  {
    if s == [] then 0 else 10 * ParseNat(s[..|s| - 1]) + DigitValue(s[|s| - 1])
  }

  lemma {:induction false} ParseNatString(n: nat)
    ensures ParseNat(NatString(n)) == n
    decreases n
  {
    var s := NatString(n);
    if n < 10 {
      assert s[..|s| - 1] == [];
    } else {
      assert s[..|s| - 1] == NatString(n / 10) && s[|s| - 1] == DigitChar(n % 10);
      ParseNatString(n / 10);
    }
  }

  /** The rendering is canonical: two integers print alike only when they are equal,
      so comparing answer strings is comparing numbers. */
  lemma IntStringInjective(m: int, n: int)
    requires IntString(m) == IntString(n)
    ensures m == n
  {
    if m < 0 && n < 0 {
      NegativeStringTail(m);
      NegativeStringTail(n);
      NatStringInjective(-m, -n);
    } else if m >= 0 && n >= 0 {
      NatStringInjective(m, n);
    } else if m < 0 {
      SignDistinguishes(m, n);
    } else {
      SignDistinguishes(n, m);
    }
  }

  lemma NatStringInjective(a: nat, b: nat)
    requires NatString(a) == NatString(b)
    ensures a == b
  {
    ParseNatString(a);
    ParseNatString(b);
  }

  lemma NegativeStringTail(m: int)
    requires m < 0
    ensures IntString(m)[0] == '-' && IntString(m)[1..] == NatString(-m)
  {
    assert IntString(m) == "-" + NatString(-m);
  }

  lemma SignDistinguishes(m: int, n: int)
    requires m < 0 <= n
    ensures IntString(m) != IntString(n)
  {
    NegativeStringTail(m);
    assert '0' <= IntString(n)[0] <= '9';
  }

  lemma HalfStringOfWhole(n: int)
    ensures HalfString(2 * n) == IntString(n)
  {
    assert (2 * n) % 2 == 0 && (2 * n) / 2 == n;
  }
  lemma IntStringHasNoPoint(n: int)
    ensures forall i :: 0 <= i < |IntString(n)| ==> IntString(n)[i] != '.'
  {
    if n < 0 {
      NegativeStringTail(n);
    }
  }

  lemma OddHalfHasPoint(s: int)
    requires s % 2 != 0
    ensures |HalfString(s)| >= 2 && HalfString(s)[|HalfString(s)| - 2] == '.'
  {
  }

  /** An odd double prints as the digits of its whole part, signed, then ".5". */
  lemma OddHalfParts(s: int)
    requires s % 2 != 0
    ensures HalfString(s) == OddPrefix(s) + ".5"
  {
  }

  /** The part of an odd double's string before ".5". */
  function OddPrefix(s: int): string
  {
    if s >= 0 then NatString(s / 2) else "-" + NatString((-s) / 2)
  }

  /** The prefix determines the odd double. */
  lemma OddPrefixInjective(s: int, t: int)
    requires s % 2 != 0 && t % 2 != 0
    requires OddPrefix(s) == OddPrefix(t)
    ensures s == t
  {
    var x := OddPrefix(s);
    if s >= 0 && t >= 0 {
      NatStringInjective(s / 2, t / 2);
    } else if s < 0 && t < 0 {
      assert x[1..] == NatString((-s) / 2) && x[1..] == NatString((-t) / 2);
      NatStringInjective((-s) / 2, (-t) / 2);
    } else {
      // One prefix starts with a digit, the other with the minus sign.
      assert false;
    }
  }

  /** Halves print canonically too: two numbers whose doubles are integers print alike only
      when they are equal. */
  lemma HalfStringInjective(s: int, t: int)
    requires HalfString(s) == HalfString(t)
    ensures s == t
  {
    var x := HalfString(s);
    if s % 2 == 0 && t % 2 == 0 {
      IntStringInjective(s / 2, t / 2);
    } else if s % 2 == 0 {
      IntStringHasNoPoint(s / 2);
      OddHalfHasPoint(t);
    } else if t % 2 == 0 {
      IntStringHasNoPoint(t / 2);
      OddHalfHasPoint(s);
    } else {
      OddHalfParts(s);
      OddHalfParts(t);
      assert OddPrefix(s) == x[..|x| - 2] == OddPrefix(t);
      OddPrefixInjective(s, t);
    }
  }

  /** A number that is a whole multiple of one half, the only kind the question generator
      prints. */
  predicate IsHalfInteger(x: real)
  {
    (2.0 * x).Floor as real == 2.0 * x
  }

  /** `String(x)` on such a number. */
  function NumberString(x: real): string
    requires IsHalfInteger(x)
  {
    HalfString((2.0 * x).Floor)
  }

  lemma NumberStringInjective(x: real, y: real)
    requires IsHalfInteger(x) && IsHalfInteger(y)
    requires NumberString(x) == NumberString(y)
    ensures x == y
  {
    HalfStringInjective((2.0 * x).Floor, (2.0 * y).Floor);
  }

  lemma NumberStringOfInt(n: int)
    ensures IsHalfInteger(n as real)
    ensures NumberString(n as real) == IntString(n)
  {
    assert (2.0 * n as real).Floor == 2 * n;
    HalfStringOfWhole(n);
  }
}
