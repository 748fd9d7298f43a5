/** Decimal text as Python prints and reads it: str(int), the zero-padded "012d" format, and the
    grammar int(str) accepts (surrounding blanks, one sign, single underscores between digits, and no
    more digits than Python converts by default). */
module Decimal {
  import opened Wrappers

  function Pow10(n: nat): (p: nat)
    ensures 1 <= p
  {
    if n == 0 then 1 else 10 * Pow10(n - 1)
  }

  predicate IsDigit(c: char) {
    '0' <= c <= '9'
  }

  predicate AllDigits(s: string) {
    forall i | 0 <= i < |s| :: IsDigit(s[i])
  }

  function DigitValue(c: char): (d: nat)
    requires IsDigit(c)
  {
    c as int - '0' as int
  }

  function DigitChar(d: nat): (c: char)
    requires d < 10
    ensures IsDigit(c) && DigitValue(c) == d
  {
    ('0' as int + d) as char
  }

  function Digits(n: nat): (s: string)
    ensures 1 <= |s| && AllDigits(s)
  {
    if n < 10 then [DigitChar(n)] else Digits(n / 10) + [DigitChar(n % 10)]
  }

  function Value(s: string): nat
    requires AllDigits(s)
  {
    if s == [] then 0 else 10 * Value(s[..|s| - 1]) + DigitValue(s[|s| - 1])
  }

  function Repeat(c: char, n: nat): (s: string)
    ensures |s| == n && forall i | 0 <= i < n :: s[i] == c
  {
    seq(n, _ => c)
  }

  /** Left-pads with zeros up to the width; longer text is kept whole. */
  function ZeroPad(s: string, width: nat): (r: string)
    ensures AllDigits(s) ==> AllDigits(r)
    ensures |r| == if |s| < width then width else |s|
  {
    if |s| < width then Repeat('0', width - |s|) + s else s
  }

  lemma {:induction false} DigitsRoundTrip(n: nat)
    ensures Value(Digits(n)) == n
  {
    if n < 10 {
      assert Digits(n)[..0] == [];
    } else {
      DigitsRoundTrip(n / 10);
      assert Digits(n)[..|Digits(n)| - 1] == Digits(n / 10);
    }
  }

  lemma {:induction false} ValueSplit(a: string, b: string)
    requires AllDigits(a) && AllDigits(b)
    ensures AllDigits(a + b) && Value(a + b) == Value(a) * Pow10(|b|) + Value(b)
  {
    if b == [] {
      assert a + b == a;
    } else {
      var b', n := b[..|b| - 1], |b| - 1;
      ValueSplit(a, b');
      assert (a + b)[..|a + b| - 1] == a + b';
      calc {
        Value(a + b);
        10 * Value(a + b') + DigitValue(b[n]);
        10 * (Value(a) * Pow10(n) + Value(b')) + DigitValue(b[n]);
        { Scale(Value(a), Pow10(n)); }
        Value(a) * Pow10(|b|) + (10 * Value(b') + DigitValue(b[n]));
      }
    }
  }

  lemma Scale(x: nat, y: nat)
    ensures 10 * (x * y) == x * (10 * y)
  {
  }

  lemma {:induction false} ValueBound(s: string)
    requires AllDigits(s)
    ensures Value(s) < Pow10(|s|)
  {
    if s != [] {
      ValueBound(s[..|s| - 1]);
    }
  }

  lemma {:induction false} ValueOfPadded(s: string, width: nat)
    requires AllDigits(s)
    ensures Value(ZeroPad(s, width)) == Value(s)
  {
    if |s| < width {
      ValueOfZeros(width - |s|);
      ValueSplit(Repeat('0', width - |s|), s);
    }
  }

  lemma {:induction false} ValueOfZeros(n: nat)
    ensures Value(Repeat('0', n)) == 0
  {
    if n != 0 {
      assert Repeat('0', n)[..n - 1] == Repeat('0', n - 1);
      ValueOfZeros(n - 1);
    }
  }

  /** A number has at most k digits exactly when it is below ten to the k. */
  lemma {:induction false} DigitsLength(n: nat, k: nat)
    requires 1 <= k
    ensures |Digits(n)| <= k <==> n < Pow10(k)
  {
    if n < 10 {
      assert Pow10(k) == 10 * Pow10(k - 1);
    } else if k == 1 {
      assert Pow10(1) == 10 * Pow10(0);
    } else {
      DigitsLength(n / 10, k - 1);
    }
  }

  // ----- int(text) -----

  predicate IsBlank(c: char) {
    c == ' ' || ('\t' <= c <= '\r') || ('\U{1C}' <= c <= '\U{1F}')
  }

  function StripLeft(s: string): (r: string)
    ensures r == [] || !IsBlank(r[0])
  {
    if s == [] || !IsBlank(s[0]) then s else StripLeft(s[1..])
  }

  function StripRight(s: string): (r: string)
    ensures r == [] || !IsBlank(r[|r| - 1])
  {
    if s == [] || !IsBlank(s[|s| - 1]) then s else StripRight(s[..|s| - 1])
  }

  /** Digits with single underscores strictly between digits. */
  predicate Grouped(t: string) {
    && t != []
    && forall i | 0 <= i < |t| ::
         IsDigit(t[i]) || (t[i] == '_' && 0 < i < |t| - 1 && IsDigit(t[i - 1]))
  }

  function DropUnderscores(t: string): (r: string)
    ensures (forall i | 0 <= i < |t| :: IsDigit(t[i]) || t[i] == '_') ==> AllDigits(r)
  {
    if t == [] then []
    else if t[0] == '_' then DropUnderscores(t[1..])
    else [t[0]] + DropUnderscores(t[1..])
  }

  /** Leading zeros count, underscores and the sign do not. */
  const MAX_DIGITS := 4300

  function Unsigned(t: string): Option<int> {
    if Grouped(t) && |DropUnderscores(t)| <= MAX_DIGITS then Some(Value(DropUnderscores(t))) else None
  }

  function ParseInt(s: string): Option<int> {
    var t := StripRight(StripLeft(s));
    if t == [] then None
    else if t[0] == '-' then
      match Unsigned(t[1..])
      case None => None
      case Some(n) => Some(-n)
    else if t[0] == '+' then Unsigned(t[1..])
    else Unsigned(t)
  }

  lemma {:induction false} DropUnderscoresOfDigits(t: string)
    requires AllDigits(t)
    ensures DropUnderscores(t) == t
  {
    if t != [] {
      DropUnderscoresOfDigits(t[1..]);
    }
  }

  lemma ParseDigits(t: string)
    requires t != [] && AllDigits(t)
    ensures ParseInt(t) == if |t| <= MAX_DIGITS then Some(Value(t)) else None
  {
    assert IsDigit(t[0]) && IsDigit(t[|t| - 1]);
    DropUnderscoresOfDigits(t);
    assert StripLeft(t) == t && StripRight(t) == t;
    assert ParseInt(t) == Unsigned(t);
  }
}
