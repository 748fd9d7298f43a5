/** The event cursor: node id, colon, sequence zero-padded to twelve digits, and its parser. */
module Cursor {
  import opened Wrappers
  import opened Decimal

  const PAD := 12

  function Print(nodeId: string, sequence: nat): string {
    nodeId + ":" + ZeroPad(Digits(sequence), PAD)
  }

  function LastColon(s: string): (k: int)
    ensures -1 <= k < |s|
  {
    if s == [] then -1
    else if s[|s| - 1] == ':' then |s| - 1
    else LastColon(s[..|s| - 1])
  }

  /** No cursor, no colon and an unreadable tail all mean "from the start". */
  function Sequence(cursor: Option<string>): int {
    if !Given(cursor) then 0
    else
      var k := LastColon(cursor.value);
      if k == -1 then 0
      else ParseInt(cursor.value[k + 1..]).GetOr(0)
  }

  lemma {:induction false} LastColonFound(nodeId: string, tail: string)
    requires ':' !in tail
    ensures LastColon(nodeId + ":" + tail) == |nodeId|
  {
    var s := nodeId + ":" + tail;
    if tail != [] {
      assert s[|s| - 1] == tail[|tail| - 1];
      assert s[..|s| - 1] == nodeId + ":" + tail[..|tail| - 1];
      LastColonFound(nodeId, tail[..|tail| - 1]);
    }
  }

  lemma SequenceOfDigits(nodeId: string, tail: string)
    requires tail != [] && AllDigits(tail)
    ensures Sequence(Some(nodeId + ":" + tail)) == if |tail| <= MAX_DIGITS then Value(tail) else 0
  {
    LastColonFound(nodeId, tail);
    assert (nodeId + ":" + tail)[|nodeId| + 1..] == tail;
    ParseDigits(tail);
  }

  /** Parsing a printed cursor gives the sequence back, whatever the node id holds, as long as the
      sequence has no more digits than are read; beyond that it reads as the start. */
  lemma PrintParse(nodeId: string, sequence: nat)
    ensures Sequence(Some(Print(nodeId, sequence))) == if |Digits(sequence)| <= MAX_DIGITS then sequence else 0
  {
    SequenceOfDigits(nodeId, ZeroPad(Digits(sequence), PAD));
    ValueOfPadded(Digits(sequence), PAD);
    DigitsRoundTrip(sequence);
  }

  // ----- string order of cursors -----

  predicate LexLess(a: string, b: string) {
    if a == [] then b != []
    else if b == [] then false
    else a[0] < b[0] || (a[0] == b[0] && LexLess(a[1..], b[1..]))
  }

  lemma {:induction false} LexCommonPrefix(p: string, a: string, b: string)
    ensures LexLess(p + a, p + b) == LexLess(a, b)
  {
    if p == [] {
      assert p + a == a && p + b == b;
    } else {
      assert (p + a)[1..] == p[1..] + a && (p + b)[1..] == p[1..] + b;
      LexCommonPrefix(p[1..], a, b);
    }
  }

  lemma {:induction false} LexIsNumeric(a: string, b: string)
    requires |a| == |b| && AllDigits(a) && AllDigits(b)
    ensures LexLess(a, b) <==> Value(a) < Value(b)
  {
    if a != [] {
      var x, y, p := DigitValue(a[0]), DigitValue(b[0]), Pow10(|a| - 1);
      LexIsNumeric(a[1..], b[1..]);
      assert a == a[..1] + a[1..] && b == b[..1] + b[1..];
      ValueSplit(a[..1], a[1..]);
      ValueSplit(b[..1], b[1..]);
      assert Value(a[..1]) == x && Value(b[..1]) == y by {
        assert a[..1][..0] == [] && b[..1][..0] == [];
      }
      ValueBound(a[1..]);
      ValueBound(b[1..]);
      LeadingDigit(x, y, p);
      LeadingDigit(y, x, p);
    }
  }

  lemma LeadingDigit(x: nat, y: nat, p: nat)
    ensures x < y ==> x * p + p <= y * p
  {
    if x < y {
      assert (x + 1) * p <= y * p;
    }
  }

  lemma LexOfPadded(nodeId: string, a: nat, b: nat)
    requires a < Pow10(PAD) && b < Pow10(PAD)
    ensures LexLess(Print(nodeId, a), Print(nodeId, b)) <==> a < b
  {
    var x, y := ZeroPad(Digits(a), PAD), ZeroPad(Digits(b), PAD);
    DigitsLength(a, PAD);
    DigitsLength(b, PAD);
    ValueOfPadded(Digits(a), PAD);
    ValueOfPadded(Digits(b), PAD);
    DigitsRoundTrip(a);
    DigitsRoundTrip(b);
    LexIsNumeric(x, y);
    LexCommonPrefix(nodeId + ":", x, y);
  }

  lemma {:induction false} DigitsOfPow10(k: nat)
    ensures Digits(Pow10(k)) == "1" + Repeat('0', k)
  {
    if k == 0 {
      assert Digits(1) == "1" + Repeat('0', 0);
    } else {
      DigitsOfPow10(k - 1);
      assert Pow10(k) == 10 * Pow10(k - 1);
      assert DigitChar(0) == '0';
      assert "1" + Repeat('0', k) == ("1" + Repeat('0', k - 1)) + ['0'];
    }
  }

  lemma {:induction false} DigitsOfNines(k: nat)
    requires 1 <= k
    ensures Digits(Pow10(k) - 1) == Repeat('9', k)
  {
    assert DigitChar(9) == '9';
    if k == 1 {
      assert Pow10(1) - 1 == 9 by { assert Pow10(1) == 10 * Pow10(0); }
      assert Digits(9) == Repeat('9', 1);
    } else {
      DigitsOfNines(k - 1);
      assert Pow10(k) == 10 * Pow10(k - 1);
      assert (Pow10(k) - 1) / 10 == Pow10(k - 1) - 1 && (Pow10(k) - 1) % 10 == 9;
      assert Pow10(k - 1) == 10 * Pow10(k - 2);
      assert Repeat('9', k) == Repeat('9', k - 1) + ['9'];
    }
  }

  ghost predicate OrderAgreesBelow(nodeId: string, bound: nat) {
    forall a: nat, b: nat | a < bound && b < bound ::
      LexLess(Print(nodeId, a), Print(nodeId, b)) <==> a < b
  }

  /** String order of one node's cursors is event order exactly up to the padding's bound. */
  lemma StringOrderIsEventOrder(nodeId: string, bound: nat)
    ensures OrderAgreesBelow(nodeId, bound) <==> bound <= Pow10(PAD)
  {
    if bound <= Pow10(PAD) {
      forall a: nat, b: nat | a < bound && b < bound
        ensures LexLess(Print(nodeId, a), Print(nodeId, b)) <==> a < b
      {
        LexOfPadded(nodeId, a, b);
      }
    } else {
      var a, b := Pow10(PAD) - 1, Pow10(PAD);
      DigitsOfNines(PAD);
      DigitsOfPow10(PAD);
      LexCommonPrefix(nodeId + ":", ZeroPad(Digits(a), PAD), ZeroPad(Digits(b), PAD));
      assert Digits(a)[0] == '9' && Digits(b)[0] == '1';
      assert !LexLess(Print(nodeId, a), Print(nodeId, b));
    }
  }
}
