/** base64url text: the unpadded encoder of section 5 of RFC 4648 that clients use for keys and
    signatures, and the gateway's decoder, which pads to a multiple of four and then scans the way
    Python's lenient decoder does. */
module Base64Url {
  import opened Wrappers

  type Byte = b: int | 0 <= b < 256
  type Sextet = v: int | 0 <= v < 64

  function Letter(v: Sextet): char {
    if v < 26 then ('A' as int + v) as char
    else if v < 52 then ('a' as int + v - 26) as char
    else if v < 62 then ('0' as int + v - 52) as char
    else if v == 62 then '-' else '_'
  }

  /** Both spellings of 62 and 63 are read, because '-' and '_' are translated before decoding. */
  function Sextets(c: char): Option<Sextet> {
    if 'A' <= c <= 'Z' then Some(c as int - 'A' as int)
    else if 'a' <= c <= 'z' then Some(c as int - 'a' as int + 26)
    else if '0' <= c <= '9' then Some(c as int - '0' as int + 52)
    else if c == '-' || c == '+' then Some(62)
    else if c == '_' || c == '/' then Some(63)
    else None
  }

  predicate InAlphabet(s: string) {
    forall i | 0 <= i < |s| :: Sextets(s[i]).Some?
  }

  function Encode(bytes: seq<Byte>): (s: string)
    ensures InAlphabet(s) && |s| % 4 != 1
  {
    if |bytes| == 0 then []
    else if |bytes| == 1 then [Letter(bytes[0] / 4), Letter(bytes[0] % 4 * 16)]
    else if |bytes| == 2 then
      [Letter(bytes[0] / 4), Letter(bytes[0] % 4 * 16 + bytes[1] / 16), Letter(bytes[1] % 16 * 4)]
    else
      [Letter(bytes[0] / 4), Letter(bytes[0] % 4 * 16 + bytes[1] / 16),
       Letter(bytes[1] % 16 * 4 + bytes[2] / 64), Letter(bytes[2] % 64)] + Encode(bytes[3..])
  }

  /** The decoder's registers: position in the group of four, bits carried over, pads seen. */
  datatype Carry = Carry(quad: nat, left: nat, pads: nat)

  ghost predicate Legal(c: Carry) {
    c.quad < 4 && (c.quad == 0 || (c.quad == 1 && c.left < 64) || (c.quad == 2 && c.left < 16)
                   || (c.quad == 3 && c.left < 4))
  }

  function Prepend(b: Byte, rest: Option<seq<Byte>>): Option<seq<Byte>> {
    match rest
    case None => None
    case Some(bytes) => Some([b] + bytes)
  }

  /** Letters outside the alphabet are skipped; input must end on a whole group or a full pad. */
  function Scan(s: string, c: Carry): Option<seq<Byte>>
    requires Legal(c)
    decreases s
  {
    if s == [] then (if c.quad == 0 then Some([]) else None)
    else if s[0] == '=' then
      if 2 <= c.quad && 4 <= c.quad + c.pads + 1 then Some([])
      else Scan(s[1..], if 2 <= c.quad then c.(pads := c.pads + 1) else c)
    else
      match Sextets(s[0])
      case None => Scan(s[1..], c)
      case Some(v) =>
        if c.quad == 0 then Scan(s[1..], Carry(1, v, 0))
        else if c.quad == 1 then Prepend(c.left * 4 + v / 16, Scan(s[1..], Carry(2, v % 16, 0)))
        else if c.quad == 2 then Prepend(c.left * 16 + v / 4, Scan(s[1..], Carry(3, v % 4, 0)))
        else Prepend(c.left * 64 + v, Scan(s[1..], Carry(0, 0, 0)))
  }

  const START := Carry(0, 0, 0)

  function PadCount(length: nat): nat {
    (-(length as int)) % 4
  }

  function Pads(n: nat): (s: string)
    ensures |s| == n && forall i | 0 <= i < n :: s[i] == '='
  {
    seq(n, _ => '=')
  }

  predicate IsAscii(s: string) {
    forall i | 0 <= i < |s| :: s[i] < '\U{80}'
  }

  /** None stands for the ValueError that the gateway reports as an invalid signature. */
  function Decode(s: string): Option<seq<Byte>> {
    if IsAscii(s) then Scan(s + Pads(PadCount(|s|)), START) else None
  }

  lemma LetterReads(v: Sextet)
    ensures Sextets(Letter(v)) == Some(v) && Letter(v) != '=' && Letter(v) < '\U{80}'
  {
  }

  /** What one letter of value v does to the scan of the rest. */
  function Consume(v: Sextet, rest: string, c: Carry): Option<seq<Byte>>
    requires Legal(c)
  {
    if c.quad == 0 then Scan(rest, Carry(1, v, 0))
    else if c.quad == 1 then Prepend(c.left * 4 + v / 16, Scan(rest, Carry(2, v % 16, 0)))
    else if c.quad == 2 then Prepend(c.left * 16 + v / 4, Scan(rest, Carry(3, v % 4, 0)))
    else Prepend(c.left * 64 + v, Scan(rest, Carry(0, 0, 0)))
  }

  lemma ScanLetter(v: Sextet, rest: string, c: Carry)
    requires Legal(c)
    ensures Scan([Letter(v)] + rest, c) == Consume(v, rest, c)
  {
    LetterReads(v);
    assert ([Letter(v)] + rest)[1..] == rest;
  }

  lemma ScanPad(n: nat, c: Carry)
    requires Legal(c) && 2 <= c.quad && c.pads == 0 && c.quad + n == 4
    ensures Scan(Pads(n), c) == Some([])
  {
    assert Pads(n)[1..] == Pads(n - 1);
    if c.quad == 2 {
      assert Pads(1)[0] == '=';
      assert Scan(Pads(1), c.(pads := 1)) == Some([]);
    }
  }

  lemma ScanGroup(a: Sextet, b: Sextet, c: Sextet, d: Sextet, rest: string)
    ensures Scan([Letter(a), Letter(b), Letter(c), Letter(d)] + rest, START) ==
            Prepend(a * 4 + b / 16, Prepend(b % 16 * 16 + c / 4, Prepend(c % 4 * 64 + d, Scan(rest, START))))
  {
    var t3 := [Letter(d)] + rest;
    var t2 := [Letter(c)] + t3;
    var t1 := [Letter(b)] + t2;
    assert [Letter(a), Letter(b), Letter(c), Letter(d)] + rest == [Letter(a)] + t1;
    ScanLetter(a, t1, START);
    ScanLetter(b, t2, Carry(1, a, 0));
    ScanLetter(c, t3, Carry(2, b % 16, 0));
    ScanLetter(d, rest, Carry(3, c % 4, 0));
  }

  /** Padding and scanning the encoding gives the bytes back. */
  ghost predicate ReadsBack(bytes: seq<Byte>) {
    Scan(Encode(bytes) + Pads(PadCount(|Encode(bytes)|)), START) == Some(bytes)
  }

  lemma ScanTail1(b: Byte)
    ensures ReadsBack([b])
  {
    var x, y := b / 4, b % 4 * 16;
    assert Encode([b]) + Pads(2) == [Letter(x)] + ([Letter(y)] + Pads(2));
    ScanLetter(x, [Letter(y)] + Pads(2), START);
    ScanLetter(y, Pads(2), Carry(1, x, 0));
    ScanPad(2, Carry(2, y % 16, 0));
    assert x * 4 + y / 16 == b;
    assert [b] + [] == [b];
    assert PadCount(|Encode([b])|) == 2;
  }

  lemma ScanTail2(b: Byte, c: Byte)
    ensures ReadsBack([b, c])
  {
    var x, y, z := b / 4, b % 4 * 16 + c / 16, c % 16 * 4;
    var t2 := [Letter(z)] + Pads(1);
    assert Encode([b, c]) + Pads(1) == [Letter(x)] + ([Letter(y)] + t2);
    ScanLetter(x, [Letter(y)] + t2, START);
    ScanLetter(y, t2, Carry(1, x, 0));
    ScanLetter(z, Pads(1), Carry(2, y % 16, 0));
    ScanPad(1, Carry(3, z % 4, 0));
    assert x * 4 + y / 16 == b && y % 16 * 16 + z / 4 == c;
    assert [b] + ([c] + []) == [b, c];
    assert PadCount(|Encode([b, c])|) == 1;
  }

  lemma BytesRegroup(x: Byte, y: Byte, z: Byte)
    ensures x / 4 * 4 + (x % 4 * 16 + y / 16) / 16 == x
    ensures (x % 4 * 16 + y / 16) % 16 * 16 + (y % 16 * 4 + z / 64) / 4 == y
    ensures (y % 16 * 4 + z / 64) % 4 * 64 + z % 64 == z
  {
  }

  lemma {:induction false} ScanOfEncode(bytes: seq<Byte>)
    ensures ReadsBack(bytes)
  {
    if |bytes| == 0 {
      assert Encode(bytes) + Pads(0) == [];
    } else if |bytes| == 1 {
      ScanTail1(bytes[0]);
      assert bytes == [bytes[0]];
    } else if |bytes| == 2 {
      ScanTail2(bytes[0], bytes[1]);
      assert bytes == [bytes[0], bytes[1]];
    } else {
      ScanOfEncode(bytes[3..]);
      PrependGroup(bytes[0], bytes[1], bytes[2], bytes[3..]);
      assert bytes == [bytes[0], bytes[1], bytes[2]] + bytes[3..];
    }
  }

  lemma EncodeGroup(x: Byte, y: Byte, z: Byte, rest: seq<Byte>)
    ensures Encode([x, y, z] + rest) ==
            [Letter(x / 4), Letter(x % 4 * 16 + y / 16), Letter(y % 16 * 4 + z / 64), Letter(z % 64)] + Encode(rest)
  {
    assert ([x, y, z] + rest)[3..] == rest;
  }

  lemma PrependGroup(x: Byte, y: Byte, z: Byte, rest: seq<Byte>)
    requires ReadsBack(rest)
    ensures ReadsBack([x, y, z] + rest)
  {
    EncodeGroup(x, y, z, rest);
    BytesRegroup(x, y, z);
    GlueGroup(x / 4, x % 4 * 16 + y / 16, y % 16 * 4 + z / 64, z % 64, Encode(rest), rest);
    assert [x] + ([y] + ([z] + rest)) == [x, y, z] + rest;
  }

  lemma GlueGroup(a: Sextet, b: Sextet, c: Sextet, d: Sextet, tail: string, rest: seq<Byte>)
    requires Scan(tail + Pads(PadCount(|tail|)), START) == Some(rest)
    ensures var all := [Letter(a), Letter(b), Letter(c), Letter(d)] + tail;
            Scan(all + Pads(PadCount(|all|)), START) ==
            Some([a * 4 + b / 16] + ([b % 16 * 16 + c / 4] + ([c % 4 * 64 + d] + rest)))
  {
    var group := [Letter(a), Letter(b), Letter(c), Letter(d)];
    var pads := Pads(PadCount(|tail|));
    assert PadCount(|group + tail|) == PadCount(|tail|);
    assert (group + tail) + pads == group + (tail + pads);
    ScanGroup(a, b, c, d, tail + pads);
  }

  lemma {:induction false} EncodeIsAscii(bytes: seq<Byte>)
    ensures IsAscii(Encode(bytes))
  {
    if 3 <= |bytes| {
      EncodeIsAscii(bytes[3..]);
    }
  }

  /** The padding is always the right one: decoding an unpadded encoding gives the bytes back. */
  lemma DecodeOfEncode(bytes: seq<Byte>)
    ensures Decode(Encode(bytes)) == Some(bytes)
  {
    ScanOfEncode(bytes);
    EncodeIsAscii(bytes);
  }

  function AfterLetter(v: Sextet, c: Carry): (next: Carry)
    requires Legal(c)
    ensures Legal(next) && next.pads == 0 && next.quad == (c.quad + 1) % 4
  {
    if c.quad == 0 then Carry(1, v, 0) else if c.quad == 1 then Carry(2, v % 16, 0)
    else if c.quad == 2 then Carry(3, v % 4, 0) else START
  }

  lemma LetterDecides(s: string, c: Carry)
    requires Legal(c) && s != [] && s[0] != '=' && Sextets(s[0]).Some?
    ensures Scan(s, c).Some? <==> Scan(s[1..], AfterLetter(Sextets(s[0]).value, c)).Some?
  {
  }

  lemma PadsDecide(n: nat, c: Carry)
    requires Legal(c) && c.pads == 0 && n == PadCount(c.quad)
    ensures Scan(Pads(n), c).Some? <==> c.quad != 1
  {
    if c.quad == 1 {
      ScanLonePads(n, c);
    } else if c.quad != 0 {
      ScanPad(n, c);
    }
  }

  lemma {:induction false} ScanSucceeds(s: string, n: nat, c: Carry)
    requires Legal(c) && InAlphabet(s) && '=' !in s
    requires c.pads == 0
    requires n == PadCount(c.quad + |s|)
    ensures Scan(s + Pads(n), c).Some? <==> (c.quad + |s|) % 4 != 1
    decreases |s|
  {
    if s == [] {
      assert s + Pads(n) == Pads(n);
      PadsDecide(n, c);
    } else {
      var all := s + Pads(n);
      assert all[0] == s[0] && all[1..] == s[1..] + Pads(n);
      LetterDecides(all, c);
      ScanSucceeds(s[1..], n, AfterLetter(Sextets(s[0]).value, c));
    }
  }

  lemma {:induction false} ScanLonePads(n: nat, c: Carry)
    requires Legal(c) && c.quad == 1
    ensures Scan(Pads(n), c) == None
  {
    if n != 0 {
      assert Pads(n)[1..] == Pads(n - 1);
      ScanLonePads(n - 1, c);
    }
  }

  lemma {:induction false} AlphabetIsPlain(s: string)
    requires InAlphabet(s)
    ensures '=' !in s && IsAscii(s)
  {
    forall i | 0 <= i < |s|
      ensures s[i] != '=' && s[i] < '\U{80}'
    {
      assert Sextets(s[i]).Some?;
    }
  }

  /** Unpadded alphabet text is readable exactly when its length is not one more than a group. */
  lemma DecodeSucceedsExactly(s: string)
    requires InAlphabet(s)
    ensures Decode(s).Some? <==> |s| % 4 != 1
  {
    AlphabetIsPlain(s);
    ScanSucceeds(s, PadCount(|s|), START);
  }
}
