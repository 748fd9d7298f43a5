/** Texts everybody can check by hand: alphabet, canonical lines, cursors and numbers. */
module KnownText {
  import opened Wrappers
  import Base64Url
  import Canonical
  import Cursor
  import Decimal

  /** The 64 letters: three runs of consecutive letters, then the two of the URL alphabet. */
  lemma Alphabet(v: Base64Url.Sextet)
    ensures Base64Url.Letter(0) == 'A' && Base64Url.Letter(26) == 'a' && Base64Url.Letter(52) == '0'
    ensures Base64Url.Letter(62) == '-' && Base64Url.Letter(63) == '_'
    ensures v < 61 && v != 25 && v != 51 ==> Base64Url.Letter(v + 1) as int == Base64Url.Letter(v) as int + 1
  {
  }

  /** Both alphabets are read, and nothing else. */
  lemma Readable(c: char)
    ensures Base64Url.Sextets(c).Some? <==>
            'A' <= c <= 'Z' || 'a' <= c <= 'z' || '0' <= c <= '9' || c in {'-', '_', '+', '/'}
    ensures Base64Url.Sextets('+') == Some(62) && Base64Url.Sextets('/') == Some(63)
  {
  }

  lemma Encoded()
    ensures Base64Url.Encode([]) == ""
    ensures Base64Url.Encode([102]) == "Zg"
    ensures Base64Url.Encode([102, 111]) == "Zm8"
    ensures Base64Url.Encode([102, 111, 111]) == "Zm9v"
    ensures Base64Url.Encode([251, 255]) == "-_8"
  {
    assert [102, 111, 111][3..] == [];
  }

  lemma Decoded()
    ensures Base64Url.Decode("") == Some([])
    ensures Base64Url.Decode("Zg") == Base64Url.Decode("Zg==") == Some([102])
    ensures Base64Url.Decode("Z") == None && Base64Url.Decode("\U{E9}") == None
  {
    assert Base64Url.PadCount(0) == 0 && Base64Url.PadCount(1) == 3 && Base64Url.PadCount(2) == 2;
    assert Base64Url.PadCount(4) == 0;
    assert Base64Url.Pads(2) == "==" && Base64Url.Pads(3) == "===" && Base64Url.Pads(0) == "";
    assert "" + "" == "" && "Zg" + "==" == "Zg==" && "Zg==" + "" == "Zg==" && "Z" + "===" == "Z===";
    ScanZg();
    ScanZ();
    assert "\U{E9}"[0] == '\U{E9}';
  }

  lemma ScanZg()
    ensures Base64Url.Scan("Zg==", Base64Url.START) == Some([102])
  {
    assert "Zg=="[1..] == "g==" && "g=="[1..] == "==" && "=="[1..] == "=";
    assert Base64Url.Scan("=", Base64Url.Carry(2, 0, 1)) == Some([]);
    assert Base64Url.Scan("==", Base64Url.Carry(2, 0, 0)) == Some([]);
    assert Base64Url.Sextets('g') == Some(32);
    var byte: Base64Url.Byte, none: seq<Base64Url.Byte> := 102, [];
    assert [byte] + none == [byte];
    assert Base64Url.Scan("g==", Base64Url.Carry(1, 25, 0)) == Base64Url.Prepend(byte, Some(none));
  }

  lemma ScanZ()
    ensures Base64Url.Scan("Z===", Base64Url.START) == None
  {
    assert "Z==="[1..] == "===" && "==="[1..] == "==" && "=="[1..] == "=" && "="[1..] == "";
    var c := Base64Url.Carry(1, 25, 0);
    assert Base64Url.Scan("", c) == None;
    assert Base64Url.Scan("=", c) == None;
    assert Base64Url.Scan("==", c) == None;
    assert Base64Url.Scan("===", c) == None;
  }

  /** A letter of neither alphabet is as good as absent. */
  lemma JunkIsSkipped(c: char, s: string)
    requires Base64Url.Sextets(c) == None && c != '='
    ensures Base64Url.Scan([c] + s, Base64Url.START) == Base64Url.Scan(s, Base64Url.START)
  {
    assert ([c] + s)[1..] == s;
  }

  /** A pad ends a group of two letters only with a second one behind it, a group of three at once, and
      counts for nothing before. */
  lemma PadsEndGroups(s: string, left: nat, pads: nat)
    requires left < 4
    ensures Base64Url.Scan("==" + s, Base64Url.Carry(2, left, 0)) == Some([])
    ensures Base64Url.Scan("=" + s, Base64Url.Carry(3, left, 0)) == Some([])
    ensures Base64Url.Scan("=A" + s, Base64Url.Carry(2, left, 0)) ==
            Base64Url.Scan("A" + s, Base64Url.Carry(2, left, 1))
    ensures Base64Url.Scan("=" + s, Base64Url.Carry(1, left, pads)) == Base64Url.Scan(s, Base64Url.Carry(1, left, pads))
  {
    assert ("==" + s)[1..] == "=" + s && ("=A" + s)[1..] == "A" + s && ("=" + s)[1..] == s;
  }

  /** Upper case is ASCII upper case. */
  lemma UpperCased(c: char)
    ensures Canonical.UpperChar(c) == if 'a' <= c <= 'z' then (c as int - 'a' as int + 'A' as int) as char else c
  {
  }

  lemma Padded()
    ensures Cursor.Print("n", 7) == "n:000000000007"
  {
    assert Decimal.Digits(7) == ['7'];
    assert Decimal.ZeroPad(['7'], 12) == "000000000007";
  }

  /** A cursor is split at its last colon; without one, or without a cursor, it means the start. */
  lemma LastColonSplits()
    ensures Cursor.Sequence(Some("a:9:12")) == 12
    ensures Cursor.Sequence(None) == 0 && Cursor.Sequence(Some("")) == 0 && Cursor.Sequence(Some("12")) == 0
  {
    Cursor.SequenceOfDigits("a:9", "12");
    Twelve();
    assert "a:9" + ":" + "12" == "a:9:12";
    assert Cursor.LastColon("12") == -1 by {
      assert "12"[..1] == "1" && "1"[..0] == "";
    }
  }

  lemma Twelve()
    ensures Decimal.Value("12") == 12
  {
    assert "12"[..1] == "1" && "1"[..0] == "";
    assert Decimal.Value("1") == 1;
  }

  /** One sign before a number is read. */
  lemma Signs(t: string)
    requires t != "" && Decimal.AllDigits(t)
    ensures Decimal.ParseInt("+" + t) == Decimal.Unsigned(t)
    ensures Decimal.Unsigned(t).Some? ==> Decimal.ParseInt("-" + t) == Some(-Decimal.Unsigned(t).value)
  {
    NotBlank("+" + t, t);
    NotBlank("-" + t, t);
    assert ("+" + t)[1..] == t && ("-" + t)[1..] == t;
  }

  lemma NotBlank(s: string, t: string)
    requires t != "" && Decimal.AllDigits(t) && (s == "+" + t || s == "-" + t)
    ensures Decimal.StripRight(Decimal.StripLeft(s)) == s
  {
    assert Decimal.IsDigit(t[|t| - 1]) && s[|s| - 1] == t[|t| - 1];
    assert Decimal.StripLeft(s) == s;
  }

  /** Blanks around it do not matter. */
  lemma Surrounded(s: string)
    requires s != "" && !Decimal.IsBlank(s[0]) && !Decimal.IsBlank(s[|s| - 1])
    ensures Decimal.ParseInt(" " + s + "\n") == Decimal.ParseInt(s)
  {
    var left, padded := s + "\n", " " + s + "\n";
    assert padded[1..] == left && left[0] == s[0];
    assert Decimal.StripLeft(padded) == left;
    assert left[..|left| - 1] == s;
    assert Decimal.StripRight(left) == s;
    assert Decimal.StripLeft(s) == s && Decimal.StripRight(s) == s;
  }

  /** 4300 digits are read, one more is not. */
  lemma LongestNumber(t: string)
    requires t != "" && Decimal.AllDigits(t)
    ensures Decimal.ParseInt(t).Some? <==> |t| <= 4300
  {
    Decimal.ParseDigits(t);
  }

  /** Single underscores between digits are read, doubled or outer ones are not; nor is anything else. */
  lemma Underscores(a: string, b: string)
    requires a != "" && b != "" && Decimal.AllDigits(a) && Decimal.AllDigits(b)
    ensures Decimal.Unsigned(a + "_" + b) == Decimal.Unsigned(a + b)
    ensures Decimal.Unsigned(a + "__" + b) == None && Decimal.Unsigned("_" + a) == None
    ensures Decimal.Unsigned(a + "_") == None && Decimal.Unsigned(a + "." + b) == None && Decimal.Unsigned("") == None
  {
    var one, two := a + "_" + b, a + "__" + b;
    assert one[|a|] == '_' && two[|a|] == '_' && two[|a| + 1] == '_';
    assert Decimal.IsDigit(a[|a| - 1]) && one[|a| - 1] == a[|a| - 1];
    assert Decimal.Grouped(one);
    assert !Decimal.Grouped(two);
    assert ("_" + a)[0] == '_' && (a + "_")[|a|] == '_' && (a + "." + b)[|a|] == '.';
    DroppingOne(a, b);
    assert Decimal.AllDigits(a + b);
    Decimal.DropUnderscoresOfDigits(a + b);
  }

  lemma {:induction false} DroppingOne(a: string, b: string)
    requires Decimal.AllDigits(a) && Decimal.AllDigits(b)
    ensures Decimal.DropUnderscores(a + "_" + b) == a + b
  {
    if a == "" {
      Decimal.DropUnderscoresOfDigits(b);
      assert ("" + "_" + b)[1..] == b;
    } else {
      DroppingOne(a[1..], b);
      assert (a + "_" + b)[1..] == a[1..] + "_" + b;
      assert [a[0]] + (a[1..] + b) == a + b;
    }
  }

  /** What Python strips: the six ASCII spaces and the four separators. */
  lemma Blanks(c: char)
    requires c < '\U{80}'
    ensures Decimal.IsBlank(c) <==>
            c in {'\t', '\n', '\U{B}', '\U{C}', '\r', ' ', '\U{1C}', '\U{1D}', '\U{1E}', '\U{1F}'}
  {
  }
}
