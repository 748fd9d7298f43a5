/** The canonical string a device signs. */
module Canonical {
  import opened Base64Url

  const VERSION := "HMCP-SIGN-V1"

  function UpperChar(c: char): char {
    if 'a' <= c <= 'z' then (c as int - 32) as char else c
  }

  function Upper(s: string): (r: string)
    ensures |r| == |s| && forall i | 0 <= i < |s| :: r[i] == UpperChar(s[i])
  {
    seq(|s|, i requires 0 <= i < |s| => UpperChar(s[i]))
  }

  /** Python "\n".join(lines). */
  function JoinLines(lines: seq<string>): string {
    if lines == [] then []
    else if |lines| == 1 then lines[0]
    else lines[0] + "\n" + JoinLines(lines[1..])
  }

  datatype Message = Message(verb: string, path: string, timestamp: string, nonce: string, body: seq<Byte>)

  function Request(m: Message, sha256Hex: seq<Byte> -> string): string {
    JoinLines([VERSION, Upper(m.verb), m.path, m.timestamp, m.nonce, sha256Hex(m.body)])
  }

  predicate OneLine(s: string) {
    '\n' !in s
  }

  /** The four header parts hold no newline; header values and URLs never do. */
  predicate SingleLine(m: Message) {
    OneLine(m.verb) && OneLine(m.path) && OneLine(m.timestamp) && OneLine(m.nonce)
  }

  ghost predicate Injective<T(!new), U(!new)>(f: T -> U) {
    forall x, y :: f(x) == f(y) ==> x == y
  }

  lemma FirstLineIsUnique(a: string, x: string, b: string, y: string)
    requires OneLine(a) && OneLine(b)
    requires a + "\n" + x == b + "\n" + y
    ensures a == b && x == y
  {
    var s, t := a + "\n" + x, b + "\n" + y;
    assert s[|a|] == '\n' && t[|b|] == '\n';
    assert forall i | 0 <= i < |a| :: s[i] == a[i] && s[i] != '\n';
    assert forall i | 0 <= i < |b| :: t[i] == b[i] && t[i] != '\n';
    assert |a| == |b|;
    assert s[..|a|] == a && t[..|b|] == b;
    assert s[|a| + 1..] == x && t[|b| + 1..] == y;
  }

  /** Joins of equally many lines agree only line by line, if all but the last hold no newline. */
  lemma {:induction false} JoinIsInjective(xs: seq<string>, ys: seq<string>)
    requires |xs| == |ys| && 1 <= |xs|
    requires forall i | 0 <= i < |xs| - 1 :: OneLine(xs[i]) && OneLine(ys[i])
    requires JoinLines(xs) == JoinLines(ys)
    ensures xs == ys
  {
    if |xs| == 1 {
      assert xs == [xs[0]] && ys == [ys[0]];
    } else {
      FirstLineIsUnique(xs[0], JoinLines(xs[1..]), ys[0], JoinLines(ys[1..]));
      JoinIsInjective(xs[1..], ys[1..]);
      assert xs == [xs[0]] + xs[1..] && ys == [ys[0]] + ys[1..];
    }
  }

  lemma UpperKeepsOneLine(s: string)
    requires OneLine(s)
    ensures OneLine(Upper(s))
  {
    forall i | 0 <= i < |s|
      ensures Upper(s)[i] != '\n'
    {
      assert s[i] != '\n' && UpperChar(s[i]) == Upper(s)[i];
    }
  }

  ghost predicate SameEnvelope(m: Message, n: Message) {
    Upper(m.verb) == Upper(n.verb) && m.path == n.path && m.timestamp == n.timestamp && m.nonce == n.nonce
  }

  /** The canonical string binds the upper-cased method, path, timestamp, nonce and body hash: two
      single-line messages share it exactly when they agree on all five. */
  lemma CanonicalStringBinds(m: Message, n: Message, sha256Hex: seq<Byte> -> string)
    requires SingleLine(m) && SingleLine(n)
    ensures Request(m, sha256Hex) == Request(n, sha256Hex)
            <==> SameEnvelope(m, n) && sha256Hex(m.body) == sha256Hex(n.body)
  {
    var xs := [VERSION, Upper(m.verb), m.path, m.timestamp, m.nonce, sha256Hex(m.body)];
    var ys := [VERSION, Upper(n.verb), n.path, n.timestamp, n.nonce, sha256Hex(n.body)];
    if Request(m, sha256Hex) == Request(n, sha256Hex) {
      UpperKeepsOneLine(m.verb);
      UpperKeepsOneLine(n.verb);
      JoinIsInjective(xs, ys);
      assert xs[1] == ys[1] && xs[2] == ys[2] && xs[3] == ys[3] && xs[4] == ys[4] && xs[5] == ys[5];
    }
  }

  /** With an injective hash it binds the exact body bytes too. */
  lemma CanonicalStringBindsBody(m: Message, n: Message, sha256Hex: seq<Byte> -> string)
    requires SingleLine(m) && SingleLine(n) && Injective(sha256Hex)
    ensures Request(m, sha256Hex) == Request(n, sha256Hex) <==> SameEnvelope(m, n) && m.body == n.body
  {
    CanonicalStringBinds(m, n, sha256Hex);
  }

  lemma JoinCons(x: string, rest: seq<string>)
    requires rest != []
    ensures JoinLines([x] + rest) == x + "\n" + JoinLines(rest)
  {
    assert ([x] + rest)[1..] == rest;
  }

  /** Without the single-line condition the binding fails: a newline can move between two parts. */
  lemma NewlineBreaksBinding(sha256Hex: seq<Byte> -> string)
    ensures exists m: Message, n: Message ::
              !SingleLine(m) && !SameEnvelope(m, n) && Request(m, sha256Hex) == Request(n, sha256Hex)
  {
    var m := Message("GET", "/a\nb", "c", "", []);
    var n := Message("GET", "/a", "b\nc", "", []);
    var end := ["", sha256Hex([])];
    JoinCons("c", end);
    JoinCons("/a\nb", ["c"] + end);
    JoinCons("b\nc", end);
    JoinCons("/a", ["b\nc"] + end);
    var xs, ys := [m.path] + (["c"] + end), [n.path] + (["b\nc"] + end);
    assert JoinLines(xs) == JoinLines(ys);
    JoinCons(Upper("GET"), xs);
    JoinCons(Upper("GET"), ys);
    JoinCons(VERSION, [Upper("GET")] + xs);
    JoinCons(VERSION, [Upper("GET")] + ys);
    assert [VERSION, Upper(m.verb), m.path, m.timestamp, m.nonce, sha256Hex(m.body)] ==
        [VERSION] + ([Upper("GET")] + xs);
    assert [VERSION, Upper(n.verb), n.path, n.timestamp, n.nonce, sha256Hex(n.body)] ==
        [VERSION] + ([Upper("GET")] + ys);
    assert m.path[2] == '\n' && |m.path| != |n.path|;
    assert !SingleLine(m) && !SameEnvelope(m, n);
    assert Request(m, sha256Hex) == Request(n, sha256Hex);
  }
}
