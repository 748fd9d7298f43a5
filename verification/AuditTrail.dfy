/** Tamper evidence of the hash chain. Any two well-formed logs that end on the same hash agree on
    every hashed column, or two rows found in them have different contents under one hash. */
module AuditTrail {
  import opened Records
  import opened Tables
  import Canonical

  /** The hashed columns of the log, row by row. */
  function Contents(rows: seq<AuditRow>): (cs: seq<AuditContent>)
    ensures |cs| == |rows| && forall i | 0 <= i < |rows| :: cs[i] == rows[i].content
  {
    seq(|rows|, i requires 0 <= i < |rows| => rows[i].content)
  }

  ghost predicate Collision(hash: AuditContent -> Digest, x: AuditContent, y: AuditContent) {
    x != y && hash(x) == hash(y)
  }

  lemma {:induction false} ChainedPrefix(hash: AuditContent -> Digest, rows: seq<AuditRow>, n: nat)
    requires Chained(hash, rows) && n <= |rows|
    ensures Chained(hash, rows[..n])
  {
    forall i | 0 <= i < n
      ensures Linked(hash, rows[..n], i)
    {
      assert Linked(hash, rows, i);
      assert rows[..n][..i] == rows[..i];
    }
  }

  /** A row of one log and a row of the other collide. */
  ghost predicate Collide(hash: AuditContent -> Digest, a: seq<AuditRow>, b: seq<AuditRow>, i: nat, j: nat) {
    i < |a| && j < |b| && Collision(hash, a[i].content, b[j].content)
  }

  /** Editing, dropping, inserting or reordering hashed rows under the same final hash takes a
      collision between a row of the one log and a row of the other. */
  lemma {:induction false} TamperingTakesCollision(hash: AuditContent -> Digest, a: seq<AuditRow>, b: seq<AuditRow>)
    requires Chained(hash, a) && Chained(hash, b)
    requires LatestHash(a) == LatestHash(b)
    ensures Contents(a) == Contents(b) || exists i: nat, j: nat :: Collide(hash, a, b, i, j)
    decreases |a|
  {
    if a != [] {
      var m, n := |a| - 1, |b| - 1;
      assert Linked(hash, a, m) && Linked(hash, b, n);
      var x, y := a[m].content, b[n].content;
      if x != y {
        assert Collide(hash, a, b, m, n);
      } else {
        ChainedPrefix(hash, a, m);
        ChainedPrefix(hash, b, n);
        TamperingTakesCollision(hash, a[..m], b[..n]);
        if i: nat, j: nat :| Collide(hash, a[..m], b[..n], i, j) {
          assert Collide(hash, a, b, i, j);
        } else {
          assert Contents(a) == Contents(a[..m]) + [x] && Contents(b) == Contents(b[..n]) + [y];
        }
      }
    }
  }

  /** With an injective hash the last hash determines every hashed column of every row. */
  lemma LastHashFixesLog(hash: AuditContent -> Digest, a: seq<AuditRow>, b: seq<AuditRow>)
    requires Canonical.Injective(hash) && Chained(hash, a) && Chained(hash, b)
    ensures LatestHash(a) == LatestHash(b) <==> Contents(a) == Contents(b)
  {
    if LatestHash(a) == LatestHash(b) {
      TamperingTakesCollision(hash, a, b);
      assert forall i: nat, j: nat :: !Collide(hash, a, b, i, j);
    } else if a != [] && b != [] && |a| == |b| {
      var n := |a| - 1;
      assert Linked(hash, a, n) && Linked(hash, b, n);
      assert Contents(a)[n] != Contents(b)[n];
    } else {
      assert |Contents(a)| != |Contents(b)|;
    }
  }

  /** An edit of one row that recomputes nothing goes unnoticed exactly when it touches only the
      columns kept beside the hash: agent, session and clearance ids. */
  lemma UnhashedEditsGoUnnoticed(hash: AuditContent -> Digest, rows: seq<AuditRow>, k: nat, edited: AuditRow)
    requires Canonical.Injective(hash) && Chained(hash, rows) && k < |rows|
    requires edited.hash == rows[k].hash
    ensures Chained(hash, rows[k := edited]) <==> edited.content == rows[k].content
  {
    var other := rows[k := edited];
    assert Linked(hash, rows, k);
    if Chained(hash, other) {
      assert Linked(hash, other, k);
    }
    if edited.content == rows[k].content {
      forall i | 0 <= i < |other|
        ensures Linked(hash, other, i)
      {
        assert Linked(hash, rows, i);
        if 0 < i {
          assert other[..i][i - 1].hash == rows[..i][i - 1].hash;
        }
      }
    }
  }
}
