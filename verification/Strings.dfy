/** Byte strings as the broker compares and searches them. */
module Strings {

  /** `std::string` ordering: lexicographic on the bytes, a proper prefix first. */
  predicate Less(a: string, b: string) {
    if b == "" then false
    else if a == "" then true
    else a[0] < b[0] || (a[0] == b[0] && Less(a[1..], b[1..]))
  }

  lemma {:induction false} LessIrreflexive(a: string)
    ensures !Less(a, a)
  {
    if a != "" {
      LessIrreflexive(a[1..]);
    }
  }

  lemma {:induction false} LessTransitive(a: string, b: string, c: string)
    requires Less(a, b) && Less(b, c)
    ensures Less(a, c)
  {
    if a != "" && a[0] == b[0] && b[0] == c[0] {
      LessTransitive(a[1..], b[1..], c[1..]);
    }
  }

  lemma {:induction false} LessTotal(a: string, b: string)
    ensures a == b || Less(a, b) || Less(b, a)
  {
    if a != "" && b != "" && a[0] == b[0] {
      LessTotal(a[1..], b[1..]);
      assert a == [a[0]] + a[1..] && b == [b[0]] + b[1..];
    }
  }

  /** Byte order without recursion: the same up to some point, and there `a` ends or has the smaller byte. */
  ghost predicate Precedes(a: string, b: string) {
    exists n: nat :: DiffersAt(a, b, n)
  }

  predicate DiffersAt(a: string, b: string, n: nat) {
    n <= |a| && n < |b| && a[..n] == b[..n] && (n == |a| || a[n] < b[n])
  }

  lemma {:induction false} LessExactly(a: string, b: string)
    ensures Less(a, b) <==> Precedes(a, b)
  {
    if a == "" {
      if b != "" {
        assert DiffersAt(a, b, 0);
      }
    } else if b != "" {
      if a[0] < b[0] {
        assert DiffersAt(a, b, 0);
      } else {
        LessExactly(a[1..], b[1..]);
        if n: nat :| DiffersAt(a[1..], b[1..], n) && a[0] == b[0] {
          assert a[..n + 1] == [a[0]] + a[1..][..n] && b[..n + 1] == [b[0]] + b[1..][..n];
          assert DiffersAt(a, b, n + 1);
        }
        if n: nat :| DiffersAt(a, b, n) {
          FirstByte(a, b, n);
        }
      }
    }
  }

  lemma FirstByte(a: string, b: string, n: nat)
    requires DiffersAt(a, b, n) && a != "" && a[0] >= b[0]
    ensures n > 0 && a[0] == b[0] && DiffersAt(a[1..], b[1..], n - 1)
  {
    assert n > 0;
    assert a[..n][0] == b[..n][0];
    assert a[..n][1..] == a[1..][..n - 1] && b[..n][1..] == b[1..][..n - 1];
  }

  /** Position of the first `c` in `s` at or after `from`, or `|s|` (standing for `npos`). */
  function Find(s: string, c: char, from: nat := 0): (k: nat)
    requires from <= |s|
    ensures from <= k <= |s|
    ensures c !in s[from..k]
    ensures k < |s| ==> s[k] == c
    decreases |s| - from
  {
    if from == |s| || s[from] == c then from
    else
      var k := Find(s, c, from + 1);
      assert s[from..k] == [s[from]] + s[from + 1..k];
      k
  }

  /** `Find` is determined by what it promises. */
  lemma {:induction false} FindIs(s: string, c: char, from: nat, k: nat)
    requires from <= k <= |s|
    requires c !in s[from..k]
    requires k < |s| ==> s[k] == c
    ensures Find(s, c, from) == k
    decreases |s| - from
  {
    if from < k {
      assert s[from..k][0] == s[from];
      assert s[from + 1..k] == s[from..k][1..];
      FindIs(s, c, from + 1, k);
    }
  }

  predicate StartsWith(s: string, prefix: string) {
    prefix <= s
  }

  lemma ConcatAssociative<T>(a: seq<T>, b: seq<T>, c: seq<T>)
    ensures a + (b + c) == a + b + c
  {}

  /** The smallest string of a non-empty set. */
  lemma MinExists(keys: set<string>) returns (least: string)
    requires keys != {}
    ensures least in keys
    ensures forall k :: k in keys ==> k == least || Less(least, k)
    decreases |keys|
  {
    least :| least in keys;
    var others := keys - {least};
    if others != {} {
      var m := MinExists(others);
      LessTotal(least, m);
      if Less(m, least) {
        forall k | k in keys ensures k == m || Less(m, k) {
          if k == least {} else { assert k in others; }
        }
        least := m;
      } else {
        forall k | k in keys ensures k == least || Less(least, k) {
          if k != least {
            assert k in others;
            if k != m { LessTransitive(least, m, k); }
          }
        }
      }
    } else {
      assert keys == {least};
    }
  }
}
