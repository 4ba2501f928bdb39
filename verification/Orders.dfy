/** Finite sets under a strict total order: least elements, ranks, initial segments, sorting. */
module Orders {

  ghost predicate StrictTotalOn<T(!new)>(less: (T, T) -> bool, S: set<T>) {
    && (forall a :: a in S ==> !less(a, a))
    && (forall a, b :: a in S && b in S && less(a, b) ==> !less(b, a))
    && (forall a, b, c :: a in S && b in S && c in S && less(a, b) && less(b, c) ==> less(a, c))
    && (forall a, b :: a in S && b in S && a != b ==> less(a, b) || less(b, a))
  }

  ghost function Below<T(!new)>(less: (T, T) -> bool, S: set<T>, c: T): set<T> {
    set d | d in S && less(d, c)
  }

  lemma Least<T(!new)>(less: (T, T) -> bool, S: set<T>) returns (m: T)
    requires S != {} && StrictTotalOn(less, S)
    ensures m in S && forall a :: a in S && a != m ==> less(m, a)
    ensures Below(less, S, m) == {}
    decreases |S|
  {
    m :| m in S;
    if S != {m} {
      var r := Least(less, S - {m});
      if less(r, m) {
        m := r;
      }
    }
  }

  lemma Greatest<T(!new)>(less: (T, T) -> bool, S: set<T>) returns (m: T)
    requires S != {} && StrictTotalOn(less, S)
    ensures m in S && forall a :: a in S && a != m ==> less(a, m)
    ensures Below(less, S, m) == S - {m}
    decreases |S|
  {
    m :| m in S;
    if S != {m} {
      var r := Greatest(less, S - {m});
      if less(m, r) {
        m := r;
      }
    }
  }

  /** The first `k` elements of the order. */
  ghost function FirstRanked<T(!new)>(less: (T, T) -> bool, S: set<T>, k: int): set<T> {
    set c | c in S && |Below(less, S, c)| < k
  }

  /** There are exactly `k` of them, or all. */
  lemma {:induction false} RankCount<T(!new)>(less: (T, T) -> bool, S: set<T>, k: int)
    requires StrictTotalOn(less, S) && 0 <= k
    ensures |FirstRanked(less, S, k)| == if k <= |S| then k else |S|
    decreases |S|
  {
    if S == {} {
      assert FirstRanked(less, S, k) == {};
    } else {
      var h := Greatest(less, S);
      var R := S - {h};
      RankCount(less, R, k);
      forall c | c in R ensures Below(less, S, c) == Below(less, R, c) {}
      if |S| - 1 < k {
        assert FirstRanked(less, S, k) == FirstRanked(less, R, k) + {h};
      } else {
        assert FirstRanked(less, S, k) == FirstRanked(less, R, k);
      }
    }
  }

  // ---- Sorted sequences --------------------------------------------------------

  predicate SortedBy<T(!new)>(less: (T, T) -> bool, s: seq<T>) {
    forall i, j :: 0 <= i < j < |s| ==> less(s[i], s[j])
  }

  ghost predicate NoDup<T>(s: seq<T>) {
    forall i, j :: 0 <= i < j < |s| ==> s[i] != s[j]
  }

  ghost function Elements<T>(s: seq<T>): set<T> {
    set i | 0 <= i < |s| :: s[i]
  }

  lemma {:induction false} CardElements<T>(s: seq<T>)
    requires NoDup(s)
    ensures |Elements(s)| == |s|
  {
    if s == [] {
      assert Elements(s) == {};
    } else {
      var n := |s| - 1;
      CardElements(s[..n]);
      assert Elements(s) == Elements(s[..n]) + {s[n]};
    }
  }

  lemma AppendNext<T>(front: seq<T>, s: seq<T>, i: nat)
    requires i < |s|
    ensures front + s[..i + 1] == front + s[..i] + [s[i]]
  {}

  /** In a sorted sequence the elements below `s[k]` are those before it. */
  lemma BelowIsPrefix<T(!new)>(less: (T, T) -> bool, s: seq<T>, k: nat)
    requires k < |s| && SortedBy(less, s) && StrictTotalOn(less, Elements(s))
    ensures Below(less, Elements(s), s[k]) == Elements(s[..k])
  {
    forall d | d in Below(less, Elements(s), s[k]) ensures d in Elements(s[..k]) {
      var i :| 0 <= i < |s| && s[i] == d;
      assert s[k] in Elements(s) && d in Elements(s);
      assert i < k;
      assert s[..k][i] == d;
    }
    forall d | d in Elements(s[..k]) ensures d in Below(less, Elements(s), s[k]) {
      var i :| 0 <= i < k && s[..k][i] == d;
      assert s[i] == d;
    }
  }

  /** `std::sort` with a comparison that is a strict total order on the elements. */
  method Sort<T(==,!new)>(s: seq<T>, less: (T, T) -> bool) returns (r: seq<T>)
    requires NoDup(s) && StrictTotalOn(less, Elements(s))
    ensures |r| == |s| && Elements(r) == Elements(s)
    ensures SortedBy(less, r) && NoDup(r)
  {
    r := [];
    var i := 0;
    while i < |s|
      invariant 0 <= i <= |s| && |r| == i
      invariant Elements(r) == Elements(s[..i])
      invariant SortedBy(less, r)
    {
      r := Insert(r, s[i], less, Elements(s));
      assert Elements(s[..i + 1]) == Elements(s[..i]) + {s[i]};
      i := i + 1;
    }
    assert s[..|s|] == s;
    forall a, b | 0 <= a < b < |r| ensures r[a] != r[b] {
      assert less(r[a], r[b]) && r[a] in Elements(r);
    }
  }

  method Insert<T(==,!new)>(r: seq<T>, x: T, less: (T, T) -> bool, ghost S: set<T>) returns (r': seq<T>)
    requires StrictTotalOn(less, S) && x in S && x !in Elements(r) && Elements(r) <= S
    requires SortedBy(less, r)
    ensures |r'| == |r| + 1 && Elements(r') == Elements(r) + {x}
    ensures SortedBy(less, r')
  {
    var k := 0;
    while k < |r| && less(r[k], x)
      invariant 0 <= k <= |r|
      invariant forall i :: 0 <= i < k ==> less(r[i], x)
    {
      k := k + 1;
    }
    r' := r[..k] + [x] + r[k..];
    forall i | k <= i < |r| ensures less(x, r[i]) {
      assert r[i] in Elements(r) && r[k] in Elements(r);
    }
    forall d | d in Elements(r) + {x} ensures d in Elements(r') {
      if d == x {
        assert r'[k] == x;
      } else {
        var i :| 0 <= i < |r| && r[i] == d;
        assert r'[if i < k then i else i + 1] == d;
      }
    }
  }
}
