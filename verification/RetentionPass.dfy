/**
 The evictor itself: a vector of candidates marked in place, phase after phase, through
 positions into that vector. Each phase is proved to mark exactly the set its rule names.
 */
module RetentionPasses {
  import opened Decimal
  import opened Orders
  import opened Retention
  import opened RetentionTheorems

  datatype RetentionCandidate = RetentionCandidate(c: Candidate, isProtected: bool, marked: bool)

  ghost function All(cs: seq<RetentionCandidate>): set<Candidate> {
    set i | 0 <= i < |cs| :: cs[i].c
  }

  ghost function Live(cs: seq<RetentionCandidate>): set<Candidate> {
    set i | 0 <= i < |cs| && !cs[i].marked :: cs[i].c
  }

  ghost function Shielded(cs: seq<RetentionCandidate>): set<Candidate> {
    set i | 0 <= i < |cs| && cs[i].isProtected :: cs[i].c
  }

  /** Each checkpoint appears once, and ids identify. */
  ghost predicate Distinct(cs: seq<RetentionCandidate>) {
    && (forall i, j :: 0 <= i < j < |cs| ==> cs[i].c != cs[j].c)
    && WellIdentified(All(cs))
  }

  /** The vector with the members of `E` marked as well. */
  ghost function Mark(cs: seq<RetentionCandidate>, E: set<Candidate>): (r: seq<RetentionCandidate>)
    ensures |r| == |cs|
    ensures forall i :: 0 <= i < |cs| ==> r[i] == cs[i].(marked := cs[i].marked || cs[i].c in E)
  {
    seq(|cs|, i requires 0 <= i < |cs| => cs[i].(marked := cs[i].marked || cs[i].c in E))
  }

  /** The checkpoints at some positions. */
  ghost function At(cs: seq<RetentionCandidate>, positions: seq<nat>): (t: seq<Candidate>)
    requires forall k :: 0 <= k < |positions| ==> positions[k] < |cs|
    ensures |t| == |positions| && forall k :: 0 <= k < |t| ==> t[k] == cs[positions[k]].c
  {
    seq(|positions|, k requires 0 <= k < |positions| => cs[positions[k]].c)
  }

  ghost predicate Positions(cs: seq<RetentionCandidate>, pool: seq<nat>) {
    NoDup(pool) && forall k :: 0 <= k < |pool| ==> pool[k] < |cs|
  }

  // ---- Sorting the pool -----------------------------------------------------------

  method SortPool(cs: seq<RetentionCandidate>, pool: seq<nat>) returns (sorted: seq<nat>)
    requires Distinct(cs) && Positions(cs, pool)
    ensures Positions(cs, sorted) && |sorted| == |pool|
    ensures forall p :: p in sorted <==> p in pool
    ensures SortedBy(Colder, At(cs, sorted))
  {
    var less := (i: nat, j: nat) => i < |cs| && j < |cs| && Colder(cs[i].c, cs[j].c);
    PoolOrder(cs, pool, less);
    sorted := Sort(pool, less);
    forall p ensures p in sorted <==> p in pool {
      assert p in sorted <==> p in Elements(sorted);
      assert p in pool <==> p in Elements(pool);
    }
    assert forall k :: 0 <= k < |sorted| ==> sorted[k] in sorted;
    forall a, b | 0 <= a < b < |sorted| ensures Colder(At(cs, sorted)[a], At(cs, sorted)[b]) {
      assert less(sorted[a], sorted[b]);
    }
  }

  lemma PoolOrder(cs: seq<RetentionCandidate>, pool: seq<nat>, less: (nat, nat) -> bool)
    requires Distinct(cs) && Positions(cs, pool)
    requires forall i: nat, j: nat :: less(i, j) <==> i < |cs| && j < |cs| && Colder(cs[i].c, cs[j].c)
    ensures StrictTotalOn(less, Elements(pool))
  {
    ColderIsTotal(All(cs));
    assert forall i :: i in Elements(pool) ==> i < |cs| && cs[i].c in All(cs);
    forall i, j | i in Elements(pool) && j in Elements(pool) && i != j ensures cs[i].c != cs[j].c {
      if i < j {} else {}
    }
  }

  // ---- Which prefix of the sorted pool a phase takes ---------------------------------

  /** True bytes left of `S` once the first `j` members of the sorted pool are gone. */
  ghost function Running(S: set<Candidate>, t: seq<Candidate>, j: nat): int
    requires j <= |t|
  {
    Bytes(S) - Bytes(Elements(t[..j]))
  }

  /** The 64-bit total as it reads once the first `k` are gone. */
  ghost function Reads(S: set<Candidate>, t: seq<Candidate>, k: nat): int
    requires k <= |t|
  {
    Running(S, t, k) % TWO_64
  }

  /** The total read as over budget before each of the first `k`. */
  ghost predicate OverUpTo(S: set<Candidate>, t: seq<Candidate>, budget: nat, k: nat)
    requires k <= |t|
  {
    k == 0 || (OverUpTo(S, t, budget, k - 1) && Reads(S, t, k - 1) > budget)
  }

  lemma {:induction false} OverThroughout(S: set<Candidate>, t: seq<Candidate>, budget: nat, k: nat)
    requires k <= |t| && OverUpTo(S, t, budget, k)
    ensures forall j :: 0 <= j < k ==> Reads(S, t, j) > budget
  {
    if k > 0 {
      OverThroughout(S, t, budget, k - 1);
    }
  }

  /** Unsigned 64-bit subtraction. */
  function Minus(total: int, size: nat): int {
    (total - size) % TWO_64
  }

  lemma LeftIsRunning(S: set<Candidate>, P: set<Candidate>, t: seq<Candidate>, j: nat)
    requires StrictTotalOn(Colder, S - P) && SortedBy(Colder, t) && Elements(t) == S - P && j < |t|
    ensures Left(S, P, t[j]) == Running(S, t, j)
  {
    BelowIsPrefix(Colder, t, j);
  }

  /** Taking members while the total is over budget takes the set the budget rule names. */
  lemma PrefixIsOverBudget(S: set<Candidate>, P: set<Candidate>, budget: nat, t: seq<Candidate>, k: nat)
    requires WellIdentified(S) && SortedBy(Colder, t) && Elements(t) == S - P && k <= |t| && budget > 0
    requires forall j :: 0 <= j < k ==> Reads(S, t, j) > budget
    requires k < |t| ==> Reads(S, t, k) <= budget
    ensures Elements(t[..k]) == OverBudget(S, P, budget)
  {
    ColderIsTotal(S);
    StrictTotalSubset(Colder, S, S - P);
    forall j | 0 <= j < |t| ensures Left(S, P, t[j]) % TWO_64 == Reads(S, t, j) {
      LeftIsRunning(S, P, t, j);
    }
    forall i | 0 <= i < |t| ensures t[i] in OverBudget(S, P, budget) <==> i < k {
      PrefixMember(S, P, budget, t, k, i);
    }
    assert OverBudget(S, P, budget) <= Elements(t);
    PrefixElements(t, k, OverBudget(S, P, budget));
  }

  lemma PrefixMember(S: set<Candidate>, P: set<Candidate>, budget: nat, t: seq<Candidate>, k: nat, i: nat)
    requires SortedBy(Colder, t) && Elements(t) == S - P && i < |t| && k <= |t| && budget > 0
    requires StrictTotalOn(Colder, S - P)
    requires forall j :: 0 <= j < k ==> Left(S, P, t[j]) % TWO_64 > budget
    requires k < |t| ==> Left(S, P, t[k]) % TWO_64 <= budget
    ensures t[i] in OverBudget(S, P, budget) <==> i < k
  {
    assert t[i] in Elements(t);
    if i < k {
      forall e | e in S - P && (e == t[i] || Colder(e, t[i])) ensures Left(S, P, e) % TWO_64 > budget {
        var j := AtOrBefore(t, S - P, i, e);
      }
      assert AllOver(S, P, budget, t[i]);
    } else {
      assert t[k] in Elements(t);
      assert !AllOver(S, P, budget, t[i]);
    }
  }

  /** In a sorted pool, what is colder than the `i`th comes before it. */
  lemma AtOrBefore(t: seq<Candidate>, pool: set<Candidate>, i: nat, e: Candidate) returns (j: nat)
    requires SortedBy(Colder, t) && Elements(t) == pool && StrictTotalOn(Colder, pool) && i < |t|
    requires e in pool && (e == t[i] || Colder(e, t[i]))
    ensures j <= i && t[j] == e
  {
    assert e in Elements(t);
    j :| 0 <= j < |t| && t[j] == e;
    assert t[i] in Elements(t);
  }

  lemma PrefixElements(t: seq<Candidate>, k: nat, E: set<Candidate>)
    requires k <= |t| && E <= Elements(t)
    requires forall i :: 0 <= i < |t| ==> (t[i] in E <==> i < k)
    ensures Elements(t[..k]) == E
  {
    forall c | c in E ensures c in Elements(t[..k]) {
      var i :| 0 <= i < |t| && t[i] == c;
      assert t[..k][i] == c;
    }
  }

  /** Taking as many members as are over the cap takes the set the count rule names. */
  lemma PrefixIsOverCount(L: set<Candidate>, P: set<Candidate>, maxKeep: int, t: seq<Candidate>, k: nat)
    requires WellIdentified(L) && SortedBy(Colder, t) && NoDup(t) && Elements(t) == L - P && maxKeep > 0
    requires k <= |t| && (k == |L| - maxKeep || (k == |t| && k <= |L| - maxKeep) || (k == 0 && |L| <= maxKeep))
    ensures Elements(t[..k]) == OverCount(L, P, maxKeep)
  {
    ColderIsTotal(L);
    StrictTotalSubset(Colder, L, L - P);
    forall i | 0 <= i < |t| ensures t[i] in OverCount(L, P, maxKeep) <==> i < k {
      BelowIsPrefix(Colder, t, i);
      CardElements(t[..i]);
      assert t[i] in Elements(t);
    }
    PrefixElements(t, k, OverCount(L, P, maxKeep));
  }

  // ---- Marking -------------------------------------------------------------------------

  /** The vector with the given positions marked as well. */
  ghost function MarkAt(cs: seq<RetentionCandidate>, positions: seq<nat>): (r: seq<RetentionCandidate>)
    ensures |r| == |cs|
    ensures forall i :: 0 <= i < |cs| ==> r[i] == cs[i].(marked := cs[i].marked || i in positions)
  {
    seq(|cs|, i requires 0 <= i < |cs| => cs[i].(marked := cs[i].marked || i in positions))
  }

  lemma MarkAtIsMark(cs: seq<RetentionCandidate>, positions: seq<nat>, E: set<Candidate>)
    requires Distinct(cs) && Positions(cs, positions) && E == Elements(At(cs, positions))
    ensures MarkAt(cs, positions) == Mark(cs, E)
  {
    forall i | 0 <= i < |cs| ensures i in positions <==> cs[i].c in E {
      if i in positions {
        var k :| 0 <= k < |positions| && positions[k] == i;
        assert At(cs, positions)[k] == cs[i].c;
      }
      if cs[i].c in E {
        var k :| 0 <= k < |positions| && At(cs, positions)[k] == cs[i].c;
        assert positions[k] == i by { if positions[k] < i {} else if i < positions[k] {} }
      }
    }
  }

  lemma MarkOneMore(cs: seq<RetentionCandidate>, sorted: seq<nat>, taken: nat)
    requires Positions(cs, sorted) && taken < |sorted|
    ensures var i := sorted[taken];
            var marked := MarkAt(cs, sorted[..taken]);
            MarkAt(cs, sorted[..taken + 1]) == marked[i := marked[i].(marked := true)]
  {
    assert sorted[..taken + 1] == sorted[..taken] + [sorted[taken]];
  }

  /** The positions of a set of checkpoints list each of them once. */
  lemma PositionsOf(cs: seq<RetentionCandidate>, positions: seq<nat>, chosen: set<Candidate>)
    requires Distinct(cs) && Positions(cs, positions)
    requires forall i: nat :: i in positions <==> i < |cs| && cs[i].c in chosen
    requires chosen <= All(cs)
    ensures Elements(At(cs, positions)) == chosen && NoDup(At(cs, positions)) && |chosen| == |positions|
  {
    var t := At(cs, positions);
    forall c | c in chosen ensures c in Elements(t) {
      var i :| 0 <= i < |cs| && cs[i].c == c;
      var k :| 0 <= k < |positions| && positions[k] == i;
      assert t[k] == c;
    }
    forall c | c in Elements(t) ensures c in chosen {
      var k :| 0 <= k < |t| && t[k] == c;
      assert positions[k] in positions;
    }
    forall a, b | 0 <= a < b < |t| ensures t[a] != t[b] {
      if positions[a] < positions[b] {} else {}
    }
    CardElements(t);
  }

  /** What the sets say about one position. */
  lemma AtPosition(cs: seq<RetentionCandidate>, start: nat, i: nat)
    requires Distinct(cs) && start <= |cs| && i < |cs|
    ensures cs[i].c in Live(cs[start..]) <==> start <= i && !cs[i].marked
    ensures cs[i].c in Shielded(cs[start..]) <==> start <= i && cs[i].isProtected
  {
    var tail := cs[start..];
    if start <= i {
      assert tail[i - start] == cs[i];
    }
    forall j | 0 <= j < |tail| && tail[j].c == cs[i].c ensures start + j == i {
      assert cs[start + j] == tail[j];
      if start + j < i {} else if i < start + j {}
    }
  }

  lemma TailWithin(cs: seq<RetentionCandidate>, start: nat)
    requires start <= |cs|
    ensures Live(cs[start..]) <= All(cs) && Shielded(cs[start..]) <= All(cs)
  {
    forall c | c in Live(cs[start..]) ensures c in All(cs) {
      var j :| 0 <= j < |cs[start..]| && cs[start..][j].c == c;
      assert cs[start + j].c == c;
    }
    forall c | c in Shielded(cs[start..]) ensures c in All(cs) {
      var j :| 0 <= j < |cs[start..]| && cs[start..][j].c == c;
      assert cs[start + j].c == c;
    }
  }

  /** The unprotected ones past the age limit, from `start` on. */
  ghost function TooOld(cs: seq<RetentionCandidate>, start: nat, p: Policy): set<Candidate> {
    set i | start <= i < |cs| && Ageing(cs[i], p) :: cs[i].c
  }

  predicate Ageing(rc: RetentionCandidate, p: Policy) {
    !rc.isProtected && Expired(p, rc.c)
  }

  class RetentionPass {
    var candidates: seq<RetentionCandidate>

    constructor ()
      ensures candidates == []
    {
      candidates := [];
    }

    /** Marks the expired unprotected candidates from `start` on. */
    method ExpireByAge(start: nat, p: Policy)
      requires start <= |candidates| && Distinct(candidates)
      modifies this
      ensures candidates == Mark(old(candidates), TooOld(old(candidates), start, p))
    {
      ghost var cs := candidates;
      if p.config.maxAgeSeconds > 0 {
        for index := start to |candidates|
          invariant |candidates| == |cs|
          invariant forall i :: 0 <= i < |cs| ==>
            candidates[i] == cs[i].(marked := cs[i].marked || (start <= i < index && Ageing(cs[i], p)))
        {
          var candidate := candidates[index];
          if candidate.isProtected {
            continue;
          }
          if candidate.c.createdAt <= 0 {
            continue;
          }
          if p.now - candidate.c.createdAt >= p.config.maxAgeSeconds {
            candidates := candidates[index := candidate.(marked := true)];
          }
        }
      }
      forall i | 0 <= i < |cs|
        ensures cs[i].c in TooOld(cs, start, p) <==> start <= i && Ageing(cs[i], p) {
        forall j | 0 <= j < |cs| && cs[j].c == cs[i].c ensures j == i {
          if j < i {} else if i < j {}
        }
      }
      assert candidates == Mark(cs, TooOld(cs, start, p));
    }

    method LiveFrom(start: nat) returns (remaining: seq<nat>)
      requires start <= |candidates|
      ensures NoDup(remaining)
      ensures forall i: nat :: i in remaining <==> start <= i < |candidates| && !candidates[i].marked
    {
      remaining := [];
      for index := start to |candidates|
        invariant NoDup(remaining)
        invariant forall i: nat :: i in remaining <==> start <= i < index && !candidates[i].marked
      {
        if !candidates[index].marked {
          remaining := remaining + [index];
        }
      }
    }

    method Unprotected(positions: seq<nat>) returns (pool: seq<nat>)
      requires Positions(candidates, positions)
      ensures Positions(candidates, pool)
      ensures forall i: nat :: i in pool <==> i in positions && !candidates[i].isProtected
    {
      pool := [];
      for k := 0 to |positions|
        invariant Positions(candidates, pool)
        invariant forall i: nat :: i in pool <==> i in positions[..k] && !candidates[i].isProtected
      {
        assert positions[..k + 1] == positions[..k] + [positions[k]];
        assert positions[k] !in positions[..k];
        if !candidates[positions[k]].isProtected {
          pool := pool + [positions[k]];
        }
      }
      assert positions[..|positions|] == positions;
    }

    /** Marks the coldest unprotected live candidates from `start` on, as many as are over the cap. */
    method EnforceCount(start: nat, maxKeep: int)
      requires start <= |candidates| && Distinct(candidates)
      modifies this
      ensures candidates ==
              Mark(old(candidates),
                   OverCount(Live(old(candidates)[start..]), Shielded(old(candidates)[start..]), maxKeep))
    {
      ghost var cs := candidates;
      ghost var L, P := Live(cs[start..]), Shielded(cs[start..]);
      TailWithin(cs, start);
      TailMembers(cs, start);
      if maxKeep <= 0 {
        assert OverCount(L, P, maxKeep) == {};
        return;
      }
      var remaining := LiveFrom(start);
      assert forall k :: 0 <= k < |remaining| ==> remaining[k] in remaining;
      PositionsOf(cs, remaining, L);
      if |remaining| > maxKeep {
        var pool := Unprotected(remaining);
        var sorted := SortPool(candidates, pool);
        PositionsOf(cs, sorted, L - P);
        var taken := EvictOver(sorted, |remaining| - maxKeep);
        CountTaken(cs, L, P, maxKeep, sorted, taken);
      } else {
        assert OverCount(L, P, maxKeep) == {};
      }
    }

    /** The pool of one budget pass and the 64-bit total of the live candidates in scope. */
    method MeasureScope(ownerUid: nat) returns (total: nat, pool: seq<nat>)
      ensures total == Counting(candidates, ownerUid, |candidates|) % TWO_64
      ensures Positions(candidates, pool)
      ensures forall i: nat :: i in pool <==>
                i < |candidates| && Counted(candidates[i], ownerUid) && !candidates[i].isProtected
    {
      total, pool := 0, [];
      for index := 0 to |candidates|
        invariant total == Counting(candidates, ownerUid, index) % TWO_64
        invariant Positions(candidates, pool)
        invariant forall i: nat :: i in pool <==>
                    i < index && Counted(candidates[i], ownerUid) && !candidates[i].isProtected
      {
        var candidate := candidates[index];
        if !candidate.marked && (ownerUid == ALL_USERS || candidate.c.ownerUid == ownerUid) {
          WrapStep(Counting(candidates, ownerUid, index), candidate.c.sizeBytes);
          total := (total + candidate.c.sizeBytes) % TWO_64;
          if !candidate.isProtected {
            pool := pool + [index];
          }
        }
      }
    }

    /** One byte-budget pass: a budget of zero is off; otherwise evict the coldest until within budget. */
    method ApplyByteBudget(budget: nat, ownerUid: nat)
      requires Distinct(candidates)
      modifies this
      ensures candidates ==
              Mark(old(candidates),
                   OverBudget(InScope(Live(old(candidates)), ownerUid), Shielded(old(candidates)), budget))
    {
      ghost var cs := candidates;
      ghost var S, P := InScope(Live(cs), ownerUid), Shielded(cs);
      if budget == 0 {
        assert OverBudget(S, P, budget) == {};
        return;
      }
      ScopeMembers(cs, ownerUid);
      var total, pool := MeasureScope(ownerUid);
      CountingIsBytes(cs, ownerUid, |cs|);
      assert cs[..|cs|] == cs;
      if total <= budget {
        WithinBudget(S, P, budget);
        return;
      }
      var sorted := SortPool(candidates, pool);
      PositionsOf(cs, sorted, S - P);
      var taken := EvictUntil(sorted, total, budget, S);
      BudgetTaken(cs, S, P, budget, sorted, taken);
    }

    /** Marks positions in order, subtracting their sizes from the 64-bit total, until it is within budget. */
    method EvictUntil(sorted: seq<nat>, initial: nat, budget: nat, ghost S: set<Candidate>) returns (taken: nat)
      requires Positions(candidates, sorted) && NoDup(At(candidates, sorted))
      requires initial == Bytes(S) % TWO_64 && initial > budget
      modifies this
      ensures taken <= |sorted| && candidates == MarkAt(old(candidates), sorted[..taken])
      ensures forall j :: 0 <= j < taken ==> Reads(S, At(old(candidates), sorted), j) > budget
      ensures taken < |sorted| ==> Reads(S, At(old(candidates), sorted), taken) <= budget
    {
      ghost var cs, t := candidates, At(candidates, sorted);
      var total := initial;
      taken := 0;
      assert candidates == MarkAt(cs, sorted[..0]);
      RunningStart(S, t);
      while taken < |sorted|
        invariant taken <= |sorted|
        invariant candidates == MarkAt(cs, sorted[..taken])
        invariant total == Reads(S, t, taken) && OverUpTo(S, t, budget, taken)
      {
        if total <= budget {
          break;
        }
        var i := sorted[taken];
        TotalFalls(S, t, taken, total);
        MarkOneMore(cs, sorted, taken);
        var size := candidates[i].c.sizeBytes;
        assert size == t[taken].sizeBytes;
        candidates := candidates[i := candidates[i].(marked := true)];
        total := Minus(total, size);
        taken := taken + 1;
      }
      OverThroughout(S, t, budget, taken);
    }

    /** Marks the first `over` positions, or all of them. */
    method EvictOver(sorted: seq<nat>, over: int) returns (taken: nat)
      requires Positions(candidates, sorted) && over > 0
      modifies this
      ensures taken == if over <= |sorted| then over else |sorted|
      ensures candidates == MarkAt(old(candidates), sorted[..taken])
    {
      ghost var cs := candidates;
      var overLimit := over;
      taken := 0;
      assert candidates == MarkAt(cs, sorted[..0]);
      while taken < |sorted|
        invariant taken <= |sorted| && overLimit == over - taken >= 0
        invariant candidates == MarkAt(cs, sorted[..taken])
      {
        if overLimit <= 0 {
          break;
        }
        var i := sorted[taken];
        MarkOneMore(cs, sorted, taken);
        candidates := candidates[i := candidates[i].(marked := true)];
        overLimit := overLimit - 1;
        taken := taken + 1;
      }
    }
  }

  lemma TailMembers(cs: seq<RetentionCandidate>, start: nat)
    requires start <= |cs| && Distinct(cs)
    ensures forall i :: 0 <= i < |cs| ==>
              && (cs[i].c in Live(cs[start..]) <==> start <= i && !cs[i].marked)
              && (cs[i].c in Shielded(cs[start..]) <==> start <= i && cs[i].isProtected)
  {
    forall i | 0 <= i < |cs|
      ensures cs[i].c in Live(cs[start..]) <==> start <= i && !cs[i].marked
      ensures cs[i].c in Shielded(cs[start..]) <==> start <= i && cs[i].isProtected {
      AtPosition(cs, start, i);
    }
  }

  lemma CountTaken(cs: seq<RetentionCandidate>, L: set<Candidate>, P: set<Candidate>, maxKeep: int,
                   sorted: seq<nat>, taken: nat)
    requires Distinct(cs) && Positions(cs, sorted) && L <= All(cs) && maxKeep > 0
    requires SortedBy(Colder, At(cs, sorted)) && NoDup(At(cs, sorted)) && Elements(At(cs, sorted)) == L - P
    requires |L| > maxKeep && taken == if |L| - maxKeep <= |sorted| then |L| - maxKeep else |sorted|
    ensures MarkAt(cs, sorted[..taken]) == Mark(cs, OverCount(L, P, maxKeep))
  {
    var t := At(cs, sorted);
    PrefixIsOverCount(L, P, maxKeep, t, taken);
    assert At(cs, sorted[..taken]) == t[..taken];
    MarkAtIsMark(cs, sorted[..taken], OverCount(L, P, maxKeep));
  }

  /** Live and in the scope of a pass. */
  predicate Counted(rc: RetentionCandidate, ownerUid: nat) {
    !rc.marked && (ownerUid == ALL_USERS || rc.c.ownerUid == ownerUid)
  }

  /** True bytes counted among the first `k` candidates. */
  ghost function Counting(cs: seq<RetentionCandidate>, ownerUid: nat, k: nat): nat
    requires k <= |cs|
  {
    if k == 0 then 0
    else Counting(cs, ownerUid, k - 1) + if Counted(cs[k - 1], ownerUid) then cs[k - 1].c.sizeBytes else 0
  }

  lemma {:induction false} CountingIsBytes(cs: seq<RetentionCandidate>, ownerUid: nat, k: nat)
    requires Distinct(cs) && k <= |cs|
    ensures Counting(cs, ownerUid, k) == Bytes(InScope(Live(cs[..k]), ownerUid))
  {
    if k == 0 {
      assert InScope(Live(cs[..0]), ownerUid) == {};
    } else {
      CountingIsBytes(cs, ownerUid, k - 1);
      ScopeStep(cs, ownerUid, k - 1);
    }
  }

  lemma ScopeStep(cs: seq<RetentionCandidate>, ownerUid: nat, index: nat)
    requires Distinct(cs) && index < |cs|
    ensures Bytes(InScope(Live(cs[..index + 1]), ownerUid)) ==
            Bytes(InScope(Live(cs[..index]), ownerUid))
            + if Counted(cs[index], ownerUid) then cs[index].c.sizeBytes else 0
  {
    var before, after := InScope(Live(cs[..index]), ownerUid), InScope(Live(cs[..index + 1]), ownerUid);
    assert forall c :: c in Live(cs[..index + 1]) <==>
                       c in Live(cs[..index]) || (c == cs[index].c && !cs[index].marked) by {
      LiveStep(cs, index);
    }
    if Counted(cs[index], ownerUid) {
      assert cs[index].c !in Live(cs[..index]);
      assert after - {cs[index].c} == before;
      BytesRemove(after, cs[index].c);
    } else {
      assert after == before;
    }
  }

  lemma LiveStep(cs: seq<RetentionCandidate>, index: nat)
    requires index < |cs|
    ensures Live(cs[..index + 1]) == Live(cs[..index]) + if cs[index].marked then {} else {cs[index].c}
  {
    forall c | c in Live(cs[..index]) ensures c in Live(cs[..index + 1]) {
      var i :| 0 <= i < index && !cs[..index][i].marked && cs[..index][i].c == c;
      assert cs[..index + 1][i] == cs[i];
    }
    forall c | c in Live(cs[..index + 1]) ensures c in Live(cs[..index]) || (c == cs[index].c && !cs[index].marked) {
      var i :| 0 <= i < index + 1 && !cs[..index + 1][i].marked && cs[..index + 1][i].c == c;
      if i < index {
        assert cs[..index][i] == cs[i];
      }
    }
    assert cs[..index + 1][index] == cs[index];
  }

  lemma ScopeMembers(cs: seq<RetentionCandidate>, ownerUid: nat)
    requires Distinct(cs)
    ensures InScope(Live(cs), ownerUid) <= All(cs)
    ensures forall i :: 0 <= i < |cs| ==> (cs[i].c in InScope(Live(cs), ownerUid) <==> Counted(cs[i], ownerUid))
    ensures forall i :: 0 <= i < |cs| ==> (cs[i].c in Shielded(cs) <==> cs[i].isProtected)
  {
    assert cs[0..] == cs;
    forall i | 0 <= i < |cs|
      ensures cs[i].c in InScope(Live(cs), ownerUid) <==> Counted(cs[i], ownerUid)
      ensures cs[i].c in Shielded(cs) <==> cs[i].isProtected {
      AtPosition(cs, 0, i);
    }
  }

  /** A pass that starts within budget evicts nothing, whatever wrapped. */
  lemma WithinBudget(S: set<Candidate>, P: set<Candidate>, budget: nat)
    requires WellIdentified(S) && Bytes(S) % TWO_64 <= budget
    ensures OverBudget(S, P, budget) == {}
  {
    if S - P != {} {
      ColderIsTotal(S);
      StrictTotalSubset(Colder, S, S - P);
      var m := Least(Colder, S - P);
      assert Left(S, P, m) == Bytes(S);
    }
  }

  lemma RunningStart(S: set<Candidate>, t: seq<Candidate>)
    ensures Reads(S, t, 0) == Bytes(S) % TWO_64
  {
    assert Elements(t[..0]) == {};
  }

  lemma RunningStep(S: set<Candidate>, t: seq<Candidate>, k: nat)
    requires k < |t| && NoDup(t)
    ensures Running(S, t, k + 1) == Running(S, t, k) - t[k].sizeBytes
  {
    assert Elements(t[..k + 1]) == Elements(t[..k]) + {t[k]};
    assert t[k] !in Elements(t[..k]);
    BytesRemove(Elements(t[..k + 1]), t[k]);
    assert Elements(t[..k + 1]) - {t[k]} == Elements(t[..k]);
  }

  /** Subtracting a size from the 64-bit total follows the bytes left. */
  lemma TotalFalls(S: set<Candidate>, t: seq<Candidate>, k: nat, total: int)
    requires k < |t| && NoDup(t) && total == Reads(S, t, k)
    ensures Minus(total, t[k].sizeBytes) == Reads(S, t, k + 1)
  {
    RunningStep(S, t, k);
    var size: int := t[k].sizeBytes;
    WrapStep(Running(S, t, k), 0 - size);
  }

  lemma BudgetTaken(cs: seq<RetentionCandidate>, S: set<Candidate>, P: set<Candidate>, budget: nat,
                    sorted: seq<nat>, taken: nat)
    requires Distinct(cs) && Positions(cs, sorted) && S <= All(cs) && budget > 0 && taken <= |sorted|
    requires SortedBy(Colder, At(cs, sorted)) && Elements(At(cs, sorted)) == S - P
    requires forall j :: 0 <= j < taken ==> Reads(S, At(cs, sorted), j) > budget
    requires taken < |sorted| ==> Reads(S, At(cs, sorted), taken) <= budget
    ensures MarkAt(cs, sorted[..taken]) == Mark(cs, OverBudget(S, P, budget))
  {
    var t := At(cs, sorted);
    PrefixIsOverBudget(S, P, budget, t, taken);
    assert At(cs, sorted[..taken]) == t[..taken];
    MarkAtIsMark(cs, sorted[..taken], OverBudget(S, P, budget));
  }
}
