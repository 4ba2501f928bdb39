/** What the retention policy guarantees, for every store contents and every policy. */
module RetentionTheorems {
  import opened Decimal
  import opened Orders
  import opened Retention
  import Strings

  // ---- The comparators are strict total orders ---------------------------------

  lemma ColderIsTotal(C: set<Candidate>)
    requires WellIdentified(C)
    ensures StrictTotalOn(Colder, C)
  {
    forall a | a in C ensures !Colder(a, a) {
      Strings.LessIrreflexive(a.checkpointId);
    }
    forall a, b, c | a in C && b in C && c in C && Colder(a, b) && Colder(b, c) ensures Colder(a, c) {
      ColderTransitive(a, b, c);
    }
    forall a, b | a in C && b in C && a != b ensures Colder(a, b) || Colder(b, a) {
      Strings.LessTotal(a.jobId, b.jobId);
      Strings.LessTotal(a.checkpointId, b.checkpointId);
    }
    forall a, b | a in C && b in C && Colder(a, b) ensures !Colder(b, a) {
      if Colder(b, a) {
        ColderTransitive(a, b, a);
        Strings.LessIrreflexive(a.checkpointId);
      }
    }
  }

  lemma ColderTransitive(a: Candidate, b: Candidate, c: Candidate)
    requires Colder(a, b) && Colder(b, c)
    ensures Colder(a, c)
  {
    if a.jobId == b.jobId == c.jobId && Strings.Less(a.checkpointId, b.checkpointId)
       && Strings.Less(b.checkpointId, c.checkpointId) {
      Strings.LessTransitive(a.checkpointId, b.checkpointId, c.checkpointId);
    }
    if Strings.Less(a.jobId, b.jobId) && Strings.Less(b.jobId, c.jobId) {
      Strings.LessTransitive(a.jobId, b.jobId, c.jobId);
    }
    Strings.LessIrreflexive(a.jobId);
  }

  lemma NewerIsTotal(C: set<Candidate>, jobId: string)
    requires WellIdentified(C)
    ensures StrictTotalOn(Newer, OfJob(C, jobId))
  {
    var J := OfJob(C, jobId);
    forall a | a in J ensures !Newer(a, a) {
      Strings.LessIrreflexive(a.checkpointId);
    }
    forall a, b, c | a in J && b in J && c in J && Newer(a, b) && Newer(b, c) ensures Newer(a, c) {
      NewerTransitive(a, b, c);
    }
    forall a, b | a in J && b in J && a != b ensures Newer(a, b) || Newer(b, a) {
      Strings.LessTotal(a.checkpointId, b.checkpointId);
    }
    forall a, b | a in J && b in J && Newer(a, b) ensures !Newer(b, a) {
      if Newer(b, a) {
        NewerTransitive(a, b, a);
        Strings.LessIrreflexive(a.checkpointId);
      }
    }
  }

  lemma NewerTransitive(a: Candidate, b: Candidate, c: Candidate)
    requires Newer(a, b) && Newer(b, c)
    ensures Newer(a, c)
  {
    if a.createdAt == b.createdAt == c.createdAt {
      Strings.LessTransitive(c.checkpointId, b.checkpointId, a.checkpointId);
    }
  }

  lemma StrictTotalSubset(less: (Candidate, Candidate) -> bool, S: set<Candidate>, R: set<Candidate>)
    requires StrictTotalOn(less, S) && R <= S
    ensures StrictTotalOn(less, R)
  {}

  // ---- Sums ----------------------------------------------------------------------

  lemma {:induction false} BytesRemove(S: set<Candidate>, c: Candidate)
    requires c in S
    ensures Bytes(S) == c.sizeBytes + Bytes(S - {c})
    decreases |S|
  {
    var d :| d in S && Bytes(S) == d.sizeBytes + Bytes(S - {d});
    if d != c {
      BytesRemove(S - {d}, c);
      BytesRemove(S - {c}, d);
      assert S - {d} - {c} == S - {c} - {d};
    }
  }

  lemma {:induction false} BytesSplit(S: set<Candidate>, R: set<Candidate>)
    requires R <= S
    ensures Bytes(S) == Bytes(R) + Bytes(S - R)
    decreases |R|
  {
    if R == {} {
      assert S - R == S;
    } else {
      var c :| c in R;
      BytesSplit(S - {c}, R - {c});
      BytesRemove(S, c);
      BytesRemove(R, c);
      assert S - {c} - (R - {c}) == S - R;
    }
  }

  lemma IdsCard(S: set<Candidate>)
    requires forall a, b :: a in S && b in S && a.checkpointId == b.checkpointId ==> a == b
    ensures |Ids(S)| == |S|
    decreases |S|
  {
    if S == {} {
      assert Ids(S) == {};
    } else {
      var c :| c in S;
      IdsCard(S - {c});
      assert Ids(S) == Ids(S - {c}) + {c.checkpointId};
    }
  }

  lemma CardSubset<T>(A: set<T>, B: set<T>)
    requires A <= B
    ensures |A| <= |B|
    ensures |A| == |B| ==> A == B
  {
    assert B == A + (B - A);
  }

  // ---- One byte-budget pass --------------------------------------------------------

  /** Within budget, or nothing left that may be evicted. */
  ghost predicate BudgetMet(S: set<Candidate>, P: set<Candidate>, budget: nat) {
    Bytes(S) <= budget || S <= P
  }

  /** No total read during the pass wraps around 2^64 onto a value within budget. */
  ghost predicate NoWrap(S: set<Candidate>, P: set<Candidate>, budget: nat) {
    forall e :: e in S - P && Left(S, P, e) % TWO_64 <= budget ==> Left(S, P, e) <= budget
  }

  /** An initial segment of the eviction order on the pool. */
  ghost predicate ColdPrefix(F: set<Candidate>, pool: set<Candidate>) {
    F <= pool && forall a, b :: a in pool && b in F && Colder(a, b) ==> a in F
  }

  lemma LeftBounds(S: set<Candidate>, P: set<Candidate>, e: Candidate)
    ensures 0 <= Left(S, P, e) <= Bytes(S)
  {
    BytesSplit(S, Below(Colder, S - P, e));
  }

  /** A sum that fits in 64 bits never wraps. */
  lemma FitsNoWrap(S: set<Candidate>, P: set<Candidate>, budget: nat)
    requires Bytes(S) < TWO_64
    ensures NoWrap(S, P, budget)
  {
    forall e | e in S - P ensures Left(S, P, e) % TWO_64 == Left(S, P, e) {
      LeftBounds(S, P, e);
    }
  }

  lemma OverBudgetIsPrefix(S: set<Candidate>, P: set<Candidate>, budget: nat)
    requires WellIdentified(S)
    ensures ColdPrefix(OverBudget(S, P, budget), S - P)
  {
    var pool := S - P;
    var E := OverBudget(S, P, budget);
    forall a, b | a in pool && b in E && Colder(a, b) ensures a in E {
      forall e | e in pool && (e == a || Colder(e, a)) ensures Left(S, P, e) % TWO_64 > budget {
        if e != a { ColderTransitive(e, a, b); }
      }
    }
  }

  /** Outside a cold prefix `F`, the coldest member of the pool has exactly `F` below it. */
  lemma CutPoint(pool: set<Candidate>, F: set<Candidate>, G: set<Candidate>) returns (m: Candidate)
    requires WellIdentified(pool) && ColdPrefix(F, pool) && ColdPrefix(G, pool)
    requires G - F != {}
    ensures m in G - F && Below(Colder, pool, m) == F
    ensures forall e :: e in pool - F && e != m ==> Colder(m, e)
  {
    ColderIsTotal(pool);
    m := Least(Colder, pool - F);
    var g :| g in G - F;
    assert m == g || Colder(m, g);
  }

  /** Where a pass that leaves part of the pool stopped, and the total it stopped on. */
  lemma StopPoint(S: set<Candidate>, P: set<Candidate>, budget: nat) returns (m: Candidate)
    requires WellIdentified(S) && budget > 0 && S - P - OverBudget(S, P, budget) != {}
    ensures m in S - P - OverBudget(S, P, budget)
    ensures forall e :: e in S - P - OverBudget(S, P, budget) && e != m ==> Colder(m, e)
    ensures Left(S, P, m) == Bytes(S - OverBudget(S, P, budget))
    ensures Left(S, P, m) % TWO_64 <= budget
  {
    var pool, E := S - P, OverBudget(S, P, budget);
    OverBudgetIsPrefix(S, P, budget);
    m := CutPoint(pool, E, pool);
    BytesSplit(S, E);
    StoppedWithin(S, P, budget, m);
  }

  /** The first one kept was met with a total within budget: everything colder went. */
  lemma StoppedWithin(S: set<Candidate>, P: set<Candidate>, budget: nat, m: Candidate)
    requires budget > 0 && m in S - P && m !in OverBudget(S, P, budget)
    requires Below(Colder, S - P, m) == OverBudget(S, P, budget)
    ensures Left(S, P, m) % TWO_64 <= budget
  {
    if Left(S, P, m) % TWO_64 > budget {
      forall e | e in S - P && (e == m || Colder(e, m)) ensures Left(S, P, e) % TWO_64 > budget {
        if e != m {
          assert e in OverBudget(S, P, budget);
        }
      }
    }
  }

  /**
   The pass meets its budget exactly when no running total wraps onto a value within
   budget: with the true sum below 2^64 always, beyond it not necessarily.
   */
  lemma BudgetPass(S: set<Candidate>, P: set<Candidate>, budget: nat)
    requires WellIdentified(S) && budget > 0
    ensures BudgetMet(S - OverBudget(S, P, budget), P, budget) <==> NoWrap(S, P, budget)
  {
    var rest := S - P - OverBudget(S, P, budget);
    if rest == {} {
      ExhaustedPool(S, P, budget);
    } else {
      var m := StopPoint(S, P, budget);
      assert m in S - OverBudget(S, P, budget) && m !in P;
      if !NoWrap(S, P, budget) {
        var e :| e in S - P && Left(S, P, e) % TWO_64 <= budget < Left(S, P, e);
        assert e in rest;
        LeftMonotone(S, P, m, e);
      }
    }
  }

  lemma ExhaustedPool(S: set<Candidate>, P: set<Candidate>, budget: nat)
    requires S - P - OverBudget(S, P, budget) == {}
    ensures S - OverBudget(S, P, budget) <= P && NoWrap(S, P, budget)
  {
    forall c | c in S - P ensures c in OverBudget(S, P, budget) {
      assert c !in S - P - OverBudget(S, P, budget);
    }
  }

  lemma LeftMonotone(S: set<Candidate>, P: set<Candidate>, a: Candidate, b: Candidate)
    requires WellIdentified(S) && a in S - P && b in S - P && (a == b || Colder(a, b))
    ensures Left(S, P, b) <= Left(S, P, a)
  {
    var A, B := Below(Colder, S - P, a), Below(Colder, S - P, b);
    forall e | e in A ensures e in B {
      if a != b { ColderTransitive(e, a, b); }
    }
    BytesSplit(B, A);
  }

  /**
   The pass evicts the shortest prefix of the eviction order that will do: what it
   evicts is a prefix, and any shorter prefix would have left the scope over budget.
   */
  lemma ShortestPrefix(S: set<Candidate>, P: set<Candidate>, budget: nat, F: set<Candidate>)
    requires WellIdentified(S) && budget > 0
    requires ColdPrefix(F, S - P) && F < OverBudget(S, P, budget)
    ensures Bytes(S - F) > budget
  {
    var E, pool := OverBudget(S, P, budget), S - P;
    OverBudgetIsPrefix(S, P, budget);
    assert WellIdentified(pool);
    assert E - F != {} by {
      if E - F == {} {
        forall e | e in E ensures e in F {
          assert e !in E - F;
        }
      }
    }
    var m := CutPoint(pool, F, E);
    BytesSplit(S, F);
    EvictedIsOver(S, P, budget, m);
  }

  lemma EvictedIsOver(S: set<Candidate>, P: set<Candidate>, budget: nat, m: Candidate)
    requires m in OverBudget(S, P, budget)
    ensures Left(S, P, m) > budget
  {
    LeftBounds(S, P, m);
    assert Left(S, P, m) % TWO_64 > budget;
  }

  /** The budget is not met in general: two checkpoints of 2^63 bytes wrap to a total of zero. */
  lemma WrapCounterexample() returns (S: set<Candidate>)
    ensures WellIdentified(S) && OverBudget(S, {}, 1) == {} && Bytes(S) == TWO_64 && S != {}
    ensures !BudgetMet(S - OverBudget(S, {}, 1), {}, 1)
  {
    var a := Candidate(0, "job", "", "a", 1, 0, 0, TWO_63);
    var b := Candidate(0, "job", "", "b", 1, 0, 0, TWO_63);
    S := {a, b};
    BytesRemove(S, a);
    assert S - {a} == {b};
    BytesRemove({b}, b);
    assert {b} - {b} == {};
    assert Colder(a, b) by { assert "a"[0] < "b"[0]; }
    assert !Colder(b, a) && !Colder(a, a);
    assert Below(Colder, S - {}, a) == {};
    assert Left(S, {}, a) == TWO_64;
    assert a in S - {};
  }
}
