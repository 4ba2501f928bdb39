/** The end state of a whole prune: all rules at once, idempotence, and how much each job keeps. */
module RetentionPolicy {
  import opened Decimal
  import opened Orders
  import opened Retention
  import opened RetentionTheorems
  import Strings

  // ---- The count rule ------------------------------------------------------------

  /** A job ends at its cap exactly, or with protected checkpoints only; below the cap nothing goes. */
  lemma CountRule(L: set<Candidate>, P: set<Candidate>, maxKeep: int)
    requires WellIdentified(L) && maxKeep > 0
    ensures |L| <= maxKeep ==> OverCount(L, P, maxKeep) == {}
    ensures |L| > maxKeep ==>
              |L - OverCount(L, P, maxKeep)| == maxKeep
              || (|L - OverCount(L, P, maxKeep)| > maxKeep && L - OverCount(L, P, maxKeep) <= P)
  {
    var pool, over := L - P, |L| - maxKeep;
    if over > 0 {
      assert WellIdentified(pool);
      ColderIsTotal(pool);
      RankCount(Colder, pool, over);
      assert OverCount(L, P, maxKeep) == FirstRanked(Colder, pool, over);
      var E := OverCount(L, P, maxKeep);
      assert |L - E| == |L| - |E|;
      if over > |pool| {
        CardSubset(E, pool);
      }
    }
  }

  // ---- Protection -----------------------------------------------------------------

  ghost function ProtectedOf(C: set<Candidate>, p: Policy, jobId: string): set<Candidate> {
    OfJob(ProtectedSet(C, p), jobId)
  }

  lemma SameAnchors(C: set<Candidate>, p: Policy, a: Candidate, b: Candidate)
    requires WellIdentified(C) && a in C && b in C && a.jobId == b.jobId
    ensures Anchors(p, a) == Anchors(p, b)
  {}

  lemma NewerIdsMonotone(C: set<Candidate>, a: Candidate, b: Candidate)
    requires WellIdentified(C) && a in C && b in C && a.jobId == b.jobId && Newer(a, b)
    ensures NewerIds(C, a) + {a.checkpointId} <= NewerIds(C, b)
  {
    var J := OfJob(C, a.jobId);
    forall d | d in J && Newer(d, a) ensures d.checkpointId in NewerIds(C, b) {
      NewerTransitive(d, a, b);
      assert d in Below(Newer, J, b);
    }
    assert a in Below(Newer, J, b);
  }

  /** Protection reaches down the newest-first listing: what is newer than a reached one is reached. */
  lemma ReachedClosed(C: set<Candidate>, p: Policy, a: Candidate, b: Candidate)
    requires WellIdentified(C) && a in C && b in C && a.jobId == b.jobId && Newer(a, b)
    requires |Anchors(p, b) + NewerIds(C, b)| < p.config.minKeepPerJob
    ensures Protected(C, p, a)
  {
    SameAnchors(C, p, a, b);
    NewerIdsMonotone(C, a, b);
    CardSubset(Anchors(p, a) + NewerIds(C, a), Anchors(p, b) + NewerIds(C, b));
  }

  /** A job has at most as many protected checkpoints as the floor asks for, or as it has anchors. */
  lemma ProtectedAtMost(C: set<Candidate>, p: Policy, jobId: string)
    requires WellIdentified(C)
    ensures |ProtectedOf(C, p, jobId)| <= 2 || |ProtectedOf(C, p, jobId)| <= p.config.minKeepPerJob
  {
    var J, Pj := OfJob(C, jobId), ProtectedOf(C, p, jobId);
    var Q := set c | c in J && |Anchors(p, c) + NewerIds(C, c)| < p.config.minKeepPerJob;
    IdsCard(Pj);
    if Q == {} {
      if Pj != {} {
        var c :| c in Pj;
        forall d | d in Pj ensures d.checkpointId in Anchors(p, c) {
          assert d !in Q;
          SameAnchors(C, p, c, d);
        }
        CardSubset(Ids(Pj), Anchors(p, c));
        AnchorsCard(p, c);
      }
    } else {
      NewerIsTotal(C, jobId);
      StrictTotalSubset(Newer, J, Q);
      var q := Greatest(Newer, Q);
      var bound := Anchors(p, q) + NewerIds(C, q) + {q.checkpointId};
      forall d | d in Pj ensures d.checkpointId in bound {
        SameAnchors(C, p, q, d);
        if d in Q && d != q {
          assert d in Below(Newer, OfJob(C, q.jobId), q);
        }
      }
      CardSubset(Ids(Pj), bound);
    }
  }

  lemma AnchorsCard(p: Policy, c: Candidate)
    ensures |Anchors(p, c)| <= 2
  {
    assert Anchors(p, c) <= {c.latestCheckpoint, p.preserveCheckpoint};
    CardSubset(Anchors(p, c), {c.latestCheckpoint, p.preserveCheckpoint});
  }

  /** When the anchors exist, a job has its floor of protected checkpoints, or all are protected. */
  lemma ProtectedAtLeast(C: set<Candidate>, p: Policy, jobId: string)
    requires WellIdentified(C)
    requires forall c :: c in OfJob(C, jobId) ==> Anchors(p, c) <= Ids(OfJob(C, jobId))
    ensures |ProtectedOf(C, p, jobId)| >= p.config.minKeepPerJob
            || ProtectedOf(C, p, jobId) == OfJob(C, jobId)
  {
    var J, Pj := OfJob(C, jobId), ProtectedOf(C, p, jobId);
    if Pj != J {
      var U := J - Pj;
      assert U != {};
      NewerIsTotal(C, jobId);
      StrictTotalSubset(Newer, J, U);
      var u := Least(Newer, U);
      forall d | d in J && Newer(d, u) ensures Protected(C, p, d) {
        assert d !in U;
      }
      FloorReached(C, p, u);
    }
  }

  lemma FloorReached(C: set<Candidate>, p: Policy, u: Candidate)
    requires WellIdentified(C) && u in C && !Protected(C, p, u)
    requires forall d :: d in OfJob(C, u.jobId) && Newer(d, u) ==> Protected(C, p, d)
    requires Anchors(p, u) <= Ids(OfJob(C, u.jobId))
    ensures |ProtectedOf(C, p, u.jobId)| >= p.config.minKeepPerJob
  {
    var J, Pj := OfJob(C, u.jobId), ProtectedOf(C, p, u.jobId);
    forall id | id in Anchors(p, u) ensures id in Ids(Pj) {
      var d :| d in J && d.checkpointId == id;
      SameAnchors(C, p, u, d);
      assert d in Pj;
    }
    forall id | id in NewerIds(C, u) ensures id in Ids(Pj) {
      var d :| d in Below(Newer, J, u) && d.checkpointId == id;
      assert d in Pj;
    }
    IdsCard(Pj);
    CardSubset(Anchors(p, u) + NewerIds(C, u), Ids(Pj));
  }

  // ---- All rules at once ------------------------------------------------------------

  /** `S` keeps the rules of `p` that count checkpoints: protection, age and the cap per job. */
  ghost predicate RulesHold(C: set<Candidate>, S: set<Candidate>, p: Policy) {
    var P := ProtectedSet(C, p);
    && P <= S <= C
    && (forall c :: c in S ==> c in P || !Expired(p, c))
    && (p.config.maxKeepPerJob > 0 ==> forall c :: c in S ==>
          |OfJob(S, c.jobId)| <= p.config.maxKeepPerJob || OfJob(S, c.jobId) <= P)
  }

  ghost predicate UserBudgetsMet(C: set<Candidate>, S: set<Candidate>, p: Policy) {
    p.config.maxBytesPerUser > 0 ==> forall c :: c in S ==>
      BudgetMet(InScope(S, c.ownerUid), ProtectedSet(C, p), p.config.maxBytesPerUser)
  }

  ghost predicate TotalBudgetMet(C: set<Candidate>, S: set<Candidate>, p: Policy) {
    p.config.maxBytesTotal > 0 ==> BudgetMet(S, ProtectedSet(C, p), p.config.maxBytesTotal)
  }

  /** No pass for a user reads a total that wrapped onto a value within budget. */
  ghost predicate UserPassesExact(C: set<Candidate>, p: Policy) {
    p.config.maxBytesPerUser > 0 ==> forall c :: c in AfterCount(C, p) ==>
      NoWrap(InScope(AfterCount(C, p), c.ownerUid), ProtectedSet(C, p), p.config.maxBytesPerUser)
  }

  /** Nor does the pass over the whole store. */
  ghost predicate TotalPassExact(C: set<Candidate>, p: Policy) {
    p.config.maxBytesTotal > 0 ==> NoWrap(AfterUsers(C, p), ProtectedSet(C, p), p.config.maxBytesTotal)
  }

  ghost predicate NoSentinel(C: set<Candidate>) {
    forall c :: c in C ==> c.ownerUid != ALL_USERS
  }

  lemma BytesMonotone(R: set<Candidate>, S: set<Candidate>)
    requires R <= S
    ensures Bytes(R) <= Bytes(S)
  {
    BytesSplit(S, R);
  }

  lemma BudgetMetShrinks(S: set<Candidate>, R: set<Candidate>, P: set<Candidate>, budget: nat)
    requires R <= S && BudgetMet(S, P, budget)
    ensures BudgetMet(R, P, budget)
  {
    BytesMonotone(R, S);
  }

  lemma CountHolds(C: set<Candidate>, p: Policy, c: Candidate)
    requires WellIdentified(C) && p.config.maxKeepPerJob > 0 && c in C
    ensures var J := OfJob(AfterCount(C, p), c.jobId);
            |J| <= p.config.maxKeepPerJob || J <= ProtectedSet(C, p)
  {
    AfterCountOfJob(C, p, c.jobId);
    CountRule(OfJob(AfterAge(C, p), c.jobId), ProtectedSet(C, p), p.config.maxKeepPerJob);
  }

  lemma AfterCountOfJob(C: set<Candidate>, p: Policy, jobId: string)
    ensures var L := OfJob(AfterAge(C, p), jobId);
            OfJob(AfterCount(C, p), jobId) == L - OverCount(L, ProtectedSet(C, p), p.config.maxKeepPerJob)
  {
    var L := OfJob(AfterAge(C, p), jobId);
    forall d ensures d in OfJob(AfterCount(C, p), jobId)
                     <==> d in L && d !in OverCount(L, ProtectedSet(C, p), p.config.maxKeepPerJob) {
    }
  }

  /** The pass for one user leaves what the user has of `AfterUsers`. */
  lemma UserPassLeaves(C: set<Candidate>, p: Policy, uid: nat)
    requires uid != ALL_USERS
    ensures var S := InScope(AfterCount(C, p), uid);
            InScope(AfterUsers(C, p), uid) == S - OverBudget(S, ProtectedSet(C, p), p.config.maxBytesPerUser)
  {}

  lemma UserBudgetHolds(C: set<Candidate>, p: Policy, uid: nat)
    requires WellIdentified(C) && p.config.maxBytesPerUser > 0 && uid != ALL_USERS
    ensures BudgetMet(InScope(AfterUsers(C, p), uid), ProtectedSet(C, p), p.config.maxBytesPerUser) <==>
            NoWrap(InScope(AfterCount(C, p), uid), ProtectedSet(C, p), p.config.maxBytesPerUser)
  {
    UserPassLeaves(C, p, uid);
    BudgetPass(InScope(AfterCount(C, p), uid), ProtectedSet(C, p), p.config.maxBytesPerUser);
  }

  /** Sums below 2^64 make every pass exact. */
  lemma FittingSums(C: set<Candidate>, p: Policy)
    requires Bytes(C) < TWO_64
    ensures UserPassesExact(C, p) && TotalPassExact(C, p)
  {
    Shrinks(C, p);
    var P := ProtectedSet(C, p);
    forall c | c in AfterCount(C, p)
      ensures NoWrap(InScope(AfterCount(C, p), c.ownerUid), P, p.config.maxBytesPerUser) {
      BytesMonotone(InScope(AfterCount(C, p), c.ownerUid), C);
      FitsNoWrap(InScope(AfterCount(C, p), c.ownerUid), P, p.config.maxBytesPerUser);
    }
    BytesMonotone(AfterUsers(C, p), C);
    FitsNoWrap(AfterUsers(C, p), P, p.config.maxBytesTotal);
  }

  lemma Shrinks(C: set<Candidate>, p: Policy)
    ensures ProtectedSet(C, p) <= Survivors(C, p)
    ensures Survivors(C, p) <= AfterUsers(C, p) <= AfterCount(C, p) <= AfterAge(C, p) <= C
  {}

  /** Protection, age and the cap hold at the end of every prune, whatever the later rules removed. */
  lemma RulesAtEnd(C: set<Candidate>, p: Policy)
    requires WellIdentified(C)
    ensures RulesHold(C, Survivors(C, p), p)
  {
    var S, P := Survivors(C, p), ProtectedSet(C, p);
    Shrinks(C, p);
    if p.config.maxKeepPerJob > 0 {
      forall c | c in S ensures |OfJob(S, c.jobId)| <= p.config.maxKeepPerJob || OfJob(S, c.jobId) <= P {
        CountHolds(C, p, c);
        CardSubset(OfJob(S, c.jobId), OfJob(AfterCount(C, p), c.jobId));
      }
    }
  }

  lemma UserBudgetsAtEnd(C: set<Candidate>, p: Policy)
    requires WellIdentified(C) && NoSentinel(C) && UserPassesExact(C, p)
    ensures UserBudgetsMet(C, Survivors(C, p), p)
  {
    var S, P, b := Survivors(C, p), ProtectedSet(C, p), p.config.maxBytesPerUser;
    Shrinks(C, p);
    if b > 0 {
      forall c | c in S ensures BudgetMet(InScope(S, c.ownerUid), P, b) {
        UserBudgetHolds(C, p, c.ownerUid);
        BudgetMetShrinks(InScope(AfterUsers(C, p), c.ownerUid), InScope(S, c.ownerUid), P, b);
      }
    }
  }

  /**
   When a prune ends, every rule holds at once. The rules that count checkpoints need nothing.
   The total budget is met if and only if the last pass read no wrapped total, and each user's
   budget is met when that user's pass read none.
   */
  lemma EndState(C: set<Candidate>, p: Policy)
    requires WellIdentified(C) && NoSentinel(C)
    ensures RulesHold(C, Survivors(C, p), p)
    ensures UserPassesExact(C, p) ==> UserBudgetsMet(C, Survivors(C, p), p)
    ensures TotalPassExact(C, p) <==> TotalBudgetMet(C, Survivors(C, p), p)
  {
    RulesAtEnd(C, p);
    Shrinks(C, p);
    if UserPassesExact(C, p) {
      UserBudgetsAtEnd(C, p);
    }
    if p.config.maxBytesTotal > 0 {
      BudgetPass(AfterUsers(C, p), ProtectedSet(C, p), p.config.maxBytesTotal);
    }
  }

  // ---- Idempotence --------------------------------------------------------------------

  lemma NewestUnprotected(C: set<Candidate>, p: Policy, c: Candidate) returns (u: Candidate)
    requires WellIdentified(C) && c in C && !Protected(C, p, c)
    ensures u in C && u.jobId == c.jobId && !Protected(C, p, u)
    ensures u == c || Newer(u, c)
    ensures forall d :: d in OfJob(C, c.jobId) && Newer(d, u) ==> Protected(C, p, d)
  {
    var J := OfJob(C, c.jobId);
    var U := set d | d in J && !Protected(C, p, d);
    NewerIsTotal(C, c.jobId);
    StrictTotalSubset(Newer, J, U);
    assert c in U;
    u := Least(Newer, U);
  }

  /** Removing only unprotected checkpoints changes nobody's protection. */
  lemma ProtectionStable(C: set<Candidate>, S: set<Candidate>, p: Policy, c: Candidate)
    requires WellIdentified(C) && ProtectedSet(C, p) <= S <= C && c in S
    ensures Protected(S, p, c) <==> Protected(C, p, c)
  {
    var J := OfJob(C, c.jobId);
    assert NewerIds(S, c) <= NewerIds(C, c);
    CardSubset(Anchors(p, c) + NewerIds(S, c), Anchors(p, c) + NewerIds(C, c));
    if !Protected(C, p, c) {
      var u := NewestUnprotected(C, p, c);
      SameAnchors(C, p, u, c);
      forall id | id in NewerIds(C, u) ensures id in NewerIds(S, c) {
        var d :| d in Below(Newer, J, u) && d.checkpointId == id;
        if u != c { NewerTransitive(d, u, c); }
        assert d in ProtectedSet(C, p);
        assert d in Below(Newer, OfJob(S, c.jobId), c);
      }
      CardSubset(Anchors(p, u) + NewerIds(C, u), Anchors(p, c) + NewerIds(S, c));
    }
  }

  /** What a pass reads before it evicts anything: a total within budget, or only protected checkpoints. */
  ghost predicate PassIdle(S: set<Candidate>, P: set<Candidate>, budget: nat) {
    budget == 0 || Bytes(S) % TWO_64 <= budget || S <= P
  }

  /** A pass evicts nothing exactly when it stops at its first test. */
  lemma IdleExactly(S: set<Candidate>, P: set<Candidate>, budget: nat)
    requires WellIdentified(S)
    ensures OverBudget(S, P, budget) == {} <==> PassIdle(S, P, budget)
  {
    if S <= P {
      assert S - P == {};
    } else {
      var m := Coldest(S, P);
      if budget > 0 && Bytes(S) % TWO_64 > budget {
        assert AllOver(S, P, budget, m);
        assert m in OverBudget(S, P, budget);
      } else {
        forall c | c in S - P ensures budget == 0 || !AllOver(S, P, budget, c) {
          assert m == c || Colder(m, c);
        }
      }
    }
  }

  /** The first of the pool is met with the whole total. */
  lemma Coldest(S: set<Candidate>, P: set<Candidate>) returns (m: Candidate)
    requires WellIdentified(S) && !(S <= P)
    ensures m in S - P && Left(S, P, m) == Bytes(S)
    ensures forall e :: e in S - P ==> !Colder(e, m) && (e == m || Colder(m, e))
  {
    var pool := S - P;
    var c :| c in S && c !in P;
    assert c in pool;
    ColderIsTotal(pool);
    m := Least(Colder, pool);
    assert Below(Colder, pool, m) == {};
  }

  /** Whatever wrapped, a pass leaves a scope on which the same pass stops at once. */
  lemma PassSettles(S: set<Candidate>, P: set<Candidate>, budget: nat)
    requires WellIdentified(S)
    ensures PassIdle(S - OverBudget(S, P, budget), P, budget)
  {
    var rest := S - OverBudget(S, P, budget);
    if budget > 0 && !(rest <= P) {
      var c :| c in rest && c !in P;
      assert c in S - P - OverBudget(S, P, budget);
      var m := StopPoint(S, P, budget);
    }
  }

  /** Every user's pass over `S` stops at its first test. */
  ghost predicate UserPassesIdle(S: set<Candidate>, P: set<Candidate>, p: Policy) {
    forall c :: c in S ==> PassIdle(InScope(S, c.ownerUid), P, p.config.maxBytesPerUser)
  }

  lemma StableProtection(C: set<Candidate>, S: set<Candidate>, p: Policy)
    requires WellIdentified(C) && ProtectedSet(C, p) <= S <= C
    ensures ProtectedSet(S, p) == ProtectedSet(C, p)
  {
    forall c | c in S ensures Protected(S, p, c) <==> Protected(C, p, c) {
      ProtectionStable(C, S, p, c);
    }
  }

  /** A prune of a store that keeps the counting rules gets past them untouched. */
  lemma CountingRulesIdle(C: set<Candidate>, S: set<Candidate>, p: Policy)
    requires WellIdentified(C) && RulesHold(C, S, p)
    ensures ProtectedSet(S, p) == ProtectedSet(C, p) && AfterCount(S, p) == S
  {
    StableProtection(C, S, p);
    var P := ProtectedSet(S, p);
    assert AfterAge(S, p) == S;
    forall c | c in S ensures OverCount(OfJob(S, c.jobId), P, p.config.maxKeepPerJob) == {} {
      if p.config.maxKeepPerJob > 0 {
        assert WellIdentified(OfJob(S, c.jobId));
        CountRule(OfJob(S, c.jobId), P, p.config.maxKeepPerJob);
      }
    }
  }

  lemma UserPassesLeaveAll(S: set<Candidate>, p: Policy)
    requires WellIdentified(S) && NoSentinel(S) && AfterCount(S, p) == S
    ensures AfterUsers(S, p) == S <==> UserPassesIdle(S, ProtectedSet(S, p), p)
  {
    var P, b := ProtectedSet(S, p), p.config.maxBytesPerUser;
    if AfterUsers(S, p) == S {
      forall c | c in S ensures PassIdle(InScope(S, c.ownerUid), P, b) {
        AllKept(S, p, c);
        IdleExactly(InScope(S, c.ownerUid), P, b);
      }
    }
    if UserPassesIdle(S, P, p) {
      forall c | c in S ensures OverBudget(InScope(S, c.ownerUid), P, b) == {} {
        IdleExactly(InScope(S, c.ownerUid), P, b);
      }
      assert AfterUsers(S, p) == S;
    }
  }

  lemma AllKept(S: set<Candidate>, p: Policy, c: Candidate)
    requires NoSentinel(S) && AfterCount(S, p) == S && AfterUsers(S, p) == S && c in S
    ensures OverBudget(InScope(S, c.ownerUid), ProtectedSet(S, p), p.config.maxBytesPerUser) == {}
  {
    var E := OverBudget(InScope(S, c.ownerUid), ProtectedSet(S, p), p.config.maxBytesPerUser);
    forall d | d in InScope(S, c.ownerUid) ensures d !in E {
      assert d in AfterUsers(S, p) && d.ownerUid == c.ownerUid;
    }
  }

  /** A store in which every rule already holds is left alone by a prune. */
  lemma Fixpoint(C: set<Candidate>, S: set<Candidate>, p: Policy)
    requires WellIdentified(C) && NoSentinel(C) && RulesHold(C, S, p)
    requires UserPassesIdle(S, ProtectedSet(C, p), p) && PassIdle(S, ProtectedSet(C, p), p.config.maxBytesTotal)
    ensures ProtectedSet(S, p) == ProtectedSet(C, p)
    ensures Survivors(S, p) == S
  {
    CountingRulesIdle(C, S, p);
    UserPassesLeaveAll(S, p);
    IdleExactly(S, ProtectedSet(S, p), p.config.maxBytesTotal);
  }

  lemma MetIsIdle(S: set<Candidate>, P: set<Candidate>, budget: nat)
    requires BudgetMet(S, P, budget)
    ensures PassIdle(S, P, budget)
  {
    Remainder(Bytes(S));
  }

  lemma Remainder(x: nat)
    ensures x % TWO_64 <= x
  {}

  /**
   A second prune with the same clock, settings and sizes protects the same checkpoints, and removes
   nothing if and only if no user's remaining total reads as over budget: the last pass of the first
   prune may have taken from a total that had wrapped.
   */
  lemma IdempotentExactly(C: set<Candidate>, p: Policy)
    requires WellIdentified(C) && NoSentinel(C)
    ensures ProtectedSet(Survivors(C, p), p) == ProtectedSet(C, p)
    ensures Survivors(Survivors(C, p), p) == Survivors(C, p) <==>
            UserPassesIdle(Survivors(C, p), ProtectedSet(C, p), p)
  {
    var S, P := Survivors(C, p), ProtectedSet(C, p);
    RulesAtEnd(C, p);
    Shrinks(C, p);
    PassSettles(AfterUsers(C, p), P, p.config.maxBytesTotal);
    CountingRulesIdle(C, S, p);
    UserPassesLeaveAll(S, p);
    if UserPassesIdle(S, P, p) {
      Fixpoint(C, S, p);
    } else {
      Shrinks(S, p);
    }
  }

  /**
   When no user's pass reads a wrapped total, as with sums below 2^64 or without user budgets, or when
   there is no total budget, pruning is idempotent.
   */
  lemma Idempotent(C: set<Candidate>, p: Policy)
    requires WellIdentified(C) && NoSentinel(C)
    requires UserPassesExact(C, p) || p.config.maxBytesTotal == 0
    ensures Survivors(Survivors(C, p), p) == Survivors(C, p)
  {
    IdempotentExactly(C, p);
    Shrinks(C, p);
    forall c | c in Survivors(C, p)
      ensures PassIdle(InScope(Survivors(C, p), c.ownerUid), ProtectedSet(C, p), p.config.maxBytesPerUser) {
      if UserPassesExact(C, p) {
        ExactUserIdle(C, p, c);
      } else {
        LoneUserIdle(C, p, c);
      }
    }
  }

  lemma ExactUserIdle(C: set<Candidate>, p: Policy, c: Candidate)
    requires WellIdentified(C) && NoSentinel(C) && UserPassesExact(C, p) && c in Survivors(C, p)
    ensures PassIdle(InScope(Survivors(C, p), c.ownerUid), ProtectedSet(C, p), p.config.maxBytesPerUser)
  {
    UserBudgetsAtEnd(C, p);
    if p.config.maxBytesPerUser > 0 {
      MetIsIdle(InScope(Survivors(C, p), c.ownerUid), ProtectedSet(C, p), p.config.maxBytesPerUser);
    }
  }

  lemma LoneUserIdle(C: set<Candidate>, p: Policy, c: Candidate)
    requires WellIdentified(C) && NoSentinel(C) && c in C && p.config.maxBytesTotal == 0
    ensures PassIdle(InScope(Survivors(C, p), c.ownerUid), ProtectedSet(C, p), p.config.maxBytesPerUser)
  {
    assert Survivors(C, p) == AfterUsers(C, p);
    UserPassLeaves(C, p, c.ownerUid);
    PassSettles(InScope(AfterCount(C, p), c.ownerUid), ProtectedSet(C, p), p.config.maxBytesPerUser);
  }

  lemma BytesOfPair(a: Candidate, b: Candidate)
    requires a != b
    ensures Bytes({a}) == a.sizeBytes && Bytes({a, b}) == a.sizeBytes + b.sizeBytes
  {
    BytesRemove({a, b}, b);
    assert {a, b} - {b} == {a};
    BytesRemove({a}, a);
    assert {a} - {a} == {};
  }

  /** Nothing is protected without a floor and without anchors, and without age and cap nothing goes by them. */
  lemma OnlyBudgets(C: set<Candidate>, p: Policy)
    requires p.config.minKeepPerJob == 0 && p.preserveJob == "" && forall c :: c in C ==> c.latestCheckpoint == ""
    requires p.config.maxAgeSeconds == 0 && p.config.maxKeepPerJob == 0
    ensures ProtectedSet(C, p) == {} && AfterCount(C, p) == C
  {
    assert AfterAge(C, p) == C;
  }

  /**
   Beyond 2^64 a second prune may remove more. User 1's two checkpoints `x` and `y` add up to 2^64 and read as
   nothing; the total pass takes `x`, and now `y` alone is over user 1's budget.
   */
  lemma SecondPruneRemoves(x: Candidate, y: Candidate, z: Candidate, p: Policy)
    requires x == Candidate(1, "a", "", "x", 1, 0, 0, 10)
    requires y == Candidate(1, "a", "", "y", 1, 0, 1, TWO_64 - 10)
    requires z == Candidate(2, "b", "", "z", 1, 0, 2, 10)
    requires p == Policy(Config(0, 0, 0, 20, 5), 100, "", "")
    ensures Survivors({x, y, z}, p) == {y, z}
    ensures Survivors({y, z}, p) != {y, z}
  {
    WellNamed(x, y, z);
    OnlyBudgets({x, y, z}, p);
    FirstPrune({x, y, z}, x, y, z, p);
    OverAlone(y, z);
    NotIdle({y, z}, y, p);
    IdempotentExactly({x, y, z}, p);
  }

  lemma FirstPrune(C: set<Candidate>, x: Candidate, y: Candidate, z: Candidate, p: Policy)
    requires C == {x, y, z} && WellIdentified(C) && ProtectedSet(C, p) == {} && AfterCount(C, p) == C
    requires x.sizeBytes == 10 && y.sizeBytes == TWO_64 - 10 && z.sizeBytes == 10
    requires EvictionTime(x) == EvictionTime(y) == EvictionTime(z)
    requires x.restoreCount < y.restoreCount < z.restoreCount
    requires x.ownerUid == y.ownerUid == 1 && z.ownerUid == 2
    requires p.config.maxBytesPerUser == 20 && p.config.maxBytesTotal == 5
    ensures Survivors(C, p) == {y, z}
  {
    assert AfterUsers(C, p) == C by {
      UsersWithin(C, x, y, z);
      UsersKeepAll(C, p, {}, 20);
    }
    assert OverBudget(C, {}, 5) == {x} by {
      TotalTakesFirst(x, y, z);
    }
    DropFirst(C, x, y, z);
  }

  lemma DropFirst(C: set<Candidate>, x: Candidate, y: Candidate, z: Candidate)
    requires C == {x, y, z} && x != y && x != z
    ensures C - {x} == {y, z}
  {}

  lemma NotIdle(S: set<Candidate>, c: Candidate, p: Policy)
    requires c in S && !PassIdle(InScope(S, c.ownerUid), {}, p.config.maxBytesPerUser)
    ensures !UserPassesIdle(S, {}, p)
  {}

  lemma UsersKeepAll(C: set<Candidate>, p: Policy, P: set<Candidate>, budget: nat)
    requires AfterCount(C, p) == C && P == ProtectedSet(C, p) && budget == p.config.maxBytesPerUser
    requires forall c :: c in C ==> OverBudget(InScope(C, c.ownerUid), P, budget) == {}
    ensures AfterUsers(C, p) == C
  {}

  /** Both users read as within a budget of 20. */
  lemma UsersWithin(C: set<Candidate>, x: Candidate, y: Candidate, z: Candidate)
    requires C == {x, y, z} && WellIdentified(C) && x != y && x != z
    requires x.ownerUid == y.ownerUid == 1 && z.ownerUid == 2
    requires x.sizeBytes == 10 && y.sizeBytes == TWO_64 - 10 && z.sizeBytes == 10
    ensures forall c :: c in C ==> OverBudget(InScope(C, c.ownerUid), {}, 20) == {}
  {
    assert InScope(C, 1) == {x, y} && InScope(C, 2) == {z};
    BytesOfPair(x, y);
    BytesOfPair(z, x);
    IdleExactly({x, y}, {}, 20);
    IdleExactly({z}, {}, 20);
  }

  lemma OverAlone(y: Candidate, z: Candidate)
    requires y != z && y.ownerUid == 1 && z.ownerUid == 2 && y.sizeBytes == TWO_64 - 10
    ensures !PassIdle(InScope({y, z}, 1), {}, 20)
  {
    assert InScope({y, z}, 1) == {y};
    BytesOfPair(y, z);
  }

  lemma WellNamed(x: Candidate, y: Candidate, z: Candidate)
    requires x.jobId == "a" && y.jobId == "a" && z.jobId == "b" && x.checkpointId == "x" && y.checkpointId == "y"
    requires x.ownerUid == y.ownerUid == 1 && z.ownerUid == 2 && x.latestCheckpoint == y.latestCheckpoint
    ensures WellIdentified({x, y, z}) && NoSentinel({x, y, z})
  {
    assert "a"[0] != "b"[0] && "x"[0] != "y"[0];
  }

  lemma TotalTakesFirst(x: Candidate, y: Candidate, z: Candidate)
    requires x.sizeBytes == 10 && y.sizeBytes == TWO_64 - 10 && z.sizeBytes == 10
    requires EvictionTime(x) == EvictionTime(y) == EvictionTime(z)
    requires x.restoreCount < y.restoreCount < z.restoreCount && WellIdentified({x, y, z})
    ensures OverBudget({x, y, z}, {}, 5) == {x}
  {
    var S := {x, y, z};
    BytesRemove(S, z);
    assert S - {z} == {x, y};
    BytesOfPair(x, y);
    assert S - {} == S;
    ColderIsTotal(S);
    assert Below(Colder, S - {}, x) == {} && Below(Colder, S - {}, y) == {x};
    assert Left(S, {}, x) == TWO_64 + 10 && Left(S, {}, y) == TWO_64;
    assert AllOver(S, {}, 5, x);
    assert !AllOver(S, {}, 5, y) && !AllOver(S, {}, 5, z);
  }

  // ---- How much a job keeps --------------------------------------------------------------

  /** The daemon's start-up rule: a positive cap below the floor is raised to the floor. */
  function Normalised(config: Config): (r: Config)
    ensures r.maxKeepPerJob > 0 ==> r.minKeepPerJob <= r.maxKeepPerJob
    ensures r.maxKeepPerJob > 0 <==> config.maxKeepPerJob > 0
    ensures config.maxKeepPerJob <= 0 ==> r == config
    ensures config.maxKeepPerJob > 0 ==>
              && r == config.(maxKeepPerJob := r.maxKeepPerJob)
              && r.maxKeepPerJob in {config.maxKeepPerJob, config.minKeepPerJob}
              && r.maxKeepPerJob >= config.maxKeepPerJob && r.maxKeepPerJob >= config.minKeepPerJob
  {
    if 0 < config.maxKeepPerJob < config.minKeepPerJob
    then config.(maxKeepPerJob := config.minKeepPerJob)
    else config
  }

  /** With a positive cap no job keeps more than the cap, except that two anchors may exceed a cap of one. */
  lemma KeptAtMost(C: set<Candidate>, p: Policy, jobId: string)
    requires WellIdentified(C) && p.config == Normalised(p.config) && p.config.maxKeepPerJob > 0
    ensures |OfJob(Survivors(C, p), jobId)| <= if p.config.maxKeepPerJob > 2 then p.config.maxKeepPerJob else 2
  {
    RulesAtEnd(C, p);
    ProtectedAtMost(C, p, jobId);
    var J := OfJob(Survivors(C, p), jobId);
    if J <= ProtectedSet(C, p) {
      CardSubset(J, ProtectedOf(C, p, jobId));
    } else {
      var c :| c in J && c !in ProtectedSet(C, p);
      assert c in Survivors(C, p) && c.jobId == jobId;
    }
  }

  /** Whatever limits apply, a job whose anchors exist keeps its floor, or everything it had. */
  lemma KeptAtLeast(C: set<Candidate>, p: Policy, jobId: string)
    requires WellIdentified(C)
    requires forall c :: c in OfJob(C, jobId) ==> Anchors(p, c) <= Ids(OfJob(C, jobId))
    ensures |OfJob(Survivors(C, p), jobId)| >= p.config.minKeepPerJob
            || OfJob(Survivors(C, p), jobId) == OfJob(C, jobId)
  {
    ProtectedAtLeast(C, p, jobId);
    Shrinks(C, p);
    CardSubset(ProtectedOf(C, p, jobId), OfJob(Survivors(C, p), jobId));
  }

  // ---- The newest checkpoints ---------------------------------------------------------------

  ghost function Newest(C: set<Candidate>, jobId: string, k: int): set<Candidate> {
    FirstRanked(Newer, OfJob(C, jobId), k)
  }

  /** The oldest of the newest `k` that is not an anchor: below it only anchors, above it the rest. */
  lemma LastUnanchored(C: set<Candidate>, p: Policy, c: Candidate, k: int) returns (o: Candidate)
    requires WellIdentified(C) && c in C
    requires !(Ids(Newest(C, c.jobId, k)) <= Anchors(p, c))
    ensures o in Newest(C, c.jobId, k) && o.checkpointId !in Anchors(p, c)
    ensures forall d :: d in Newest(C, c.jobId, k) && d != o ==>
              d.checkpointId in Anchors(p, c) || Newer(d, o)
  {
    var A, N := Anchors(p, c), Newest(C, c.jobId, k);
    var U := set d | d in N && d.checkpointId !in A;
    NewerIsTotal(C, c.jobId);
    StrictTotalSubset(Newer, OfJob(C, c.jobId), U);
    var id :| id in Ids(N) && id !in A;
    var w :| w in N && w.checkpointId == id;
    assert w in U;
    o := Greatest(Newer, U);
  }

  /** Counting the newest `k` and the anchors up to that one. */
  lemma NewestCount(C: set<Candidate>, A: set<string>, jobId: string, k: int, o: Candidate)
    requires WellIdentified(C) && o in Newest(C, jobId, k) && o.checkpointId !in A
    requires forall d :: d in Newest(C, jobId, k) && d != o ==> d.checkpointId in A || Newer(d, o)
    ensures |A + Ids(Newest(C, jobId, k))| == |A + NewerIds(C, o)| + 1
  {
    var N, J := Newest(C, jobId, k), OfJob(C, jobId);
    forall d | d in Below(Newer, J, o) ensures d in N {
      NewerRank(C, d, o);
    }
    assert o.checkpointId !in NewerIds(C, o) by {
      Strings.LessIrreflexive(o.checkpointId);
    }
    assert A + Ids(N) == A + NewerIds(C, o) + {o.checkpointId};
  }

  lemma NewerRank(C: set<Candidate>, d: Candidate, o: Candidate)
    requires WellIdentified(C) && d in C && o in C && d.jobId == o.jobId && Newer(d, o)
    ensures |Below(Newer, OfJob(C, o.jobId), d)| <= |Below(Newer, OfJob(C, o.jobId), o)|
  {
    var J := OfJob(C, o.jobId);
    forall e | e in Below(Newer, J, d) ensures e in Below(Newer, J, o) {
      NewerTransitive(e, d, o);
    }
    CardSubset(Below(Newer, J, d), Below(Newer, J, o));
  }

  /**
   The newest `minKeepPerJob` checkpoints of a job are all protected exactly when they
   are anchors themselves or leave room for every anchor among `minKeepPerJob` ids. An
   older default restore target takes the place of one of them.
   */
  lemma NewestProtectedExactly(C: set<Candidate>, p: Policy, c: Candidate)
    requires WellIdentified(C) && c in C
    ensures var N := Newest(C, c.jobId, p.config.minKeepPerJob);
            (forall d :: d in N ==> Protected(C, p, d)) <==>
            (Ids(N) <= Anchors(p, c) || |Anchors(p, c) + Ids(N)| <= p.config.minKeepPerJob)
  {
    var N, A := Newest(C, c.jobId, p.config.minKeepPerJob), Anchors(p, c);
    if Ids(N) <= A {
      forall d | d in N ensures Protected(C, p, d) {
        SameAnchors(C, p, c, d);
        assert d.checkpointId in Ids(N);
      }
    } else {
      var o := LastUnanchored(C, p, c, p.config.minKeepPerJob);
      NewestCount(C, A, c.jobId, p.config.minKeepPerJob, o);
      SameAnchors(C, p, c, o);
      if Protected(C, p, o) {
        forall d | d in N ensures Protected(C, p, d) {
          SameAnchors(C, p, c, d);
          if d != o && d.checkpointId !in A { ReachedClosed(C, p, d, o); }
        }
      }
    }
  }

  /**
   So the newest are not always kept: with the default restore target `a` older than two
   failed dumps `b` and `c`, a floor of two keeps `a` and `c` and lets `b` expire.
   */
  lemma SecondNewestRemoved(a: string, b: string, c: string, latest: Candidate, second: Candidate, newest: Candidate)
    returns (C: set<Candidate>, p: Policy)
    requires a != "" && a != b && b != c && a != c
    requires latest == Candidate(7, "job", a, a, 1, 0, 0, 1)
    requires second == Candidate(7, "job", a, b, 2, 0, 0, 1)
    requires newest == Candidate(7, "job", a, c, 3, 0, 0, 1)
    ensures C == {latest, second, newest} && WellIdentified(C)
    ensures p.config == Normalised(p.config) && p.config.minKeepPerJob == 2
    ensures second in Newest(C, second.jobId, 2) && second !in Survivors(C, p)
  {
    C := {latest, second, newest};
    p := Policy(Config(10, 2, 5, 0, 0), 100, "", "");
    OneNewer(C, latest, second, newest);
    UnprotectedByAnchor(C, p, second, newest);
    ExpiredGoes(C, p, second);
  }

  lemma OneNewer(C: set<Candidate>, x: Candidate, y: Candidate, z: Candidate)
    requires C == {x, y, z} && x.jobId == y.jobId == z.jobId
    requires x.createdAt < y.createdAt < z.createdAt
    requires x.ownerUid == y.ownerUid == z.ownerUid
    requires x.latestCheckpoint == y.latestCheckpoint == z.latestCheckpoint
    requires x.checkpointId != y.checkpointId && y.checkpointId != z.checkpointId && x.checkpointId != z.checkpointId
    ensures WellIdentified(C)
    ensures Below(Newer, OfJob(C, y.jobId), y) == {z}
    ensures y in Newest(C, y.jobId, 2)
  {
    Strings.LessIrreflexive(y.checkpointId);
    assert forall d :: d in Below(Newer, OfJob(C, y.jobId), y) <==> d == z;
  }

  lemma ExpiredGoes(C: set<Candidate>, p: Policy, c: Candidate)
    requires !Protected(C, p, c) && Expired(p, c)
    ensures c !in Survivors(C, p)
  {
    Shrinks(C, p);
  }

  lemma UnprotectedByAnchor(C: set<Candidate>, p: Policy, c: Candidate, d: Candidate)
    requires p.config.minKeepPerJob == 2 && p.preserveJob == ""
    requires Below(Newer, OfJob(C, c.jobId), c) == {d}
    requires c.latestCheckpoint != "" && c.latestCheckpoint !in {c.checkpointId, d.checkpointId}
    ensures !Protected(C, p, c)
  {
    assert Anchors(p, c) + NewerIds(C, c) == {c.latestCheckpoint, d.checkpointId};
  }
}
