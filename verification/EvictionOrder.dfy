/** In which order checkpoints are given up, read off their fields. */
module EvictionOrder {
  import opened Orders
  import opened Retention
  import opened RetentionPolicy
  import opened RetentionTheorems
  import Strings

  /** How much a checkpoint is worth keeping: when it was last used, how often, how large, how old, which one. */
  datatype Worth = Worth(lastUse: int, uses: int, size: nat, created: int, job: string, id: string)

  /** Given up first: used longer ago, then less often, then larger, then older, then by name. */
  ghost predicate WorthLess(x: Worth, y: Worth) {
    || x.lastUse < y.lastUse
    || (x.lastUse == y.lastUse && x.uses < y.uses)
    || (x.lastUse == y.lastUse && x.uses == y.uses && x.size > y.size)
    || (x.lastUse == y.lastUse && x.uses == y.uses && x.size == y.size && x.created < y.created)
    || (x.(id := "") == y.(job := x.job, id := "") && Strings.Precedes(x.job, y.job))
    || (x.(id := "") == y.(id := "") && Strings.Precedes(x.id, y.id))
  }

  function WorthOf(c: Candidate): Worth {
    Worth(if c.lastRestoredAt > 0 then c.lastRestoredAt else 0, c.restoreCount, c.sizeBytes, c.createdAt, c.jobId,
          c.checkpointId)
  }

  lemma ColderIsWorthLess(a: Candidate, b: Candidate)
    ensures Colder(a, b) <==> WorthLess(WorthOf(a), WorthOf(b))
  {
    Strings.LessExactly(a.jobId, b.jobId);
    Strings.LessExactly(a.checkpointId, b.checkpointId);
    Strings.LessIrreflexive(a.jobId);
  }

  /** What is taken from the cold end of a pool is worth less than what is left in it. */
  lemma TakenIsWorthLess(E: set<Candidate>, pool: set<Candidate>, b: Candidate, a: Candidate)
    requires WellIdentified(pool) && ColdPrefix(E, pool) && b in E && a in pool && a !in E
    ensures WorthLess(WorthOf(b), WorthOf(a))
  {
    ColderIsTotal(pool);
    assert b in pool && a != b;
    ColderIsWorthLess(b, a);
  }

  lemma OverCountIsPrefix(L: set<Candidate>, P: set<Candidate>, maxKeep: int)
    requires WellIdentified(L)
    ensures ColdPrefix(OverCount(L, P, maxKeep), L - P)
  {
    var pool := L - P;
    ColderIsTotal(L);
    forall a, b | a in pool && b in OverCount(L, P, maxKeep) && Colder(a, b) ensures a in OverCount(L, P, maxKeep) {
      CardSubset(Below(Colder, pool, a), Below(Colder, pool, b));
    }
  }

  lemma CapTakesWorthLess(C: set<Candidate>, p: Policy, b: Candidate, a: Candidate)
    requires WellIdentified(C) && b in AfterAge(C, p) && b !in AfterCount(C, p)
    requires a in AfterCount(C, p) && !Protected(C, p, a) && a.jobId == b.jobId
    ensures WorthLess(WorthOf(b), WorthOf(a))
  {
    var L, P := OfJob(AfterAge(C, p), b.jobId), ProtectedSet(C, p);
    assert WellIdentified(L);
    OverCountIsPrefix(L, P, p.config.maxKeepPerJob);
    TakenIsWorthLess(OverCount(L, P, p.config.maxKeepPerJob), L - P, b, a);
  }

  lemma UserPassTakesWorthLess(C: set<Candidate>, p: Policy, b: Candidate, a: Candidate)
    requires WellIdentified(C) && NoSentinel(C) && b in AfterCount(C, p) && b !in AfterUsers(C, p)
    requires a in AfterUsers(C, p) && !Protected(C, p, a) && a.ownerUid == b.ownerUid
    ensures WorthLess(WorthOf(b), WorthOf(a))
  {
    var S, P := InScope(AfterCount(C, p), b.ownerUid), ProtectedSet(C, p);
    Shrinks(C, p);
    assert WellIdentified(S);
    OverBudgetIsPrefix(S, P, p.config.maxBytesPerUser);
    assert a !in OverBudget(InScope(AfterCount(C, p), a.ownerUid), P, p.config.maxBytesPerUser);
    TakenIsWorthLess(OverBudget(S, P, p.config.maxBytesPerUser), S - P, b, a);
  }

  lemma TotalPassTakesWorthLess(C: set<Candidate>, p: Policy, b: Candidate, a: Candidate)
    requires WellIdentified(C) && b in AfterUsers(C, p) && b !in Survivors(C, p)
    requires a in Survivors(C, p) && !Protected(C, p, a)
    ensures WorthLess(WorthOf(b), WorthOf(a))
  {
    var S, P := AfterUsers(C, p), ProtectedSet(C, p);
    Shrinks(C, p);
    assert WellIdentified(S);
    OverBudgetIsPrefix(S, P, p.config.maxBytesTotal);
    TakenIsWorthLess(OverBudget(S, P, p.config.maxBytesTotal), S - P, b, a);
  }

  /**
   Whatever goes by the cap or a budget is worth less than every unprotected survivor it competed with:
   those of its job always, those of its user unless its job's cap took it, all of them when only
   the total budget did.
   */
  lemma EvictedIsWorthLess(C: set<Candidate>, p: Policy, b: Candidate, a: Candidate)
    requires WellIdentified(C) && NoSentinel(C) && b in AfterAge(C, p) && b !in Survivors(C, p)
    requires a in Survivors(C, p) && !Protected(C, p, a)
    requires || a.jobId == b.jobId
             || (b in AfterCount(C, p) && a.ownerUid == b.ownerUid)
             || b in AfterUsers(C, p)
    ensures WorthLess(WorthOf(b), WorthOf(a))
  {
    Shrinks(C, p);
    if b !in AfterCount(C, p) {
      CapTakesWorthLess(C, p, b, a);
    } else if b !in AfterUsers(C, p) {
      UserPassTakesWorthLess(C, p, b, a);
    } else {
      TotalPassTakesWorthLess(C, p, b, a);
    }
  }

  /**
   Three checkpoints under a cap of two: `c` is the default target, `b` was just restored, `a` never was.
   The one never used goes.
   */
  lemma NeverUsedGoes(a: Candidate, b: Candidate, c: Candidate, p: Policy)
    requires a == Candidate(7, "job", "c", "a", 1, 0, 0, 10) && b == Candidate(7, "job", "c", "b", 2, 50, 1, 10)
    requires c == Candidate(7, "job", "c", "c", 3, 0, 0, 10)
    requires p == Policy(Config(0, 1, 2, 0, 0), 100, "", "")
    ensures Survivors({a, b, c}, p) == {b, c}
  {
    assert "a"[0] != "b"[0] && "b"[0] != "c"[0] && "a"[0] != "c"[0];
    FirstOfThreeGoes(a, b, c, p);
  }

  lemma FirstOfThreeGoes(a: Candidate, b: Candidate, c: Candidate, p: Policy)
    requires p.config == Config(0, 1, 2, 0, 0) && p.preserveJob == "" && a.jobId == b.jobId == c.jobId
    requires a.latestCheckpoint == b.latestCheckpoint == c.latestCheckpoint == c.checkpointId != ""
    requires a.checkpointId != b.checkpointId && a.checkpointId != c.checkpointId && b.checkpointId != c.checkpointId
    requires a.lastRestoredAt <= 0 < b.lastRestoredAt
    ensures Survivors({a, b, c}, p) == {b, c}
  {
    var C := {a, b, c};
    OnlyTarget(C, p, a, b, c);
    CapTakesFirst(C, {c}, a, b, c);
    OneJob(C, a, b, c);
    CapOnly(C, p, {c}, {a});
    AllButFirst(C, a, b, c);
  }

  lemma OneJob(C: set<Candidate>, a: Candidate, b: Candidate, c: Candidate)
    requires C == {a, b, c} && a.jobId == b.jobId == c.jobId
    ensures forall d :: d in C ==> OfJob(C, d.jobId) == C
  {}

  lemma AllButFirst(C: set<Candidate>, a: Candidate, b: Candidate, c: Candidate)
    requires C == {a, b, c} && a != b && a != c
    ensures C - {a} == {b, c}
  {}

  /** Without age and budgets, a job alone in the store loses what is over its cap. */
  lemma CapOnly(C: set<Candidate>, p: Policy, P: set<Candidate>, E: set<Candidate>)
    requires P == ProtectedSet(C, p) && E == OverCount(C, P, p.config.maxKeepPerJob)
    requires forall c :: c in C ==> OfJob(C, c.jobId) == C
    requires p.config.maxAgeSeconds == 0 && p.config.maxBytesPerUser == 0 && p.config.maxBytesTotal == 0
    ensures Survivors(C, p) == C - E
  {
    NoBudgets(C, p);
    assert AfterAge(C, p) == C;
  }

  lemma OnlyTarget(C: set<Candidate>, p: Policy, a: Candidate, b: Candidate, c: Candidate)
    requires C == {a, b, c} && p.config.minKeepPerJob == 1 && p.preserveJob == ""
    requires a.latestCheckpoint == b.latestCheckpoint == c.latestCheckpoint == c.checkpointId != ""
    requires a.checkpointId != c.checkpointId && b.checkpointId != c.checkpointId
    ensures ProtectedSet(C, p) == {c}
  {
    forall d | d in C ensures Protected(C, p, d) <==> d == c {
      OneAnchorFillsFloor(C, p, d);
    }
  }

  /** A floor of one is filled by the default target. */
  lemma OneAnchorFillsFloor(C: set<Candidate>, p: Policy, d: Candidate)
    requires p.config.minKeepPerJob == 1 && p.preserveJob == "" && d.latestCheckpoint != ""
    ensures Protected(C, p, d) <==> d.checkpointId == d.latestCheckpoint
  {
    var ids := Anchors(p, d) + NewerIds(C, d);
    assert d.latestCheckpoint in ids;
    CardSubset({d.latestCheckpoint}, ids);
  }

  lemma CapTakesFirst(C: set<Candidate>, P: set<Candidate>, a: Candidate, b: Candidate, c: Candidate)
    requires C == {a, b, c} && P == {c} && a != b && b != c && a != c
    requires a.lastRestoredAt <= 0 < b.lastRestoredAt
    ensures OverCount(C, P, 2) == {a}
  {
    assert C - P == {a, b};
    assert Colder(a, b) && !Colder(b, a);
    Strings.LessIrreflexive(a.checkpointId);
    Strings.LessIrreflexive(b.checkpointId);
    assert Below(Colder, C - P, a) == {} && Below(Colder, C - P, b) == {a};
    assert |C| == 3;
  }

  lemma NoBudgets(C: set<Candidate>, p: Policy)
    requires p.config.maxBytesPerUser == 0 && p.config.maxBytesTotal == 0
    ensures Survivors(C, p) == AfterCount(C, p)
  {}
}
