/**
 A prune read off the stored records: which checkpoints stay whatever the limits, which go for their
 age, which are given up first, and what is left of the records that stay. Nothing here mentions
 candidates, marks or the policy's own orders.
 */
module PruneReading {
  import opened Decimal
  import opened EvictionOrder
  import opened Orders
  import opened Paths
  import opened Pruning
  import opened PruneTheorems
  import opened Retention
  import opened RetentionPolicy
  import opened Stores
  import Strings

  // ---- What stays whatever the limits ------------------------------------------------------

  /** The ids of a job that are kept by name: its default target, and the one the request was about. */
  ghost function NamedIds(s: State, p: Policy, j: JobKey): set<string>
    requires j in s.jobs
  {
    (if s.jobs[j].latestCheckpoint != "" then {s.jobs[j].latestCheckpoint} else {})
    + (if p.preserveJob == j.jobId != "" && p.preserveCheckpoint != "" then {p.preserveCheckpoint} else {})
  }

  /** Checkpoints of the same job created later, or at the same time and named later. */
  ghost predicate Ahead(s: State, l: CheckpointKey, k: CheckpointKey)
    requires l in s.checkpoints && k in s.checkpoints
  {
    && l.Job() == k.Job()
    && var a, b := Num(s.checkpoints[l].createdAt), Num(s.checkpoints[k].createdAt);
       a > b || (a == b && Strings.Precedes(k.checkpointId, l.checkpointId))
  }

  ghost function AheadIds(s: State, k: CheckpointKey): set<string>
    requires k in s.checkpoints
  {
    set l | l in s.checkpoints && Ahead(s, l, k) :: l.checkpointId
  }

  /** Kept by name, or among the newest while those and the named ones are fewer than the floor. */
  ghost predicate Guarded(s: State, p: Policy, k: CheckpointKey)
    requires k in s.checkpoints && k.Job() in s.jobs
  {
    || k.checkpointId in NamedIds(s, p, k.Job())
    || |NamedIds(s, p, k.Job()) + AheadIds(s, k)| < p.config.minKeepPerJob
  }

  lemma AnchorsAreNamed(s: State, p: Policy, m: Measure, k: CheckpointKey)
    requires Prunable(s) && k in s.checkpoints
    ensures Anchors(p, CandidateAt(s, m, k)) == NamedIds(s, p, k.Job())
  {
    assert KeyOf(s.jobs[k.Job()]) == k.Job();
  }

  lemma NewerIsAhead(s: State, m: Measure, l: CheckpointKey, k: CheckpointKey)
    requires Prunable(s) && l in s.checkpoints && k in s.checkpoints && l.Job() == k.Job()
    ensures Newer(CandidateAt(s, m, l), CandidateAt(s, m, k)) <==> Ahead(s, l, k)
  {
    Strings.LessExactly(k.checkpointId, l.checkpointId);
  }

  lemma NewerIdsAreAhead(s: State, m: Measure, k: CheckpointKey)
    requires Prunable(s) && k in s.checkpoints
    ensures NewerIds(Candidates(s, m), CandidateAt(s, m, k)) == AheadIds(s, k)
  {
    var c, J := CandidateAt(s, m, k), OfJob(Candidates(s, m), k.jobId);
    assert c.jobId == k.jobId;
    forall id | id in NewerIds(Candidates(s, m), c) ensures id in AheadIds(s, k) {
      var d :| d in Below(Newer, J, c) && d.checkpointId == id;
      CandidateIsOfJob(s, m, k.Job(), d);
      NewerIsAhead(s, m, KeyOfCandidate(d), k);
    }
    forall l | l in s.checkpoints && Ahead(s, l, k) ensures l.checkpointId in NewerIds(Candidates(s, m), c) {
      NewerIsAhead(s, m, l, k);
      assert CandidateAt(s, m, l) in Below(Newer, J, c);
    }
  }

  lemma ProtectedIsGuarded(s: State, p: Policy, m: Measure, k: CheckpointKey)
    requires Prunable(s) && k in s.checkpoints
    ensures Protected(Candidates(s, m), p, CandidateAt(s, m, k)) <==> Guarded(s, p, k)
  {
    AnchorsAreNamed(s, p, m, k);
    NewerIdsAreAhead(s, m, k);
  }

  /** A guarded checkpoint stays, whatever age, cap and budgets say. */
  lemma GuardedStays(s: State, p: Policy, m: Measure, k: CheckpointKey)
    requires Prunable(s) && k in s.checkpoints && Guarded(s, p, k)
    ensures k in Prune(s, p, m).checkpoints && k !in RemovedKeys(s, p, m)
  {
    ProtectedIsGuarded(s, p, m, k);
    assert CandidateAt(s, m, k) in Candidates(s, m);
    Shrinks(Candidates(s, m), p);
  }

  // ---- What goes for its age -----------------------------------------------------------------

  /** Dated, and as old as the limit or older. */
  predicate TooOld(s: State, p: Policy, k: CheckpointKey)
    requires k in s.checkpoints
  {
    var created := Num(s.checkpoints[k].createdAt);
    p.config.maxAgeSeconds > 0 && created > 0 && p.now - created >= p.config.maxAgeSeconds
  }

  /** What is too old and not guarded goes. */
  lemma TooOldGoes(s: State, p: Policy, m: Measure, k: CheckpointKey)
    requires Prunable(s) && k in s.checkpoints && TooOld(s, p, k) && !Guarded(s, p, k)
    ensures k !in Prune(s, p, m).checkpoints
  {
    ProtectedIsGuarded(s, p, m, k);
    Shrinks(Candidates(s, m), p);
  }

  /** Without a cap and budgets nothing else goes. */
  lemma OnlyTooOldGo(s: State, p: Policy, m: Measure, k: CheckpointKey)
    requires Prunable(s) && k in s.checkpoints
    requires p.config.maxKeepPerJob <= 0 && p.config.maxBytesPerUser == 0 && p.config.maxBytesTotal == 0
    ensures k !in Prune(s, p, m).checkpoints <==> TooOld(s, p, k) && !Guarded(s, p, k)
  {
    ProtectedIsGuarded(s, p, m, k);
    NoBudgets(Candidates(s, m), p);
    NoCap(Candidates(s, m), p);
    assert CandidateAt(s, m, k) in Candidates(s, m);
  }

  lemma NoCap(C: set<Candidate>, p: Policy)
    requires p.config.maxKeepPerJob <= 0
    ensures AfterCount(C, p) == AfterAge(C, p)
  {}

  lemma NoUserBudget(C: set<Candidate>, p: Policy)
    requires p.config.maxBytesPerUser == 0
    ensures AfterUsers(C, p) == AfterCount(C, p)
  {}

  // ---- What is given up first ------------------------------------------------------------------

  /** What a stored checkpoint is worth, its size as measured. */
  function RecordWorth(s: State, m: Measure, k: CheckpointKey): Worth
    requires k in s.checkpoints
  {
    var c := s.checkpoints[k];
    var restored := Num(c.lastRestoredAt);
    Worth(if restored > 0 then restored else 0, Num(c.restoreCount), m(k), Num(c.createdAt), k.jobId, k.checkpointId)
  }

  lemma SameWorth(s: State, m: Measure, k: CheckpointKey)
    requires Prunable(s) && k in s.checkpoints
    ensures WorthOf(CandidateAt(s, m, k)) == RecordWorth(s, m, k)
  {
    assert KeyOf(s.jobs[k.Job()]) == k.Job();
  }

  /**
   A checkpoint that goes without being too old is worth less than every unguarded one that stays in
   its job; than every one of its user when there is no cap; than every one when there are no user
   budgets either.
   */
  lemma GivenUpIsWorthLess(s: State, p: Policy, m: Measure, k: CheckpointKey, l: CheckpointKey)
    requires Prunable(s) && k in s.checkpoints && k !in Prune(s, p, m).checkpoints && !TooOld(s, p, k)
    requires l in s.checkpoints && l in Prune(s, p, m).checkpoints && !Guarded(s, p, l)
    requires || k.Job() == l.Job()
             || (p.config.maxKeepPerJob <= 0 && k.uid == l.uid)
             || (p.config.maxKeepPerJob <= 0 && p.config.maxBytesPerUser == 0)
    ensures WorthLess(RecordWorth(s, m, k), RecordWorth(s, m, l))
  {
    var C, b, a := Candidates(s, m), CandidateAt(s, m, k), CandidateAt(s, m, l);
    assert b in C && a in C && KeyOf(s.jobs[k.Job()]) == k.Job() && KeyOf(s.jobs[l.Job()]) == l.Job();
    CandidatesIdentified(s, m);
    ProtectedIsGuarded(s, p, m, l);
    SameWorth(s, m, k);
    SameWorth(s, m, l);
    if p.config.maxKeepPerJob <= 0 {
      NoCap(C, p);
    }
    if p.config.maxBytesPerUser == 0 {
      NoUserBudget(C, p);
    }
    EvictedIsWorthLess(C, p, b, a);
  }

  // ---- What is left ----------------------------------------------------------------------------

  /** What stays has its size measured again and is otherwise as it was; jobs are untouched, exports go with it. */
  lemma LeftAsMeasured(s: State, p: Policy, m: Measure)
    ensures var t := Prune(s, p, m);
            && t.jobs == s.jobs && t.checkpoints.Keys <= s.checkpoints.Keys
            && (forall k :: k in t.checkpoints ==>
                  t.checkpoints[k] == s.checkpoints[k].(sizeBytes := ToString(m(k))))
            && (forall k :: k in t.exports ==> k in s.exports)
            && (forall k :: k in s.exports && k in t.checkpoints ==> k in t.exports)
            && (forall k :: k in s.checkpoints && k !in t.checkpoints ==> k !in t.exports)
  {}

  /** After a prune no checkpoint is too old unless it is guarded, among those left as among those before. */
  lemma NothingTooOldLeft(s: State, p: Policy, m: Measure, k: CheckpointKey)
    requires Prunable(s) && k in Prune(s, p, m).checkpoints && TooOld(Prune(s, p, m), p, k)
    ensures k in s.checkpoints && Guarded(s, p, k) && k.Job() in Prune(s, p, m).jobs && Guarded(Prune(s, p, m), p, k)
  {
    var t := Prune(s, p, m);
    if !Guarded(s, p, k) {
      TooOldGoes(s, p, m, k);
    }
    PrunedCandidates(s, p, m);
    CandidatesIdentified(s, m);
    Shrinks(Candidates(s, m), p);
    ProtectedIsGuarded(s, p, m, k);
    RefreshedCandidate(s, p, m, k);
    assert CandidateAt(t, m, k) in Candidates(t, m);
    ProtectionStable(Candidates(s, m), Candidates(t, m), p, CandidateAt(s, m, k));
    ProtectedIsGuarded(t, p, m, k);
  }
}
