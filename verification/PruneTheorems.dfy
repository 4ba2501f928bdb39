/** What a prune does to a store, from what the policy does to its candidates. */
module PruneTheorems {
  import opened Paths
  import opened Pruning
  import opened Records
  import opened Retention
  import opened RetentionPolicy
  import opened RetentionTheorems
  import opened Stores

  lemma RefreshedCandidate(s: State, p: Policy, m: Measure, k: CheckpointKey)
    requires k in Prune(s, p, m).checkpoints && k.Job() in s.jobs
    ensures CandidateAt(Prune(s, p, m), m, k) == CandidateAt(s, m, k)
  {}

  lemma PrunedIsPrunable(s: State, p: Policy, m: Measure)
    requires Prunable(s)
    ensures Prunable(Prune(s, p, m))
  {
    var t := Prune(s, p, m);
    assert t.jobs == s.jobs;
    forall k | k in t.checkpoints
      ensures t.checkpoints[k].checkpointId == k.checkpointId && SafeId(k.checkpointId)
              && CheckpointLineFree(t.checkpoints[k]) && Numeric(t.checkpoints[k]) {
      RefreshInOrder(s.checkpoints[k], m(k));
    }
    forall k | k in t.checkpoints ensures k.Job() in t.jobs {
      assert k in s.checkpoints;
    }
  }

  lemma RefreshInOrder(c: CheckpointRecord, size: nat)
    requires CheckpointLineFree(c) && Numeric(c)
    ensures CheckpointLineFree(Refresh(c, size)) && Numeric(Refresh(c, size))
    ensures Refresh(c, size).checkpointId == c.checkpointId
  {}

  lemma LeftSurvives(s: State, p: Policy, m: Measure, c: Candidate)
    requires c in Candidates(Prune(s, p, m), m)
    ensures c in Survivors(Candidates(s, m), p)
  {
    var t := Prune(s, p, m);
    var k :| k in t.checkpoints && k.Job() in t.jobs && c == CandidateAt(t, m, k);
    RefreshedCandidate(s, p, m, k);
    assert k in s.checkpoints && k !in RemovedKeys(s, p, m);
  }

  lemma SurvivorIsLeft(s: State, p: Policy, m: Measure, c: Candidate)
    requires Prunable(s) && c in Survivors(Candidates(s, m), p)
    ensures c in Candidates(Prune(s, p, m), m)
  {
    Shrinks(Candidates(s, m), p);
    var k :| k in s.checkpoints && k.Job() in s.jobs && c == CandidateAt(s, m, k);
    assert k !in RemovedKeys(s, p, m);
    assert k in Prune(s, p, m).checkpoints;
    RefreshedCandidate(s, p, m, k);
  }

  /** What is left of a store is prunable again, and its candidates are the survivors. */
  lemma PrunedCandidates(s: State, p: Policy, m: Measure)
    requires Prunable(s)
    ensures Prunable(Prune(s, p, m))
    ensures Candidates(Prune(s, p, m), m) == Survivors(Candidates(s, m), p)
  {
    PrunedIsPrunable(s, p, m);
    forall c ensures c in Candidates(Prune(s, p, m), m) <==> c in Survivors(Candidates(s, m), p) {
      if c in Candidates(Prune(s, p, m), m) {
        LeftSurvives(s, p, m, c);
      }
      if c in Survivors(Candidates(s, m), p) {
        SurvivorIsLeft(s, p, m, c);
      }
    }
  }

  /**
   Once pruned, the store keeps every rule: protection, age and cap always, the total budget if and
   only if the last pass read no wrapped total, each user's budget when that user's pass read none.
   */
  lemma StoreEndState(s: State, p: Policy, m: Measure)
    requires Prunable(s)
    ensures var C, S := Candidates(s, m), Candidates(Prune(s, p, m), m);
            && RulesHold(C, S, p)
            && (UserPassesExact(C, p) ==> UserBudgetsMet(C, S, p))
            && (TotalPassExact(C, p) <==> TotalBudgetMet(C, S, p))
  {
    PrunedCandidates(s, p, m);
    CandidatesIdentified(s, m);
    EndState(Candidates(s, m), p);
  }

  /** A second prune of the store removes nothing if and only if no user's remaining total reads as over budget. */
  lemma SecondPruneIdleExactly(s: State, p: Policy, m: Measure)
    requires Prunable(s)
    ensures var t := Prune(s, p, m);
            RemovedKeys(t, p, m) == {} <==>
            UserPassesIdle(Candidates(t, m), ProtectedSet(Candidates(s, m), p), p)
  {
    var t, C := Prune(s, p, m), Candidates(s, m);
    PrunedCandidates(s, p, m);
    CandidatesIdentified(s, m);
    IdempotentExactly(C, p);
    NothingRemovedExactly(t, p, m);
  }

  lemma NothingRemovedExactly(t: State, p: Policy, m: Measure)
    requires Prunable(t)
    ensures RemovedKeys(t, p, m) == {} <==> Survivors(Candidates(t, m), p) == Candidates(t, m)
  {
    var C := Candidates(t, m);
    Shrinks(C, p);
    if RemovedKeys(t, p, m) == {} {
      forall c | c in C ensures c in Survivors(C, p) {
        CandidatesIdentified(t, m);
        assert KeyOfCandidate(c) !in RemovedKeys(t, p, m);
      }
    } else {
      var k :| k in RemovedKeys(t, p, m);
      assert CandidateAt(t, m, k) in C;
    }
  }

  /** When no user's pass reads a wrapped total, or without a total budget, pruning twice is pruning once. */
  lemma SecondPruneChangesNothing(s: State, p: Policy, m: Measure)
    requires Prunable(s)
    requires UserPassesExact(Candidates(s, m), p) || p.config.maxBytesTotal == 0
    ensures Prune(Prune(s, p, m), p, m) == Prune(s, p, m)
  {
    var t := Prune(s, p, m);
    PrunedCandidates(s, p, m);
    CandidatesIdentified(s, m);
    Idempotent(Candidates(s, m), p);
    NothingRemovedExactly(t, p, m);
    RefreshedTwice(s, p, m);
  }

  lemma RefreshedTwice(s: State, p: Policy, m: Measure)
    ensures var t := Prune(s, p, m); Without(t, m, t.checkpoints.Keys, {}) == t
  {
    var t := Prune(s, p, m);
    var u := Without(t, m, t.checkpoints.Keys, {});
    assert u.exports == t.exports;
    forall k | k in t.checkpoints ensures u.checkpoints[k] == t.checkpoints[k] {}
    assert u.checkpoints == t.checkpoints;
  }

  // ---- How many checkpoints a job keeps ------------------------------------------------------

  function CheckpointsOf(s: State, j: JobKey): set<CheckpointKey> {
    set k | k in s.checkpoints && k.Job() == j
  }

  function KeyIds(K: set<CheckpointKey>): set<string> {
    set k | k in K :: k.checkpointId
  }

  lemma {:induction false} KeyIdsCard(K: set<CheckpointKey>, j: JobKey)
    requires forall k :: k in K ==> k.Job() == j
    ensures |KeyIds(K)| == |K|
  {
    if K != {} {
      var k :| k in K;
      KeyIdsCard(K - {k}, j);
      assert KeyIds(K) == KeyIds(K - {k}) + {k.checkpointId};
    }
  }

  lemma SameJobIds(s: State, m: Measure, j: JobKey)
    requires Prunable(s) && j in s.jobs
    ensures Ids(OfJob(Candidates(s, m), j.jobId)) == KeyIds(CheckpointsOf(s, j))
  {
    var K, J := CheckpointsOf(s, j), OfJob(Candidates(s, m), j.jobId);
    forall id | id in Ids(J) ensures id in KeyIds(K) {
      var c :| c in J && c.checkpointId == id;
      CandidateIsOfJob(s, m, j, c);
    }
    forall k | k in K ensures k.checkpointId in Ids(J) {
      assert CandidateAt(s, m, k) in J;
    }
  }

  lemma CandidateIsOfJob(s: State, m: Measure, j: JobKey, c: Candidate)
    requires Prunable(s) && j in s.jobs && c in OfJob(Candidates(s, m), j.jobId)
    ensures KeyOfCandidate(c) in CheckpointsOf(s, j) && c == CandidateAt(s, m, KeyOfCandidate(c))
  {
    CandidatesIdentified(s, m);
  }

  /** A job has as many checkpoints as candidates. */
  lemma AsManyCandidates(s: State, m: Measure, j: JobKey)
    requires Prunable(s) && j in s.jobs
    ensures |CheckpointsOf(s, j)| == |OfJob(Candidates(s, m), j.jobId)|
  {
    SameJobIds(s, m, j);
    CandidatesIdentified(s, m);
    assert WellIdentified(OfJob(Candidates(s, m), j.jobId));
    IdsCard(OfJob(Candidates(s, m), j.jobId));
    KeyIdsCard(CheckpointsOf(s, j), j);
  }

  /** With a positive normalised cap a prune leaves a job at most max(cap, 2) checkpoints. */
  lemma JobKeepsAtMost(s: State, p: Policy, m: Measure, j: JobKey)
    requires Prunable(s) && j in s.jobs && p.config == Normalised(p.config) && p.config.maxKeepPerJob > 0
    ensures |CheckpointsOf(Prune(s, p, m), j)| <= if p.config.maxKeepPerJob > 2 then p.config.maxKeepPerJob else 2
  {
    CandidatesIdentified(s, m);
    PrunedCandidates(s, p, m);
    KeptAtMost(Candidates(s, m), p, j.jobId);
    AsManyCandidates(Prune(s, p, m), m, j);
  }

  /** The ids protected by name exist: the default target, and the request's own when it is of this job. */
  predicate AnchorsExist(s: State, p: Policy, j: JobKey)
    requires j in s.jobs
  {
    var latest := s.jobs[j].latestCheckpoint;
    && (latest == "" || CheckpointKey(j.uid, j.jobId, latest) in s.checkpoints)
    && (p.preserveJob != j.jobId || CheckpointKey(j.uid, j.jobId, p.preserveCheckpoint) in s.checkpoints)
  }

  /** Whatever limits apply, a job whose anchors exist keeps its floor, or every checkpoint it had. */
  lemma JobKeepsAtLeast(s: State, p: Policy, m: Measure, j: JobKey)
    requires Prunable(s) && j in s.jobs && AnchorsExist(s, p, j)
    ensures |CheckpointsOf(Prune(s, p, m), j)| >= p.config.minKeepPerJob
            || CheckpointsOf(Prune(s, p, m), j) == CheckpointsOf(s, j)
  {
    var C := Candidates(s, m);
    CandidatesIdentified(s, m);
    forall c | c in OfJob(C, j.jobId) ensures Anchors(p, c) <= Ids(OfJob(C, j.jobId)) {
      AnchorsListed(s, p, m, j, c);
    }
    KeptAtLeast(C, p, j.jobId);
    PrunedCandidates(s, p, m);
    AsManyCandidates(Prune(s, p, m), m, j);
    if OfJob(Survivors(C, p), j.jobId) == OfJob(C, j.jobId) {
      AllOfJobLeft(s, p, m, j);
    }
  }

  lemma AllOfJobLeft(s: State, p: Policy, m: Measure, j: JobKey)
    requires Prunable(s) && j in s.jobs
    requires OfJob(Survivors(Candidates(s, m), p), j.jobId) == OfJob(Candidates(s, m), j.jobId)
    ensures CheckpointsOf(Prune(s, p, m), j) == CheckpointsOf(s, j)
  {
    forall k | k in CheckpointsOf(s, j) ensures k in Prune(s, p, m).checkpoints {
      assert CandidateAt(s, m, k) in OfJob(Candidates(s, m), j.jobId);
    }
  }

  lemma AnchorsListed(s: State, p: Policy, m: Measure, j: JobKey, c: Candidate)
    requires Prunable(s) && j in s.jobs && AnchorsExist(s, p, j) && c in OfJob(Candidates(s, m), j.jobId)
    ensures Anchors(p, c) <= Ids(OfJob(Candidates(s, m), j.jobId))
  {
    SameJobIds(s, m, j);
    CandidateIsOfJob(s, m, j, c);
    assert c.latestCheckpoint == s.jobs[j].latestCheckpoint;
    forall id | id in Anchors(p, c) ensures id in KeyIds(CheckpointsOf(s, j)) {
      assert CheckpointKey(j.uid, j.jobId, id) in CheckpointsOf(s, j);
    }
  }
}
