/** The prune as the daemon runs it: collect every job, apply the budgets, remove what is marked. */
module PruneRun {
  import opened Orders
  import opened Outcomes
  import opened Paths
  import opened Pruning
  import opened Records
  import opened Retention
  import opened RetentionPasses
  import opened RetentionPolicy
  import opened Stores

  type Checkpoints = map<CheckpointKey, CheckpointRecord>

  /** Which of the coming saves and removals the file system completes; past the end it completes all. */
  type Script = seq<bool>

  predicate Works(script: Script) {
    script == [] || script[0]
  }

  function Rest(script: Script): Script {
    if script == [] then [] else script[1..]
  }

  /** The records once the sizes of some jobs' checkpoints are measured again. */
  ghost function Refreshed(s: State, m: Measure, jobs: set<string>): Checkpoints {
    map k | k in s.checkpoints :: if k.jobId in jobs then Refresh(s.checkpoints[k], m(k)) else s.checkpoints[k]
  }

  /** The records once the first `i` of a listing are saved with fresh sizes. */
  ghost function Saved(base: Checkpoints, job: JobRecord, list: seq<CheckpointRecord>, m: Measure, i: nat): Checkpoints
    requires i <= |list|
  {
    if i == 0 then base
    else
      var key := CheckpointKeyOf(job, list[i - 1].checkpointId);
      Saved(base, job, list, m, i - 1)[key := Refresh(list[i - 1], m(key))]
  }

  lemma {:induction false} SavedElsewhere(base: Checkpoints, job: JobRecord, list: seq<CheckpointRecord>, m: Measure,
                                          i: nat, k: CheckpointKey)
    requires i <= |list| && forall j :: 0 <= j < i ==> CheckpointKeyOf(job, list[j].checkpointId) != k
    ensures k in Saved(base, job, list, m, i) <==> k in base
    ensures k in base ==> Saved(base, job, list, m, i)[k] == base[k]
  {
    if i > 0 {
      SavedElsewhere(base, job, list, m, i - 1, k);
    }
  }

  lemma {:induction false} SavedHere(base: Checkpoints, job: JobRecord, list: seq<CheckpointRecord>, m: Measure,
                                     i: nat, j: nat)
    requires j < i <= |list| && DistinctIds(list)
    ensures var k := CheckpointKeyOf(job, list[j].checkpointId);
            k in Saved(base, job, list, m, i) && Saved(base, job, list, m, i)[k] == Refresh(list[j], m(k))
  {
    if j < i - 1 {
      SavedHere(base, job, list, m, i - 1, j);
    }
  }

  lemma SavedAll(s: State, job: JobRecord, list: seq<CheckpointRecord>, m: Measure, jobs: set<string>)
    requires Prunable(s) && IsListing(s, job, list) && job.jobId !in jobs
    ensures Saved(Refreshed(s, m, jobs), job, list, m, |list|) == Refreshed(s, m, jobs + {job.jobId})
  {
    var saved, goal := Saved(Refreshed(s, m, jobs), job, list, m, |list|), Refreshed(s, m, jobs + {job.jobId});
    forall k ensures Agree(saved, goal, k) {
      SavedAgrees(s, job, list, m, jobs, k);
    }
    AgreeEverywhere(saved, goal);
  }

  ghost predicate Agree(a: Checkpoints, b: Checkpoints, k: CheckpointKey) {
    (k in a <==> k in b) && (k in a ==> a[k] == b[k])
  }

  lemma AgreeEverywhere(a: Checkpoints, b: Checkpoints)
    requires forall k :: Agree(a, b, k)
    ensures a == b
  {
    assert forall k :: k in a ==> Agree(a, b, k);
    assert forall k :: k in b ==> Agree(a, b, k);
  }

  lemma SavedAgrees(s: State, job: JobRecord, list: seq<CheckpointRecord>, m: Measure, jobs: set<string>,
                    k: CheckpointKey)
    requires Prunable(s) && IsListing(s, job, list) && job.jobId !in jobs
    ensures Agree(Saved(Refreshed(s, m, jobs), job, list, m, |list|), Refreshed(s, m, jobs + {job.jobId}), k)
  {
    var base := Refreshed(s, m, jobs);
    SavedKey(s, job, list, k);
    if k in s.checkpoints && k.jobId == job.jobId {
      var j :| 0 <= j < |list| && CheckpointKeyOf(job, list[j].checkpointId) == k;
      SavedHere(base, job, list, m, |list|, j);
    } else {
      SavedElsewhere(base, job, list, m, |list|, k);
    }
  }

  // ---- A collection cut short -------------------------------------------------------------------

  /** The keys of the checkpoints of some jobs, and those of the first `n` of a listing. */
  ghost function KeysSoFar(s: State, jobs: set<string>, job: JobRecord, list: seq<CheckpointRecord>, n: nat)
    : set<CheckpointKey>
    requires n <= |list|
  {
    (set k | k in s.checkpoints && k.jobId in jobs) +
    (set j | 0 <= j < n :: CheckpointKeyOf(job, list[j].checkpointId))
  }

  /** Stopped inside a job, the store holds fresh sizes for the keys reached and is otherwise as it was. */
  lemma SavedSome(s: State, job: JobRecord, list: seq<CheckpointRecord>, m: Measure, jobs: set<string>, n: nat)
    requires Prunable(s) && IsListing(s, job, list) && job.jobId !in jobs && n <= |list|
    ensures State(s.jobs, Saved(Refreshed(s, m, jobs), job, list, m, n), s.exports)
         == Without(s, m, KeysSoFar(s, jobs, job, list, n), {})
  {
    var saved := Saved(Refreshed(s, m, jobs), job, list, m, n);
    var goal := Without(s, m, KeysSoFar(s, jobs, job, list, n), {}).checkpoints;
    forall k ensures Agree(saved, goal, k) {
      SomeAgrees(s, job, list, m, jobs, n, k);
    }
    AgreeEverywhere(saved, goal);
    NothingGone(s.checkpoints, s.exports);
  }

  lemma SomeAgrees(s: State, job: JobRecord, list: seq<CheckpointRecord>, m: Measure, jobs: set<string>, n: nat,
                   k: CheckpointKey)
    requires Prunable(s) && IsListing(s, job, list) && job.jobId !in jobs && n <= |list|
    ensures Agree(Saved(Refreshed(s, m, jobs), job, list, m, n),
                  Without(s, m, KeysSoFar(s, jobs, job, list, n), {}).checkpoints, k)
  {
    var base := Refreshed(s, m, jobs);
    SavedKey(s, job, list, k);
    if j :| 0 <= j < n && CheckpointKeyOf(job, list[j].checkpointId) == k {
      SavedHere(base, job, list, m, n, j);
    } else {
      SavedElsewhere(base, job, list, m, n, k);
    }
  }

  /** The store when a collection stopped: fresh sizes for `reached`, nothing else changed. */
  ghost predicate Halted(store: Store, m: Measure, s: State, reached: set<CheckpointKey>)
    reads store
  {
    store.Valid() && store.View() == Without(s, m, reached, {})
  }

  /** A key belongs to a listed checkpoint exactly when it is one of the job's. */
  lemma SavedKey(s: State, job: JobRecord, list: seq<CheckpointRecord>, k: CheckpointKey)
    requires Prunable(s) && IsListing(s, job, list)
    ensures k in s.checkpoints && k.jobId == job.jobId <==>
            exists j :: 0 <= j < |list| && CheckpointKeyOf(job, list[j].checkpointId) == k
    ensures forall j :: 0 <= j < |list| && CheckpointKeyOf(job, list[j].checkpointId) == k ==>
              k in s.checkpoints && s.checkpoints[k] == list[j]
  {
    if k in s.checkpoints && k.jobId == job.jobId {
      assert k.Job() == KeyOf(job);
      assert s.checkpoints[k] in list;
    }
    forall j | 0 <= j < |list| && CheckpointKeyOf(job, list[j].checkpointId) == k
      ensures k in s.checkpoints && s.checkpoints[k] == list[j] && k.jobId == job.jobId {
      assert list[j] in list;
    }
  }

  /** The candidates of a listing, unmarked, with the protected flag of each. */
  ghost function Block(job: JobRecord, list: seq<CheckpointRecord>, ids: set<string>, m: Measure)
    : (block: seq<RetentionCandidate>)
    ensures |block| == |list|
  {
    seq(|list|, i requires 0 <= i < |list| =>
      RetentionCandidate(ListedCandidates(job, list, m)[i], list[i].checkpointId in ids, false))
  }

  lemma WholeBlock(job: JobRecord, list: seq<CheckpointRecord>, ids: set<string>, m: Measure)
    ensures Block(job, list, ids, m)[..|list|] == Block(job, list, ids, m)
  {}

  lemma BlockCollected(s: State, m: Measure, p: Policy, job: JobRecord, list: seq<CheckpointRecord>, ids: set<string>)
    requires Prunable(s) && IsListing(s, job, list)
    requires forall i :: 0 <= i < |list| ==>
               (list[i].checkpointId in ids <==> Reached(list, AnchorIds(p, job), p.config.minKeepPerJob, i))
    ensures Collected(Block(job, list, ids, m), Candidates(s, m), p, job.jobId)
  {
    var block, t := Block(job, list, ids, m), ListedCandidates(job, list, m);
    ListingElements(s, m, job, list);
    assert All(block) == Elements(t) by {
      forall c | c in Elements(t) ensures c in All(block) {
        var i :| 0 <= i < |t| && t[i] == c;
        assert block[i].c == c;
      }
    }
    forall i | 0 <= i < |block| ensures block[i].isProtected <==> Protected(Candidates(s, m), p, block[i].c) {
      ReachedIsProtected(s, m, p, job, list, i);
    }
  }

  lemma ListingOf(s: State, m: Measure, jobs: set<string>, checkpoints: Checkpoints, job: JobRecord,
                  list: seq<CheckpointRecord>)
    requires Prunable(s) && KeyOf(job) in s.jobs && s.jobs[KeyOf(job)] == job && job.jobId !in jobs
    requires checkpoints == Refreshed(s, m, jobs)
    requires DistinctIds(list) && SortedBy(NewerRecord, list)
    requires forall c :: c in list <==>
               var k := CheckpointKeyOf(job, c.checkpointId); k in checkpoints && checkpoints[k] == c
    ensures IsListing(s, job, list)
  {}

  /**
   One job: list, sort, protect, measure again, then age and count on its part of the vector.
   Unless a save fails: then the keys reached have fresh sizes.
   */
  method CollectJob(store: Store, pass: RetentionPass, job: JobRecord, p: Policy, m: Measure, script: Script,
                    ghost s: State, ghost plan: Plan, ghost jobs: set<string>)
    returns (ok: bool, rest: Script, ghost reached: set<CheckpointKey>)
    requires Planned(s, m, p, plan) && Collecting(store, pass, m, s, plan, jobs)
    requires KeyOf(job) in s.jobs && s.jobs[KeyOf(job)] == job && job.jobId !in jobs
    modifies store, pass
    ensures if ok then Collecting(store, pass, m, s, plan, jobs + {job.jobId}) else Halted(store, m, s, reached)
    ensures script == [] ==> ok && rest == []
  {
    rest, reached := script, {};
    var sorted := NewestFirst(store, job, m, s, jobs);
    if |sorted| == 0 {
      NothingListed(s, m, p, plan, job, sorted, jobs, pass.candidates);
      return true, rest, reached;
    }
    var ids := ProtectedIds(p, job, sorted);
    var start := |pass.candidates|;
    ghost var cs := pass.candidates;
    ok, rest, reached := MeasureJob(store, pass, job, sorted, ids, m, script, s, jobs);
    if ok {
      AgeAndCount(pass, start, job, sorted, ids, p, m, s, plan, jobs, cs);
    }
  }

  method MeasureJob(store: Store, pass: RetentionPass, job: JobRecord, list: seq<CheckpointRecord>, ids: set<string>,
                    m: Measure, script: Script, ghost s: State, ghost jobs: set<string>)
    returns (ok: bool, rest: Script, ghost reached: set<CheckpointKey>)
    requires store.Valid() && Prunable(s) && IsListing(s, job, list) && job.jobId !in jobs
    requires store.jobs == s.jobs && store.exports == s.exports && store.checkpoints == Refreshed(s, m, jobs)
    modifies store`files, store`userDirs, store`checkpoints, pass
    ensures store.Valid()
    ensures if ok then store.checkpoints == Refreshed(s, m, jobs + {job.jobId})
                       && pass.candidates == old(pass.candidates) + Block(job, list, ids, m)
            else Halted(store, m, s, reached)
    ensures script == [] ==> ok && rest == []
  {
    reached := {};
    ghost var n;
    ListingSaveable(s, job, list);
    ok, rest, n := Measured(store, pass, job, list, ids, m, script);
    if ok {
      WholeBlock(job, list, ids, m);
      SavedAll(s, job, list, m, jobs);
    } else {
      SavedSome(s, job, list, m, jobs, n);
      reached := KeysSoFar(s, jobs, job, list, n);
    }
  }

  method NewestFirst(store: Store, job: JobRecord, m: Measure, ghost s: State, ghost jobs: set<string>)
    returns (sorted: seq<CheckpointRecord>)
    requires store.Valid() && Prunable(s) && store.checkpoints == Refreshed(s, m, jobs)
    requires KeyOf(job) in s.jobs && s.jobs[KeyOf(job)] == job && job.jobId !in jobs
    ensures IsListing(s, job, sorted)
  {
    var list := store.ListCheckpoints(job);
    UniqueIds(job, list, store.checkpoints);
    sorted := SortNewestFirst(list);
    ListingOf(s, m, jobs, store.checkpoints, job, sorted);
  }

  method AgeAndCount(pass: RetentionPass, start: nat, job: JobRecord, ghost list: seq<CheckpointRecord>,
                     ghost ids: set<string>, p: Policy, ghost m: Measure, ghost s: State, ghost plan: Plan,
                     ghost jobs: set<string>, ghost cs: seq<RetentionCandidate>)
    requires Planned(s, m, p, plan) && IsListing(s, job, list) && job.jobId !in jobs
    requires Settled(cs, plan, jobs) && start == |cs|
    requires pass.candidates == cs + Block(job, list, ids, m)
    requires forall i :: 0 <= i < |list| ==>
               (list[i].checkpointId in ids <==> Reached(list, AnchorIds(p, job), p.config.minKeepPerJob, i))
    modifies pass
    ensures Settled(pass.candidates, plan, jobs + {job.jobId})
  {
    BlockCollected(s, m, p, job, list, ids);
    CandidatesIdentified(s, m);
    JobSettles(cs, Block(job, list, ids, m), Candidates(s, m), p, jobs, job.jobId);
    pass.ExpireByAge(start, p);
    pass.EnforceCount(start, p.config.maxKeepPerJob);
  }

  lemma UniqueIds(job: JobRecord, list: seq<CheckpointRecord>, checkpoints: Checkpoints)
    requires NoDup(list)
    requires forall c :: c in list ==>
               var k := CheckpointKeyOf(job, c.checkpointId); k in checkpoints && checkpoints[k] == c
    ensures DistinctIds(list)
  {
    forall i, j | 0 <= i < j < |list| ensures list[i].checkpointId != list[j].checkpointId {
      assert list[i] in list && list[j] in list;
    }
  }

  lemma NothingListed(s: State, m: Measure, p: Policy, plan: Plan, job: JobRecord, list: seq<CheckpointRecord>,
                      jobs: set<string>, cs: seq<RetentionCandidate>)
    requires Planned(s, m, p, plan) && IsListing(s, job, list) && list == [] && job.jobId !in jobs
    requires Settled(cs, plan, jobs)
    ensures Settled(cs, plan, jobs + {job.jobId})
    ensures Refreshed(s, m, jobs + {job.jobId}) == Refreshed(s, m, jobs)
  {
    ListingElements(s, m, job, list);
    NoneOfJob(Candidates(s, m), p, jobs, job.jobId);
    SavedAll(s, job, list, m, jobs);
  }

  lemma NoneOfJob(C: set<Candidate>, p: Policy, jobs: set<string>, jobId: string)
    requires OfJob(C, jobId) == {}
    ensures var plan := PlanOf(C, p);
            && OfJobs(plan.all, jobs + {jobId}) == OfJobs(plan.all, jobs)
            && OfJobs(plan.counted, jobs + {jobId}) == OfJobs(plan.counted, jobs)
            && OfJobs(plan.shielded, jobs + {jobId}) == OfJobs(plan.shielded, jobs)
  {
    Shrinks(C, p);
    forall c | c in C ensures c.jobId != jobId {
      assert c !in OfJob(C, jobId);
    }
  }

  /** Saves each listed checkpoint with its size measured again and appends its candidate, until a save fails. */
  method Measured(store: Store, pass: RetentionPass, job: JobRecord, list: seq<CheckpointRecord>, ids: set<string>,
                  m: Measure, script: Script) returns (ok: bool, rest: Script, ghost n: nat)
    requires store.Valid() && Saveable(job, list)
    modifies store`files, store`userDirs, store`checkpoints, pass
    ensures Measuring(store, pass, job, list, ids, m, n, old(store.checkpoints), old(pass.candidates))
    ensures ok ==> n == |list|
    ensures script == [] ==> ok && rest == []
  {
    ghost var cs, base := pass.candidates, store.checkpoints;
    rest := script;
    assert cs + Block(job, list, ids, m)[..0] == cs;
    for i := 0 to |list|
      invariant Measuring(store, pass, job, list, ids, m, i, base, cs)
      invariant script == [] ==> rest == []
    {
      if !Works(rest) {
        return false, Rest(rest), i;
      }
      rest := Rest(rest);
      MeasureOne(store, pass, job, list, ids, m, i, base, cs);
    }
    return true, rest, |list|;
  }

  /** The first `i` of a listing are measured, saved and appended. */
  ghost predicate Measuring(store: Store, pass: RetentionPass, job: JobRecord, list: seq<CheckpointRecord>,
                            ids: set<string>, m: Measure, i: nat, base: Checkpoints, cs: seq<RetentionCandidate>)
    reads store, pass
  {
    && store.Valid() && i <= |list| && store.checkpoints == Saved(base, job, list, m, i)
    && pass.candidates == cs + Block(job, list, ids, m)[..i]
  }

  method MeasureOne(store: Store, pass: RetentionPass, job: JobRecord, list: seq<CheckpointRecord>, ids: set<string>,
                    m: Measure, i: nat, ghost base: Checkpoints, ghost cs: seq<RetentionCandidate>)
    requires i < |list| && Saveable(job, list) && Measuring(store, pass, job, list, ids, m, i, base, cs)
    modifies store`files, store`userDirs, store`checkpoints, pass
    ensures Measuring(store, pass, job, list, ids, m, i + 1, base, cs)
  {
    AppendNext(cs, Block(job, list, ids, m), i);
    var candidate := SaveMeasured(store, job, list[i], m);
    pass.candidates := pass.candidates + [RetentionCandidate(candidate, list[i].checkpointId in ids, false)];
  }

  method SaveMeasured(store: Store, job: JobRecord, c: CheckpointRecord, m: Measure) returns (candidate: Candidate)
    requires store.Valid() && IsUser(job.ownerUid)
    requires forall size: nat :: CheckpointSaves(job, Refresh(c, size))
    modifies store`files, store`userDirs, store`checkpoints
    ensures store.Valid()
    ensures var key := CheckpointKeyOf(job, c.checkpointId);
            && store.checkpoints == old(store.checkpoints)[key := Refresh(c, m(key))]
            && candidate == CandidateOf(job, c, m(key))
  {
    var key := CheckpointKeyOf(job, c.checkpointId);
    var saved := store.SaveCheckpoint(job, Refresh(c, m(key)));
    candidate := CandidateOf(job, c, m(key));
  }

  /** Every listed record can be saved with whatever size. */
  ghost predicate Saveable(job: JobRecord, list: seq<CheckpointRecord>) {
    && IsUser(job.ownerUid)
    && forall i, size: nat :: 0 <= i < |list| ==> CheckpointSaves(job, Refresh(list[i], size))
  }

  lemma ListingSaveable(s: State, job: JobRecord, list: seq<CheckpointRecord>)
    requires Prunable(s) && IsListing(s, job, list)
    ensures Saveable(job, list)
  {
    forall i, size: nat | 0 <= i < |list| ensures CheckpointSaves(job, Refresh(list[i], size)) {
      assert list[i] in list;
    }
  }

  // ---- Every job ----------------------------------------------------------------------------

  ghost function JobIdsOf(s: State, users: set<nat>): set<string> {
    set k | k in s.jobs && k.uid in users :: k.jobId
  }

  ghost function AllJobIds(s: State): set<string> {
    set k | k in s.jobs :: k.jobId
  }

  /** The ids in `before` and those of the first `i` jobs of a listing. */
  ghost function WithIds(before: set<string>, list: seq<JobRecord>, i: nat): set<string>
    requires i <= |list|
  {
    if i == 0 then before else WithIds(before, list, i - 1) + {list[i - 1].jobId}
  }

  lemma {:induction false} WithIdsMembers(before: set<string>, list: seq<JobRecord>, i: nat, id: string)
    requires i <= |list|
    ensures id in WithIds(before, list, i) <==> id in before || exists j :: 0 <= j < i && list[j].jobId == id
  {
    if i > 0 {
      WithIdsMembers(before, list, i - 1, id);
    }
  }

  /** The jobs of one user, each once, as the store lists them. */
  ghost predicate UserListing(s: State, uid: nat, list: seq<JobRecord>) {
    NoDup(list) && forall j :: j in list <==> j.ownerUid == uid && KeyOf(j) in s.jobs && s.jobs[KeyOf(j)] == j
  }

  lemma NotYetListed(s: State, uid: nat, list: seq<JobRecord>, i: nat, users: set<nat>)
    requires Prunable(s) && UserListing(s, uid, list) && i < |list| && uid !in users
    ensures KeyOf(list[i]) in s.jobs && s.jobs[KeyOf(list[i])] == list[i]
    ensures list[i].jobId !in WithIds(JobIdsOf(s, users), list, i)
  {
    assert list[i] in list;
    WithIdsMembers(JobIdsOf(s, users), list, i, list[i].jobId);
    forall j | 0 <= j < i ensures list[j].jobId != list[i].jobId {
      assert list[j] in list;
    }
    forall k | k in s.jobs && k.uid in users ensures k.jobId != list[i].jobId {
      assert k != KeyOf(list[i]);
    }
  }

  lemma AllListed(s: State, uid: nat, list: seq<JobRecord>, users: set<nat>)
    requires Prunable(s) && UserListing(s, uid, list)
    ensures WithIds(JobIdsOf(s, users), list, |list|) == JobIdsOf(s, users + {uid})
  {
    var before := JobIdsOf(s, users);
    forall id ensures id in WithIds(before, list, |list|) <==> id in JobIdsOf(s, users + {uid}) {
      WithIdsMembers(before, list, |list|, id);
      if k :| k in s.jobs && k.uid == uid && k.jobId == id {
        assert s.jobs[k] in list;
      }
      if j :| 0 <= j < |list| && list[j].jobId == id {
        assert list[j] in list;
        assert KeyOf(list[j]) in s.jobs;
      }
    }
  }

  /** Everything collected so far, for the jobs in `jobs`. */
  ghost predicate Collecting(store: Store, pass: RetentionPass, m: Measure, s: State, plan: Plan, jobs: set<string>)
    reads store, pass
  {
    && store.Valid() && store.jobs == s.jobs && store.exports == s.exports
    && store.checkpoints == Refreshed(s, m, jobs)
    && Settled(pass.candidates, plan, jobs)
  }

  /** The plan of a prune of `s`. */
  ghost predicate Planned(s: State, m: Measure, p: Policy, plan: Plan) {
    Prunable(s) && plan == PlanOf(Candidates(s, m), p)
  }

  method CollectUser(store: Store, pass: RetentionPass, uid: nat, p: Policy, m: Measure, script: Script,
                     ghost s: State, ghost plan: Plan, ghost users: set<nat>)
    returns (ok: bool, rest: Script, ghost reached: set<CheckpointKey>)
    requires Planned(s, m, p, plan) && uid !in users && Collecting(store, pass, m, s, plan, JobIdsOf(s, users))
    modifies store, pass
    ensures if ok then Collecting(store, pass, m, s, plan, JobIdsOf(s, users + {uid})) else Halted(store, m, s, reached)
    ensures script == [] ==> ok && rest == []
  {
    var list := store.ListJobs(uid);
    assert UserListing(s, uid, list);
    ok, rest, reached := CollectListed(store, pass, uid, list, p, m, script, s, plan, users);
    AllListed(s, uid, list, users);
  }

  method CollectListed(store: Store, pass: RetentionPass, uid: nat, list: seq<JobRecord>, p: Policy, m: Measure,
                       script: Script, ghost s: State, ghost plan: Plan, ghost users: set<nat>)
    returns (ok: bool, rest: Script, ghost reached: set<CheckpointKey>)
    requires Planned(s, m, p, plan) && uid !in users && UserListing(s, uid, list)
    requires Collecting(store, pass, m, s, plan, JobIdsOf(s, users))
    modifies store, pass
    ensures if ok then Collecting(store, pass, m, s, plan, WithIds(JobIdsOf(s, users), list, |list|))
            else Halted(store, m, s, reached)
    ensures script == [] ==> ok && rest == []
  {
    ok, rest, reached := true, script, {};
    ghost var before := JobIdsOf(s, users);
    ghost var done := before;
    for i := 0 to |list|
      invariant done == WithIds(before, list, i)
      invariant Collecting(store, pass, m, s, plan, done)
      invariant script == [] ==> rest == []
    {
      NotYetListed(s, uid, list, i, users);
      ok, rest, reached := CollectJob(store, pass, list[i], p, m, rest, s, plan, done);
      if !ok {
        return;
      }
      done := done + {list[i].jobId};
    }
    ok := true;
  }

  method CollectAll(store: Store, pass: RetentionPass, p: Policy, m: Measure, script: Script,
                    ghost s: State, ghost plan: Plan)
    returns (ok: bool, rest: Script, ghost reached: set<CheckpointKey>)
    requires store.Valid() && store.View() == s && Planned(s, m, p, plan) && pass.candidates == []
    modifies store, pass
    ensures if ok then Collecting(store, pass, m, s, plan, AllJobIds(s)) else Halted(store, m, s, reached)
    ensures script == [] ==> ok && rest == []
  {
    ok, rest, reached := true, script, {};
    var users := store.ListUsers();
    NothingCollected(s, m, plan);
    assert Elements(users[..0]) == {};
    for i := 0 to |users|
      invariant Collecting(store, pass, m, s, plan, JobIdsOf(s, Elements(users[..i])))
      invariant script == [] ==> rest == []
    {
      assert users[i] !in Elements(users[..i]);
      ok, rest, reached := CollectUser(store, pass, users[i], p, m, rest, s, plan, Elements(users[..i]));
      if !ok {
        return;
      }
      assert Elements(users[..i + 1]) == Elements(users[..i]) + {users[i]};
    }
    ok := true;
    assert users[..|users|] == users;
    EveryUser(s, users);
  }

  lemma NothingCollected(s: State, m: Measure, plan: Plan)
    ensures JobIdsOf(s, {}) == {} && Refreshed(s, m, {}) == s.checkpoints && Settled([], plan, {})
  {
    assert OfJobs(plan.all, {}) == {} && OfJobs(plan.counted, {}) == {};
    assert All([]) == {} && Live([]) == {};
  }

  lemma EveryUser(s: State, users: seq<nat>)
    requires forall k :: k in s.jobs ==> k.uid in users
    ensures JobIdsOf(s, Elements(users)) == AllJobIds(s)
  {
    forall k | k in s.jobs ensures k.uid in Elements(users) {
      assert k.uid in users;
    }
  }

  // ---- The byte budgets ------------------------------------------------------------------------

  /** The whole vector, with `L` still live. */
  ghost predicate Ready(cs: seq<RetentionCandidate>, plan: Plan, L: set<Candidate>) {
    Distinct(cs) && All(cs) == plan.all && Shielded(cs) == plan.shielded && Live(cs) == L
  }

  lemma AllCollected(s: State, m: Measure, p: Policy, plan: Plan, cs: seq<RetentionCandidate>)
    requires Planned(s, m, p, plan) && Settled(cs, plan, AllJobIds(s))
    ensures Ready(cs, plan, plan.counted)
  {
    CandidatesIdentified(s, m);
    SettledDistinct(cs, plan, AllJobIds(s));
    forall c | c in plan.all ensures c.jobId in AllJobIds(s) {
      assert KeyOfCandidate(c).Job() in s.jobs;
    }
    Shrinks(plan.all, p);
    assert OfJobs(plan.all, AllJobIds(s)) == plan.all;
    assert OfJobs(plan.counted, AllJobIds(s)) == plan.counted;
    assert OfJobs(plan.shielded, AllJobIds(s)) == plan.shielded;
  }

  lemma MarkReady(cs: seq<RetentionCandidate>, plan: Plan, L: set<Candidate>, E: set<Candidate>)
    requires Ready(cs, plan, L)
    ensures Ready(Mark(cs, E), plan, L - E)
  {
    LiveMark(cs, E);
    SameCandidates(cs, Mark(cs, E));
  }

  /** What is live once the passes of the users in `done` have run. */
  ghost function AfterSome(L: set<Candidate>, P: set<Candidate>, budget: nat, done: set<nat>): set<Candidate> {
    set c | c in L && (c.ownerUid in done ==> c !in OverBudget(InScope(L, c.ownerUid), P, budget))
  }

  /** A user's pass sees that user's checkpoints as they were: other users' passes do not touch them. */
  lemma UserPass(L: set<Candidate>, P: set<Candidate>, budget: nat, done: set<nat>, uid: nat)
    requires uid !in done && uid != ALL_USERS
    ensures InScope(AfterSome(L, P, budget, done), uid) == InScope(L, uid)
    ensures AfterSome(L, P, budget, done) - OverBudget(InScope(L, uid), P, budget)
         == AfterSome(L, P, budget, done + {uid})
  {}

  lemma NoUserYet(L: set<Candidate>, P: set<Candidate>, budget: nat)
    ensures AfterSome(L, P, budget, {}) == L
  {}

  method UserBudgets(pass: RetentionPass, users: seq<nat>, budget: nat, ghost plan: Plan)
    requires Ready(pass.candidates, plan, plan.counted)
    requires NoDup(users) && forall u :: u in users ==> u != ALL_USERS
    modifies pass
    ensures Ready(pass.candidates, plan, AfterSome(plan.counted, plan.shielded, budget, Elements(users)))
  {
    ghost var L, P := plan.counted, plan.shielded;
    ghost var done, live := {}, L;
    NoUserYet(L, P, budget);
    for i := 0 to |users|
      invariant done == Elements(users[..i]) && live == AfterSome(L, P, budget, done)
      invariant Ready(pass.candidates, plan, live)
    {
      assert users[i] !in done && users[i] in users;
      ghost var E := OverBudget(InScope(L, users[i]), P, budget);
      UserPass(L, P, budget, done, users[i]);
      MarkReady(pass.candidates, plan, live, E);
      pass.ApplyByteBudget(budget, users[i]);
      assert Elements(users[..i + 1]) == Elements(users[..i]) + {users[i]};
      done, live := done + {users[i]}, live - E;
    }
    assert users[..|users|] == users;
  }

  lemma UsersCovered(s: State, m: Measure, p: Policy, plan: Plan, users: seq<nat>)
    requires Planned(s, m, p, plan) && forall k :: k in s.jobs ==> k.uid in users
    ensures AfterSome(plan.counted, plan.shielded, p.config.maxBytesPerUser, Elements(users)) == AfterUsers(plan.all, p)
  {
    CandidatesIdentified(s, m);
    Shrinks(plan.all, p);
    forall c | c in plan.counted ensures c.ownerUid in Elements(users) {
      assert c in plan.all;
      assert KeyOfCandidate(c).Job() in s.jobs;
      assert c.ownerUid in users;
    }
  }

  lemma BudgetOff(plan: Plan, p: Policy, C: set<Candidate>)
    requires plan == PlanOf(C, p) && p.config.maxBytesPerUser == 0
    ensures AfterUsers(C, p) == plan.counted
  {}

  /** Per-user budgets first, then the whole store's. */
  method ApplyBudgets(store: Store, pass: RetentionPass, p: Policy, ghost m: Measure, ghost s: State, ghost plan: Plan)
    requires store.Valid() && store.jobs == s.jobs && Planned(s, m, p, plan)
    requires Ready(pass.candidates, plan, plan.counted)
    modifies pass
    ensures Ready(pass.candidates, plan, Survivors(plan.all, p))
  {
    ghost var L := AfterUsers(plan.all, p);
    if p.config.maxBytesPerUser > 0 {
      var users := store.ListUsers();
      UserBudgets(pass, users, p.config.maxBytesPerUser, plan);
      UsersCovered(s, m, p, plan, users);
    } else {
      BudgetOff(plan, p, plan.all);
    }
    assert Ready(pass.candidates, plan, L);
    TotalPass(pass, p, plan, L);
  }

  method TotalPass(pass: RetentionPass, p: Policy, ghost plan: Plan, ghost L: set<Candidate>)
    requires Ready(pass.candidates, plan, L)
    modifies pass
    ensures Ready(pass.candidates, plan, L - OverBudget(L, plan.shielded, p.config.maxBytesTotal))
  {
    assert InScope(L, ALL_USERS) == L;
    MarkReady(pass.candidates, plan, L, OverBudget(L, plan.shielded, p.config.maxBytesTotal));
    pass.ApplyByteBudget(p.config.maxBytesTotal, ALL_USERS);
  }

  // ---- Removing what is marked --------------------------------------------------------------------

  ghost function MarkedKeys(cs: seq<RetentionCandidate>, i: nat): set<CheckpointKey>
    requires i <= |cs|
  {
    if i == 0 then {}
    else MarkedKeys(cs, i - 1) + if cs[i - 1].marked then {KeyOfCandidate(cs[i - 1].c)} else {}
  }

  lemma {:induction false} MarkedMembers(cs: seq<RetentionCandidate>, i: nat, k: CheckpointKey)
    requires i <= |cs|
    ensures k in MarkedKeys(cs, i) <==> exists j :: 0 <= j < i && cs[j].marked && KeyOfCandidate(cs[j].c) == k
  {
    if i > 0 {
      MarkedMembers(cs, i - 1, k);
    }
  }

  lemma NotYetMarked(cs: seq<RetentionCandidate>, i: nat)
    requires Distinct(cs) && i < |cs|
    ensures KeyOfCandidate(cs[i].c) !in MarkedKeys(cs, i)
  {
    MarkedMembers(cs, i, KeyOfCandidate(cs[i].c));
    forall j | 0 <= j < i ensures KeyOfCandidate(cs[j].c) != KeyOfCandidate(cs[i].c) {
      assert cs[j].c in All(cs) && cs[i].c in All(cs);
    }
  }

  /** Removing the next marked one as well; an unmarked one is passed over. */
  lemma MarkedStep(cs: seq<RetentionCandidate>, i: nat, base: Checkpoints, exports: set<CheckpointKey>)
    requires Distinct(cs) && i < |cs|
    ensures var before, after, k := MarkedKeys(cs, i), MarkedKeys(cs, i + 1), KeyOfCandidate(cs[i].c);
            if cs[i].marked
            then |after| == |before| + 1
                 && base - before - {k} == base - after && exports - before - {k} == exports - after
            else after == before
  {
    NotYetMarked(cs, i);
  }

  /** Removes what is marked, until a removal fails. */
  method RemoveMarked(store: Store, cs: seq<RetentionCandidate>, script: Script)
    returns (ok: bool, rest: Script, removed: nat, ghost gone: set<CheckpointKey>)
    requires store.Valid() && Distinct(cs)
    modifies store`files, store`exportDirs, store`checkpoints, store`exports
    ensures store.Valid() && gone <= MarkedKeys(cs, |cs|)
    ensures store.checkpoints == old(store.checkpoints) - gone && store.exports == old(store.exports) - gone
    ensures ok ==> gone == MarkedKeys(cs, |cs|)
    ensures removed == |gone|
    ensures script == [] ==> ok && rest == []
  {
    rest, removed := script, 0;
    ghost var base, exports := store.checkpoints, store.exports;
    gone := {};
    NothingGone(base, exports);
    for i := 0 to |cs|
      invariant Removing(store, base, exports, gone) && gone == MarkedKeys(cs, i) && removed == |gone|
      invariant script == [] ==> rest == []
    {
      if cs[i].marked && !Works(rest) {
        MarkedGrows(cs, i, |cs|);
        return false, Rest(rest), removed, gone;
      }
      if cs[i].marked {
        rest, removed := Rest(rest), removed + 1;
      }
      gone := RemoveNext(store, cs, i, base, exports, gone);
    }
    return true, rest, removed, gone;
  }

  /** Of what the store held, the checkpoints in `gone` and their exports are removed. */
  ghost predicate Removing(store: Store, base: Checkpoints, exports: set<CheckpointKey>, gone: set<CheckpointKey>)
    reads store
  {
    store.Valid() && store.checkpoints == base - gone && store.exports == exports - gone
  }

  lemma NothingGone(base: Checkpoints, exports: set<CheckpointKey>)
    ensures base - {} == base && exports - {} == exports
  {}

  method RemoveNext(store: Store, cs: seq<RetentionCandidate>, i: nat, ghost base: Checkpoints,
                    ghost exports: set<CheckpointKey>, ghost before: set<CheckpointKey>)
    returns (ghost gone: set<CheckpointKey>)
    requires Distinct(cs) && i < |cs| && before == MarkedKeys(cs, i) && Removing(store, base, exports, before)
    modifies store`files, store`exportDirs, store`checkpoints, store`exports
    ensures gone == MarkedKeys(cs, i + 1) && Removing(store, base, exports, gone)
    ensures |gone| == |before| + if cs[i].marked then 1 else 0
  {
    MarkedStep(cs, i, base, exports);
    gone := MarkedKeys(cs, i + 1);
    if cs[i].marked {
      store.RemoveCheckpoint(KeyOfCandidate(cs[i].c));
    }
  }

  lemma {:induction false} MarkedGrows(cs: seq<RetentionCandidate>, i: nat, j: nat)
    requires i <= j <= |cs|
    ensures MarkedKeys(cs, i) <= MarkedKeys(cs, j)
  {
    if i < j {
      MarkedGrows(cs, i, j - 1);
    }
  }

  lemma MarkedAreRemoved(s: State, m: Measure, p: Policy, plan: Plan, cs: seq<RetentionCandidate>)
    requires Planned(s, m, p, plan) && Ready(cs, plan, Survivors(plan.all, p))
    ensures MarkedKeys(cs, |cs|) == RemovedKeys(s, p, m)
  {
    forall k ensures k in MarkedKeys(cs, |cs|) <==> k in RemovedKeys(s, p, m) {
      MarkedMembers(cs, |cs|, k);
      if k in RemovedKeys(s, p, m) {
        RemovedIsMarked(s, m, plan, cs, k);
      }
      if j :| 0 <= j < |cs| && cs[j].marked && KeyOfCandidate(cs[j].c) == k {
        CandidatesIdentified(s, m);
        assert cs[j].c in All(cs);
        AtPosition(cs, 0, j);
        assert cs[0..] == cs;
      }
    }
  }

  lemma RemovedIsMarked(s: State, m: Measure, plan: Plan, cs: seq<RetentionCandidate>, k: CheckpointKey)
    requires Prunable(s) && plan.all == Candidates(s, m) && All(cs) == plan.all
    requires k in s.checkpoints && CandidateAt(s, m, k) !in Live(cs)
    ensures exists j :: 0 <= j < |cs| && cs[j].marked && KeyOfCandidate(cs[j].c) == k
  {
    var c := CandidateAt(s, m, k);
    assert c in All(cs);
    var j :| 0 <= j < |cs| && cs[j].c == c;
    assert cs[j].marked;
    assert KeyOfCandidate(c) == k;
  }

  // ---- The whole prune ----------------------------------------------------------------------------

  lemma RefreshedWithout(s: State, m: Measure, gone: set<CheckpointKey>)
    requires Prunable(s)
    ensures Refreshed(s, m, AllJobIds(s)) - gone == Without(s, m, s.checkpoints.Keys, gone).checkpoints
  {
    var left, goal := Refreshed(s, m, AllJobIds(s)) - gone, Without(s, m, s.checkpoints.Keys, gone).checkpoints;
    forall k ensures Agree(left, goal, k) {
      KnownJob(s, k);
    }
    AgreeEverywhere(left, goal);
  }

  lemma KnownJob(s: State, k: CheckpointKey)
    requires Prunable(s)
    ensures k in s.checkpoints ==> k.jobId in AllJobIds(s)
  {
    if k in s.checkpoints {
      assert k.Job() in s.jobs;
    }
  }

  lemma CutStates(s: State, p: Policy, m: Measure, reached: set<CheckpointKey>, gone: set<CheckpointKey>)
    requires gone <= RemovedKeys(s, p, m)
    ensures PruneUpTo(s, p, m, Some(Cut(reached, {}))) == Without(s, m, reached, {})
    ensures PruneUpTo(s, p, m, Some(Cut(s.checkpoints.Keys, gone))) == Without(s, m, s.checkpoints.Keys, gone)
  {
    assert {} * RemovedKeys(s, p, m) == {} && gone * RemovedKeys(s, p, m) == gone;
  }

  /**
   Prunes the store. Whatever the directory orders, the store ends up as the policy says, and the
   result is the number of checkpoints removed. When a save fails, some sizes are fresh and nothing
   is removed; when a removal fails, all are fresh and some of what the policy removes is gone.
   */
  method PruneCheckpoints(store: Store, p: Policy, m: Measure, script: Script)
    returns (r: Result<nat>, rest: Script, ghost cut: Option<Cut>)
    requires store.Valid() && Prunable(store.View())
    modifies store
    ensures store.Valid() && store.View() == PruneUpTo(old(store.View()), p, m, cut)
    ensures r.Ok? <==> cut == None
    ensures r.Ok? ==> r.value == |RemovedKeys(old(store.View()), p, m)|
    ensures cut.Some? ==> cut.value.removed == {} || cut.value.refreshed == old(store.checkpoints).Keys
    ensures cut.Some? ==> cut.value.removed <= RemovedKeys(old(store.View()), p, m)
    ensures script == [] ==> r.Ok? && rest == []
  {
    ghost var s := store.View();
    ghost var plan := PlanOf(Candidates(s, m), p);
    var pass := new RetentionPass();
    var ok;
    ghost var reached, gone;
    ok, rest, reached := CollectAll(store, pass, p, m, script, s, plan);
    if !ok {
      CutStates(s, p, m, reached, {});
      return Err("checkpoint prune failed"), rest, Some(Cut(reached, {}));
    }
    AllCollected(s, m, p, plan, pass.candidates);
    ApplyBudgets(store, pass, p, m, s, plan);
    MarkedAreRemoved(s, m, p, plan, pass.candidates);
    var removed;
    ok, rest, removed, gone := RemoveMarked(store, pass.candidates, rest);
    RefreshedWithout(s, m, gone);
    CutStates(s, p, m, reached, gone);
    assert store.View() == Without(s, m, s.checkpoints.Keys, gone);
    if !ok {
      return Err("checkpoint prune failed"), rest, Some(Cut(s.checkpoints.Keys, gone));
    }
    return Ok(removed), rest, None;
  }
}
