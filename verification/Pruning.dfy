/** `PruneCheckpoints` over the store, against the set-level policy. */
module Pruning {
  import opened Decimal
  import opened Orders
  import opened Outcomes
  import opened Paths
  import opened Records
  import opened Retention
  import opened RetentionPasses
  import opened RetentionPolicy
  import opened RetentionTheorems
  import opened Stores
  import Strings

  /** Bytes in both trees of a checkpoint, as the daemon measures them. */
  type Measure = CheckpointKey -> nat

  // ---- Numbers kept as text ---------------------------------------------------------

  predicate IsNumber(s: string) {
    s == "" || Stol(s).Ok?
  }

  /** An empty field reads as zero. */
  function Num(s: string): int {
    if s == "" then 0 else match Stol(s) case Ok(v) => v case Err(_) => 0
  }

  predicate Numeric(c: CheckpointRecord) {
    IsNumber(c.createdAt) && IsNumber(c.lastRestoredAt) && IsNumber(c.restoreCount)
  }

  // ---- From the store to candidates ---------------------------------------------------

  function CandidateOf(job: JobRecord, c: CheckpointRecord, size: nat): Candidate {
    Candidate(job.ownerUid, job.jobId, job.latestCheckpoint, c.checkpointId,
              Num(c.createdAt), Num(c.lastRestoredAt), Num(c.restoreCount), size)
  }

  function Refresh(c: CheckpointRecord, size: nat): CheckpointRecord {
    c.(sizeBytes := ToString(size))
  }

  function KeyOfCandidate(c: Candidate): CheckpointKey {
    CheckpointKey(c.ownerUid, c.jobId, c.checkpointId)
  }

  /** Metadata the daemon itself wrote: records under their own keys, every checkpoint's job known. */
  ghost predicate Prunable(s: State) {
    && (forall k :: k in s.jobs ==> KeyOf(s.jobs[k]) == k && SafeId(k.jobId) && IsUser(k.uid))
    && (forall j, k :: j in s.jobs && k in s.jobs && j.jobId == k.jobId ==> j == k)
    && (forall k :: k in s.checkpoints ==> k.Job() in s.jobs)
    && (forall k :: k in s.checkpoints ==>
          s.checkpoints[k].checkpointId == k.checkpointId && SafeId(k.checkpointId)
          && CheckpointLineFree(s.checkpoints[k]) && Numeric(s.checkpoints[k]))
  }

  ghost function CandidateAt(s: State, m: Measure, k: CheckpointKey): Candidate
    requires k in s.checkpoints && k.Job() in s.jobs
  {
    CandidateOf(s.jobs[k.Job()], s.checkpoints[k], m(k))
  }

  ghost function Candidates(s: State, m: Measure): set<Candidate> {
    set k | k in s.checkpoints && k.Job() in s.jobs :: CandidateAt(s, m, k)
  }

  lemma CandidatesIdentified(s: State, m: Measure)
    requires Prunable(s)
    ensures WellIdentified(Candidates(s, m)) && NoSentinel(Candidates(s, m))
    ensures forall c :: c in Candidates(s, m) ==>
              KeyOfCandidate(c) in s.checkpoints && c == CandidateAt(s, m, KeyOfCandidate(c))
  {
    forall c | c in Candidates(s, m)
      ensures KeyOfCandidate(c) in s.checkpoints && c == CandidateAt(s, m, KeyOfCandidate(c))
              && c.ownerUid != ALL_USERS {
      var k :| k in s.checkpoints && k.Job() in s.jobs && c == CandidateAt(s, m, k);
      assert KeyOf(s.jobs[k.Job()]) == k.Job();
    }
  }

  /** The keys a prune removes. */
  ghost function RemovedKeys(s: State, p: Policy, m: Measure): set<CheckpointKey> {
    set k | k in s.checkpoints && k.Job() in s.jobs && CandidateAt(s, m, k) !in Survivors(Candidates(s, m), p)
  }

  /** A store once some sizes are measured again and some checkpoints removed with their exports. */
  ghost function Without(s: State, m: Measure, refreshed: set<CheckpointKey>, gone: set<CheckpointKey>): State {
    State(s.jobs,
          map k | k in s.checkpoints && k !in gone ::
            if k in refreshed then Refresh(s.checkpoints[k], m(k)) else s.checkpoints[k],
          s.exports - gone)
  }

  /** What a prune makes of the store: sizes measured again, the removed keys gone with their exports. */
  ghost function Prune(s: State, p: Policy, m: Measure): State {
    Without(s, m, s.checkpoints.Keys, RemovedKeys(s, p, m))
  }

  /** A prune that threw: which sizes it had saved, and which removals it had completed. */
  datatype Cut = Cut(refreshed: set<CheckpointKey>, removed: set<CheckpointKey>)

  /** A prune that ran to its end, or was cut short. */
  ghost function PruneUpTo(s: State, p: Policy, m: Measure, cut: Option<Cut>): State {
    match cut
    case None => Prune(s, p, m)
    case Some(c) => Without(s, m, c.refreshed, c.removed * RemovedKeys(s, p, m))
  }

  // ---- Protected ids of one job ------------------------------------------------------------

  /** The anchors together with the ids at the first `k` positions. */
  ghost function Gathered(A: set<string>, list: seq<CheckpointRecord>, k: nat): set<string>
    requires k <= |list|
  {
    if k == 0 then A else Gathered(A, list, k - 1) + {list[k - 1].checkpointId}
  }

  lemma {:induction false} GatheredMembers(A: set<string>, list: seq<CheckpointRecord>, k: nat, id: string)
    requires k <= |list|
    ensures id in Gathered(A, list, k) <==> id in A || exists i :: 0 <= i < k && list[i].checkpointId == id
  {
    if k > 0 {
      GatheredMembers(A, list, k - 1, id);
    }
  }

  lemma {:induction false} GatheredGrows(A: set<string>, list: seq<CheckpointRecord>, j: nat, k: nat)
    requires j <= k <= |list|
    ensures Gathered(A, list, j) <= Gathered(A, list, k)
  {
    if j < k {
      GatheredGrows(A, list, j, k - 1);
    }
  }

  ghost function AnchorIds(p: Policy, job: JobRecord): set<string> {
    Anchors(p, Candidate(job.ownerUid, job.jobId, job.latestCheckpoint, "", 0, 0, 0, 0))
  }

  ghost predicate DistinctIds(list: seq<CheckpointRecord>) {
    forall i, j :: 0 <= i < j < |list| ==> list[i].checkpointId != list[j].checkpointId
  }

  /** Protected at its turn: an anchor, or fewer than `minKeep` ids gathered before it. */
  ghost predicate Reached(list: seq<CheckpointRecord>, A: set<string>, minKeep: int, i: nat)
    requires i < |list|
  {
    list[i].checkpointId in A || |Gathered(A, list, i)| < minKeep
  }

  method AnchorSet(p: Policy, job: JobRecord) returns (ids: set<string>)
    ensures ids == AnchorIds(p, job)
  {
    ids := {};
    if job.latestCheckpoint != "" {
      ids := ids + {job.latestCheckpoint};
    }
    if p.preserveJob != "" && p.preserveCheckpoint != "" && job.jobId == p.preserveJob {
      ids := ids + {p.preserveCheckpoint};
    }
  }

  /** The loop over the newest-first listing stops once enough ids are protected. */
  method ProtectedIds(p: Policy, job: JobRecord, list: seq<CheckpointRecord>) returns (ids: set<string>)
    requires DistinctIds(list)
    ensures forall i :: 0 <= i < |list| ==>
              (list[i].checkpointId in ids <==> Reached(list, AnchorIds(p, job), p.config.minKeepPerJob, i))
  {
    ids := AnchorSet(p, job);
    ghost var A := ids;
    var k := 0;
    while k < |list|
      invariant k <= |list| && ids == Gathered(A, list, k)
      invariant forall j :: 0 <= j < k ==> |Gathered(A, list, j)| < p.config.minKeepPerJob
    {
      if |ids| >= p.config.minKeepPerJob {
        break;
      }
      ids := ids + {list[k].checkpointId};
      k := k + 1;
    }
    StoppedAt(list, A, p.config.minKeepPerJob, k);
  }

  lemma StoppedAt(list: seq<CheckpointRecord>, A: set<string>, minKeep: int, k: nat)
    requires DistinctIds(list) && k <= |list|
    requires forall j :: 0 <= j < k ==> |Gathered(A, list, j)| < minKeep
    requires k < |list| ==> |Gathered(A, list, k)| >= minKeep
    ensures forall i :: 0 <= i < |list| ==>
              (list[i].checkpointId in Gathered(A, list, k) <==> Reached(list, A, minKeep, i))
  {
    forall i | 0 <= i < |list|
      ensures list[i].checkpointId in Gathered(A, list, k) <==> Reached(list, A, minKeep, i) {
      GatheredMembers(A, list, k, list[i].checkpointId);
      if k <= i {
        GatheredGrows(A, list, k, i);
        CardSubset(Gathered(A, list, k), Gathered(A, list, i));
      }
    }
  }

  // ---- The newest-first listing ---------------------------------------------------------------

  predicate NewerRecord(a: CheckpointRecord, b: CheckpointRecord) {
    if Num(a.createdAt) != Num(b.createdAt) then Num(a.createdAt) > Num(b.createdAt)
    else Strings.Less(b.checkpointId, a.checkpointId)
  }

  method SortNewestFirst(list: seq<CheckpointRecord>) returns (sorted: seq<CheckpointRecord>)
    requires DistinctIds(list)
    ensures |sorted| == |list| && DistinctIds(sorted)
    ensures forall c :: c in sorted <==> c in list
    ensures SortedBy(NewerRecord, sorted)
  {
    RecordOrder(list);
    sorted := Sort(list, NewerRecord);
    forall c ensures c in sorted <==> c in list {
      assert c in sorted <==> c in Elements(sorted);
      assert c in list <==> c in Elements(list);
    }
    SameIds(list, sorted);
  }

  lemma SameIds(list: seq<CheckpointRecord>, sorted: seq<CheckpointRecord>)
    requires DistinctIds(list) && NoDup(sorted) && forall c :: c in sorted <==> c in list
    ensures DistinctIds(sorted)
  {
    forall i, j | 0 <= i < j < |sorted| ensures sorted[i].checkpointId != sorted[j].checkpointId {
      assert sorted[i] in list && sorted[j] in list;
      var a :| 0 <= a < |list| && list[a] == sorted[i];
      var b :| 0 <= b < |list| && list[b] == sorted[j];
      if a < b {} else if b < a {} else {}
    }
  }

  lemma RecordOrder(list: seq<CheckpointRecord>)
    requires DistinctIds(list)
    ensures NoDup(list) && StrictTotalOn(NewerRecord, Elements(list))
  {
    forall a | a in Elements(list) ensures !NewerRecord(a, a) {
      Strings.LessIrreflexive(a.checkpointId);
    }
    forall a, b | a in Elements(list) && b in Elements(list) && a != b
      ensures NewerRecord(a, b) || NewerRecord(b, a) {
      var i :| 0 <= i < |list| && list[i] == a;
      var j :| 0 <= j < |list| && list[j] == b;
      if i < j {} else {}
      Strings.LessTotal(a.checkpointId, b.checkpointId);
    }
    forall a, b, c | NewerRecord(a, b) && NewerRecord(b, c) ensures NewerRecord(a, c) {
      NewerRecordTransitive(a, b, c);
    }
    forall a, b | a in Elements(list) && b in Elements(list) && NewerRecord(a, b) ensures !NewerRecord(b, a) {
      if NewerRecord(b, a) {
        NewerRecordTransitive(a, b, a);
      }
    }
  }

  lemma NewerRecordTransitive(a: CheckpointRecord, b: CheckpointRecord, c: CheckpointRecord)
    requires NewerRecord(a, b) && NewerRecord(b, c)
    ensures NewerRecord(a, c)
  {
    if Num(a.createdAt) == Num(b.createdAt) == Num(c.createdAt) {
      Strings.LessTransitive(c.checkpointId, b.checkpointId, a.checkpointId);
    }
  }

  // ---- One job's block of candidates ------------------------------------------------------------

  /** The newest-first listing of a job, as the store holds it. */
  ghost predicate IsListing(s: State, job: JobRecord, list: seq<CheckpointRecord>) {
    && KeyOf(job) in s.jobs && s.jobs[KeyOf(job)] == job
    && DistinctIds(list) && SortedBy(NewerRecord, list)
    && (forall c :: c in list <==>
          CheckpointKeyOf(job, c.checkpointId) in s.checkpoints
          && s.checkpoints[CheckpointKeyOf(job, c.checkpointId)] == c)
  }

  ghost function ListedCandidates(job: JobRecord, list: seq<CheckpointRecord>, m: Measure): (t: seq<Candidate>)
    ensures |t| == |list|
    ensures forall i :: 0 <= i < |list| ==>
              t[i] == CandidateOf(job, list[i], m(CheckpointKeyOf(job, list[i].checkpointId)))
  {
    seq(|list|, i requires 0 <= i < |list| =>
      CandidateOf(job, list[i], m(CheckpointKeyOf(job, list[i].checkpointId))))
  }

  lemma ListingElements(s: State, m: Measure, job: JobRecord, list: seq<CheckpointRecord>)
    requires Prunable(s) && IsListing(s, job, list)
    ensures Elements(ListedCandidates(job, list, m)) == OfJob(Candidates(s, m), job.jobId)
    ensures SortedBy(Newer, ListedCandidates(job, list, m))
    ensures NoDup(ListedCandidates(job, list, m))
  {
    var t, J := ListedCandidates(job, list, m), OfJob(Candidates(s, m), job.jobId);
    forall i | 0 <= i < |list| ensures t[i] in J {
      assert list[i] in list;
      var k := CheckpointKeyOf(job, list[i].checkpointId);
      assert t[i] == CandidateAt(s, m, k);
    }
    forall c | c in J ensures c in Elements(t) {
      CandidatesIdentified(s, m);
      JobCandidate(s, m, job, c);
      var r := s.checkpoints[KeyOfCandidate(c)];
      assert r in list;
      var i :| 0 <= i < |list| && list[i] == r;
      assert t[i] == c;
    }
    forall i, j | 0 <= i < j < |t| ensures t[i] != t[j] {
      assert list[i].checkpointId != list[j].checkpointId;
    }
    forall i, j | 0 <= i < j < |t| ensures Newer(t[i], t[j]) {
      assert NewerRecord(list[i], list[j]);
    }
  }

  lemma JobCandidate(s: State, m: Measure, job: JobRecord, c: Candidate)
    requires Prunable(s) && KeyOf(job) in s.jobs && s.jobs[KeyOf(job)] == job
    requires KeyOfCandidate(c) in s.checkpoints && c == CandidateAt(s, m, KeyOfCandidate(c)) && c.jobId == job.jobId
    ensures KeyOfCandidate(c) == CheckpointKeyOf(job, c.checkpointId)
    ensures s.checkpoints[KeyOfCandidate(c)].checkpointId == c.checkpointId
    ensures c == CandidateOf(job, s.checkpoints[KeyOfCandidate(c)], m(KeyOfCandidate(c)))
  {
    assert KeyOfCandidate(c).Job() == KeyOf(job);
  }

  /** The loop's protection test at position `i` is the policy's. */
  lemma ReachedIsProtected(s: State, m: Measure, p: Policy, job: JobRecord, list: seq<CheckpointRecord>, i: nat)
    requires Prunable(s) && IsListing(s, job, list) && i < |list|
    ensures Reached(list, AnchorIds(p, job), p.config.minKeepPerJob, i)
            <==> Protected(Candidates(s, m), p, ListedCandidates(job, list, m)[i])
  {
    var t, C := ListedCandidates(job, list, m), Candidates(s, m);
    ListingElements(s, m, job, list);
    CandidatesIdentified(s, m);
    NewerIsTotal(C, job.jobId);
    BelowIsPrefix(Newer, t, i);
    assert t[i].jobId == job.jobId;
    GatheredIs(m, p, job, list, i);
  }

  lemma GatheredIs(m: Measure, p: Policy, job: JobRecord, list: seq<CheckpointRecord>, i: nat)
    requires i < |list|
    ensures Gathered(AnchorIds(p, job), list, i)
         == Anchors(p, ListedCandidates(job, list, m)[i]) + Ids(Elements(ListedCandidates(job, list, m)[..i]))
  {
    var t, A := ListedCandidates(job, list, m), AnchorIds(p, job);
    assert A == Anchors(p, t[i]);
    forall id ensures id in Gathered(A, list, i) <==> id in A || id in Ids(Elements(t[..i])) {
      GatheredMembers(A, list, i, id);
      PrefixIds(m, job, list, i, id);
    }
  }

  lemma PrefixIds(m: Measure, job: JobRecord, list: seq<CheckpointRecord>, i: nat, id: string)
    requires i < |list|
    ensures id in Ids(Elements(ListedCandidates(job, list, m)[..i])) <==>
            exists j :: 0 <= j < i && list[j].checkpointId == id
  {
    var front := ListedCandidates(job, list, m)[..i];
    if exists j :: 0 <= j < i && list[j].checkpointId == id {
      var j :| 0 <= j < i && list[j].checkpointId == id;
      assert front[j].checkpointId == id && front[j] in Elements(front);
    }
    if id in Ids(Elements(front)) {
      var c :| c in Elements(front) && c.checkpointId == id;
      var j :| 0 <= j < i && front[j] == c;
      assert list[j].checkpointId == id;
    }
  }

  // ---- The vector as jobs are collected ------------------------------------------------------------

  ghost function OfJobs(C: set<Candidate>, jobs: set<string>): set<Candidate> {
    set c | c in C && c.jobId in jobs
  }

  /** The candidates of a prune, those protected, and those left by age and count. */
  datatype Plan = Plan(all: set<Candidate>, shielded: set<Candidate>, counted: set<Candidate>)

  ghost function PlanOf(C: set<Candidate>, p: Policy): Plan {
    Plan(C, ProtectedSet(C, p), AfterCount(C, p))
  }

  /** The vector holds the checkpoints of `jobs`, flags set by the policy, age and count already applied. */
  ghost predicate Settled(cs: seq<RetentionCandidate>, plan: Plan, jobs: set<string>) {
    && (forall i, j :: 0 <= i < j < |cs| ==> cs[i].c != cs[j].c)
    && All(cs) == OfJobs(plan.all, jobs)
    && (forall i :: 0 <= i < |cs| ==> (cs[i].isProtected <==> cs[i].c in plan.shielded))
    && Live(cs) == OfJobs(plan.counted, jobs)
  }

  lemma SettledDistinct(cs: seq<RetentionCandidate>, plan: Plan, jobs: set<string>)
    requires Settled(cs, plan, jobs) && WellIdentified(plan.all) && plan.shielded <= plan.all
    ensures Distinct(cs) && Shielded(cs) == OfJobs(plan.shielded, jobs)
  {
    assert All(cs) <= plan.all;
    forall c | c in OfJobs(plan.shielded, jobs) ensures c in Shielded(cs) {
      assert c in All(cs);
      var i :| 0 <= i < |cs| && cs[i].c == c;
      assert cs[i].isProtected;
    }
    forall c | c in Shielded(cs) ensures c in OfJobs(plan.shielded, jobs) {
      var i :| 0 <= i < |cs| && cs[i].isProtected && cs[i].c == c;
      assert c in All(cs);
    }
  }

  lemma SettledAppend(cs: seq<RetentionCandidate>, block: seq<RetentionCandidate>, plan: Plan,
                      jobs: set<string>, job: string)
    requires Settled(cs, plan, jobs) && Settled(block, plan, {job}) && job !in jobs
    ensures Settled(cs + block, plan, jobs + {job})
  {
    var both := cs + block;
    AllAppend(cs, block);
    forall i, j | 0 <= i < j < |both| ensures both[i].c != both[j].c {
      if i < |cs| <= j {
        assert both[i].c in All(cs) && both[j].c in All(block);
      }
    }
    assert All(both) == OfJobs(plan.all, jobs + {job});
    assert Live(both) == OfJobs(plan.counted, jobs + {job});
  }

  lemma AllAppend(cs: seq<RetentionCandidate>, block: seq<RetentionCandidate>)
    ensures All(cs + block) == All(cs) + All(block)
    ensures Live(cs + block) == Live(cs) + Live(block)
    ensures forall i :: 0 <= i < |cs| ==> cs[i].c in All(cs)
    ensures forall i :: 0 <= i < |block| ==> block[i].c in All(block)
  {
    var both := cs + block;
    forall i | 0 <= i < |cs| ensures both[i] == cs[i] {}
    forall i | 0 <= i < |block| ensures both[|cs| + i] == block[i] {}
    forall c | c in All(block) ensures c in All(both) {
      var i :| 0 <= i < |block| && block[i].c == c;
      assert both[|cs| + i].c == c;
    }
    forall c | c in Live(block) ensures c in Live(both) {
      var i :| 0 <= i < |block| && !block[i].marked && block[i].c == c;
      assert both[|cs| + i].c == c && !both[|cs| + i].marked;
    }
  }

  // ---- Age and count on the last block -----------------------------------------------------------

  lemma LiveMark(cs: seq<RetentionCandidate>, E: set<Candidate>)
    ensures Live(Mark(cs, E)) == Live(cs) - E && All(Mark(cs, E)) == All(cs) && Shielded(Mark(cs, E)) == Shielded(cs)
  {
    var r := Mark(cs, E);
    assert forall i :: 0 <= i < |cs| ==> r[i].c == cs[i].c && r[i].isProtected == cs[i].isProtected;
    forall c | c in Live(cs) - E ensures c in Live(r) {
      var i :| 0 <= i < |cs| && !cs[i].marked && cs[i].c == c;
      assert !r[i].marked;
    }
    forall c | c in All(cs) ensures c in All(r) {
      var i :| 0 <= i < |cs| && cs[i].c == c;
      assert r[i].c == c;
    }
    forall c | c in Shielded(cs) ensures c in Shielded(r) {
      var i :| 0 <= i < |cs| && cs[i].isProtected && cs[i].c == c;
      assert r[i].isProtected;
    }
  }

  lemma MarkTail(cs: seq<RetentionCandidate>, block: seq<RetentionCandidate>, E: set<Candidate>)
    requires All(cs) !! E
    ensures Mark(cs + block, E) == cs + Mark(block, E)
  {
    forall i | 0 <= i < |cs| ensures cs[i].c !in E {
      assert cs[i].c in All(cs);
    }
  }

  /** A job's block as first collected: all its checkpoints, flags set, nothing marked. */
  ghost predicate Collected(block: seq<RetentionCandidate>, C: set<Candidate>, p: Policy, job: string) {
    && (forall i, j :: 0 <= i < j < |block| ==> block[i].c != block[j].c)
    && All(block) == OfJob(C, job)
    && (forall i :: 0 <= i < |block| ==> !block[i].marked && (block[i].isProtected <==> Protected(C, p, block[i].c)))
  }

  ghost function Aged(block: seq<RetentionCandidate>, p: Policy): seq<RetentionCandidate> {
    Mark(block, TooOld(block, 0, p))
  }

  ghost function Capped(block: seq<RetentionCandidate>, maxKeep: int): seq<RetentionCandidate> {
    Mark(block, OverCount(Live(block), Shielded(block), maxKeep))
  }

  lemma CollectedSets(block: seq<RetentionCandidate>, C: set<Candidate>, p: Policy, job: string)
    requires Collected(block, C, p, job)
    ensures Live(block) == OfJob(C, job) && Shielded(block) == OfJob(ProtectedSet(C, p), job)
    ensures TooOld(block, 0, p) == set c | c in OfJob(C, job) && !Protected(C, p, c) && Expired(p, c)
  {
    forall c | c in OfJob(C, job)
      ensures c in Live(block)
      ensures Protected(C, p, c) ==> c in Shielded(block)
      ensures !Protected(C, p, c) && Expired(p, c) ==> c in TooOld(block, 0, p) {
      assert c in All(block);
      var i :| 0 <= i < |block| && block[i].c == c;
      assert !block[i].marked;
    }
    forall i | 0 <= i < |block| ensures block[i].c in OfJob(C, job) {
      assert block[i].c in All(block);
    }
  }

  lemma BlockAged(block: seq<RetentionCandidate>, C: set<Candidate>, p: Policy, job: string)
    requires Collected(block, C, p, job)
    ensures Live(Aged(block, p)) == OfJob(AfterAge(C, p), job)
    ensures Shielded(Aged(block, p)) == OfJob(ProtectedSet(C, p), job) && All(Aged(block, p)) == OfJob(C, job)
  {
    CollectedSets(block, C, p, job);
    LiveMark(block, TooOld(block, 0, p));
  }

  lemma BlockCapped(block: seq<RetentionCandidate>, C: set<Candidate>, p: Policy, job: string)
    requires Collected(block, C, p, job)
    ensures Settled(Capped(Aged(block, p), p.config.maxKeepPerJob), PlanOf(C, p), {job})
  {
    var capped := Capped(Aged(block, p), p.config.maxKeepPerJob);
    CappedSets(block, C, p, job);
    OneJob(C, job);
    OneJob(AfterCount(C, p), job);
    forall i | 0 <= i < |capped| ensures capped[i].isProtected <==> capped[i].c in ProtectedSet(C, p) {
      assert capped[i].c == block[i].c && capped[i].isProtected == block[i].isProtected;
      assert block[i].c in All(block);
    }
  }

  lemma CappedSets(block: seq<RetentionCandidate>, C: set<Candidate>, p: Policy, job: string)
    requires Collected(block, C, p, job)
    ensures Live(Capped(Aged(block, p), p.config.maxKeepPerJob)) == OfJob(AfterCount(C, p), job)
    ensures All(Capped(Aged(block, p), p.config.maxKeepPerJob)) == OfJob(C, job)
  {
    var aged, k, P := Aged(block, p), p.config.maxKeepPerJob, ProtectedSet(C, p);
    BlockAged(block, C, p, job);
    var L := OfJob(AfterAge(C, p), job);
    OverCountLocal(L, Shielded(aged), P, k);
    LiveMark(aged, OverCount(L, Shielded(aged), k));
    AfterCountOfJob(C, p, job);
  }

  /** The count rule looks at protection only within the job. */
  lemma OverCountLocal(L: set<Candidate>, P: set<Candidate>, Q: set<Candidate>, k: int)
    requires forall c :: c in L ==> (c in P <==> c in Q)
    ensures OverCount(L, P, k) == OverCount(L, Q, k)
  {
    assert L - P == L - Q;
  }

  lemma OneJob(C: set<Candidate>, job: string)
    ensures OfJobs(C, {job}) == OfJob(C, job)
  {}

  /** Collecting a job and applying age and count to its part of the vector settles it. */
  lemma JobSettles(cs: seq<RetentionCandidate>, block: seq<RetentionCandidate>, C: set<Candidate>, p: Policy,
                   jobs: set<string>, job: string)
    requires Settled(cs, PlanOf(C, p), jobs) && Collected(block, C, p, job) && job !in jobs && WellIdentified(C)
    ensures Distinct(cs + block)
    ensures var aged := Mark(cs + block, TooOld(cs + block, |cs|, p));
            && aged == cs + Aged(block, p) && Distinct(aged)
            && Mark(aged, OverCount(Live(aged[|cs|..]), Shielded(aged[|cs|..]), p.config.maxKeepPerJob))
               == cs + Capped(Aged(block, p), p.config.maxKeepPerJob)
    ensures Settled(cs + Capped(Aged(block, p), p.config.maxKeepPerJob), PlanOf(C, p), jobs + {job})
  {
    BlockAged(block, C, p, job);
    BlockCapped(block, C, p, job);
    SettledAppend(cs, Capped(Aged(block, p), p.config.maxKeepPerJob), PlanOf(C, p), jobs, job);
    SettledDistinct(cs + Capped(Aged(block, p), p.config.maxKeepPerJob), PlanOf(C, p), jobs + {job});
    TailMarks(cs, block, C, p, jobs, job);
  }

  lemma TailMarks(cs: seq<RetentionCandidate>, block: seq<RetentionCandidate>, C: set<Candidate>, p: Policy,
                  jobs: set<string>, job: string)
    requires All(cs) == OfJobs(C, jobs) && All(block) == OfJob(C, job) && job !in jobs
    requires Distinct(cs + Capped(Aged(block, p), p.config.maxKeepPerJob))
    ensures Distinct(cs + block)
    ensures var aged := Mark(cs + block, TooOld(cs + block, |cs|, p));
            && aged == cs + Aged(block, p) && Distinct(aged)
            && Mark(aged, OverCount(Live(aged[|cs|..]), Shielded(aged[|cs|..]), p.config.maxKeepPerJob))
               == cs + Capped(Aged(block, p), p.config.maxKeepPerJob)
  {
    var E := TooOld(block, 0, p);
    TooOldTail(cs, block, p);
    LiveMark(block, E);
    assert E <= All(block) && All(cs) !! All(block);
    MarkTail(cs, block, E);
    var b1 := Aged(block, p);
    assert (cs + b1)[|cs|..] == b1;
    var F := OverCount(Live(b1), Shielded(b1), p.config.maxKeepPerJob);
    assert F <= Live(b1) <= All(b1);
    MarkTail(cs, b1, F);
    LiveMark(b1, F);
    SameCandidates(cs + Capped(b1, p.config.maxKeepPerJob), cs + b1);
    SameCandidates(cs + Capped(b1, p.config.maxKeepPerJob), cs + block);
  }

  lemma SameCandidates(a: seq<RetentionCandidate>, b: seq<RetentionCandidate>)
    requires |a| == |b| && (forall i :: 0 <= i < |a| ==> a[i].c == b[i].c) && Distinct(a)
    ensures Distinct(b)
  {
    assert All(a) == All(b);
  }

  lemma TooOldTail(cs: seq<RetentionCandidate>, block: seq<RetentionCandidate>, p: Policy)
    ensures TooOld(cs + block, |cs|, p) == TooOld(block, 0, p)
    ensures TooOld(block, 0, p) <= All(block)
  {
    var both := cs + block;
    forall c | c in TooOld(block, 0, p) ensures c in TooOld(both, |cs|, p) {
      var i :| 0 <= i < |block| && Ageing(block[i], p) && block[i].c == c;
      assert both[|cs| + i] == block[i];
    }
    forall c | c in TooOld(both, |cs|, p) ensures c in TooOld(block, 0, p) {
      var i :| |cs| <= i < |both| && Ageing(both[i], p) && both[i].c == c;
      assert both[i] == block[i - |cs|];
    }
  }
}
