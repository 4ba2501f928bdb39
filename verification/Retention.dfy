/**
 The retention policy as a property of sets of checkpoints. Nothing here mentions
 a listing order, a vector or a loop: `Survivors` says which checkpoints are left
 by comparing each one with the others of its job, its user and the store.
 */
module Retention {
  import opened Decimal
  import opened Orders
  import Strings

  /** Owner uid the budget pass treats as "every user". */
  const ALL_USERS: nat := 0xFFFF_FFFF

  datatype Config = Config(
    maxAgeSeconds: int,
    minKeepPerJob: int,
    maxKeepPerJob: int,
    maxBytesPerUser: nat,
    maxBytesTotal: nat)

  /** What a prune looks at besides the store: settings, clock, and the request's own checkpoint. */
  datatype Policy = Policy(config: Config, now: int, preserveJob: string, preserveCheckpoint: string)

  /** One checkpoint together with the fields of its job that retention reads. */
  datatype Candidate = Candidate(
    ownerUid: nat,
    jobId: string,
    latestCheckpoint: string,
    checkpointId: string,
    createdAt: int,
    lastRestoredAt: int,
    restoreCount: int,
    sizeBytes: nat)

  // ---- Orders ----------------------------------------------------------------

  function EvictionTime(c: Candidate): int {
    if c.lastRestoredAt > 0 then c.lastRestoredAt else 0
  }

  /** `a` is colder than `b`: it is evicted first. */
  predicate Colder(a: Candidate, b: Candidate) {
    if EvictionTime(a) != EvictionTime(b) then EvictionTime(a) < EvictionTime(b)
    else if a.restoreCount != b.restoreCount then a.restoreCount < b.restoreCount
    else if a.sizeBytes != b.sizeBytes then a.sizeBytes > b.sizeBytes
    else if a.createdAt != b.createdAt then a.createdAt < b.createdAt
    else if a.jobId != b.jobId then Strings.Less(a.jobId, b.jobId)
    else Strings.Less(a.checkpointId, b.checkpointId)
  }

  /** `a` comes before `b` in the newest-first listing of their job. */
  predicate Newer(a: Candidate, b: Candidate) {
    if a.createdAt != b.createdAt then a.createdAt > b.createdAt
    else Strings.Less(b.checkpointId, a.checkpointId)
  }

  /** Ids name one checkpoint each, and a job id one job, across all users. */
  ghost predicate WellIdentified(C: set<Candidate>) {
    && (forall a, b :: a in C && b in C && a.jobId == b.jobId && a.checkpointId == b.checkpointId ==> a == b)
    && (forall a, b :: a in C && b in C && a.jobId == b.jobId ==>
          a.ownerUid == b.ownerUid && a.latestCheckpoint == b.latestCheckpoint)
  }

  // ---- Sums ------------------------------------------------------------------

  ghost function Bytes(S: set<Candidate>): nat {
    if S == {} then 0
    else
      var c :| c in S;
      c.sizeBytes + Bytes(S - {c})
  }

  // ---- Protection ------------------------------------------------------------

  ghost function OfJob(C: set<Candidate>, jobId: string): set<Candidate> {
    set c | c in C && c.jobId == jobId
  }

  /** The ids protected whatever the listing: the default restore target and the request's own. */
  ghost function Anchors(p: Policy, c: Candidate): set<string> {
    (if c.latestCheckpoint != "" then {c.latestCheckpoint} else {}) +
    (if p.preserveJob != "" && p.preserveCheckpoint != "" && c.jobId == p.preserveJob
     then {p.preserveCheckpoint} else {})
  }

  ghost function Ids(S: set<Candidate>): set<string> {
    set d | d in S :: d.checkpointId
  }

  ghost function NewerIds(C: set<Candidate>, c: Candidate): set<string> {
    Ids(Below(Newer, OfJob(C, c.jobId), c))
  }

  /** Protected: an anchor, or reached before the anchors and the newer ids number `minKeepPerJob`. */
  ghost predicate Protected(C: set<Candidate>, p: Policy, c: Candidate) {
    || c.checkpointId in Anchors(p, c)
    || |Anchors(p, c) + NewerIds(C, c)| < p.config.minKeepPerJob
  }

  ghost function ProtectedSet(C: set<Candidate>, p: Policy): set<Candidate> {
    set c | c in C && Protected(C, p, c)
  }

  // ---- The four eviction rules -----------------------------------------------

  predicate Expired(p: Policy, c: Candidate) {
    p.config.maxAgeSeconds > 0 && c.createdAt > 0 && p.now - c.createdAt >= p.config.maxAgeSeconds
  }

  /** Over the cap, the coldest unprotected ones of a job's live checkpoints `L` go, as many as are over. */
  ghost function OverCount(L: set<Candidate>, P: set<Candidate>, maxKeep: int): set<Candidate> {
    set c | c in L - P && maxKeep > 0 && |Below(Colder, L - P, c)| < |L| - maxKeep
  }

  ghost function InScope(L: set<Candidate>, uid: nat): set<Candidate> {
    set c | c in L && (uid == ALL_USERS || c.ownerUid == uid)
  }

  /** True bytes of the live scope `S` once everything in the pool colder than `c` is gone. */
  ghost function Left(S: set<Candidate>, P: set<Candidate>, c: Candidate): int {
    Bytes(S) - Bytes(Below(Colder, S - P, c))
  }

  /**
   What one byte-budget pass evicts from the live scope `S`. The running total is a
   64-bit unsigned number, so the comparison is on the remainder modulo 2^64: `c` goes
   when the total read before it, and before every colder one, is still over budget.
   */
  ghost function OverBudget(S: set<Candidate>, P: set<Candidate>, budget: nat): set<Candidate> {
    set c | c in S - P && budget > 0 && AllOver(S, P, budget, c)
  }

  ghost predicate AllOver(S: set<Candidate>, P: set<Candidate>, budget: nat, c: Candidate) {
    forall e :: e in S - P && (e == c || Colder(e, c)) ==> Left(S, P, e) % TWO_64 > budget
  }

  // ---- The policy as a whole -------------------------------------------------

  ghost function AfterAge(C: set<Candidate>, p: Policy): set<Candidate> {
    set c | c in C && (Protected(C, p, c) || !Expired(p, c))
  }

  ghost function AfterCount(C: set<Candidate>, p: Policy): set<Candidate> {
    var L := AfterAge(C, p);
    set c | c in L && c !in OverCount(OfJob(L, c.jobId), ProtectedSet(C, p), p.config.maxKeepPerJob)
  }

  ghost function AfterUsers(C: set<Candidate>, p: Policy): set<Candidate> {
    var L := AfterCount(C, p);
    set c | c in L && c !in OverBudget(InScope(L, c.ownerUid), ProtectedSet(C, p), p.config.maxBytesPerUser)
  }

  ghost function Survivors(C: set<Candidate>, p: Policy): set<Candidate> {
    var L := AfterUsers(C, p);
    L - OverBudget(L, ProtectedSet(C, p), p.config.maxBytesTotal)
  }
}
