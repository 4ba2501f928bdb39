/** What one user's request can do to another user's records. */
module BrokerIsolation {
  import opened Broker
  import opened BrokerInvariant
  import opened BrokerRuns
  import opened Decimal
  import opened Paths
  import opened Protocol
  import opened Pruning
  import opened Records
  import opened Retention
  import opened RetentionPolicy
  import opened Stores
  import ExtraArgs
  import Processes

  /** The same jobs for every other user. */
  ghost predicate JobsIsolated(s: State, t: State, uid: nat) {
    && (forall j :: j in s.jobs && j.uid != uid ==> j in t.jobs && t.jobs[j] == s.jobs[j])
    && (forall j :: j in t.jobs && j.uid != uid ==> j in s.jobs)
  }

  /** Nothing of a user other than `uid` differs. */
  ghost predicate OthersSame(s: State, t: State, uid: nat) {
    && JobsIsolated(s, t, uid)
    && (forall k :: k in s.checkpoints && k.uid != uid ==> k in t.checkpoints && t.checkpoints[k] == s.checkpoints[k])
    && (forall k :: k in t.checkpoints && k.uid != uid ==> k in s.checkpoints)
    && (forall k: CheckpointKey :: k.uid != uid ==> (k in s.exports <==> k in t.exports))
  }

  predicate SizeOnly(c: CheckpointRecord, d: CheckpointRecord) {
    d == c.(sizeBytes := d.sizeBytes)
  }

  /** Another user's checkpoints only have their sizes measured again. */
  ghost predicate CheckpointsIsolated(s: State, t: State, uid: nat) {
    forall k :: k in t.checkpoints && k.uid != uid ==>
      k in s.checkpoints && SizeOnly(s.checkpoints[k], t.checkpoints[k])
  }

  /** Another user's export goes with its checkpoint and only with it. */
  ghost predicate ExportsIsolated(s: State, t: State, uid: nat) {
    forall k :: k in s.checkpoints && k.uid != uid ==> (k in t.exports <==> k in s.exports && k in t.checkpoints)
  }

  /** Of another user's checkpoints only ones the retention policy did not protect may go. */
  ghost predicate OnlyUnprotectedGone(s: State, t: State, uid: nat, cfg: BrokerConfig, env: Env) {
    forall k :: k in s.checkpoints && k.uid != uid && k.Job() in s.jobs && k !in t.checkpoints ==>
      !Protected(Candidates(s, env.measure), Policy(cfg.retention, env.finished, "", ""),
                 CandidateAt(s, env.measure, k))
  }

  ghost predicate Isolated(s: State, t: State, uid: nat, cfg: BrokerConfig, env: Env) {
    && JobsIsolated(s, t, uid) && CheckpointsIsolated(s, t, uid) && ExportsIsolated(s, t, uid)
    && OnlyUnprotectedGone(s, t, uid, cfg, env)
  }

  lemma SameIsIsolated(s: State, t: State, uid: nat, cfg: BrokerConfig, env: Env)
    requires OthersSame(s, t, uid)
    ensures Isolated(s, t, uid, cfg, env)
  {}

  // ---- Protection looks at one job only ----------------------------------------------------------

  lemma SameCandidate(s: State, t: State, m: Measure, k: CheckpointKey, uid: nat)
    requires OthersSame(s, t, uid) && k.uid != uid && k in s.checkpoints && k.Job() in s.jobs
    ensures k in t.checkpoints && k.Job() in t.jobs && CandidateAt(s, m, k) == CandidateAt(t, m, k)
  {}

  /** Every candidate with this job id comes from this job. */
  lemma CandidateOfJob(s: State, m: Measure, j: JobKey, c: Candidate) returns (k: CheckpointKey)
    requires Prunable(s) && j in s.jobs && c in OfJob(Candidates(s, m), j.jobId)
    ensures k in s.checkpoints && k.Job() == j && k.Job() in s.jobs && c == CandidateAt(s, m, k)
  {
    CandidatesIdentified(s, m);
    k := KeyOfCandidate(c);
  }

  lemma SameOfJob(s: State, t: State, m: Measure, j: JobKey, uid: nat)
    requires Prunable(s) && Prunable(t) && OthersSame(s, t, uid) && j.uid != uid && j in s.jobs
    ensures OfJob(Candidates(s, m), j.jobId) == OfJob(Candidates(t, m), j.jobId)
  {
    forall c | c in OfJob(Candidates(s, m), j.jobId) ensures c in OfJob(Candidates(t, m), j.jobId) {
      var k := CandidateOfJob(s, m, j, c);
      SameCandidate(s, t, m, k, uid);
    }
    forall c | c in OfJob(Candidates(t, m), j.jobId) ensures c in OfJob(Candidates(s, m), j.jobId) {
      var k := CandidateOfJob(t, m, j, c);
      SameCandidate(s, t, m, k, uid);
    }
  }

  /** A request's own protection aside, other users' checkpoints are protected before it exactly as in its prune. */
  lemma SameProtection(s: State, t: State, m: Measure, k: CheckpointKey, p: Policy, uid: nat)
    requires Prunable(s) && Prunable(t) && OthersSame(s, t, uid) && k.uid != uid && k in s.checkpoints
    requires p.preserveJob != k.jobId
    ensures k in t.checkpoints && k.Job() in t.jobs
    ensures Protected(Candidates(s, m), p.(preserveJob := "", preserveCheckpoint := ""), CandidateAt(s, m, k))
       <==> Protected(Candidates(t, m), p, CandidateAt(t, m, k))
  {
    SameCandidate(s, t, m, k, uid);
    SameOfJob(s, t, m, k.Job(), uid);
    var c, q := CandidateAt(s, m, k), p.(preserveJob := "", preserveCheckpoint := "");
    assert c.jobId == k.jobId;
    assert Anchors(p, c) == Anchors(q, c);
    assert NewerIds(Candidates(s, m), c) == NewerIds(Candidates(t, m), c);
  }

  lemma ProtectedNotRemoved(s: State, m: Measure, k: CheckpointKey, p: Policy)
    requires k in RemovedKeys(s, p, m)
    ensures !Protected(Candidates(s, m), p, CandidateAt(s, m, k))
  {
    var c := CandidateAt(s, m, k);
    assert c in Candidates(s, m);
    Shrinks(Candidates(s, m), p);
  }

  /** A prune after changes to one user's records only. */
  lemma PruneIsolated(cfg: BrokerConfig, w: World, mid: World, job: JobRecord, id: string, env: Env)
    requires Inv(w) && Inv(mid) && OthersSame(w.store, mid.store, job.ownerUid) && KeyOf(job) in mid.store.jobs
    ensures Isolated(w.store, PruneAfter(cfg, mid.store, job, id, env), job.ownerUid, cfg, env)
  {
    var s, t, m, uid := w.store, PruneAfter(cfg, mid.store, job, id, env), env.measure, job.ownerUid;
    var p := Policy(cfg.retention, env.finished, job.jobId, id);
    InvPrunable(w);
    InvPrunable(mid);
    PruneSizes(cfg, mid.store, job, id, env);
    forall k | k in s.checkpoints && k.uid != uid && k.Job() in s.jobs && k !in t.checkpoints
      ensures !Protected(Candidates(s, m), Policy(cfg.retention, env.finished, "", ""), CandidateAt(s, m, k)) {
      assert k in RemovedKeys(mid.store, p, m);
      assert p.preserveJob != k.jobId by {
        assert k.Job() in mid.store.jobs && k.Job() != KeyOf(job);
      }
      SameProtection(s, mid.store, m, k, p, uid);
      ProtectedNotRemoved(mid.store, m, k, p);
    }
  }

  lemma PruneSizes(cfg: BrokerConfig, s: State, job: JobRecord, id: string, env: Env)
    ensures var t := PruneAfter(cfg, s, job, id, env);
            && t.jobs == s.jobs
            && (forall k :: k in s.checkpoints ==> (k in t.exports <==> k in s.exports && k in t.checkpoints))
            && (forall k :: k in t.checkpoints ==> k in s.checkpoints && SizeOnly(s.checkpoints[k], t.checkpoints[k]))
            && (forall k :: k in s.checkpoints && k !in t.checkpoints ==>
                  k in RemovedKeys(s, Policy(cfg.retention, env.finished, job.jobId, id), env.measure))
  {}

  // ---- The requests --------------------------------------------------------------------------------

  lemma OwnUpdates(s: State, job: JobRecord, k: CheckpointKey, c: CheckpointRecord)
    requires k.uid == job.ownerUid
    ensures OthersSame(s, PutJob(s, job), k.uid)
    ensures OthersSame(s, PutExport(PutCheckpoint(s, k, c), k), k.uid) && OthersSame(s, PutCheckpoint(s, k, c), k.uid)
    ensures OthersSame(s, PutExport(PutJob(PutCheckpoint(s, k, c), job), k), k.uid)
    ensures OthersSame(s, PutExport(PutCheckpoint(PutJob(s, job), k, c), k), k.uid)
  {}

  lemma Chain(s: State, t: State, u: State, uid: nat)
    requires OthersSame(s, t, uid) && OthersSame(t, u, uid)
    ensures OthersSame(s, u, uid)
  {}

  lemma ObserveOthers(s: State, table: Processes.Snapshot, job: JobRecord)
    ensures OthersSame(s, Observe(s, table, job).0, job.ownerUid)
  {}

  /** From the created record on; `w` is the state the request started in. */
  lemma DumpIsolated(cfg: BrokerConfig, w: World, v: World, j: JobKey, i: Input, safe: bool)
    requires Inv(w) && Inv(v) && RootOk(cfg) && j in v.store.jobs && i.env.freshCheckpoint in v.issued
    requires forall c :: c in v.store.checkpoints ==> c.checkpointId != i.env.freshCheckpoint
    requires SafeId(i.env.freshCheckpoint) && -TWO_63 <= i.env.started < TWO_63
    requires OthersSame(w.store, v.store, j.uid)
    ensures Isolated(w.store, Dump(cfg, v.store, v.store.jobs[j], i, safe).store, j.uid, cfg, i.env)
  {
    var job, env := v.store.jobs[j], i.env;
    var k := CheckpointKeyOf(job, env.freshCheckpoint);
    var created := NewCheckpoint(cfg.root, job, env);
    CreatedKeeps(cfg, v, j, i);
    OwnUpdates(v.store, job, k, created);
    var begun := PutCheckpoint(v.store, k, created);
    Chain(w.store, v.store, begun, j.uid);
    SameIsIsolated(w.store, begun, j.uid, cfg, env);
    if ExtraArgs.Accepts(i.request.GetAll("extra_arg")) && safe {
      if env.workerSucceeds {
        DumpedIsolated(cfg, w, v.(store := begun), k, created, env);
      } else {
        FailedIsolated(cfg, w, v.(store := begun), k, WithState(created, "failed", env.size), env);
      }
    }
  }

  lemma FailedIsolated(cfg: BrokerConfig, w: World, v: World, k: CheckpointKey, c: CheckpointRecord, env: Env)
    requires OthersSame(w.store, v.store, k.uid)
    ensures Isolated(w.store, PutExport(PutCheckpoint(v.store, k, c), k), k.uid, cfg, env)
  {
    var t := PutExport(PutCheckpoint(v.store, k, c), k);
    assert OthersSame(w.store, t, k.uid);
    SameIsIsolated(w.store, t, k.uid, cfg, env);
  }

  lemma DumpedIsolated(cfg: BrokerConfig, w: World, v: World, k: CheckpointKey, created: CheckpointRecord, env: Env)
    requires Inv(w) && Inv(v) && k.checkpointId == env.freshCheckpoint
    requires k in v.store.checkpoints && v.store.checkpoints[k] == created && OthersSame(w.store, v.store, k.uid)
    ensures var ready := PutCheckpoint(v.store, k, WithState(created, "ready", env.size));
            var latest := v.store.jobs[k.Job()].(latestCheckpoint := env.freshCheckpoint);
            var done := PutExport(PutJob(ready, latest), k);
            Isolated(w.store, PruneAfter(cfg, done, latest, env.freshCheckpoint, env), k.uid, cfg, env)
  {
    var readyRecord := WithState(created, "ready", env.size);
    var ready := PutCheckpoint(v.store, k, readyRecord);
    var latest := v.store.jobs[k.Job()].(latestCheckpoint := env.freshCheckpoint);
    var done := PutExport(PutJob(ready, latest), k);
    ResultKeeps(v, k, created, "ready", env.size);
    DoneKeeps(v.(store := ready), k);
    OwnUpdates(v.store, latest, k, readyRecord);
    Chain(w.store, v.store, done, k.uid);
    PruneIsolated(cfg, w, v.(store := done), latest, env.freshCheckpoint, env);
  }

  lemma RestoreIsolated(cfg: BrokerConfig, w: World, k: CheckpointKey, env: Env)
    requires Inv(w) && k in w.store.checkpoints && TableOk(env.table)
    requires w.served > 0 && w.served < TWO_63 && CheckpointOk(w.store.checkpoints[k], k, w.served - 1)
    requires -TWO_63 <= env.finished < TWO_63
    ensures Isolated(w.store, Restore(cfg, w.store, w.store.jobs[k.Job()], k, env).store, k.uid, cfg, env)
  {
    var job, c := w.store.jobs[k.Job()], w.store.checkpoints[k];
    SameIsIsolated(w.store, w.store, k.uid, cfg, env);
    if !env.workerSucceeds {
      FailedIsolated(cfg, w, w, k, WithState(c, "restore-failed", env.size), env);
    } else if Adopted(job, env).Ok? {
      RestoredIsolated(cfg, w, k, env);
    }
  }

  lemma RestoredIsolated(cfg: BrokerConfig, w: World, k: CheckpointKey, env: Env)
    requires Inv(w) && k in w.store.checkpoints && TableOk(env.table) && Adopted(w.store.jobs[k.Job()], env).Ok?
    requires w.served > 0 && w.served < TWO_63 && CheckpointOk(w.store.checkpoints[k], k, w.served - 1)
    requires -TWO_63 <= env.finished < TWO_63
    ensures var (adopted, pid) := Adopted(w.store.jobs[k.Job()], env).value;
            var saved := if env.pidfile.Some? then PutJob(w.store, adopted) else w.store;
            var done := PutExport(PutCheckpoint(saved, k, Touched(w.store.checkpoints[k], pid, env)), k);
            Isolated(w.store, PruneAfter(cfg, done, adopted, k.checkpointId, env), k.uid, cfg, env)
  {
    var job, c := w.store.jobs[k.Job()], w.store.checkpoints[k];
    var (adopted, pid) := Adopted(job, env).value;
    var saved := if env.pidfile.Some? then PutJob(w.store, adopted) else w.store;
    var used := Touched(c, pid, env);
    AdoptedOk(w.store, job, k.Job(), env);
    AdoptKeeps(w, k.Job(), env);
    TouchedOk(c, k, pid, env, w.served - 1);
    UsedKeeps(w.(store := saved), k, used);
    OwnUpdates(w.store, adopted, k, used);
    PruneIsolated(cfg, w, w.(store := PutExport(PutCheckpoint(saved, k, used), k)), adopted, k.checkpointId, env);
  }

  lemma CheckpointIsolated(cfg: BrokerConfig, w: World, i: Input)
    requires Inv(w) && RootOk(cfg) && Unused(w.store, i) && i.env.freshCheckpoint in w.issued
    requires SafeId(i.env.freshCheckpoint) && -TWO_63 <= i.env.started < TWO_63
    ensures Isolated(w.store, CheckpointRequest(cfg, w.store, i).store, i.peer.uid, cfg, i.env)
  {
    SameIsIsolated(w.store, w.store, i.peer.uid, cfg, i.env);
    if FindsJob(w.store, i) {
      var k := JobKey(i.peer.uid, i.request.Get("job_id"));
      var (seen, job) := Observe(w.store, i.env.table, w.store.jobs[k]);
      ObserveKeeps(w, i.env.table, k);
      ObserveOthers(w.store, i.env.table, w.store.jobs[k]);
      SameIsIsolated(w.store, seen, k.uid, cfg, i.env);
      if job.state == "running" {
        if Processes.JobSecurity(i.env.recheck, job) {
          DumpIsolated(cfg, w, w.(store := seen), k, i, true);
        } else {
          var again := Observe(seen, i.env.later, job).0;
          ObserveOthers(seen, i.env.later, job);
          Chain(w.store, seen, again, k.uid);
          SameIsIsolated(w.store, again, k.uid, cfg, i.env);
        }
      }
    }
  }

  lemma CheckpointPidIsolated(cfg: BrokerConfig, w: World, i: Input)
    requires Inv(w) && RootOk(cfg) && Unused(w.store, i) && {i.env.freshJob, i.env.freshCheckpoint} <= w.issued
    requires IsUser(i.peer.uid) && i.peer.gid < TWO_32
    requires SafeId(i.env.freshCheckpoint) && -TWO_63 <= i.env.started < TWO_63
    ensures Isolated(w.store, CheckpointPidRequest(cfg, w.store, i).store, i.peer.uid, cfg, i.env)
  {
    SameIsIsolated(w.store, w.store, i.peer.uid, cfg, i.env);
    if PidJob(i).Some? {
      var job := PidJob(i).value;
      if JobSaves(job) {
        PidJobKeeps(w, i, job);
        assert OthersSame(w.store, PutJob(w.store, job), i.peer.uid);
        var safe := Processes.JobSecurity(i.env.recheck, job);
        DumpIsolated(cfg, w, w.(store := PutJob(w.store, job)), KeyOf(job), i, safe);
      }
    }
  }

  lemma RestoreRequestIsolated(cfg: BrokerConfig, w: World, i: Input)
    requires Inv(w) && TableOk(i.env.table) && w.served > 0 && w.served < TWO_63
    requires forall k :: k in w.store.checkpoints ==> CheckpointOk(w.store.checkpoints[k], k, w.served - 1)
    requires -TWO_63 <= i.env.finished < TWO_63
    ensures Isolated(w.store, RestoreRequest(cfg, w.store, i).store, i.peer.uid, cfg, i.env)
  {
    SameIsIsolated(w.store, w.store, i.peer.uid, cfg, i.env);
    if FindsJob(w.store, i) {
      var job := FoundJob(w.store, i);
      var resolved := ResolveCheckpointId(job, i.request.Get("checkpoint_id"));
      if resolved.Ok? {
        var k := CheckpointKeyOf(job, resolved.value);
        if k in w.store.checkpoints && ExtraArgs.Accepts(i.request.GetAll("extra_arg")) {
          RestoreIsolated(cfg, w, k, i.env);
        }
      }
    }
  }

  lemma SimpleIsolated(cfg: BrokerConfig, w: World, i: Input)
    requires Inv(w)
    ensures Isolated(w.store, w.store, i.peer.uid, cfg, i.env)
    ensures Isolated(w.store, RunRequest(w.store, i).store, i.peer.uid, cfg, i.env)
    ensures Isolated(w.store, StatusRequest(w.store, i).store, i.peer.uid, cfg, i.env)
  {
    RunOthers(w.store, i);
    StatusOthers(w, i);
    SameIsIsolated(w.store, w.store, i.peer.uid, cfg, i.env);
    SameIsIsolated(w.store, RunRequest(w.store, i).store, i.peer.uid, cfg, i.env);
    SameIsIsolated(w.store, StatusRequest(w.store, i).store, i.peer.uid, cfg, i.env);
  }

  lemma RunOthers(s: State, i: Input)
    ensures OthersSame(s, RunRequest(s, i).store, i.peer.uid)
  {}

  lemma StatusOthers(w: World, i: Input)
    requires Inv(w)
    ensures OthersSame(w.store, StatusRequest(w.store, i).store, i.peer.uid)
  {
    if FindsJob(w.store, i) {
      ObserveOthers(w.store, i.env.table, FoundJob(w.store, i));
    }
  }

  /**
   A request by one user leaves every other user's jobs as they were, changes of their checkpoints
   at most the recorded size, and loses none that the retention policy protected before it.
   */
  lemma StepIsolated(cfg: BrokerConfig, w: World, i: Input)
    requires Inv(w) && RootOk(cfg) && Possible(w, i)
    ensures Isolated(w.store, Step(cfg, w, i).store, i.peer.uid, cfg, i.env)
  {
    var ids := {i.env.freshJob, i.env.freshCheckpoint};
    var w1 := w.(issued := w.issued + ids, served := w.served + 1);
    Later(w, ids);
    FreshUnused(w, i);
    SimpleIsolated(cfg, w, i);
    var c := CommandOf(i.request.command);
    if !c.Unsupported? && OnlyFields(i.request, AllowedFields(c)) {
      match c
      case RunJob => assert Handle(cfg, w.store, i) == RunRequest(w.store, i);
      case ShowStatus => assert Handle(cfg, w.store, i) == StatusRequest(w.store, i);
      case TakeCheckpoint => CheckpointIsolated(cfg, w1, i);
      case TakeCheckpointOfPid => CheckpointPidIsolated(cfg, w1, i);
      case RestoreCheckpoint => RestoreRequestIsolated(cfg, w1, i);
    }
  }

  // ---- Whole runs --------------------------------------------------------------------------------------

  /** What a user still has after others' requests: their jobs as they were, and some of their checkpoints. */
  ghost predicate Undisturbed(s: State, t: State, uid: nat) {
    && (forall j :: j in s.jobs && j.uid == uid ==> j in t.jobs && t.jobs[j] == s.jobs[j])
    && (forall j :: j in t.jobs && j.uid == uid ==> j in s.jobs)
    && (forall k :: k in t.checkpoints && k.uid == uid ==>
          k in s.checkpoints && SizeOnly(s.checkpoints[k], t.checkpoints[k]))
  }

  /** However many requests other users make, a user's jobs stay as they were. */
  lemma {:induction false} UndisturbedByOthers(cfg: BrokerConfig, w: World, run: seq<Input>, uid: nat)
    requires RootOk(cfg) && Inv(w) && Admissible(cfg, w, run)
    requires forall n :: 0 <= n < |run| ==> run[n].peer.uid != uid
    ensures Undisturbed(w.store, After(cfg, w, run).store, uid)
    decreases |run|
  {
    if run != [] {
      var next := Step(cfg, w, run[0]);
      StepIsolated(cfg, w, run[0]);
      StepKeeps(cfg, w, run[0]);
      assert Undisturbed(w.store, next.store, uid);
      UndisturbedByOthers(cfg, next, run[1..], uid);
      UndisturbedChain(w.store, next.store, After(cfg, next, run[1..]).store, uid);
    }
  }

  lemma UndisturbedChain(s: State, t: State, u: State, uid: nat)
    requires Undisturbed(s, t, uid) && Undisturbed(t, u, uid)
    ensures Undisturbed(s, u, uid)
  {}

  /** And each of those jobs keeps its default target, restorable, with its record but for the size. */
  lemma TargetsSurviveOthers(cfg: BrokerConfig, w: World, run: seq<Input>, j: JobKey)
    requires RootOk(cfg) && Inv(w) && Admissible(cfg, w, run) && j in w.store.jobs
    requires forall n :: 0 <= n < |run| ==> run[n].peer.uid != j.uid
    requires w.store.jobs[j].latestCheckpoint != ""
    ensures var k := CheckpointKeyOf(w.store.jobs[j], w.store.jobs[j].latestCheckpoint);
            var t := After(cfg, w, run).store;
            && k in w.store.checkpoints && k in t.checkpoints && Restorable(t.checkpoints[k].state)
            && SizeOnly(w.store.checkpoints[k], t.checkpoints[k])
  {
    UndisturbedByOthers(cfg, w, run, j.uid);
    RunKeepsFrom(cfg, w, run);
    var t := After(cfg, w, run).store;
    assert LatestOk(w.store, w.store.jobs[j]) && LatestOk(t, t.jobs[j]);
  }
}
