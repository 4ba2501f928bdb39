/** What every request keeps true of the store. */
module BrokerInvariant {
  import opened Broker
  import opened Decimal
  import opened Paths
  import opened Processes
  import opened Pruning
  import opened Records
  import opened Retention
  import opened RetentionPolicy
  import opened Stores
  import KeyValueText
  import Tokens

  /** A state a restore may start from by default. */
  predicate Restorable(state: string) {
    state == "ready" || state == "restored" || state == "restore-failed"
  }

  /** A job's default restore target is one of its own checkpoints and was once dumped. */
  predicate LatestOk(s: State, j: JobRecord) {
    j.latestCheckpoint != "" ==>
      var k := CheckpointKeyOf(j, j.latestCheckpoint);
      k in s.checkpoints && Restorable(s.checkpoints[k].state)
  }

  predicate JobOk(j: JobRecord, k: JobKey) {
    KeyOf(j) == k && SafeId(k.jobId) && IsUser(k.uid) && InRange(j) && JobLineFree(j)
  }

  /** The count is the number of restores so far, and a date is there exactly when it is positive. */
  predicate UsageOk(c: CheckpointRecord, served: nat) {
    && c.restoreCount != "" && 0 <= Num(c.restoreCount) <= served
    && (c.lastRestoredAt != "" <==> Num(c.restoreCount) > 0)
  }

  predicate CheckpointOk(c: CheckpointRecord, k: CheckpointKey, served: nat) {
    && c.checkpointId == k.checkpointId && c.jobId == k.jobId && SafeId(k.checkpointId)
    && CheckpointLineFree(c) && Numeric(c) && UsageOk(c, served)
  }

  ghost predicate Inv(w: World) {
    var s := w.store;
    && (forall k :: k in s.jobs ==> JobOk(s.jobs[k], k) && k.jobId in w.issued)
    && (forall k :: k in s.jobs ==> LatestOk(s, s.jobs[k]))
    && (forall j, k :: j in s.jobs && k in s.jobs && j.jobId == k.jobId ==> j == k)
    && (forall k :: k in s.checkpoints ==> CheckpointOk(s.checkpoints[k], k, w.served) && k.checkpointId in w.issued)
    && (forall k :: k in s.checkpoints ==> k.Job() in s.jobs)
    && s.exports <= s.checkpoints.Keys
  }

  lemma InvPrunable(w: World)
    requires Inv(w)
    ensures Prunable(w.store)
  {}

  // ---- Each kind of update ---------------------------------------------------------------

  lemma OkLater(c: CheckpointRecord, k: CheckpointKey, served: nat)
    requires CheckpointOk(c, k, served)
    ensures CheckpointOk(c, k, served + 1)
  {}

  lemma Later(w: World, ids: set<string>)
    requires Inv(w)
    ensures Inv(w.(issued := w.issued + ids, served := w.served + 1))
  {
    var s, later := w.store, w.(issued := w.issued + ids, served := w.served + 1);
    assert later.store == s;
    forall k | k in s.checkpoints ensures CheckpointOk(s.checkpoints[k], k, later.served) {
      OkLater(s.checkpoints[k], k, w.served);
    }
    forall k | k in s.jobs ensures LatestOk(s, s.jobs[k]) {}
  }

  /** Saving a job: a known one, or one under an id no job has. */
  lemma PutJobKeeps(w: World, job: JobRecord)
    requires Inv(w) && JobOk(job, KeyOf(job)) && job.jobId in w.issued && LatestOk(w.store, job)
    requires forall k :: k in w.store.jobs && k.jobId == job.jobId ==> k == KeyOf(job)
    ensures Inv(w.(store := PutJob(w.store, job)))
  {
    var s := PutJob(w.store, job);
    forall k | k in s.jobs ensures LatestOk(s, s.jobs[k]) {
      SameTargets(w.store, s, s.jobs[k]);
    }
    forall k | k in s.checkpoints ensures k.Job() in s.jobs {
      assert k.Job() in w.store.jobs;
    }
  }

  lemma SameTargets(s: State, t: State, j: JobRecord)
    requires s.checkpoints == t.checkpoints
    ensures LatestOk(s, j) == LatestOk(t, j)
  {}

  lemma PutCheckpointKeeps(w: World, k: CheckpointKey, c: CheckpointRecord)
    requires Inv(w) && CheckpointOk(c, k, w.served) && k.checkpointId in w.issued && k.Job() in w.store.jobs
    requires w.store.jobs[k.Job()].latestCheckpoint == k.checkpointId ==> Restorable(c.state)
    ensures Inv(w.(store := PutCheckpoint(w.store, k, c)))
  {
    var s := PutCheckpoint(w.store, k, c);
    forall j | j in s.jobs ensures LatestOk(s, s.jobs[j]) {
      assert KeyOf(s.jobs[j]) == j;
    }
  }

  lemma PutExportKeeps(w: World, k: CheckpointKey)
    requires Inv(w) && k in w.store.checkpoints
    ensures Inv(w.(store := PutExport(w.store, k)))
  {}

  // ---- Pruning keeps the default targets ----------------------------------------------------

  /** No prune removes the default restore target of any job of any user. */
  lemma LatestSurvives(s: State, p: Policy, m: Measure, j: JobKey)
    requires Prunable(s) && j in s.jobs && s.jobs[j].latestCheckpoint != ""
    ensures CheckpointKeyOf(s.jobs[j], s.jobs[j].latestCheckpoint) !in RemovedKeys(s, p, m)
  {
    var k := CheckpointKeyOf(s.jobs[j], s.jobs[j].latestCheckpoint);
    if k in s.checkpoints {
      var c := CandidateAt(s, m, k);
      assert c in Candidates(s, m) && c.checkpointId in Anchors(p, c);
      assert Protected(Candidates(s, m), p, c);
      Shrinks(Candidates(s, m), p);
    }
  }

  lemma RefreshKeeps(c: CheckpointRecord, k: CheckpointKey, size: nat, served: nat)
    requires CheckpointOk(c, k, served)
    ensures CheckpointOk(Refresh(c, size), k, served)
  {}

  lemma WithoutKeeps(w: World, m: Measure, refreshed: set<CheckpointKey>, gone: set<CheckpointKey>)
    requires Inv(w)
    requires forall j :: j in w.store.jobs && w.store.jobs[j].latestCheckpoint != "" ==>
               CheckpointKeyOf(w.store.jobs[j], w.store.jobs[j].latestCheckpoint) !in gone
    ensures Inv(w.(store := Without(w.store, m, refreshed, gone)))
  {
    var s, t := w.store, Without(w.store, m, refreshed, gone);
    forall k | k in t.checkpoints ensures CheckpointOk(t.checkpoints[k], k, w.served) {
      RefreshKeeps(s.checkpoints[k], k, m(k), w.served);
    }
    forall j | j in t.jobs ensures LatestOk(t, t.jobs[j]) {
      assert LatestOk(s, s.jobs[j]);
    }
  }

  lemma PruneAfterKeeps(cfg: BrokerConfig, w: World, job: JobRecord, id: string, env: Env)
    requires Inv(w)
    ensures Inv(w.(store := PruneAfter(cfg, w.store, job, id, env)))
  {
    var s, m := w.store, env.measure;
    var p := Policy(cfg.retention, env.finished, job.jobId, id);
    InvPrunable(w);
    forall j | j in s.jobs && s.jobs[j].latestCheckpoint != ""
      ensures CheckpointKeyOf(s.jobs[j], s.jobs[j].latestCheckpoint) !in RemovedKeys(s, p, m) {
      LatestSurvives(s, p, m, j);
    }
    match env.cut
    case None => WithoutKeeps(w, m, s.checkpoints.Keys, RemovedKeys(s, p, m));
    case Some(cut) => WithoutKeeps(w, m, cut.refreshed, cut.removed * RemovedKeys(s, p, m));
  }

  // ---- The records the broker writes ---------------------------------------------------------

  lemma NumToString(n: int)
    requires -TWO_63 <= n < TWO_63
    ensures Num(ToString(n)) == n && IsNumber(ToString(n))
  {
    StolToString(n);
  }

  lemma LivenessLineFree(table: Snapshot, job: JobRecord)
    ensures KeyValueText.LineFree(Liveness(table, job))
  {}

  lemma ObservedOk(table: Snapshot, job: JobRecord, k: JobKey)
    requires JobOk(job, k)
    ensures JobOk(job.(state := Liveness(table, job)), k)
  {
    LivenessLineFree(table, job);
  }

  lemma ObserveKeeps(w: World, table: Snapshot, k: JobKey)
    requires Inv(w) && k in w.store.jobs
    ensures var (seen, job) := Observe(w.store, table, w.store.jobs[k]);
            && Inv(w.(store := seen)) && k in seen.jobs && seen.jobs[k] == job
            && seen.checkpoints == w.store.checkpoints && seen.exports == w.store.exports
            && job == w.store.jobs[k].(state := Liveness(table, w.store.jobs[k]))
            && seen.jobs == w.store.jobs[k := job]
  {
    var job := w.store.jobs[k];
    ObservedOk(table, job, k);
    if job.state != Liveness(table, job) {
      PutJobKeeps(w, job.(state := Liveness(table, job)));
    } else {
      assert w.(store := w.store) == w;
      assert w.store.jobs[k := job] == w.store.jobs;
    }
  }

  /** Paths under a state root without newlines hold none. */
  ghost predicate LogsLineFree(cfg: BrokerConfig, k: CheckpointKey) {
    && KeyValueText.LineFree(LogPath(cfg.root, k, "dump.log"))
    && KeyValueText.LineFree(LogPath(cfg.root, k, "restore.log"))
  }

  lemma CreatedOk(cfg: BrokerConfig, job: JobRecord, env: Env, served: nat)
    requires -TWO_63 <= env.started < TWO_63 && SafeId(env.freshCheckpoint) && KeyValueText.LineFree(job.jobId)
    requires LogsLineFree(cfg, CheckpointKeyOf(job, env.freshCheckpoint))
    ensures CheckpointOk(NewCheckpoint(cfg.root, job, env), CheckpointKeyOf(job, env.freshCheckpoint), served)
  {
    NumToString(env.started);
    NumToString(0);
    assert ToString(0) == "0";
    SafeIdIsComponent(env.freshCheckpoint);
  }

  lemma WithStateOk(c: CheckpointRecord, k: CheckpointKey, state: string, size: nat, served: nat)
    requires CheckpointOk(c, k, served) && KeyValueText.LineFree(state)
    ensures CheckpointOk(WithState(c, state, size), k, served)
  {}

  lemma RestoredLineFree()
    ensures KeyValueText.LineFree("restored")
  {}

  /** A recorded restore adds one to the count, a negative one counting as none, and sets the date. */
  lemma TouchedCounts(c: CheckpointRecord, pid: string, env: Env)
    requires Numeric(c) && Num(c.restoreCount) + 1 < TWO_63 && -TWO_63 <= env.finished < TWO_63
    ensures var d := Touched(c, pid, env);
            && Numeric(d) && d.restoreCount != "" && d.lastRestoredAt != "" && Num(d.lastRestoredAt) == env.finished
            && Num(d.restoreCount) == if Num(c.restoreCount) < 0 then 1 else Num(c.restoreCount) + 1
  {
    NumToString(Max(0, Num(c.restoreCount)) + 1);
    NumToString(env.finished);
  }

  lemma TouchedOk(c: CheckpointRecord, k: CheckpointKey, pid: string, env: Env, served: nat)
    requires CheckpointOk(c, k, served) && served + 1 < TWO_63 && KeyValueText.LineFree(pid)
    requires -TWO_63 <= env.finished < TWO_63
    ensures CheckpointOk(Touched(c, pid, env), k, served + 1)
    ensures Num(Touched(c, pid, env).restoreCount) == Num(c.restoreCount) + 1
  {
    TouchedCounts(c, pid, env);
    RestoredLineFree();
  }

  lemma PidLineFree(text: string)
    requires PidfileValue(text).Ok?
    ensures KeyValueText.LineFree(PidfileValue(text).value)
  {
    KeyValueText.ReadIsSerializable(Tokens.Split("pid=" + text, '\n'), map[]);
  }
}
