/** Every accepted dump or restore is followed by a prune under the broker's settings at the time it finished. */
module BrokerPrunes {
  import opened Broker
  import opened BrokerAnswers
  import opened BrokerInvariant
  import opened BrokerRuns
  import opened Decimal
  import opened Paths
  import opened PruneReading
  import opened PruneTheorems
  import opened Pruning
  import opened Records
  import opened Retention
  import opened RetentionPolicy
  import opened Stores
  import Processes

  /** The settings a request prunes by when it was about checkpoint `id` of job `j`. */
  function PolicyFor(cfg: BrokerConfig, j: JobKey, id: string, env: Env): Policy {
    Policy(cfg.retention, env.finished, j.jobId, id)
  }

  /** The reply is followed by a prune of some state the broker keeps. */
  ghost predicate PrunesFrom(cfg: BrokerConfig, out: Outcome, done: World, env: Env) {
    && out.reply.Accepted? && Inv(done) && out.reply.job in done.store.jobs
    && var p := PolicyFor(cfg, out.reply.job, out.reply.checkpointId, env);
       out.store == PruneUpTo(done.store, p, env.measure, env.cut)
  }

  lemma DumpPrunes(cfg: BrokerConfig, w: World, j: JobKey, i: Input, safe: bool) returns (done: World)
    requires Inv(w) && RootOk(cfg) && j in w.store.jobs && i.env.freshCheckpoint in w.issued
    requires forall c :: c in w.store.checkpoints ==> c.checkpointId != i.env.freshCheckpoint
    requires SafeId(i.env.freshCheckpoint) && -TWO_63 <= i.env.started < TWO_63
    requires Dump(cfg, w.store, w.store.jobs[j], i, safe).reply.Accepted?
    ensures PrunesFrom(cfg, Dump(cfg, w.store, w.store.jobs[j], i, safe), done, i.env)
  {
    var job, env := w.store.jobs[j], i.env;
    var k := CheckpointKeyOf(job, env.freshCheckpoint);
    var created := NewCheckpoint(cfg.root, job, env);
    CreatedKeeps(cfg, w, j, i);
    var begun := w.(store := PutCheckpoint(w.store, k, created));
    done := DumpDone(begun, k, created, env);
  }

  lemma DumpDone(w: World, k: CheckpointKey, created: CheckpointRecord, env: Env) returns (done: World)
    requires Inv(w) && k.checkpointId == env.freshCheckpoint
    requires k in w.store.checkpoints && w.store.checkpoints[k] == created
    ensures Inv(done) && k.Job() in done.store.jobs
    ensures var ready := PutCheckpoint(w.store, k, WithState(created, "ready", env.size));
            var latest := w.store.jobs[k.Job()].(latestCheckpoint := env.freshCheckpoint);
            done.store == PutExport(PutJob(ready, latest), k)
  {
    ResultKeeps(w, k, created, "ready", env.size);
    var w1 := w.(store := PutCheckpoint(w.store, k, WithState(created, "ready", env.size)));
    DoneKeeps(w1, k);
    var latest := w.store.jobs[k.Job()].(latestCheckpoint := env.freshCheckpoint);
    done := w1.(store := PutExport(PutJob(w1.store, latest), k));
    assert KeyOf(w.store.jobs[k.Job()]) == k.Job();
  }

  lemma RestorePrunes(cfg: BrokerConfig, w: World, k: CheckpointKey, env: Env) returns (done: World)
    requires Inv(w) && k in w.store.checkpoints && TableOk(env.table)
    requires w.served > 0 && w.served < TWO_63 && CheckpointOk(w.store.checkpoints[k], k, w.served - 1)
    requires -TWO_63 <= env.finished < TWO_63
    requires Restore(cfg, w.store, w.store.jobs[k.Job()], k, env).reply.Accepted?
    ensures PrunesFrom(cfg, Restore(cfg, w.store, w.store.jobs[k.Job()], k, env), done, env)
  {
    var job := w.store.jobs[k.Job()];
    var (adopted, pid) := Adopted(job, env).value;
    var saved := if env.pidfile.Some? then PutJob(w.store, adopted) else w.store;
    AdoptKeeps(w, k.Job(), env);
    AdoptedOk(w.store, job, k.Job(), env);
    TouchedOk(w.store.checkpoints[k], k, pid, env, w.served - 1);
    var used := Touched(w.store.checkpoints[k], pid, env);
    UsedKeeps(w.(store := saved), k, used);
    done := w.(store := PutExport(PutCheckpoint(saved, k, used), k));
  }

  lemma CheckpointPrunes(cfg: BrokerConfig, w: World, i: Input) returns (done: World)
    requires Inv(w) && RootOk(cfg) && Unused(w.store, i) && i.env.freshCheckpoint in w.issued
    requires SafeId(i.env.freshCheckpoint) && -TWO_63 <= i.env.started < TWO_63
    requires CheckpointRequest(cfg, w.store, i).reply.Accepted?
    ensures PrunesFrom(cfg, CheckpointRequest(cfg, w.store, i), done, i.env)
  {
    var j := JobKey(i.peer.uid, i.request.Get("job_id"));
    ObserveKeeps(w, i.env.table, j);
    done := DumpPrunes(cfg, w.(store := Observe(w.store, i.env.table, w.store.jobs[j]).0), j, i, true);
  }

  lemma CheckpointPidPrunes(cfg: BrokerConfig, w: World, i: Input) returns (done: World)
    requires Inv(w) && RootOk(cfg) && Unused(w.store, i) && {i.env.freshJob, i.env.freshCheckpoint} <= w.issued
    requires IsUser(i.peer.uid) && i.peer.gid < TWO_32
    requires SafeId(i.env.freshCheckpoint) && -TWO_63 <= i.env.started < TWO_63
    requires CheckpointPidRequest(cfg, w.store, i).reply.Accepted?
    ensures PrunesFrom(cfg, CheckpointPidRequest(cfg, w.store, i), done, i.env)
  {
    var job := PidJob(i).value;
    PidJobKeeps(w, i, job);
    done := DumpPrunes(cfg, w.(store := PutJob(w.store, job)), KeyOf(job), i,
                       Processes.JobSecurity(i.env.recheck, job));
  }

  lemma AcceptedPrunes(cfg: BrokerConfig, w: World, i: Input) returns (done: World)
    requires Inv(w) && RootOk(cfg) && Possible(w, i)
    requires i.request.command in {"checkpoint", "checkpoint-pid", "restore"}
    requires Handle(cfg, w.store, i).reply.Accepted?
    ensures PrunesFrom(cfg, Handle(cfg, w.store, i), done, i.env)
  {
    var ids := {i.env.freshJob, i.env.freshCheckpoint};
    var w1 := w.(issued := w.issued + ids, served := w.served + 1);
    Later(w, ids);
    FreshUnused(w, i);
    CommandsByName();
    if i.request.command == "checkpoint" {
      assert Handle(cfg, w.store, i) == CheckpointRequest(cfg, w.store, i);
      done := CheckpointPrunes(cfg, w1, i);
    } else if i.request.command == "checkpoint-pid" {
      assert Handle(cfg, w.store, i) == CheckpointPidRequest(cfg, w.store, i);
      done := CheckpointPidPrunes(cfg, w1, i);
    } else {
      assert Handle(cfg, w.store, i) == RestoreRequest(cfg, w.store, i);
      RestoreReached(cfg, w, i);
      done := RestorePrunes(cfg, w1, WouldRestore(w.store, i), i.env);
    }
  }

  /**
   After an accepted dump or restore whose prune ran to its end, every checkpoint of every user has its
   size as measured, and is younger than the age limit unless it is guarded.
   */
  lemma NothingOldAfterAccepted(cfg: BrokerConfig, w: World, i: Input, k: CheckpointKey)
    requires Inv(w) && RootOk(cfg) && Possible(w, i) && i.env.cut.None?
    requires i.request.command in {"checkpoint", "checkpoint-pid", "restore"}
    requires Handle(cfg, w.store, i).reply.Accepted? && k in Handle(cfg, w.store, i).store.checkpoints
    ensures var out := Handle(cfg, w.store, i);
            var p := PolicyFor(cfg, out.reply.job, out.reply.checkpointId, i.env);
            && out.store.checkpoints[k].sizeBytes == ToString(i.env.measure(k))
            && (TooOld(out.store, p, k) ==> k.Job() in out.store.jobs && Guarded(out.store, p, k))
  {
    var out := Handle(cfg, w.store, i);
    var p := PolicyFor(cfg, out.reply.job, out.reply.checkpointId, i.env);
    var done := AcceptedPrunes(cfg, w, i);
    InvPrunable(done);
    LeftAsMeasured(done.store, p, i.env.measure);
    if TooOld(out.store, p, k) {
      NothingTooOldLeft(done.store, p, i.env.measure, k);
    }
  }

  /** And with a normalised cap every job, of every user, is within it; two is the least a job may keep. */
  lemma CapAfterAccepted(cfg: BrokerConfig, w: World, i: Input, j: JobKey)
    requires Inv(w) && RootOk(cfg) && Possible(w, i) && i.env.cut.None?
    requires i.request.command in {"checkpoint", "checkpoint-pid", "restore"}
    requires Handle(cfg, w.store, i).reply.Accepted? && j in Handle(cfg, w.store, i).store.jobs
    requires cfg.retention == Normalised(cfg.retention) && cfg.retention.maxKeepPerJob > 0
    ensures |CheckpointsOf(Handle(cfg, w.store, i).store, j)|
            <= if cfg.retention.maxKeepPerJob > 2 then cfg.retention.maxKeepPerJob else 2
  {
    var out := Handle(cfg, w.store, i);
    var done := AcceptedPrunes(cfg, w, i);
    InvPrunable(done);
    JobKeepsAtMost(done.store, PolicyFor(cfg, out.reply.job, out.reply.checkpointId, i.env), i.env.measure, j);
  }
}
