/** Which requests are accepted, and what a reply tells its client about the store, read off the records. */
module BrokerAnswers {
  import opened Broker
  import opened BrokerInvariant
  import opened BrokerRuns
  import opened Decimal
  import opened Outcomes
  import opened Paths
  import opened Protocol
  import opened PruneReading
  import opened Pruning
  import opened Records
  import opened Retention
  import opened Stores
  import CommandLine
  import ExtraArgs
  import Processes

  // ---- Requests by name -----------------------------------------------------------------------

  lemma CommandsByName()
    ensures CommandOf("run") == RunJob && CommandOf("status") == ShowStatus && CommandOf("restore") == RestoreCheckpoint
    ensures CommandOf("checkpoint") == TakeCheckpoint && CommandOf("checkpoint-pid") == TakeCheckpointOfPid
  {
    assert "run"[1] == 'u' && "status"[0] == 's' && "checkpoint"[0] == 'c' && "restore"[1] == 'e';
    assert |"checkpoint-pid"| != |"checkpoint"| && "checkpoint-pid"[0] == 'c';
  }

  /** A command may carry these fields, any number of times each. */
  predicate MayCarry(command: string, key: string) {
    || (command == "run" && key in {"arg", "cwd"})
    || (command == "status" && key == "job_id")
    || (command == "checkpoint" && key in {"job_id", "extra_arg", "namespace_dump"})
    || (command == "checkpoint-pid" && key in {"pid", "extra_arg", "namespace_dump"})
    || (command == "restore" && key in {"job_id", "checkpoint_id", "extra_arg", "namespace_restore"})
  }

  predicate Known(command: string) {
    command in {"run", "status", "checkpoint", "checkpoint-pid", "restore"}
  }

  /** A request with an unknown command or a field its command does not know is refused and changes nothing. */
  lemma UnknownRefused(cfg: BrokerConfig, s: State, i: Input)
    requires !Known(i.request.command)
             || exists n :: 0 <= n < |i.request.fields| && !MayCarry(i.request.command, i.request.fields[n].key)
    ensures Handle(cfg, s, i).reply.Refused? && Handle(cfg, s, i).store == s
  {
    CommandsByName();
    if Known(i.request.command) {
      var n :| 0 <= n < |i.request.fields| && !MayCarry(i.request.command, i.request.fields[n].key);
      assert i.request.fields[n].key !in AllowedFields(CommandOf(i.request.command));
    }
  }

  ghost predicate WellFormed(m: Message) {
    Known(m.command) && forall n :: 0 <= n < |m.fields| ==> MayCarry(m.command, m.fields[n].key)
  }

  lemma WellFormedFields(m: Message)
    ensures WellFormed(m) <==> !CommandOf(m.command).Unsupported? && OnlyFields(m, AllowedFields(CommandOf(m.command)))
  {
    CommandsByName();
    if Known(m.command) {
      forall n | 0 <= n < |m.fields|
        ensures MayCarry(m.command, m.fields[n].key) <==> m.fields[n].key in AllowedFields(CommandOf(m.command)) {
        SameFields(m.command, m.fields[n].key);
      }
    }
  }

  lemma SameFields(command: string, key: string)
    requires Known(command)
    ensures MayCarry(command, key) <==> key in AllowedFields(CommandOf(command))
  {
    CommandsByName();
    assert |"run"| == 3 && |"status"| == 6 && |"restore"| == 7 && |"checkpoint"| == 10 && |"checkpoint-pid"| == 14;
  }

  // ---- What a prune leaves of the checkpoint the request was about ------------------------------

  /** The checkpoint is recorded, exported, and its record is `c`, perhaps with its size measured again. */
  ghost predicate Standing(t: State, k: CheckpointKey, c: CheckpointRecord, m: Measure) {
    && k in t.checkpoints && k in t.exports
    && (t.checkpoints[k] == c || t.checkpoints[k] == c.(sizeBytes := ToString(m(k))))
  }

  /** Whatever the settings and wherever the prune stops, the checkpoint the request was about stays. */
  lemma PruneKeepsOwn(cfg: BrokerConfig, w: World, job: JobRecord, k: CheckpointKey, env: Env)
    requires Inv(w) && k in w.store.checkpoints && k in w.store.exports && job.jobId == k.jobId
    ensures PruneAfter(cfg, w.store, job, k.checkpointId, env).jobs == w.store.jobs
    ensures Standing(PruneAfter(cfg, w.store, job, k.checkpointId, env), k, w.store.checkpoints[k], env.measure)
  {
    InvPrunable(w);
    var p := Policy(cfg.retention, env.finished, job.jobId, k.checkpointId);
    OwnGuarded(w, p, k);
    GuardedStays(w.store, p, env.measure, k);
    StaysStanding(w.store, p, env.measure, env.cut, k);
  }

  lemma OwnGuarded(w: World, p: Policy, k: CheckpointKey)
    requires Inv(w) && k in w.store.checkpoints && p.preserveJob == k.jobId && p.preserveCheckpoint == k.checkpointId
    ensures Guarded(w.store, p, k)
  {
    assert SafeId(k.jobId) by {
      assert JobOk(w.store.jobs[k.Job()], k.Job());
    }
    assert CheckpointOk(w.store.checkpoints[k], k, w.served);
    assert k.checkpointId in NamedIds(w.store, p, k.Job());
  }

  lemma StaysStanding(s: State, p: Policy, m: Measure, cut: Option<Cut>, k: CheckpointKey)
    requires k in s.checkpoints && k in s.exports && k !in RemovedKeys(s, p, m)
    ensures PruneUpTo(s, p, m, cut).jobs == s.jobs && Standing(PruneUpTo(s, p, m, cut), k, s.checkpoints[k], m)
  {}

  // ---- Dumps --------------------------------------------------------------------------------------

  /** Every job of `s` is still there and has the same default target; jobs made since have none. `j` is left open. */
  ghost predicate TargetsKept(s: State, t: State, j: Option<JobKey>) {
    && (forall k :: k in s.jobs ==> k in t.jobs)
    && (forall k :: k in t.jobs && Some(k) != j ==>
          t.jobs[k].latestCheckpoint == if k in s.jobs then s.jobs[k].latestCheckpoint else "")
  }

  /** The record of a checkpoint taken now. */
  predicate TakenNow(c: CheckpointRecord, k: CheckpointKey, env: Env) {
    && c.checkpointId == k.checkpointId && c.jobId == k.jobId && c.createdAt == ToString(env.started)
    && c.lastRestoredAt == "" && c.restoreCount == "0" && c.restoredPid == ""
  }

  /** Measured when the worker was done, or again by the prune. */
  predicate Measured(c: CheckpointRecord, k: CheckpointKey, env: Env) {
    c.sizeBytes == ToString(env.size) || c.sizeBytes == ToString(env.measure(k))
  }

  /** `k` was dumped: ready, exported, and from now on its job's default target. */
  ghost predicate Taken(t: State, k: CheckpointKey, env: Env) {
    && k in t.checkpoints && k in t.exports && k.Job() in t.jobs && t.jobs[k.Job()].latestCheckpoint == k.checkpointId
    && var c := t.checkpoints[k];
       c.state == "ready" && TakenNow(c, k, env) && Measured(c, k, env)
  }

  /** The worker failed: `k` is on record as failed, and exported so that its log can be read. */
  ghost predicate Failed(t: State, k: CheckpointKey, env: Env) {
    && k in t.checkpoints && k in t.exports
    && var c := t.checkpoints[k];
       c.state == "failed" && TakenNow(c, k, env) && c.sizeBytes == ToString(env.size)
  }

  lemma DumpAnswered(cfg: BrokerConfig, w: World, j: JobKey, i: Input, safe: bool)
    requires Inv(w) && RootOk(cfg) && j in w.store.jobs && i.env.freshCheckpoint in w.issued
    requires forall c :: c in w.store.checkpoints ==> c.checkpointId != i.env.freshCheckpoint
    requires SafeId(i.env.freshCheckpoint) && -TWO_63 <= i.env.started < TWO_63
    ensures var out := Dump(cfg, w.store, w.store.jobs[j], i, safe);
            var k := CheckpointKey(j.uid, j.jobId, i.env.freshCheckpoint);
            && (out.reply.Accepted? <==>
                  ExtraArgs.Accepts(i.request.GetAll("extra_arg")) && safe && i.env.workerSucceeds)
            && (out.reply.Accepted? ==> out.reply == Accepted(j, i.env.freshCheckpoint) && Taken(out.store, k, i.env))
            && TargetsKept(w.store, out.store, if out.reply.Accepted? then Some(j) else None)
            && (ExtraArgs.Accepts(i.request.GetAll("extra_arg")) && safe && !i.env.workerSucceeds ==>
                  Failed(out.store, k, i.env))
  {
    var k := CheckpointKey(j.uid, j.jobId, i.env.freshCheckpoint);
    assert k == CheckpointKeyOf(w.store.jobs[j], i.env.freshCheckpoint);
    if ExtraArgs.Accepts(i.request.GetAll("extra_arg")) && safe && i.env.workerSucceeds {
      DumpTakes(cfg, w, k, i);
    }
  }

  /** The successful dump. */
  lemma DumpTakes(cfg: BrokerConfig, w: World, k: CheckpointKey, i: Input)
    requires Inv(w) && RootOk(cfg) && k.Job() in w.store.jobs
    requires k.checkpointId == i.env.freshCheckpoint && i.env.freshCheckpoint in w.issued
    requires forall c :: c in w.store.checkpoints ==> c.checkpointId != i.env.freshCheckpoint
    requires SafeId(i.env.freshCheckpoint) && -TWO_63 <= i.env.started < TWO_63
    requires ExtraArgs.Accepts(i.request.GetAll("extra_arg")) && i.env.workerSucceeds
    ensures var t := Dump(cfg, w.store, w.store.jobs[k.Job()], i, true).store;
            Taken(t, k, i.env) && TargetsKept(w.store, t, Some(k.Job()))
  {
    var job := w.store.jobs[k.Job()];
    var created := NewCheckpoint(cfg.root, job, i.env);
    assert k == CheckpointKeyOf(job, i.env.freshCheckpoint);
    CreatedKeeps(cfg, w, k.Job(), i);
    ReadyStands(cfg, w.(store := PutCheckpoint(w.store, k, created)), k, created, i.env);
  }

  lemma ReadyStands(cfg: BrokerConfig, w: World, k: CheckpointKey, created: CheckpointRecord, env: Env)
    requires Inv(w) && k.checkpointId == env.freshCheckpoint
    requires k in w.store.checkpoints && w.store.checkpoints[k] == created
    ensures var ready := PutCheckpoint(w.store, k, WithState(created, "ready", env.size));
            var latest := w.store.jobs[k.Job()].(latestCheckpoint := env.freshCheckpoint);
            var done := PutExport(PutJob(ready, latest), k);
            var t := PruneAfter(cfg, done, latest, env.freshCheckpoint, env);
            t.jobs == done.jobs && Standing(t, k, WithState(created, "ready", env.size), env.measure)
  {
    ResultKeeps(w, k, created, "ready", env.size);
    var w1 := w.(store := PutCheckpoint(w.store, k, WithState(created, "ready", env.size)));
    var latest := w.store.jobs[k.Job()].(latestCheckpoint := env.freshCheckpoint);
    DoneKeeps(w1, k);
    PruneKeepsOwn(cfg, w1.(store := PutExport(PutJob(w1.store, latest), k)), latest, k, env);
  }

  lemma TargetsThrough(s: State, t: State, u: State, j: Option<JobKey>)
    requires TargetsKept(s, t, None) && TargetsKept(t, u, j)
    ensures TargetsKept(s, u, j)
  {}

  lemma ObserveTargets(s: State, table: Processes.Snapshot, k: JobKey)
    requires k in s.jobs && KeyOf(s.jobs[k]) == k
    ensures TargetsKept(s, Observe(s, table, s.jobs[k]).0, None)
  {}

  /** The checkpoint a request of these two commands would take. */
  function WouldTake(i: Input): CheckpointKey {
    var jobId := if i.request.command == "checkpoint" then i.request.Get("job_id") else i.env.freshJob;
    CheckpointKey(i.peer.uid, jobId, i.env.freshCheckpoint)
  }

  /**
   What the reply to a dump request means: accepted, the checkpoint named is ready, exported and the
   job's default target; otherwise no default target moves, and a worker that failed left its record.
   */
  ghost predicate DumpReply(s: State, out: Outcome, k: CheckpointKey, env: Env) {
    && (out.reply.Accepted? ==> out.reply == Accepted(k.Job(), k.checkpointId) && Taken(out.store, k, env))
    && (out.reply == Refused("checkpoint_failed") ==> Failed(out.store, k, env))
    && TargetsKept(s, out.store, if out.reply.Accepted? then Some(k.Job()) else None)
  }

  /** The error texts of a dump, told apart. */
  predicate NotFromWorker(error: string) {
    |error| <= 10 || error[10] != '_'
  }

  lemma WorkerError(error: string)
    requires NotFromWorker(error)
    ensures Refused(error) != Refused("checkpoint_failed")
  {
    assert "checkpoint_failed"[10] == '_';
  }

  lemma DumpReplied(cfg: BrokerConfig, w: World, j: JobKey, i: Input, safe: bool)
    requires Inv(w) && RootOk(cfg) && j in w.store.jobs && i.env.freshCheckpoint in w.issued
    requires forall c :: c in w.store.checkpoints ==> c.checkpointId != i.env.freshCheckpoint
    requires SafeId(i.env.freshCheckpoint) && -TWO_63 <= i.env.started < TWO_63
    ensures DumpReply(w.store, Dump(cfg, w.store, w.store.jobs[j], i, safe),
                      CheckpointKey(j.uid, j.jobId, i.env.freshCheckpoint), i.env)
  {
    WorkerError("unsafe CRIU argument");
    WorkerError("target is not safe to checkpoint");
    DumpAnswered(cfg, w, j, i, safe);
  }

  /** Here `w` already holds the ids this request may hand out. */
  lemma CheckpointReplied(cfg: BrokerConfig, w: World, i: Input)
    requires Inv(w) && RootOk(cfg) && Unused(w.store, i) && i.env.freshCheckpoint in w.issued
    requires SafeId(i.env.freshCheckpoint) && -TWO_63 <= i.env.started < TWO_63
    ensures DumpReply(w.store, CheckpointRequest(cfg, w.store, i),
                      CheckpointKey(i.peer.uid, i.request.Get("job_id"), i.env.freshCheckpoint), i.env)
  {
    WorkerError("job not found");
    WorkerError("cannot checkpoint a non-running managed job");
    WorkerError("managed job is not safe to checkpoint");
    if FindsJob(w.store, i) {
      var j := JobKey(i.peer.uid, i.request.Get("job_id"));
      ObserveKeeps(w, i.env.table, j);
      ObserveTargets(w.store, i.env.table, j);
      var (seen, job) := Observe(w.store, i.env.table, w.store.jobs[j]);
      if job.state == "running" {
        if Processes.JobSecurity(i.env.recheck, job) {
          var out := Dump(cfg, seen, job, i, true);
          DumpReplied(cfg, w.(store := seen), j, i, true);
          TargetsThrough(w.store, seen, out.store, if out.reply.Accepted? then Some(j) else None);
        } else {
          ObserveTargets(seen, i.env.later, j);
          TargetsThrough(w.store, seen, Observe(seen, i.env.later, job).0, None);
        }
      }
    }
  }

  lemma CheckpointPidReplied(cfg: BrokerConfig, w: World, i: Input)
    requires Inv(w) && RootOk(cfg) && Unused(w.store, i) && {i.env.freshJob, i.env.freshCheckpoint} <= w.issued
    requires IsUser(i.peer.uid) && i.peer.gid < TWO_32
    requires SafeId(i.env.freshCheckpoint) && -TWO_63 <= i.env.started < TWO_63
    ensures DumpReply(w.store, CheckpointPidRequest(cfg, w.store, i),
                      CheckpointKey(i.peer.uid, i.env.freshJob, i.env.freshCheckpoint), i.env)
  {
    WorkerError("checkpoint target is not a safe peer-owned process");
    WorkerError("job not saved");
    if PidJob(i).Some? {
      var job := PidJob(i).value;
      if JobSaves(job) {
        var made, safe := PutJob(w.store, job), Processes.JobSecurity(i.env.recheck, job);
        PidJobKeeps(w, i, job);
        MadeTargets(w.store, i, job);
        DumpReplied(cfg, w.(store := made), KeyOf(job), i, safe);
        var out := Dump(cfg, made, job, i, safe);
        TargetsThrough(w.store, made, out.store, if out.reply.Accepted? then Some(KeyOf(job)) else None);
      }
    }
  }

  lemma MadeTargets(s: State, i: Input, job: JobRecord)
    requires PidJob(i) == Some(job) && forall k :: k in s.jobs ==> k.jobId != i.env.freshJob
    ensures KeyOf(job) == JobKey(i.peer.uid, i.env.freshJob) && TargetsKept(s, PutJob(s, job), None)
  {}

  /** Every request to dump: its reply means what `DumpReply` says. */
  lemma DumpRequestAnswered(cfg: BrokerConfig, w: World, i: Input)
    requires Inv(w) && RootOk(cfg) && Possible(w, i) && i.request.command in {"checkpoint", "checkpoint-pid"}
    ensures DumpReply(w.store, Handle(cfg, w.store, i), WouldTake(i), i.env)
  {
    var ids := {i.env.freshJob, i.env.freshCheckpoint};
    var w1 := w.(issued := w.issued + ids, served := w.served + 1);
    Later(w, ids);
    FreshUnused(w, i);
    CommandsByName();
    if !OnlyFields(i.request, AllowedFields(CommandOf(i.request.command))) {
      WorkerError("unexpected field in request");
    } else if i.request.command == "checkpoint" {
      assert Handle(cfg, w.store, i) == CheckpointRequest(cfg, w.store, i);
      CheckpointReplied(cfg, w1, i);
    } else {
      assert Handle(cfg, w.store, i) == CheckpointPidRequest(cfg, w.store, i);
      CheckpointPidReplied(cfg, w1, i);
    }
  }

  // ---- Restores -----------------------------------------------------------------------------------

  /** The checkpoint a restore request is about: the one it names, or the job's default target. */
  function WouldRestore(s: State, i: Input): CheckpointKey
    requires FindsJob(s, i)
  {
    var named := i.request.Get("checkpoint_id");
    CheckpointKey(i.peer.uid, i.request.Get("job_id"), if named != "" then named else FoundJob(s, i).latestCheckpoint)
  }

  /** The record of `c` after a restore that succeeded, or that its worker failed. */
  predicate UsedAs(c: CheckpointRecord, d: CheckpointRecord, state: string) {
    && d == c.(state := state, sizeBytes := d.sizeBytes, restoreCount := d.restoreCount,
               lastRestoredAt := d.lastRestoredAt, restoredPid := d.restoredPid)
  }

  /** `k` was restored: on record as such, counted once more, dated and exported. */
  ghost predicate Restored(s: State, t: State, k: CheckpointKey, env: Env)
    requires k in s.checkpoints
  {
    && k in t.checkpoints && k in t.exports
    && var c, d := s.checkpoints[k], t.checkpoints[k];
    && UsedAs(c, d, "restored") && d.lastRestoredAt == ToString(env.finished) && Measured(d, k, env)
    && d.restoreCount == ToString(Num(c.restoreCount) + 1)
    && if env.pidfile.None? then d.restoredPid == "" && t.jobs == s.jobs else Adopts(t, k.Job(), env, d.restoredPid)
  }

  /** The job runs on under the pid the worker reported, which passed the check. */
  ghost predicate Adopts(t: State, j: JobKey, env: Env, pid: string) {
    && env.pidfile.Some? && PidfileValue(env.pidfile.value) == Ok(pid) && Stol(pid).Ok? && j in t.jobs
    && t.jobs[j].state == "running" && t.jobs[j].pid == ToInt32(Stol(pid).value)
    && Processes.JobSecurity(env.table, t.jobs[j])
  }

  /** The worker failed to restore `k`: on record as such and exported, everything else as it was. */
  ghost predicate RestoreFailed(s: State, t: State, k: CheckpointKey, env: Env)
    requires k in s.checkpoints
  {
    var c := s.checkpoints[k].(state := "restore-failed", sizeBytes := ToString(env.size));
    t == State(s.jobs, s.checkpoints[k := c], s.exports + {k})
  }

  /**
   What the reply to a restore request means: accepted, the checkpoint was restored; a failed worker is
   on record; otherwise the store is as it was. No default target moves.
   */
  ghost predicate RestoreReply(s: State, out: Outcome, k: CheckpointKey, env: Env)
    requires k in s.checkpoints
  {
    && TargetsKept(s, out.store, None)
    && (out.reply.Accepted? ==> out.reply == Accepted(k.Job(), k.checkpointId) && Restored(s, out.store, k, env))
    && (!env.workerSucceeds ==> out.reply == Refused("restore_failed") && RestoreFailed(s, out.store, k, env))
    && (env.workerSucceeds && out.reply.Refused? ==> out.store == s)
  }

  lemma RestoreReplied(cfg: BrokerConfig, w: World, k: CheckpointKey, env: Env)
    requires Inv(w) && k in w.store.checkpoints && TableOk(env.table)
    requires w.served > 0 && w.served < TWO_63 && CheckpointOk(w.store.checkpoints[k], k, w.served - 1)
    requires -TWO_63 <= env.finished < TWO_63
    ensures RestoreReply(w.store, Restore(cfg, w.store, w.store.jobs[k.Job()], k, env), k, env)
  {
    var job := w.store.jobs[k.Job()];
    if env.workerSucceeds && Adopted(job, env).Ok? {
      var (adopted, pid) := Adopted(job, env).value;
      var saved := if env.pidfile.Some? then PutJob(w.store, adopted) else w.store;
      AdoptKeeps(w, k.Job(), env);
      AdoptedOk(w.store, job, k.Job(), env);
      TouchedOk(w.store.checkpoints[k], k, pid, env, w.served - 1);
      var used := Touched(w.store.checkpoints[k], pid, env);
      RestoredStands(cfg, w.(store := saved), k, used, adopted, env);
      var t := PruneAfter(cfg, PutExport(PutCheckpoint(saved, k, used), k), adopted, k.checkpointId, env);
      StandsRestored(w, t, k, env);
    }
  }

  lemma TouchedIsUsed(c: CheckpointRecord, d: CheckpointRecord, pid: string, env: Env)
    requires Num(c.restoreCount) >= 0 && d == Touched(c, pid, env).(sizeBytes := d.sizeBytes)
    ensures UsedAs(c, d, "restored") && d.lastRestoredAt == ToString(env.finished) && d.restoredPid == pid
    ensures d.restoreCount == ToString(Num(c.restoreCount) + 1)
  {}

  lemma AdoptedAdopts(s: State, t: State, j: JobKey, env: Env)
    requires j in s.jobs && KeyOf(s.jobs[j]) == j && env.pidfile.Some? && Adopted(s.jobs[j], env).Ok?
    requires t.jobs == PutJob(s, Adopted(s.jobs[j], env).value.0).jobs
    ensures Adopts(t, j, env, Adopted(s.jobs[j], env).value.1) && TargetsKept(s, t, None)
  {
    var job, pid := s.jobs[j], Stol(Adopted(s.jobs[j], env).value.1).value;
    assert Processes.AdoptManagedPid(env.table, job, ToInt32(pid)).Ok?;
    assert Processes.AdoptManagedPid(env.table, job, ToInt32(pid)).value == Adopted(job, env).value.0;
  }

  lemma StandsRestored(w: World, t: State, k: CheckpointKey, env: Env)
    requires Inv(w) && k in w.store.checkpoints && Adopted(w.store.jobs[k.Job()], env).Ok?
    requires var (adopted, pid) := Adopted(w.store.jobs[k.Job()], env).value;
             && t.jobs == (if env.pidfile.Some? then PutJob(w.store, adopted) else w.store).jobs
             && Standing(t, k, Touched(w.store.checkpoints[k], pid, env), env.measure)
    ensures Restored(w.store, t, k, env) && TargetsKept(w.store, t, None)
  {
    var c, pid := w.store.checkpoints[k], Adopted(w.store.jobs[k.Job()], env).value.1;
    assert CheckpointOk(c, k, w.served);
    TouchedIsUsed(c, t.checkpoints[k], pid, env);
    if env.pidfile.Some? {
      assert KeyOf(w.store.jobs[k.Job()]) == k.Job();
      AdoptedAdopts(w.store, t, k.Job(), env);
    }
  }

  lemma RestoredStands(cfg: BrokerConfig, w: World, k: CheckpointKey, c: CheckpointRecord, job: JobRecord, env: Env)
    requires Inv(w) && k in w.store.checkpoints && CheckpointOk(c, k, w.served) && c.state == "restored"
    requires job.jobId == k.jobId
    ensures var t := PruneAfter(cfg, PutExport(PutCheckpoint(w.store, k, c), k), job, k.checkpointId, env);
            t.jobs == w.store.jobs && Standing(t, k, c, env.measure)
  {
    UsedKeeps(w, k, c);
    PruneKeepsOwn(cfg, w.(store := PutExport(PutCheckpoint(w.store, k, c), k)), job, k, env);
  }

  /** A restore request that finds its job and its checkpoint, and whose arguments pass. */
  predicate ReachesWorker(s: State, i: Input) {
    && FindsJob(s, i) && SafeId(WouldRestore(s, i).checkpointId) && WouldRestore(s, i) in s.checkpoints
    && ExtraArgs.Accepts(i.request.GetAll("extra_arg"))
  }

  lemma RestoreReached(cfg: BrokerConfig, w: World, i: Input)
    requires Inv(w)
    ensures var out := RestoreRequest(cfg, w.store, i);
            if ReachesWorker(w.store, i)
            then out == Restore(cfg, w.store, FoundJob(w.store, i), WouldRestore(w.store, i), i.env)
            else out.reply.Refused? && out.store == w.store
  {
    if FindsJob(w.store, i) {
      assert JobOk(FoundJob(w.store, i), JobKey(i.peer.uid, i.request.Get("job_id")));
    }
  }

  /** Every request to restore: it is refused and changes nothing, or reaches its worker and is answered accordingly. */
  lemma RestoreRequestAnswered(cfg: BrokerConfig, w: World, i: Input)
    requires Inv(w) && Possible(w, i) && i.request.command == "restore"
    ensures var out := Handle(cfg, w.store, i);
            if WellFormed(i.request) && ReachesWorker(w.store, i)
            then RestoreReply(w.store, out, WouldRestore(w.store, i), i.env)
            else out.reply.Refused? && out.store == w.store
  {
    CommandsByName();
    WellFormedFields(i.request);
    if WellFormed(i.request) {
      assert Handle(cfg, w.store, i) == RestoreRequest(cfg, w.store, i);
      RestoreReached(cfg, w, i);
      if ReachesWorker(w.store, i) {
        WorkerReplied(cfg, w, WouldRestore(w.store, i), i);
      }
    }
  }

  lemma WorkerReplied(cfg: BrokerConfig, w: World, k: CheckpointKey, i: Input)
    requires Inv(w) && Possible(w, i) && k in w.store.checkpoints
    ensures RestoreReply(w.store, Restore(cfg, w.store, w.store.jobs[k.Job()], k, i.env), k, i.env)
  {
    var ids := {i.env.freshJob, i.env.freshCheckpoint};
    Later(w, ids);
    RestoreReplied(cfg, w.(issued := w.issued + ids, served := w.served + 1), k, i.env);
  }

  // ---- Status -------------------------------------------------------------------------------------

  /** A status request is answered with the default target; only the job's recorded liveness may change. */
  ghost predicate StatusReply(s: State, out: Outcome, i: Input) {
    var j := JobKey(i.peer.uid, i.request.Get("job_id"));
    if WellFormed(i.request) && SafeId(j.jobId) && j in s.jobs then
      && out.reply == Accepted(j, s.jobs[j].latestCheckpoint)
      && var job := s.jobs[j].(state := Processes.Liveness(i.env.table, s.jobs[j]));
         out.store == s.(jobs := s.jobs[j := job])
    else
      out.reply.Refused? && out.store == s
  }

  lemma StatusAnswered(cfg: BrokerConfig, w: World, i: Input)
    requires Inv(w) && i.request.command == "status"
    ensures StatusReply(w.store, Handle(cfg, w.store, i), i)
  {
    CommandsByName();
    WellFormedFields(i.request);
    if WellFormed(i.request) {
      assert Handle(cfg, w.store, i) == StatusRequest(w.store, i);
      if FindsJob(w.store, i) {
        var j := JobKey(i.peer.uid, i.request.Get("job_id"));
        ObserveKeeps(w, i.env.table, j);
        assert KeyOf(w.store.jobs[j]) == j;
      }
    }
  }

  // ---- Launches -----------------------------------------------------------------------------------

  /** The record of a process started for `peer`: whose it is, which process, and what it was started as. */
  predicate DescribesLaunch(job: JobRecord, i: Input, pid: int, ticks: string, path: string, cwd: string,
                            argv: seq<string>) {
    && job.jobId == i.env.freshJob && job.ownerUid == i.peer.uid && job.ownerGid == i.peer.gid
    && job.pid == pid && job.startTimeTicks == ticks && job.executable == path && job.cwd == cwd
    && CommandLine.SplitWords(job.commandLine) == CommandLine.NonEmpty(argv)
    && job.state == "running" && job.createdAt == ToString(i.env.started) && job.latestCheckpoint == ""
  }

  /** An accepted run stores one job, made of what was asked for and what was launched; a refused one, none. */
  ghost predicate RunReply(s: State, out: Outcome, i: Input) {
    var j, args := JobKey(i.peer.uid, i.env.freshJob), i.request.GetAll("arg");
    if out.reply.Accepted? then
      && out.reply == Accepted(j, "") && j !in s.jobs && j in out.store.jobs
      && out.store == s.(jobs := s.jobs[j := out.store.jobs[j]])
      && i.env.launched.Some? && args != []
      && DescribesLaunch(out.store.jobs[j], i, i.env.launched.value.0, i.env.launched.value.1, args[0],
                         i.request.Get("cwd"), args)
    else
      out.store == s
  }

  lemma RunAnswered(cfg: BrokerConfig, w: World, i: Input)
    requires Inv(w) && Possible(w, i) && i.request.command == "run"
    ensures RunReply(w.store, Handle(cfg, w.store, i), i)
  {
    CommandsByName();
    FreshUnused(w, i);
    CommandLine.JoinSplits(i.request.GetAll("arg"));
    if OnlyFields(i.request, AllowedFields(RunJob)) {
      assert Handle(cfg, w.store, i) == RunRequest(w.store, i);
    }
  }

  /** The job recorded for a pid: the peer's own unprivileged process under that pid, as inspected. */
  lemma PidJobDescribed(i: Input)
    ensures PidJob(i).Some? <==>
            && Stol(i.request.Get("pid")).Ok? && i.env.inspected.Some?
            && var pid := ToInt32(Stol(i.request.Get("pid")).value);
            && pid > 1 && pid in i.env.table
            && Processes.SecurityMatches(i.env.table, pid, i.peer.uid, i.peer.gid, i.env.table[pid].status.startTicks)
    ensures PidJob(i).Some? ==>
            var pid, e := ToInt32(Stol(i.request.Get("pid")).value), i.env.inspected.value;
            DescribesLaunch(PidJob(i).value, i, pid, i.env.table[pid].status.startTicks, e.path, e.cwd,
                            if e.argv == [] then [e.path] else e.argv)
  {
    if PidJob(i).Some? {
      var e := i.env.inspected.value;
      CommandLine.JoinSplits(if e.argv == [] then [e.path] else e.argv);
    }
  }

  // ---- Every request ----------------------------------------------------------------------------------

  /** What an answer means, whatever the request: read off the records before and after. */
  ghost predicate Means(s: State, out: Outcome, i: Input) {
    if i.request.command == "run" then RunReply(s, out, i)
    else if i.request.command == "status" then StatusReply(s, out, i)
    else if i.request.command in {"checkpoint", "checkpoint-pid"} then DumpReply(s, out, WouldTake(i), i.env)
    else if i.request.command == "restore" && WellFormed(i.request) && ReachesWorker(s, i) then
      RestoreReply(s, out, WouldRestore(s, i), i.env)
    else out.reply.Refused? && out.store == s
  }

  lemma EveryAnswerMeans(cfg: BrokerConfig, w: World, i: Input)
    requires Inv(w) && RootOk(cfg) && Possible(w, i)
    ensures Means(w.store, Handle(cfg, w.store, i), i)
  {
    if i.request.command == "run" {
      RunAnswered(cfg, w, i);
    } else if i.request.command == "status" {
      StatusAnswered(cfg, w, i);
    } else if i.request.command in {"checkpoint", "checkpoint-pid"} {
      DumpRequestAnswered(cfg, w, i);
    } else if i.request.command == "restore" {
      RestoreRequestAnswered(cfg, w, i);
    } else {
      UnknownRefused(cfg, w.store, i);
    }
  }

  // ---- Every accepted request ----------------------------------------------------------------------

  /**
   Whoever is told that a dump or a restore of a checkpoint succeeded finds that checkpoint recorded and
   exported, for every retention setting and wherever the prune that followed stopped.
   */
  lemma AcceptedIsKept(cfg: BrokerConfig, w: World, i: Input)
    requires Inv(w) && RootOk(cfg) && Possible(w, i)
    requires i.request.command in {"checkpoint", "checkpoint-pid", "restore"}
    requires Handle(cfg, w.store, i).reply.Accepted?
    ensures var out := Handle(cfg, w.store, i);
            var k := CheckpointKey(out.reply.job.uid, out.reply.job.jobId, out.reply.checkpointId);
            k in out.store.checkpoints && k in out.store.exports
  {
    if i.request.command == "restore" {
      RestoreRequestAnswered(cfg, w, i);
    } else {
      DumpRequestAnswered(cfg, w, i);
    }
  }

  // ---- Which requests are accepted -------------------------------------------------------------------

  /** A checkpoint request is accepted exactly when every check passes and the worker succeeds. */
  lemma CheckpointAcceptedExactly(cfg: BrokerConfig, w: World, i: Input)
    requires Inv(w) && i.request.command == "checkpoint"
    ensures Handle(cfg, w.store, i).reply.Accepted? <==>
            && WellFormed(i.request) && FindsJob(w.store, i)
            && Processes.JobSecurity(i.env.table, FoundJob(w.store, i))
            && Processes.JobSecurity(i.env.recheck, FoundJob(w.store, i))
            && ExtraArgs.Accepts(i.request.GetAll("extra_arg")) && i.env.workerSucceeds
  {
    CommandsByName();
    WellFormedFields(i.request);
    if WellFormed(i.request) {
      assert Handle(cfg, w.store, i) == CheckpointRequest(cfg, w.store, i);
      if FindsJob(w.store, i) {
        Processes.LivenessPartition(i.env.table, FoundJob(w.store, i));
      }
    }
  }

  lemma CheckpointPidAcceptedExactly(cfg: BrokerConfig, s: State, i: Input)
    requires i.request.command == "checkpoint-pid"
    ensures Handle(cfg, s, i).reply.Accepted? <==>
            && WellFormed(i.request) && PidJob(i).Some? && JobSaves(PidJob(i).value)
            && Processes.JobSecurity(i.env.recheck, PidJob(i).value)
            && ExtraArgs.Accepts(i.request.GetAll("extra_arg")) && i.env.workerSucceeds
  {
    CommandsByName();
    WellFormedFields(i.request);
    if WellFormed(i.request) {
      assert Handle(cfg, s, i) == CheckpointPidRequest(cfg, s, i);
    }
  }
}
