/** The broker over whole runs of requests. */
module BrokerRuns {
  import opened Broker
  import opened BrokerInvariant
  import opened Decimal
  import opened Outcomes
  import opened Paths
  import opened Processes
  import opened Protocol
  import opened Records
  import opened Stores
  import ExtraArgs
  import KeyValueText

  /** The state root is a path whose components hold no newline. */
  predicate RootOk(cfg: BrokerConfig) {
    forall i :: 0 <= i < |cfg.root| ==> KeyValueText.LineFree(cfg.root[i])
  }

  /** Start times come from one whitespace-separated field. */
  ghost predicate TableOk(t: Snapshot) {
    forall pid :: pid in t ==> KeyValueText.LineFree(t[pid].status.startTicks)
  }

  /** Inputs the environment can produce: real users, machine-sized numbers, fresh safe ids. */
  ghost predicate Possible(w: World, i: Input) {
    && IsUser(i.peer.uid) && i.peer.gid < TWO_32
    && -TWO_63 <= i.env.started < TWO_63 && -TWO_63 <= i.env.finished < TWO_63
    && (i.env.launched.Some? ==> -TWO_31 <= i.env.launched.value.0 < TWO_31)
    && SafeId(i.env.freshJob) && SafeId(i.env.freshCheckpoint)
    && i.env.freshJob !in w.issued && i.env.freshCheckpoint !in w.issued
    && TableOk(i.env.table)
    && w.served + 1 < TWO_63
  }

  lemma {:induction false} RenderLineFree(p: Path)
    requires forall i :: 0 <= i < |p| ==> KeyValueText.LineFree(p[i])
    ensures KeyValueText.LineFree(Render(p))
  {
    if p != [] {
      RenderLineFree(p[1..]);
    }
  }

  lemma LogsOk(cfg: BrokerConfig, k: CheckpointKey)
    requires RootOk(cfg) && SafeId(k.jobId) && SafeId(k.checkpointId)
    ensures LogsLineFree(cfg, k)
  {
    SafeIdIsComponent(k.jobId);
    SafeIdIsComponent(k.checkpointId);
    LayoutShape(cfg.root, k);
    var tail := [ToString(k.uid), "jobs", k.jobId, "checkpoints", k.checkpointId];
    assert forall i :: 0 <= i < |tail| ==> KeyValueText.LineFree(tail[i]);
    assert CheckpointDir(cfg.root, k) == cfg.root + tail;
    RenderLineFree(CheckpointDir(cfg.root, k));
  }

  // ---- One request keeps the invariant ---------------------------------------------------------

  /** The fresh ids name nothing yet. */
  ghost predicate Unused(s: State, i: Input) {
    && (forall k :: k in s.jobs ==> k.jobId != i.env.freshJob)
    && (forall k :: k in s.checkpoints ==> k.checkpointId != i.env.freshCheckpoint)
  }

  lemma FreshUnused(w: World, i: Input)
    requires Inv(w) && Possible(w, i)
    ensures Unused(w.store, i)
  {
    forall k | k in w.store.jobs ensures k.jobId != i.env.freshJob {
      assert k.jobId in w.issued;
    }
    forall k | k in w.store.checkpoints ensures k.checkpointId != i.env.freshCheckpoint {
      assert k.checkpointId in w.issued;
    }
  }

  lemma NewJobKeeps(w: World, i: Input, job: JobRecord, ticks: string, e: Executable)
    requires Inv(w) && Unused(w.store, i) && i.env.freshJob in w.issued
    requires IsUser(i.peer.uid) && i.peer.gid < TWO_32 && -TWO_31 <= job.pid < TWO_31
    requires job == NewJob(i.peer, job.pid, ticks, e, i.env) && JobSaves(job)
    ensures Inv(w.(store := PutJob(w.store, job)))
  {
    PutJobKeeps(w, job);
  }

  lemma RunKeeps(w: World, i: Input)
    requires Inv(w) && Unused(w.store, i) && i.env.freshJob in w.issued
    requires IsUser(i.peer.uid) && i.peer.gid < TWO_32
    requires i.env.launched.Some? ==> -TWO_31 <= i.env.launched.value.0 < TWO_31
    ensures Inv(w.(store := RunRequest(w.store, i).store))
  {
    var out := RunRequest(w.store, i);
    if out.reply.Accepted? {
      var args, cwd := i.request.GetAll("arg"), i.request.Get("cwd");
      var e := Executable(args[0], cwd, args);
      NewJobKeeps(w, i, NewJob(i.peer, i.env.launched.value.0, i.env.launched.value.1, e, i.env),
                  i.env.launched.value.1, e);
    } else {
      assert out.store == w.store;
    }
  }

  /** The record written before the worker starts. */
  lemma CreatedKeeps(cfg: BrokerConfig, w: World, k: JobKey, i: Input)
    requires Inv(w) && RootOk(cfg) && k in w.store.jobs && i.env.freshCheckpoint in w.issued
    requires forall c :: c in w.store.checkpoints ==> c.checkpointId != i.env.freshCheckpoint
    requires SafeId(i.env.freshCheckpoint) && -TWO_63 <= i.env.started < TWO_63
    ensures var job := w.store.jobs[k];
            var key := CheckpointKeyOf(job, i.env.freshCheckpoint);
            Inv(w.(store := PutCheckpoint(w.store, key, NewCheckpoint(cfg.root, job, i.env))))
  {
    var job := w.store.jobs[k];
    var key := CheckpointKeyOf(job, i.env.freshCheckpoint);
    SafeIdIsComponent(k.jobId);
    LogsOk(cfg, key);
    CreatedOk(cfg, job, i.env, w.served);
    NotLatest(w, k, i.env.freshCheckpoint);
    PutCheckpointKeeps(w, key, NewCheckpoint(cfg.root, job, i.env));
  }

  lemma DumpKeeps(cfg: BrokerConfig, w: World, k: JobKey, i: Input, safe: bool)
    requires Inv(w) && RootOk(cfg) && k in w.store.jobs && i.env.freshCheckpoint in w.issued
    requires forall c :: c in w.store.checkpoints ==> c.checkpointId != i.env.freshCheckpoint
    requires SafeId(i.env.freshCheckpoint) && -TWO_63 <= i.env.started < TWO_63
    ensures Inv(w.(store := Dump(cfg, w.store, w.store.jobs[k], i, safe).store))
  {
    var job, env := w.store.jobs[k], i.env;
    var key := CheckpointKeyOf(job, env.freshCheckpoint);
    var created := NewCheckpoint(cfg.root, job, env);
    CreatedKeeps(cfg, w, k, i);
    var begun := w.(store := PutCheckpoint(w.store, key, created));
    if ExtraArgs.Accepts(i.request.GetAll("extra_arg")) && safe {
      if env.workerSucceeds {
        DumpedKeeps(cfg, begun, key, created, env);
      } else {
        NotLatest(w, k, env.freshCheckpoint);
        FailedKeeps(begun, key, created, "failed", env.size);
      }
    }
  }

  lemma NotLatest(w: World, k: JobKey, id: string)
    requires Inv(w) && k in w.store.jobs && SafeId(id)
    requires forall c :: c in w.store.checkpoints ==> c.checkpointId != id
    ensures w.store.jobs[k].latestCheckpoint != id
  {
    assert LatestOk(w.store, w.store.jobs[k]);
  }

  /** The states a worker's result leads to. */
  predicate WorkerResult(state: string) {
    state == "ready" || state == "failed" || state == "restore-failed"
  }

  lemma ResultLineFree(state: string)
    requires WorkerResult(state)
    ensures KeyValueText.LineFree(state)
  {}

  /** A worker's result is recorded in the checkpoint; a failed dump may not hit a default target. */
  lemma ResultKeeps(w: World, k: CheckpointKey, c: CheckpointRecord, state: string, size: nat)
    requires Inv(w) && k in w.store.checkpoints && w.store.checkpoints[k] == c && WorkerResult(state)
    requires w.store.jobs[k.Job()].latestCheckpoint == k.checkpointId ==> Restorable(state)
    ensures Inv(w.(store := PutCheckpoint(w.store, k, WithState(c, state, size))))
  {
    ResultLineFree(state);
    WithStateOk(c, k, state, size, w.served);
    PutCheckpointKeeps(w, k, WithState(c, state, size));
  }

  lemma FailedKeeps(w: World, k: CheckpointKey, c: CheckpointRecord, state: string, size: nat)
    requires Inv(w) && k in w.store.checkpoints && w.store.checkpoints[k] == c && WorkerResult(state)
    requires w.store.jobs[k.Job()].latestCheckpoint == k.checkpointId ==> Restorable(state)
    ensures Inv(w.(store := PutExport(PutCheckpoint(w.store, k, WithState(c, state, size)), k)))
  {
    ResultKeeps(w, k, c, state, size);
    PutExportKeeps(w.(store := PutCheckpoint(w.store, k, WithState(c, state, size))), k);
  }

  /** A ready checkpoint may become its job's default target. */
  lemma LatestKeeps(w: World, j: JobKey, k: CheckpointKey)
    requires Inv(w) && k.Job() == j && k in w.store.checkpoints && Restorable(w.store.checkpoints[k].state)
    ensures Inv(w.(store := PutJob(w.store, w.store.jobs[j].(latestCheckpoint := k.checkpointId))))
  {
    SafeIdIsComponent(k.checkpointId);
    PutJobKeeps(w, w.store.jobs[j].(latestCheckpoint := k.checkpointId));
  }

  lemma DumpedKeeps(cfg: BrokerConfig, w: World, k: CheckpointKey, created: CheckpointRecord, env: Env)
    requires Inv(w) && k.checkpointId == env.freshCheckpoint
    requires k in w.store.checkpoints && w.store.checkpoints[k] == created
    ensures var job := w.store.jobs[k.Job()];
            var ready := PutCheckpoint(w.store, k, WithState(created, "ready", env.size));
            var latest := job.(latestCheckpoint := env.freshCheckpoint);
            var done := PutExport(PutJob(ready, latest), k);
            Inv(w.(store := PruneAfter(cfg, done, latest, env.freshCheckpoint, env)))
  {
    ResultKeeps(w, k, created, "ready", env.size);
    ReadyKeeps(cfg, w.(store := PutCheckpoint(w.store, k, WithState(created, "ready", env.size))), k, env);
  }

  lemma ReadyKeeps(cfg: BrokerConfig, w: World, k: CheckpointKey, env: Env)
    requires Inv(w) && k in w.store.checkpoints && Restorable(w.store.checkpoints[k].state)
    ensures var latest := w.store.jobs[k.Job()].(latestCheckpoint := k.checkpointId);
            var done := PutExport(PutJob(w.store, latest), k);
            Inv(w.(store := PruneAfter(cfg, done, latest, k.checkpointId, env)))
  {
    var latest := w.store.jobs[k.Job()].(latestCheckpoint := k.checkpointId);
    DoneKeeps(w, k);
    PruneAfterKeeps(cfg, w.(store := PutExport(PutJob(w.store, latest), k)), latest, k.checkpointId, env);
  }

  lemma DoneKeeps(w: World, k: CheckpointKey)
    requires Inv(w) && k in w.store.checkpoints && Restorable(w.store.checkpoints[k].state)
    ensures var latest := w.store.jobs[k.Job()].(latestCheckpoint := k.checkpointId);
            Inv(w.(store := PutExport(PutJob(w.store, latest), k)))
  {
    var latest := w.store.jobs[k.Job()].(latestCheckpoint := k.checkpointId);
    LatestKeeps(w, k.Job(), k);
    PutExportKeeps(w.(store := PutJob(w.store, latest)), k);
  }

  lemma CheckpointKeeps(cfg: BrokerConfig, w: World, i: Input)
    requires Inv(w) && RootOk(cfg) && Unused(w.store, i) && i.env.freshCheckpoint in w.issued
    requires SafeId(i.env.freshCheckpoint) && -TWO_63 <= i.env.started < TWO_63
    ensures Inv(w.(store := CheckpointRequest(cfg, w.store, i).store))
  {
    if FindsJob(w.store, i) {
      var k := JobKey(i.peer.uid, i.request.Get("job_id"));
      ObserveKeeps(w, i.env.table, k);
      var (seen, job) := Observe(w.store, i.env.table, w.store.jobs[k]);
      var w1 := w.(store := seen);
      if job.state == "running" {
        if JobSecurity(i.env.recheck, job) {
          DumpKeeps(cfg, w1, k, i, true);
        } else {
          ObserveKeeps(w1, i.env.later, k);
        }
      }
    } else {
      assert w.(store := w.store) == w;
    }
  }

  lemma CheckpointPidKeeps(cfg: BrokerConfig, w: World, i: Input)
    requires Inv(w) && RootOk(cfg) && Unused(w.store, i) && {i.env.freshJob, i.env.freshCheckpoint} <= w.issued
    requires IsUser(i.peer.uid) && i.peer.gid < TWO_32
    requires SafeId(i.env.freshCheckpoint) && -TWO_63 <= i.env.started < TWO_63
    ensures Inv(w.(store := CheckpointPidRequest(cfg, w.store, i).store))
  {
    match PidJob(i)
    case None => assert w.(store := w.store) == w;
    case Some(job) =>
      if JobSaves(job) {
        PidJobKeeps(w, i, job);
        var w1 := w.(store := PutJob(w.store, job));
        DumpKeeps(cfg, w1, KeyOf(job), i, JobSecurity(i.env.recheck, job));
      } else {
        assert w.(store := w.store) == w;
      }
  }

  lemma PidJobKeeps(w: World, i: Input, job: JobRecord)
    requires Inv(w) && Unused(w.store, i) && i.env.freshJob in w.issued
    requires IsUser(i.peer.uid) && i.peer.gid < TWO_32
    requires PidJob(i) == Some(job) && JobSaves(job)
    ensures Inv(w.(store := PutJob(w.store, job)))
  {
    var e := i.env.inspected.value;
    NewJobKeeps(w, i, job, job.startTimeTicks, if e.argv == [] then e.(argv := [e.path]) else e);
  }

  lemma AdoptedOk(s: State, job: JobRecord, k: JobKey, env: Env)
    requires JobOk(job, k) && TableOk(env.table) && Adopted(job, env).Ok?
    ensures var (adopted, pid) := Adopted(job, env).value;
            && JobOk(adopted, k) && adopted.latestCheckpoint == job.latestCheckpoint && KeyValueText.LineFree(pid)
            && (env.pidfile.None? ==> adopted == job)
  {
    if env.pidfile.Some? {
      PidLineFree(env.pidfile.value);
    }
  }

  /** The job's pid and start time follow the reported process; without a pidfile nothing is saved. */
  lemma AdoptKeeps(w: World, j: JobKey, env: Env)
    requires Inv(w) && j in w.store.jobs && TableOk(env.table) && Adopted(w.store.jobs[j], env).Ok?
    ensures var adopted := Adopted(w.store.jobs[j], env).value.0;
            Inv(w.(store := if env.pidfile.Some? then PutJob(w.store, adopted) else w.store))
  {
    var adopted := Adopted(w.store.jobs[j], env).value.0;
    AdoptedOk(w.store, w.store.jobs[j], j, env);
    PutJobKeeps(w, adopted);
    assert w.(store := w.store) == w;
  }

  /** Here `w` already counts the request as served, so the records it starts from were bounded by one less. */
  lemma RestoreKeeps(cfg: BrokerConfig, w: World, j: JobKey, k: CheckpointKey, env: Env)
    requires Inv(w) && k.Job() == j && k in w.store.checkpoints && TableOk(env.table)
    requires w.served > 0 && w.served < TWO_63 && CheckpointOk(w.store.checkpoints[k], k, w.served - 1)
    requires -TWO_63 <= env.finished < TWO_63
    ensures Inv(w.(store := Restore(cfg, w.store, w.store.jobs[j], k, env).store))
  {
    var job, c := w.store.jobs[j], w.store.checkpoints[k];
    assert w.(store := w.store) == w;
    if !env.workerSucceeds {
      FailedKeeps(w, k, c, "restore-failed", env.size);
    } else if Adopted(job, env).Ok? {
      var (adopted, pid) := Adopted(job, env).value;
      AdoptedOk(w.store, job, j, env);
      AdoptKeeps(w, j, env);
      TouchedOk(c, k, pid, env, w.served - 1);
      var saved := if env.pidfile.Some? then PutJob(w.store, adopted) else w.store;
      RestoredKeeps(cfg, w.(store := saved), k, Touched(c, pid, env), adopted, env);
    }
  }

  lemma RestoredKeeps(cfg: BrokerConfig, w: World, k: CheckpointKey, c: CheckpointRecord, job: JobRecord, env: Env)
    requires Inv(w) && k in w.store.checkpoints && CheckpointOk(c, k, w.served) && c.state == "restored"
    ensures Inv(w.(store := PruneAfter(cfg, PutExport(PutCheckpoint(w.store, k, c), k), job, k.checkpointId, env)))
  {
    UsedKeeps(w, k, c);
    PruneAfterKeeps(cfg, w.(store := PutExport(PutCheckpoint(w.store, k, c), k)), job, k.checkpointId, env);
  }

  lemma UsedKeeps(w: World, k: CheckpointKey, c: CheckpointRecord)
    requires Inv(w) && k in w.store.checkpoints && CheckpointOk(c, k, w.served) && c.state == "restored"
    ensures Inv(w.(store := PutExport(PutCheckpoint(w.store, k, c), k)))
  {
    PutCheckpointKeeps(w, k, c);
    PutExportKeeps(w.(store := PutCheckpoint(w.store, k, c)), k);
  }

  lemma RestoreRequestKeeps(cfg: BrokerConfig, w: World, i: Input)
    requires Inv(w) && TableOk(i.env.table) && w.served > 0 && w.served < TWO_63
    requires forall k :: k in w.store.checkpoints ==> CheckpointOk(w.store.checkpoints[k], k, w.served - 1)
    requires -TWO_63 <= i.env.finished < TWO_63
    ensures Inv(w.(store := RestoreRequest(cfg, w.store, i).store))
  {
    assert w.(store := w.store) == w;
    if FindsJob(w.store, i) {
      var j := JobKey(i.peer.uid, i.request.Get("job_id"));
      var resolved := ResolveCheckpointId(w.store.jobs[j], i.request.Get("checkpoint_id"));
      if resolved.Ok? {
        var k := CheckpointKeyOf(w.store.jobs[j], resolved.value);
        if k in w.store.checkpoints && ExtraArgs.Accepts(i.request.GetAll("extra_arg")) {
          RestoreKeeps(cfg, w, j, k, i.env);
        }
      }
    }
  }

  /** Every request, whatever its outcome, keeps the invariant. */
  lemma StepKeeps(cfg: BrokerConfig, w: World, i: Input)
    requires Inv(w) && RootOk(cfg) && Possible(w, i)
    ensures Inv(Step(cfg, w, i))
  {
    var ids := {i.env.freshJob, i.env.freshCheckpoint};
    var w1 := w.(issued := w.issued + ids, served := w.served + 1);
    Later(w, ids);
    FreshUnused(w, i);
    assert w1.(store := w1.store) == w1;
    assert Step(cfg, w, i) == w1.(store := Handle(cfg, w.store, i).store);
    match CommandOf(i.request.command)
    case RunJob => RunKeeps(w1, i);
    case ShowStatus => StatusKeeps(w1, i);
    case TakeCheckpoint => CheckpointKeeps(cfg, w1, i);
    case TakeCheckpointOfPid => CheckpointPidKeeps(cfg, w1, i);
    case RestoreCheckpoint => RestoreRequestKeeps(cfg, w1, i);
    case Unsupported =>
  }

  lemma StatusKeeps(w: World, i: Input)
    requires Inv(w)
    ensures Inv(w.(store := StatusRequest(w.store, i).store))
  {
    assert w.(store := w.store) == w;
    if FindsJob(w.store, i) {
      ObserveKeeps(w, i.env.table, JobKey(i.peer.uid, i.request.Get("job_id")));
    }
  }

  // ---- Whole runs ------------------------------------------------------------------------------

  const EMPTY := World(State(map[], map[], {}), {}, 0)

  ghost function After(cfg: BrokerConfig, w: World, run: seq<Input>): World
    decreases |run|
  {
    if run == [] then w else After(cfg, Step(cfg, w, run[0]), run[1..])
  }

  ghost predicate Admissible(cfg: BrokerConfig, w: World, run: seq<Input>)
    decreases |run|
  {
    run == [] || (Possible(w, run[0]) && Admissible(cfg, Step(cfg, w, run[0]), run[1..]))
  }

  lemma {:induction false} RunKeepsFrom(cfg: BrokerConfig, w: World, run: seq<Input>)
    requires RootOk(cfg) && Inv(w) && Admissible(cfg, w, run)
    ensures Inv(After(cfg, w, run))
    decreases |run|
  {
    if run != [] {
      StepKeeps(cfg, w, run[0]);
      RunKeepsFrom(cfg, Step(cfg, w, run[0]), run[1..]);
    }
  }

  /** Every state a run of requests reaches from an empty store satisfies the invariant. */
  lemma InvariantOverRuns(cfg: BrokerConfig, run: seq<Input>)
    requires RootOk(cfg) && Admissible(cfg, EMPTY, run)
    ensures Inv(After(cfg, EMPTY, run))
  {
    RunKeepsFrom(cfg, EMPTY, run);
  }

  /**
   In every reachable state a job that has a default target can be restored by its owner without
   naming one: only the worker or the check on the process it reports can still fail the request.
   */
  lemma DefaultRestore(cfg: BrokerConfig, run: seq<Input>, i: Input)
    requires RootOk(cfg) && Admissible(cfg, EMPTY, run) && CommandOf(i.request.command) == RestoreCheckpoint
    requires OnlyFields(i.request, AllowedFields(RestoreCheckpoint)) && i.request.Get("checkpoint_id") == ""
    requires ExtraArgs.Accepts(i.request.GetAll("extra_arg"))
    requires var s := After(cfg, EMPTY, run).store; FindsJob(s, i) && FoundJob(s, i).latestCheckpoint != ""
    ensures var s := After(cfg, EMPTY, run).store;
            var job := FoundJob(s, i);
            var reply := Handle(cfg, s, i).reply;
            if i.env.workerSucceeds && Adopted(job, i.env).Ok?
            then reply == Accepted(JobKey(i.peer.uid, job.jobId), job.latestCheckpoint)
            else reply.Refused? && (!i.env.workerSucceeds ==> reply.error == "restore_failed")
  {
    InvariantOverRuns(cfg, run);
    var s := After(cfg, EMPTY, run).store;
    assert LatestOk(s, FoundJob(s, i)) && JobOk(FoundJob(s, i), JobKey(i.peer.uid, i.request.Get("job_id")));
    RestoreOfLatest(cfg, s, i);
  }

  lemma RestoreOfLatest(cfg: BrokerConfig, s: State, i: Input)
    requires CommandOf(i.request.command) == RestoreCheckpoint
    requires OnlyFields(i.request, AllowedFields(RestoreCheckpoint))
    requires i.request.Get("checkpoint_id") == "" && ExtraArgs.Accepts(i.request.GetAll("extra_arg"))
    requires FindsJob(s, i) && KeyOf(FoundJob(s, i)) == JobKey(i.peer.uid, i.request.Get("job_id"))
    requires var job := FoundJob(s, i);
             var k := CheckpointKeyOf(job, job.latestCheckpoint);
             SafeId(job.latestCheckpoint) && k in s.checkpoints
    ensures var job := FoundJob(s, i);
            var reply := Handle(cfg, s, i).reply;
            if i.env.workerSucceeds && Adopted(job, i.env).Ok?
            then reply == Accepted(KeyOf(job), job.latestCheckpoint)
            else reply.Refused? && (!i.env.workerSucceeds ==> reply.error == "restore_failed")
  {
    assert Handle(cfg, s, i) == RestoreRequest(cfg, s, i);
  }
}
